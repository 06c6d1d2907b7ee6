/** The budget of a benchmark arm: every provider request is reserved at its worst case before it is sent. */
module Meters {
  import opened Wrappers

  datatype Limits = Limits(maxCalls: int, maxOutput: int, maxOutputPerCall: int, maxUsd: real)

  /** Prices per million tokens. */
  datatype Rates = Rates(input: real, output: real)

  const SLACK := 0.000000000001
  const MILLION := 1000000.0

  /** `Limits.__post_init__` and `Rates.__post_init__`. */
  predicate Sane(l: Limits, r: Rates) {
    && 1 <= l.maxCalls <= 100 && 1 <= l.maxOutput <= 1_000_000 && 1 <= l.maxOutputPerCall <= 1_000_000
    && 0.000001 <= l.maxUsd <= 1000.0
    && 0.000001 <= r.input <= 10000.0 && 0.000001 <= r.output <= 10000.0
  }

  /** `Rates.estimate`. */
  function Price(r: Rates, inputs: nat, outputs: nat): real {
    (inputs as real * r.input + outputs as real * r.output) / MILLION
  }

  /** Prices add up, so that the price of sums is the sum of prices. */
  lemma PriceAdds(r: Rates, a: nat, b: nat, c: nat, d: nat)
    ensures Price(r, a + c, b + d) == Price(r, a, b) + Price(r, c, d)
  {
    assert (a + c) as real * r.input == a as real * r.input + c as real * r.input;
    assert (b + d) as real * r.output == b as real * r.output + d as real * r.output;
  }

  lemma PriceGrows(r: Rates, a: nat, b: nat, c: nat, d: nat)
    requires a <= c && b <= d && r.input >= 0.0 && r.output >= 0.0
    ensures Price(r, a, b) <= Price(r, c, d)
  {
    assert a as real * r.input <= c as real * r.input;
    assert b as real * r.output <= d as real * r.output;
  }

  datatype Pending = Pending(inputs: nat, cap: nat)

  datatype Books = Books(calls: nat, inputs: nat, outputs: nat, spent: real, reserved: real, pending: Option<Pending>,
                         violated: bool)

  const EMPTY := Books(0, 0, 0, 0.0, 0.0, None, false)

  /** What holds after every operation, whatever the provider replies. */
  predicate Balanced(l: Limits, r: Rates, b: Books) {
    && b.calls <= l.maxCalls
    && b.spent == Price(r, b.inputs, b.outputs)
    && b.reserved == (if b.pending.Some? then Price(r, b.pending.value.inputs, b.pending.value.cap) else 0.0)
    && (b.pending.Some? ==> b.calls >= 1 && 1 <= b.pending.value.cap <= l.maxOutputPerCall)
    && (!b.violated ==>
          && b.spent + b.reserved <= l.maxUsd + SLACK
          && b.outputs + (if b.pending.Some? then b.pending.value.cap else 0) <= l.maxOutput)
  }

  /** `reserve`: the books after it and the cap it grants, 0 when it grants nothing; None when a request is unresolved. */
  function AfterReserve(l: Limits, r: Rates, b: Books, inputs: nat): Option<(Books, nat)> {
    if b.pending.Some? then None else
    var left := l.maxOutput - b.outputs;
    var cap := if l.maxOutputPerCall <= left then l.maxOutputPerCall else left;
    if b.calls >= l.maxCalls || cap < 1 then Some((b, 0))
    else if b.spent + Price(r, inputs, cap) > l.maxUsd + SLACK then Some((b, 0))
    else Some((b.(calls := b.calls + 1, reserved := Price(r, inputs, cap), pending := Some(Pending(inputs, cap))), cap))
  }

  function AfterRelease(b: Books): Option<Books> {
    if b.pending.None? || b.calls < 1 then None
    else Some(b.(calls := b.calls - 1, pending := None, reserved := 0.0))
  }

  /** `settle`, for the tokens the reply reports. */
  function AfterSettle(l: Limits, r: Rates, b: Books, inputs: nat, outputs: nat): Option<Books> {
    if b.pending.None? then None else
    var over := inputs > b.pending.value.inputs || outputs > b.pending.value.cap;
    var spent := b.spent + Price(r, inputs, outputs);
    Some(b.(inputs := b.inputs + inputs, outputs := b.outputs + outputs, spent := spent,
            violated := b.violated || over || spent > l.maxUsd + SLACK, pending := None, reserved := 0.0))
  }

  datatype Op = DoReserve(inputs: nat) | DoRelease | DoSettle(inputs: nat, outputs: nat)

  /** An operation that raises leaves the books as they were. */
  function Done(l: Limits, r: Rates, b: Books, op: Op): Books {
    match op
    case DoReserve(inputs) => (match AfterReserve(l, r, b, inputs) case None => b case Some(res) => res.0)
    case DoRelease => (match AfterRelease(b) case None => b case Some(next) => next)
    case DoSettle(inputs, outputs) => (match AfterSettle(l, r, b, inputs, outputs) case None => b case Some(next) => next)
  }

  lemma DoneKeeps(l: Limits, r: Rates, b: Books, op: Op)
    requires Sane(l, r) && Balanced(l, r, b)
    ensures Balanced(l, r, Done(l, r, b, op))
  {
    hide Price;
    if op.DoSettle? && b.pending.Some? {
      PriceAdds(r, b.inputs, b.outputs, op.inputs, op.outputs);
      if op.inputs <= b.pending.value.inputs && op.outputs <= b.pending.value.cap {
        PriceGrows(r, op.inputs, op.outputs, b.pending.value.inputs, b.pending.value.cap);
      }
    }
    if op.DoRelease? && b.pending.Some? { PriceGrows(r, 0, 0, b.pending.value.inputs, b.pending.value.cap); ZeroIsFree(r); }
  }

  lemma ZeroIsFree(r: Rates)
    ensures Price(r, 0, 0) == 0.0
  {
  }

  function DoneAll(l: Limits, r: Rates, ops: seq<Op>): Books {
    if ops == [] then EMPTY else Done(l, r, DoneAll(l, r, ops[..|ops| - 1]), ops[|ops| - 1])
  }

  /** Over every sequence of operations and replies the books stay balanced. */
  lemma {:induction false} AlwaysBalanced(l: Limits, r: Rates, ops: seq<Op>)
    requires Sane(l, r)
    ensures Balanced(l, r, DoneAll(l, r, ops))
  {
    ZeroIsFree(r);
    if ops != [] {
      AlwaysBalanced(l, r, ops[..|ops| - 1]);
      DoneKeeps(l, r, DoneAll(l, r, ops[..|ops| - 1]), ops[|ops| - 1]);
    }
  }

  /** A request is granted exactly when none is unresolved, a call and output are left, and its worst case can be paid;
      and then for as much output as a call may have and is left. */
  lemma GrantedExactly(l: Limits, r: Rates, b: Books, inputs: nat)
    requires Sane(l, r) && Balanced(l, r, b)
    ensures var o, left := AfterReserve(l, r, b, inputs), l.maxOutput - b.outputs;
            var most := if left < l.maxOutputPerCall then left else l.maxOutputPerCall;
            && (o.None? <==> b.pending.Some?)
            && (b.pending.None? ==>
                  && (o.value.1 > 0 <==> b.calls < l.maxCalls && b.outputs < l.maxOutput
                                         && b.spent + Price(r, inputs, most) <= l.maxUsd + SLACK)
                  && (o.value.1 == 0 ==> o.value.0 == b)
                  && (o.value.1 > 0 ==>
                        && o.value.1 == most && o.value.0.pending == Some(Pending(inputs, most))
                        && o.value.0.calls == b.calls + 1 && o.value.0.inputs == b.inputs
                        && o.value.0.outputs == b.outputs && o.value.0.spent == b.spent))
  {
    hide Price;
  }

  /** A reply is booked with the tokens it reports, at the rates per million. */
  lemma SettledExactly(l: Limits, r: Rates, b: Books, inputs: nat, outputs: nat)
    ensures AfterSettle(l, r, b, inputs, outputs).Some? <==> b.pending.Some?
    ensures b.pending.Some? ==>
      var next := AfterSettle(l, r, b, inputs, outputs).value;
      && next.calls == b.calls && next.inputs == b.inputs + inputs && next.outputs == b.outputs + outputs
      && next.pending.None? && next.reserved == 0.0
      && (next.spent - b.spent) * MILLION == inputs as real * r.input + outputs as real * r.output
  {
  }

  /** A reservation that is released without a request leaves no trace. */
  lemma ReleaseUndoesReserve(l: Limits, r: Rates, b: Books, inputs: nat)
    requires Balanced(l, r, b) && AfterReserve(l, r, b, inputs).Some? && AfterReserve(l, r, b, inputs).value.1 > 0
    ensures AfterRelease(AfterReserve(l, r, b, inputs).value.0) == Some(b)
  {
  }

  /** A reply within its reservation never violates the budget, and leaves what it did not use. */
  lemma HonestRepliesStayInBudget(l: Limits, r: Rates, b: Books, inputs: nat, outputs: nat)
    requires Sane(l, r) && Balanced(l, r, b) && b.pending.Some? && !b.violated
    requires inputs <= b.pending.value.inputs && outputs <= b.pending.value.cap
    ensures AfterSettle(l, r, b, inputs, outputs).Some?
    ensures var next := AfterSettle(l, r, b, inputs, outputs).value;
            !next.violated && next.spent <= b.spent + b.reserved <= l.maxUsd + SLACK
  {
    PriceGrows(r, inputs, outputs, b.pending.value.inputs, b.pending.value.cap);
    hide Price;
  }

  /** The flag goes up exactly when a reply exceeds its reservation, and then it stays up. */
  lemma ViolationMeansExcess(l: Limits, r: Rates, b: Books, op: Op)
    requires Sane(l, r) && Balanced(l, r, b)
    ensures Done(l, r, b, op).violated <==>
      || b.violated
      || (op.DoSettle? && b.pending.Some? && (op.inputs > b.pending.value.inputs || op.outputs > b.pending.value.cap))
  {
    hide Price;
    if op.DoSettle? && b.pending.Some? && op.inputs <= b.pending.value.inputs && op.outputs <= b.pending.value.cap {
      PriceGrows(r, op.inputs, op.outputs, b.pending.value.inputs, b.pending.value.cap);
    }
  }

  class Meter {
    const limits: Limits
    const rates: Rates
    var calls: nat
    var inputs: nat
    var outputs: nat
    var spent: real
    var reserved: real
    var pending: Option<Pending>
    var violated: bool

    function State(): Books
      reads this
    {
      Books(calls, inputs, outputs, spent, reserved, pending, violated)
    }

    ghost predicate Valid()
      reads this
    {
      Sane(limits, rates) && Balanced(limits, rates, State())
    }

    constructor (limits: Limits, rates: Rates)
      requires Sane(limits, rates)
      ensures Valid() && State() == EMPTY && this.limits == limits && this.rates == rates
    {
      this.limits, this.rates := limits, rates;
      calls, inputs, outputs, spent, reserved, pending, violated := 0, 0, 0, 0.0, 0.0, None, false;
      new;
      ZeroIsFree(rates);
    }

    /** The cap granted, 0 for none; an error while a request is unresolved. */
    method Reserve(tokens: nat) returns (cap: Option<nat>)
      requires Valid()
      modifies this
      ensures Valid()
      ensures cap.None? <==> old(pending).Some?
      ensures State() == Done(limits, rates, old(State()), DoReserve(tokens))
      ensures cap.Some? ==> Some((State(), cap.value)) == AfterReserve(limits, rates, old(State()), tokens)
    {
      DoneKeeps(limits, rates, State(), DoReserve(tokens));
      if pending.Some? { return None; }
      var left := limits.maxOutput - outputs;
      var most := if limits.maxOutputPerCall <= left then limits.maxOutputPerCall else left;
      if calls >= limits.maxCalls || most < 1 { return Some(0); }
      var cost := Price(rates, tokens, most);
      if spent + cost > limits.maxUsd + SLACK { return Some(0); }
      calls, reserved, pending := calls + 1, cost, Some(Pending(tokens, most));
      return Some(most);
    }

    method Release() returns (ok: bool)
      requires Valid()
      modifies this
      ensures Valid()
      ensures ok == old(pending).Some? && State() == Done(limits, rates, old(State()), DoRelease)
    {
      DoneKeeps(limits, rates, State(), DoRelease);
      if pending.None? { return false; }
      calls := calls - 1;
      pending, reserved := None, 0.0;
      return true;
    }

    method Settle(inputTokens: nat, outputTokens: nat) returns (ok: bool)
      requires Valid()
      modifies this
      ensures Valid()
      ensures ok == old(pending).Some?
              && State() == Done(limits, rates, old(State()), DoSettle(inputTokens, outputTokens))
    {
      DoneKeeps(limits, rates, State(), DoSettle(inputTokens, outputTokens));
      if pending.None? { return false; }
      var expected := pending.value;
      var actual := Price(rates, inputTokens, outputTokens);
      violated := violated || inputTokens > expected.inputs || outputTokens > expected.cap;
      inputs := inputs + inputTokens;
      outputs := outputs + outputTokens;
      spent := spent + actual;
      violated := violated || spent > limits.maxUsd + SLACK;
      pending, reserved := None, 0.0;
      return true;
    }
  }
}
