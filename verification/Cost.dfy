/** Adding up the cost of a job from counters that are cumulative within a session. */
module Cost {
  import opened Wrappers

  /** A settled turn: the session the job is in, and the cumulative cost its result reports, if any. */
  datatype Turn = Turn(session: Option<string>, cost: Option<real>)

  /** The columns `_close` keeps: the total, and the last counter with the session it belongs to. */
  datatype Account = Account(total: real, counter: Option<real>, session: Option<string>)

  const NEW := Account(0.0, None, None)
  const HALF_UNIT := 0.00005

  /** `round(x, 4)`: to the nearest ten-thousandth, and to the even one of two equally near. */
  function Round4(x: real): real {
    var n := (x * 10000.0).Floor;
    var rest := x * 10000.0 - n as real;
    var up := rest > 0.5 || (rest == 0.5 && n % 2 == 1);
    (if up then n + 1 else n) as real / 10000.0
  }

  lemma RoundIsNear(x: real)
    ensures x - HALF_UNIT <= Round4(x) <= x + HALF_UNIT
  {
    var n := (x * 10000.0).Floor;
    assert n as real <= x * 10000.0 < n as real + 1.0;
  }

  /** The rounded value is a whole number of ten-thousandths, the nearest one, and the even one of two. */
  lemma RoundExactly(x: real) returns (n: int)
    ensures Round4(x) * 10000.0 == n as real
    ensures n as real - 0.5 <= x * 10000.0 <= n as real + 0.5
    ensures x * 10000.0 == n as real - 0.5 || x * 10000.0 == n as real + 0.5 ==> n % 2 == 0
  {
    var low := (x * 10000.0).Floor;
    var rest := x * 10000.0 - low as real;
    n := if rest > 0.5 || (rest == 0.5 && low % 2 == 1) then low + 1 else low;
  }

  predicate SameSession(a: Account, t: Turn) {
    a.session.Some? && a.session.value != "" && a.session == t.session
  }

  /** What a turn adds: the rise of the counter, or all of it when the counter is a fresh one. */
  function Increase(a: Account, t: Turn): real
    requires t.cost.Some?
  {
    var previous := if SameSession(a, t) && a.counter.Some? then a.counter.value else 0.0;
    if t.cost.value >= previous then t.cost.value - previous else t.cost.value
  }

  /** The account after a turn, with the total rounded by `round`. */
  function Settle(a: Account, t: Turn, round: real -> real): Account {
    if t.cost.None? then a else Account(round(a.total + Increase(a, t)), t.cost, t.session)
  }

  function SettleAll(turns: seq<Turn>, round: real -> real): Account {
    if turns == [] then NEW else Settle(SettleAll(turns[..|turns| - 1], round), turns[|turns| - 1], round)
  }

  function Exact(x: real): real { x }

  function Charged(turns: seq<Turn>): nat {
    if turns == [] then 0 else Charged(turns[..|turns| - 1]) + if turns[|turns| - 1].cost.Some? then 1 else 0
  }

  /** Rounding touches the total only, and each charged turn moves it by half a unit at most. */
  lemma {:induction false} RoundingDrift(turns: seq<Turn>)
    ensures var stored, exact := SettleAll(turns, Round4), SettleAll(turns, Exact);
            && stored.counter == exact.counter && stored.session == exact.session
            && exact.total - Charged(turns) as real * HALF_UNIT <= stored.total
            && stored.total <= exact.total + Charged(turns) as real * HALF_UNIT
  {
    if turns != [] {
      var t := turns[|turns| - 1];
      RoundingDrift(turns[..|turns| - 1]);
      if t.cost.Some? {
        var stored := SettleAll(turns[..|turns| - 1], Round4);
        RoundIsNear(stored.total + Increase(stored, t));
      }
    }
  }

  // ---- what the total should be ----

  /** The charged turns only. */
  function Reports(turns: seq<Turn>): seq<Turn> {
    if turns == [] then []
    else Reports(turns[..|turns| - 1]) + if turns[|turns| - 1].cost.Some? then [turns[|turns| - 1]] else []
  }

  /** Report `i + 1` starts a fresh counter: another session, no session, or a lower value. */
  predicate Fresh(reports: seq<Turn>, i: nat)
    requires i + 1 < |reports| && reports[i].cost.Some? && reports[i + 1].cost.Some?
  {
    || reports[i].session != reports[i + 1].session || reports[i].session.None? || reports[i].session.value == ""
    || reports[i + 1].cost.value < reports[i].cost.value
  }

  /** The last value of every counter: of each report that is followed by a fresh one, and of the last report. */
  function LastValues(reports: seq<Turn>): real
    requires forall i :: 0 <= i < |reports| ==> reports[i].cost.Some?
  {
    if reports == [] then 0.0
    else if |reports| == 1 then reports[0].cost.value
    else (if Fresh(reports, 0) then reports[0].cost.value else 0.0) + LastValues(reports[1..])
  }

  lemma {:induction false} ReportsHaveCosts(turns: seq<Turn>)
    ensures forall i :: 0 <= i < |Reports(turns)| ==> Reports(turns)[i].cost.Some?
    ensures |Reports(turns)| == Charged(turns)
  {
    if turns != [] { ReportsHaveCosts(turns[..|turns| - 1]); }
  }

  /** One more report: the previous one counts if the new one starts fresh. */
  lemma {:induction false} LastValuesGrow(reports: seq<Turn>, t: Turn)
    requires forall i :: 0 <= i < |reports| ==> reports[i].cost.Some?
    requires reports != [] && t.cost.Some?
    ensures var n := |reports|;
            LastValues(reports + [t]) == LastValues(reports) + t.cost.value
              - if Fresh(reports + [t], n - 1) then 0.0 else reports[n - 1].cost.value
  {
    if |reports| == 1 {
      assert (reports + [t])[1..] == [t];
    } else {
      assert (reports + [t])[1..] == reports[1..] + [t];
      LastValuesGrow(reports[1..], t);
      assert Fresh(reports + [t], 0) == Fresh(reports, 0);
    }
  }

  /** Without rounding the increases telescope to the last value of every counter. */
  lemma {:induction false} IncreasesTelescope(turns: seq<Turn>)
    ensures forall i :: 0 <= i < |Reports(turns)| ==> Reports(turns)[i].cost.Some?
    ensures var a, r := SettleAll(turns, Exact), Reports(turns);
            && a.total == LastValues(r)
            && (if r == [] then a == NEW else a.counter == r[|r| - 1].cost && a.session == r[|r| - 1].session)
  {
    ReportsHaveCosts(turns);
    if turns != [] {
      var before, t := turns[..|turns| - 1], turns[|turns| - 1];
      ReportsHaveCosts(before);
      IncreasesTelescope(before);
      var r := Reports(before);
      if t.cost.None? {
        assert Reports(turns) == r;
      } else if r == [] {
        assert Reports(turns) == [t] && LastValues([t]) == t.cost.value;
      } else {
        assert Reports(turns) == r + [t];
        LastValuesGrow(r, t);
        var a := SettleAll(before, Exact);
        assert Increase(a, t) == t.cost.value - if Fresh(r + [t], |r| - 1) then 0.0 else r[|r| - 1].cost.value;
      }
    }
  }

  /** The stored total is within half a unit per charged turn of the sum of the last values of all counters. */
  lemma StoredTotalIsRight(turns: seq<Turn>)
    ensures forall i :: 0 <= i < |Reports(turns)| ==> Reports(turns)[i].cost.Some?
    ensures var n, due := Charged(turns) as real, LastValues(Reports(turns));
            due - n * HALF_UNIT <= SettleAll(turns, Round4).total <= due + n * HALF_UNIT
  {
    IncreasesTelescope(turns);
    RoundingDrift(turns);
  }

  /** The counter of a named session has risen, or stayed, from the report before. */
  predicate Rises(reports: seq<Turn>, i: nat)
    requires i < |reports|
  {
    && reports[i].cost.Some? && reports[i].session.Some? && reports[i].session.value != ""
    && (i > 0 ==> reports[i - 1].cost.Some? && reports[i - 1].session == reports[i].session
                  && reports[i - 1].cost.value <= reports[i].cost.value)
  }

  predicate OneSession(reports: seq<Turn>) {
    forall i :: 0 <= i < |reports| ==> Rises(reports, i)
  }

  lemma {:induction false} OneCounter(reports: seq<Turn>)
    requires OneSession(reports) && reports != []
    ensures forall i :: 0 <= i < |reports| ==> reports[i].cost.Some?
    ensures LastValues(reports) == reports[|reports| - 1].cost.value
  {
    assert Rises(reports, 0);
    if |reports| > 1 {
      forall i | 0 <= i < |reports[1..]| ensures Rises(reports[1..], i) { assert Rises(reports, i + 1); }
      assert Rises(reports, 1);
      OneCounter(reports[1..]);
    }
  }

  /** In one session whose counter never falls, the total is the last counter but for the rounding. */
  lemma OneSessionTotal(turns: seq<Turn>)
    requires OneSession(Reports(turns)) && Reports(turns) != []
    ensures Reports(turns)[|Reports(turns)| - 1].cost.Some?
    ensures var r := Reports(turns);
            var last := r[|r| - 1].cost.value;
            last - |r| as real * HALF_UNIT <= SettleAll(turns, Round4).total <= last + |r| as real * HALF_UNIT
  {
    ReportsHaveCosts(turns);
    StoredTotalIsRight(turns);
    OneCounter(Reports(turns));
  }

  class Ledger {
    var total: real
    var counter: Option<real>
    var session: Option<string>
    ghost var turns: seq<Turn>

    ghost predicate Valid()
      reads this
    {
      Account(total, counter, session) == SettleAll(turns, Round4)
    }

    constructor ()
      ensures Valid() && turns == []
    {
      total, counter, session, turns := 0.0, None, None, [];
    }

    /** The accounting of `_close`, for the session of the job and the cost in the result. */
    method Close(current: Option<string>, cost: Option<real>)
      requires Valid()
      modifies this
      ensures Valid() && turns == old(turns) + [Turn(current, cost)]
      ensures cost.None? ==> total == old(total) && counter == old(counter) && session == old(session)
      ensures cost.Some? ==> counter == cost && session == current
      ensures forall i :: 0 <= i < |Reports(turns)| ==> Reports(turns)[i].cost.Some?
      ensures var n, due := Charged(turns) as real, LastValues(Reports(turns));
              due - n * HALF_UNIT <= total <= due + n * HALF_UNIT
    {
      ghost var before := turns;
      turns := turns + [Turn(current, cost)];
      assert turns[..|turns| - 1] == before;
      if cost.Some? {
        var same := session.Some? && session.value != "" && session == current;
        var previous := if same && counter.Some? then counter.value else 0.0;
        var increase := if cost.value >= previous then cost.value - previous else cost.value;
        total := Round4(total + increase);
        counter, session := cost, current;
      }
      StoredTotalIsRight(turns);
    }
  }
}
