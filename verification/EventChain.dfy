/** The hash chain over the event log: how it grows, what its check accepts, and what it rules out. */
module EventChain {
  import opened Wrappers

  type Digest = string

  /** What is hashed: the number of the row, what it says, and the hash of the row before it. */
  datatype Content<T> = Content(number: nat, data: T, prev: Option<Digest>)

  datatype Row<T> = Row(content: Content<T>, hash: Digest)

  datatype ChainError = SequenceGap(at: nat) | PrevMismatch(at: nat) | HashMismatch(at: nat)

  function Head<T>(rows: seq<Row<T>>): Option<Digest> {
    if rows == [] then None else Some(rows[|rows| - 1].hash)
  }

  /** `_append_event`. */
  function Append<T>(h: Content<T> -> Digest, rows: seq<Row<T>>, data: T): seq<Row<T>> {
    var number := if rows == [] then 1 else rows[|rows| - 1].content.number + 1;
    var content := Content(number, data, Head(rows));
    rows + [Row(content, h(content))]
  }

  /** The log that a sequence of appends builds. */
  function Build<T>(h: Content<T> -> Digest, items: seq<T>): seq<Row<T>> {
    if items == [] then [] else Append(h, Build(h, items[..|items| - 1]), items[|items| - 1])
  }

  function Data<T>(rows: seq<Row<T>>): seq<T> {
    seq(|rows|, i requires 0 <= i < |rows| => rows[i].content.data)
  }

  /** What is wrong with row `i`, in the order the check looks. */
  function Fault<T>(h: Content<T> -> Digest, rows: seq<Row<T>>, i: nat): Option<ChainError>
    requires i < |rows|
  {
    if rows[i].content.number != i + 1 then Some(SequenceGap(i + 1))
    else if rows[i].content.prev != Head(rows[..i]) then Some(PrevMismatch(i + 1))
    else if rows[i].hash != h(rows[i].content) then Some(HashMismatch(i + 1))
    else None
  }

  ghost predicate Accepted<T>(h: Content<T> -> Digest, rows: seq<Row<T>>) {
    forall i :: 0 <= i < |rows| ==> Fault(h, rows, i).None?
  }

  /** `verify_event_chain`: the head of an accepted log, or the first fault. */
  method Verify<T(==)>(h: Content<T> -> Digest, rows: seq<Row<T>>) returns (r: Result<Option<Digest>, ChainError>)
    ensures r.Success? <==> Accepted(h, rows)
    ensures r.Success? ==> r.value == Head(rows)
    ensures r.Failure? ==>
      exists i :: 0 <= i < |rows| && Fault(h, rows, i) == Some(r.error) && Accepted(h, rows[..i])
    ensures r.Failure? ==>
      var n := r.error.at;
      && 1 <= n <= |rows| && Accepted(h, rows[..n - 1])
      && var row, prev := rows[n - 1], if n == 1 then None else Some(rows[n - 2].hash);
      && (r.error.SequenceGap? <==> row.content.number != n)
      && (r.error.PrevMismatch? ==> row.content.prev != prev)
      && (r.error.HashMismatch? ==> row.content.prev == prev && row.hash != h(row.content))
  {
    var previous: Option<Digest> := None;
    var i := 0;
    while i < |rows|
      invariant 0 <= i <= |rows|
      invariant Accepted(h, rows[..i])
      invariant previous == Head(rows[..i])
    {
      var row := rows[i];
      SameFaults(h, rows, i);
      ghost var fault := Fault(h, rows, i);
      if row.content.number != i + 1 { return Failure(SequenceGap(i + 1)); }
      if row.content.prev != previous { return Failure(PrevMismatch(i + 1)); }
      var calculated := h(row.content);
      if calculated != row.hash { return Failure(HashMismatch(i + 1)); }
      previous := Some(calculated);
      assert rows[..i + 1] == rows[..i] + [row];
      AcceptedGrows(h, rows[..i], row);
      i := i + 1;
    }
    assert rows[..i] == rows;
    return Success(previous);
  }

  /** The faults of a prefix are those of the whole log. */
  lemma SameFaults<T>(h: Content<T> -> Digest, rows: seq<Row<T>>, n: nat)
    requires n <= |rows|
    ensures forall i :: 0 <= i < n ==> Fault(h, rows[..n], i) == Fault(h, rows, i)
  {
    forall i | 0 <= i < n ensures Fault(h, rows[..n], i) == Fault(h, rows, i) { assert rows[..n][..i] == rows[..i]; }
  }

  lemma AcceptedGrows<T>(h: Content<T> -> Digest, rows: seq<Row<T>>, row: Row<T>)
    requires Accepted(h, rows) && row.content.number == |rows| + 1 && row.content.prev == Head(rows)
    requires row.hash == h(row.content)
    ensures Accepted(h, rows + [row])
  {
    var more := rows + [row];
    assert more[..|rows|] == rows;
    SameFaults(h, more, |rows|);
    forall i | 0 <= i < |more| ensures Fault(h, more, i).None? {
      if i < |rows| { assert Fault(h, more[..|rows|], i).None?; }
    }
  }

  /** Appending keeps the chain, and adds exactly the new item. */
  lemma AppendKeeps<T>(h: Content<T> -> Digest, rows: seq<Row<T>>, data: T)
    requires Accepted(h, rows)
    ensures Accepted(h, Append(h, rows, data))
    ensures Data(Append(h, rows, data)) == Data(rows) + [data]
  {
    if rows != [] { assert Fault(h, rows, |rows| - 1).None?; }
    AcceptedGrows(h, rows, Append(h, rows, data)[|rows|]);
  }

  /** Every log built by appending is accepted. */
  lemma {:induction false} BuiltIsAccepted<T>(h: Content<T> -> Digest, items: seq<T>)
    ensures Accepted(h, Build(h, items)) && Data(Build(h, items)) == items
  {
    if items != [] {
      BuiltIsAccepted(h, items[..|items| - 1]);
      AppendKeeps(h, Build(h, items[..|items| - 1]), items[|items| - 1]);
    }
  }

  /** Two different contents with one hash. */
  ghost predicate Collision<T(!new)>(h: Content<T> -> Digest) {
    exists x: Content<T>, y: Content<T> :: x != y && h(x) == h(y)
  }

  /** Two accepted logs with the same head are the same log, or a hash collision has been found: without one, no
      edit, exchange, insertion or deletion of events keeps the head. */
  lemma {:induction false} SameHeadSameLog<T(!new)>(h: Content<T> -> Digest, a: seq<Row<T>>, b: seq<Row<T>>)
    requires Accepted(h, a) && Accepted(h, b) && Head(a) == Head(b)
    ensures a == b || Collision(h)
    decreases |a|
  {
    if a != [] && b != [] {
      var x, y := a[|a| - 1], b[|b| - 1];
      assert Fault(h, a, |a| - 1).None? && Fault(h, b, |b| - 1).None?;
      if x.content != y.content {
        assert h(x.content) == h(y.content);
      } else {
        var p, q := a[..|a| - 1], b[..|b| - 1];
        SameFaults(h, a, |p|);
        SameFaults(h, b, |q|);
        SameHeadSameLog(h, p, q);
        assert a == p + [x] && b == q + [y];
      }
    }
  }

  /** With an injective hash, the check and a remembered head pin every event of the log. */
  lemma HeadPinsEveryEvent<T(!new)>(h: Content<T> -> Digest, items: seq<T>, other: seq<Row<T>>)
    requires forall x: Content<T>, y: Content<T> :: h(x) == h(y) ==> x == y
    requires Accepted(h, other)
    ensures Head(other) == Head(Build(h, items)) <==> other == Build(h, items)
    ensures other == Build(h, Data(other))
  {
    BuiltIsAccepted(h, items);
    if Head(other) == Head(Build(h, items)) { SameHeadSameLog(h, other, Build(h, items)); }
    AcceptedIsBuilt(h, other);
  }

  /** The accepted logs are exactly the built ones. */
  lemma {:induction false} AcceptedIsBuilt<T>(h: Content<T> -> Digest, rows: seq<Row<T>>)
    requires Accepted(h, rows)
    ensures rows == Build(h, Data(rows))
  {
    if rows != [] {
      var p, x := rows[..|rows| - 1], rows[|rows| - 1];
      SameFaults(h, rows, |p|);
      AcceptedIsBuilt(h, p);
      assert Data(rows)[..|rows| - 1] == Data(p);
      assert Fault(h, rows, |rows| - 1).None?;
      if p != [] { assert Fault(h, rows, |p| - 1).None?; }
    }
  }
}
