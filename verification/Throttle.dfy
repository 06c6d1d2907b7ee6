/** The login limiter: a sliding window of failed attempts for each client and for all of them. */
module Throttle {
  datatype Failure = Failure(at: real, client: string)

  /** An attempt that was not turned away. */
  datatype Attempt = Wrong(at: real, client: string) | Right(client: string)

  /** `[f for f in failures if now - t < window]`. */
  function Recent(failures: seq<Failure>, now: real, window: real): seq<Failure> {
    if failures == [] then []
    else (if now - failures[0].at < window then [failures[0]] else []) + Recent(failures[1..], now, window)
  }

  /** `[f for f in failures if c != client]`. */
  function Others(failures: seq<Failure>, client: string): seq<Failure> {
    if failures == [] then []
    else (if failures[0].client != client then [failures[0]] else []) + Others(failures[1..], client)
  }

  function Mine(failures: seq<Failure>, client: string): seq<real> {
    if failures == [] then []
    else (if failures[0].client == client then [failures[0].at] else []) + Mine(failures[1..], client)
  }

  predicate Sorted(failures: seq<Failure>) {
    forall i, j :: 0 <= i < j < |failures| ==> failures[i].at <= failures[j].at
  }

  /** `blocked_for`, on failures that are recent already. */
  function WaitFor(recent: seq<Failure>, client: string, now: real, limit: nat, ceiling: nat, window: real): real
    requires limit >= 1 && ceiling >= 1
  {
    var mine := Mine(recent, client);
    if |mine| >= limit then window - (now - mine[0])
    else if |recent| >= ceiling then window - (now - recent[0].at)
    else 0.0
  }

  // ---- what the filters keep ----

  lemma {:induction false} RecentFacts(failures: seq<Failure>, now: real, window: real)
    requires Sorted(failures)
    ensures var r := Recent(failures, now, window);
            && Sorted(r) && |r| <= |failures|
            && (forall i :: 0 <= i < |r| ==> now - r[i].at < window)
            && (forall i :: 0 <= i < |r| ==> r[i] in failures)
            && (failures != [] && now - failures[0].at < window ==> r == failures)
  {
    if failures != [] {
      assert failures == [failures[0]] + failures[1..];
      RecentFacts(failures[1..], now, window);
      if failures[1..] != [] { assert failures[0].at <= failures[1..][0].at; }
    }
  }

  lemma {:induction false} MineFacts(failures: seq<Failure>, client: string)
    requires Sorted(failures)
    ensures var m := Mine(failures, client);
            && |m| <= |failures|
            && (m != [] ==> Failure(m[0], client) in failures && failures[0].at <= m[0])
  {
    if failures != [] {
      MineFacts(failures[1..], client);
      if failures[1..] != [] { assert failures[0].at <= failures[1..][0].at; }
      if failures[0].client == client { assert Mine(failures, client)[0] == failures[0].at; }
    }
  }

  lemma {:induction false} RecentOthers(failures: seq<Failure>, client: string, now: real, window: real)
    ensures Recent(Others(failures, client), now, window) == Others(Recent(failures, now, window), client)
  {
    if failures != [] {
      RecentOthers(failures[1..], client, now, window);
      var f, o, r := failures[0], Others(failures[1..], client), Recent(failures[1..], now, window);
      assert ([f] + o)[1..] == o && ([f] + r)[1..] == r && [] + o == o && [] + r == r;
    }
  }

  lemma {:induction false} AppendFilters(failures: seq<Failure>, f: Failure, now: real, window: real, client: string)
    ensures Recent(failures + [f], now, window) == Recent(failures, now, window) + if now - f.at < window then [f] else []
    ensures Mine(failures + [f], client) == Mine(failures, client) + if f.client == client then [f.at] else []
  {
    if failures != [] {
      assert (failures + [f])[1..] == failures[1..] + [f];
      AppendFilters(failures[1..], f, now, window, client);
    } else {
      assert failures + [f] == [f];
      assert Recent([f][1..], now, window) == [] && Mine([f][1..], client) == [];
    }
  }

  lemma {:induction false} OthersSorted(failures: seq<Failure>, client: string)
    requires Sorted(failures)
    ensures var o := Others(failures, client);
            Sorted(o) && |o| <= |failures| && forall i :: 0 <= i < |o| ==> o[i] in failures
  {
    if failures != [] {
      var rest := failures[1..];
      assert failures == [failures[0]] + rest;
      OthersSorted(rest, client);
      assert forall i :: 0 <= i < |rest| ==> failures[0].at <= rest[i].at;
      assert Others(failures, client)
          == (if failures[0].client != client then [failures[0]] else []) + Others(rest, client);
    }
  }

  lemma {:induction false} OthersMine(failures: seq<Failure>, client: string, c: string)
    ensures Mine(Others(failures, client), c) == if c == client then [] else Mine(failures, c)
  {
    if failures != [] {
      OthersMine(failures[1..], client, c);
      var o := Others(failures[1..], client);
      assert ([failures[0]] + o)[1..] == o && [] + o == o;
    }
  }

  // ---- the wait ----

  /** Dropping what has become old only shortens the list of one client from the front. */
  lemma {:induction false} MineLater(failures: seq<Failure>, client: string, now: real, window: real)
    requires Sorted(failures)
    ensures var m, later := Mine(failures, client), Mine(Recent(failures, now, window), client);
            && |later| <= |m|
            && (m != [] && now - m[0] < window ==> later == m)
            && (m != [] && now - m[0] >= window ==> |later| < |m|)
  {
    if failures != [] {
      assert failures == [failures[0]] + failures[1..];
      MineLater(failures[1..], client, now, window);
      MineFacts(failures[1..], client);
      var rest := Recent(failures[1..], now, window);
      assert ([failures[0]] + rest)[1..] == rest && [] + rest == rest;
      if failures[1..] != [] { assert failures[0].at <= failures[1..][0].at; }
      if failures[0].client == client { assert Mine(failures, client)[0] == failures[0].at; }
    }
  }

  /** A positive wait is exact: if nothing else happens, a later check is turned away until that time has passed and
      not a moment longer, and names the rest of the wait. */
  lemma WaitIsExact(recent: seq<Failure>, client: string, now: real, later: real, limit: nat, ceiling: nat,
                    window: real)
    requires limit >= 1 && ceiling >= 1 && now <= later && Sorted(recent)
    requires forall i :: 0 <= i < |recent| ==> now - recent[i].at < window
    requires |Mine(recent, client)| <= limit && |recent| <= ceiling
    ensures var wait := WaitFor(recent, client, now, limit, ceiling, window);
            var then_ := WaitFor(Recent(recent, later, window), client, later, limit, ceiling, window);
            && 0.0 <= wait && then_ == (if later < now + wait then wait - (later - now) else 0.0)
            && (wait > 0.0 <==> |Mine(recent, client)| == limit || |recent| == ceiling)
  {
    hide Mine, Recent;
    MineFacts(recent, client);
    MineLater(recent, client, later, window);
    RecentFacts(recent, later, window);
    if recent != [] && later - recent[0].at >= window { RecentShrinks(recent, later, window); }
  }

  lemma {:induction false} RecentShrinks(failures: seq<Failure>, now: real, window: real)
    requires failures != [] && now - failures[0].at >= window
    ensures |Recent(failures, now, window)| < |failures|
  {
    RecentSize(failures[1..], now, window);
  }

  lemma {:induction false} RecentSize(failures: seq<Failure>, now: real, window: real)
    ensures |Recent(failures, now, window)| <= |failures|
  {
    if failures != [] { RecentSize(failures[1..], now, window); }
  }

  // ---- whole runs ----

  /** The failures of a run that count at an instant: recent, and not wiped out by a later success. */
  function Live(log: seq<Attempt>, now: real, window: real): seq<Failure> {
    if log == [] then [] else
    var before := Live(log[..|log| - 1], now, window);
    match log[|log| - 1]
    case Wrong(at, client) => before + if now - at < window then [Failure(at, client)] else []
    case Right(client) => Others(before, client)
  }

  function Count(log: seq<Attempt>, client: string): nat {
    if log == [] then 0
    else Count(log[..|log| - 1], client) + if log[|log| - 1].Wrong? && log[|log| - 1].client == client then 1 else 0
  }

  predicate NoSuccess(log: seq<Attempt>, client: string) {
    forall i :: 0 <= i < |log| ==> log[i] != Right(client)
  }

  /** Failures `i` and `j` of one client, with at least `limit` of its failures from `i` up to `j` and no success in
      between, lie a window apart. */
  predicate Apart(log: seq<Attempt>, i: int, j: int, limit: nat, window: real)
    requires 0 <= i < j < |log|
  {
    var a, b := log[i], log[j];
    (a.Wrong? && b.Wrong? && a.client == b.client && NoSuccess(log[i..j], a.client) && Count(log[i..j], a.client) >= limit)
    ==> b.at - a.at >= window
  }

  /** No window holds more than `limit` failures of a client between its successes. */
  ghost predicate Spaced(log: seq<Attempt>, limit: nat, window: real) {
    forall i, j :: 0 <= i < j < |log| ==> Apart(log, i, j, limit, window)
  }

  predicate InTime(log: seq<Attempt>, clock: real) {
    && (forall i :: 0 <= i < |log| && log[i].Wrong? ==> log[i].at <= clock)
    && (forall i, j :: 0 <= i < j < |log| && log[i].Wrong? && log[j].Wrong? ==> log[i].at <= log[j].at)
  }

  lemma {:induction false} LiveLater(log: seq<Attempt>, early: real, late: real, window: real)
    requires early <= late
    ensures Recent(Live(log, early, window), late, window) == Live(log, late, window)
  {
    if log != [] {
      LiveLater(log[..|log| - 1], early, late, window);
      var before := Live(log[..|log| - 1], early, window);
      match log[|log| - 1] {
        case Wrong(at, client) =>
          AppendFilters(before, Failure(at, client), late, window, client);
          assert before + [] == before;
        case Right(client) => RecentOthers(before, client, late, window);
      }
    }
  }

  /** The live failures of a client are at least those since index `i`, if these are recent and it had no success. */
  lemma {:induction false} LiveHasAll(log: seq<Attempt>, i: nat, client: string, now: real, window: real)
    requires i <= |log| && NoSuccess(log[i..], client)
    requires forall k :: i <= k < |log| && log[k].Wrong? && log[k].client == client ==> now - log[k].at < window
    ensures |Mine(Live(log, now, window), client)| >= Count(log[i..], client)
    decreases |log|
  {
    if i < |log| {
      var init, last := log[..|log| - 1], log[|log| - 1];
      assert init[i..] == log[i..][..|log[i..]| - 1] && log[i..][|log[i..]| - 1] == last;
      assert NoSuccess(init[i..], client) by {
        forall k | 0 <= k < |init[i..]| ensures init[i..][k] != Right(client) { assert log[i..][k] == init[i..][k]; }
      }
      LiveHasAll(init, i, client, now, window);
      var before := Live(init, now, window);
      match last {
        case Wrong(at, c) =>
          AppendFilters(before, Failure(at, c), now, window, client);
          assert before + [] == before;
        case Right(c) =>
          assert c != client;
          OthersMine(before, c, client);
      }
    }
  }

  /** One more failure that was let through keeps the run spaced. */
  lemma SpacedGrows(log: seq<Attempt>, at: real, client: string, checked: real, limit: nat, window: real)
    requires Spaced(log, limit, window) && InTime(log, at) && checked <= at
    requires |Mine(Live(log, checked, window), client)| < limit
    ensures Spaced(log + [Wrong(at, client)], limit, window)
  {
    var more := log + [Wrong(at, client)];
    forall i, j | 0 <= i < j < |more| ensures Apart(more, i, j, limit, window) {
      assert more[i..j] == log[i..j];
      if j < |log| {
        assert Apart(log, i, j, limit, window);
      } else if more[i].Wrong? && more[i].client == client && NoSuccess(log[i..], client) && at - more[i].at < window {
        assert log[i..j] == log[i..];
        LiveHasAll(log, i, client, checked, window);
      }
    }
  }

  lemma SpacedAfterSuccess(log: seq<Attempt>, client: string, limit: nat, window: real)
    requires Spaced(log, limit, window)
    ensures Spaced(log + [Right(client)], limit, window)
  {
    var more := log + [Right(client)];
    forall i, j | 0 <= i < j < |more| ensures Apart(more, i, j, limit, window) {
      if j < |log| {
        assert more[i..j] == log[i..j];
        assert Apart(log, i, j, limit, window);
      }
    }
  }

  class LoginThrottle {
    const limit: nat
    const ceiling: nat
    const window: real
    var failures: seq<Failure>
    ghost var log: seq<Attempt>
    ghost var checked: real
    ghost var clock: real

    ghost predicate Valid()
      reads this
    {
      && limit >= 1 && ceiling >= 1 && window > 0.0 && checked <= clock
      && failures == Live(log, checked, window) && InTime(log, clock)
      && Sorted(failures) && (forall i :: 0 <= i < |failures| ==> failures[i].at <= clock)
    }

    /** What checking before every attempt keeps up, over the whole run. */
    ghost predicate Bounded()
      reads this
    {
      Spaced(log, limit, window) && |failures| <= ceiling && forall c :: |Mine(failures, c)| <= limit
    }

    constructor (limit: nat, ceiling: nat, window: real, now: real)
      requires limit >= 1 && ceiling >= 1 && window > 0.0
      ensures Valid() && Bounded() && this.limit == limit && this.ceiling == ceiling && this.window == window
      ensures failures == [] && log == [] && clock == now
    {
      this.limit, this.ceiling, this.window := limit, ceiling, window;
      failures, log, checked, clock := [], [], now, now;
    }

    method BlockedFor(client: string, now: real) returns (wait: real)
      requires Valid() && clock <= now
      modifies this
      ensures Valid() && (old(Bounded()) ==> Bounded()) && log == old(log) && clock == checked == now
      ensures failures == Recent(old(failures), now, window)
      ensures wait == WaitFor(failures, client, now, limit, ceiling, window)
      ensures wait > 0.0 <==> |Mine(failures, client)| >= limit || |failures| >= ceiling
      ensures 0.0 <= wait
    {
      hide Mine, Recent, Live, Spaced;
      LiveLater(log, checked, now, window);
      RecentFacts(failures, now, window);
      forall c ensures |Mine(Recent(failures, now, window), c)| <= |Mine(failures, c)| {
        MineLater(failures, c, now, window);
      }
      failures := Recent(failures, now, window);
      checked, clock := now, now;
      MineFacts(failures, client);
      var mine := Mine(failures, client);
      if |mine| >= limit { return window - (now - mine[0]); }
      if |failures| >= ceiling { return window - (now - failures[0].at); }
      return 0.0;
    }

    /** `failed`: the failure is recorded whatever was checked; the bounds are kept if the check did not block. */
    method Failed(client: string, now: real)
      requires Valid() && clock <= now
      modifies this
      ensures Valid() && failures == old(failures) + [Failure(now, client)] && log == old(log) + [Wrong(now, client)]
      ensures clock == now
      ensures old(Bounded()) && |Mine(old(failures), client)| < limit && |old(failures)| < ceiling ==> Bounded()
    {
      forall c
        ensures Mine(failures + [Failure(now, client)], c) == Mine(failures, c) + if client == c then [now] else []
      {
        AppendFilters(failures, Failure(now, client), now, window, c);
      }
      if Spaced(log, limit, window) && |Mine(failures, client)| < limit {
        SpacedGrows(log, now, client, checked, limit, window);
      }
      assert (log + [Wrong(now, client)])[..|log|] == log;
      failures := failures + [Failure(now, client)];
      log := log + [Wrong(now, client)];
      clock := now;
    }

    method Succeeded(client: string)
      requires Valid()
      modifies this
      ensures Valid() && failures == Others(old(failures), client) && log == old(log) + [Right(client)]
      ensures clock == old(clock) && (old(Bounded()) ==> Bounded())
    {
      OthersSorted(failures, client);
      forall c ensures |Mine(Others(failures, client), c)| <= |Mine(failures, c)| { OthersMine(failures, client, c); }
      if Spaced(log, limit, window) { SpacedAfterSuccess(log, client, limit, window); }
      assert (log + [Right(client)])[..|log|] == log;
      failures := Others(failures, client);
      log := log + [Right(client)];
    }

    /** The guarded part of `_login`: check, verify and record as one step, `checkedAt` being the time of the check and
        `recordedAt` that of the record. */
    method Login(client: string, checkedAt: real, recordedAt: real, right: bool) returns (wait: real)
      requires Valid() && Bounded() && clock <= checkedAt <= recordedAt
      modifies this
      ensures Valid() && Bounded()
      ensures wait == WaitFor(Recent(old(failures), checkedAt, window), client, checkedAt, limit, ceiling, window)
      ensures log == old(log) + if wait > 0.0 then [] else if right then [Right(client)] else [Wrong(recordedAt, client)]
    {
      wait := BlockedFor(client, checkedAt);
      if wait <= 0.0 {
        if right { Succeeded(client); } else { Failed(client, recordedAt); }
      }
    }
  }
}
