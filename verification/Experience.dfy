/** What the store learns from judged decisions: observations, and the standing of a lesson. */
module Experience {
  import opened Wrappers
  import opened Tables

  datatype Polarity = POSITIVE | NEGATIVE | OPERATIONAL

  datatype OutcomeOf = Support | Counterexample

  /** What a lesson is about: its pattern, the hash of its scope, and its polarity. */
  datatype Key = Key(pattern: string, scope: string, polarity: Polarity)

  /** A lesson drawn from one piece of evidence, its confidence already clamped. */
  datatype Lesson = Lesson(key: Key, evidence: Id, outcome: OutcomeOf, claim: string, confidence: real)

  datatype Observation = Observation(key: Key, evidence: Id, outcome: OutcomeOf)

  datatype Standing = Candidate | Validated | Contested | Contradicted

  datatype Row = Row(claim: string, confidence: real, standing: Standing, supports: nat, counterexamples: nat)

  datatype Memory = Memory(rows: map<Key, Row>, observed: set<Observation>)

  /** `_experience_status`. */
  function StandingOf(threshold: nat, supports: nat, counterexamples: nat): Standing {
    if supports > 0 && counterexamples > 0 then Contested
    else if counterexamples >= threshold then Contradicted
    else if supports >= threshold then Validated
    else Candidate
  }

  /** The rows that `SUM(CASE WHEN outcome = ...)` counts. */
  function Seen(observed: set<Observation>, key: Key, outcome: OutcomeOf): set<Observation> {
    set o | o in observed && o.key == key && o.outcome == outcome
  }

  /** The pieces of evidence that speak for a lesson, or against it. */
  function Evidence(observed: set<Observation>, key: Key, outcome: OutcomeOf): set<Id> {
    set o | o in observed && o.key == key && o.outcome == outcome :: o.evidence
  }

  function Empirical(supports: nat, counterexamples: nat): real {
    (supports as real + 1.0) / (supports as real + counterexamples as real + 2.0)
  }

  function Clamp(x: real): real {
    if x < 0.0 then 0.0 else if x > 1.0 then 1.0 else x
  }

  function Blend(before: real, supports: nat, counterexamples: nat): real {
    Clamp(0.5 * before + 0.5 * Empirical(supports, counterexamples))
  }

  /** `_record_experience_locked`. */
  function Recorded(threshold: nat, m: Memory, l: Lesson): Memory {
    var before := if l.key in m.rows then m.rows[l.key].confidence else l.confidence;
    var observed := m.observed + {Observation(l.key, l.evidence, l.outcome)};
    var s, c := |Seen(observed, l.key, Support)|, |Seen(observed, l.key, Counterexample)|;
    Memory(m.rows[l.key := Row(l.claim, Blend(before, s, c), StandingOf(threshold, s, c), s, c)], observed)
  }

  function RecordedAll(threshold: nat, lessons: seq<Lesson>): Memory {
    if lessons == [] then Memory(map[], {})
    else Recorded(threshold, RecordedAll(threshold, lessons[..|lessons| - 1]), lessons[|lessons| - 1])
  }

  function EvidenceOf(seen: set<Observation>): set<Id> {
    set o | o in seen :: o.evidence
  }

  lemma {:induction false} AsManyAsEvidence(seen: set<Observation>)
    requires forall o, p :: o in seen && p in seen && o.evidence == p.evidence ==> o == p
    ensures |seen| == |EvidenceOf(seen)|
    decreases seen
  {
    if seen != {} {
      var o :| o in seen;
      var rest := seen - {o};
      AsManyAsEvidence(rest);
      assert EvidenceOf(seen) == EvidenceOf(rest) + {o.evidence};
      assert o.evidence !in EvidenceOf(rest);
    }
  }

  /** Each piece of evidence is one observation for a lesson and an outcome. */
  lemma OneObservationEach(observed: set<Observation>, key: Key, outcome: OutcomeOf)
    ensures |Seen(observed, key, outcome)| == |Evidence(observed, key, outcome)|
  {
    AsManyAsEvidence(Seen(observed, key, outcome));
    assert EvidenceOf(Seen(observed, key, outcome)) == Evidence(observed, key, outcome);
  }

  /** The row of a lesson says how many pieces of evidence support and contradict it, and where it stands. */
  ghost predicate RowOk(threshold: nat, m: Memory, key: Key)
    requires key in m.rows
  {
    var r := m.rows[key];
    && r.supports == |Evidence(m.observed, key, Support)|
    && r.counterexamples == |Evidence(m.observed, key, Counterexample)|
    && r.standing == StandingOf(threshold, r.supports, r.counterexamples)
    && 0.0 <= r.confidence <= 1.0
  }

  ghost predicate MemoryOk(threshold: nat, m: Memory) {
    && (forall key :: key in m.rows ==> RowOk(threshold, m, key))
    && (forall o :: o in m.observed ==> o.key in m.rows)
  }

  /** The clamp is there for nothing: half of two numbers between 0 and 1 stays there, half way to the empirical one. */
  lemma BlendHalves(before: real, supports: nat, counterexamples: nat)
    requires 0.0 <= before <= 1.0
    ensures 0.0 < Empirical(supports, counterexamples) < 1.0
    ensures Blend(before, supports, counterexamples) - Empirical(supports, counterexamples)
         == (before - Empirical(supports, counterexamples)) / 2.0
    ensures 0.0 <= Blend(before, supports, counterexamples) <= 1.0
  {
    var n := supports as real + counterexamples as real + 2.0;
    var p := supports as real + 1.0;
    assert 0.0 < p < n;
    Fraction(p, n);
  }

  lemma Fraction(p: real, n: real)
    requires 0.0 < p < n
    ensures 0.0 < p / n < 1.0
  {
    var q := p / n;
    if q >= 1.0 {
      Scaled(q, n);
      assert false;
    }
  }

  lemma Scaled(q: real, n: real)
    requires q >= 1.0 && n > 0.0
    ensures q * n >= n
  {
  }

  lemma RecordKeeps(threshold: nat, m: Memory, l: Lesson)
    requires MemoryOk(threshold, m) && 0.0 <= l.confidence <= 1.0
    ensures MemoryOk(threshold, Recorded(threshold, m, l))
  {
    var next := Recorded(threshold, m, l);
    forall key | key in next.rows ensures RowOk(threshold, next, key) {
      OneObservationEach(next.observed, key, Support);
      OneObservationEach(next.observed, key, Counterexample);
      if key != l.key {
        assert RowOk(threshold, m, key);
        assert Evidence(next.observed, key, Support) == Evidence(m.observed, key, Support);
        assert Evidence(next.observed, key, Counterexample) == Evidence(m.observed, key, Counterexample);
      } else {
        BlendHalves(if key in m.rows then m.rows[key].confidence else l.confidence, next.rows[key].supports,
                    next.rows[key].counterexamples);
      }
    }
  }

  predicate Clamped(lessons: seq<Lesson>) {
    forall i :: 0 <= i < |lessons| ==> 0.0 <= lessons[i].confidence <= 1.0
  }

  lemma {:induction false} MemoryAlwaysOk(threshold: nat, lessons: seq<Lesson>)
    requires Clamped(lessons)
    ensures MemoryOk(threshold, RecordedAll(threshold, lessons))
  {
    hide Recorded;
    if lessons != [] {
      MemoryAlwaysOk(threshold, lessons[..|lessons| - 1]);
      RecordKeeps(threshold, RecordedAll(threshold, lessons[..|lessons| - 1]), lessons[|lessons| - 1]);
    }
  }

  function Observations(lessons: seq<Lesson>): set<Observation> {
    set l | l in lessons :: Observation(l.key, l.evidence, l.outcome)
  }

  lemma {:induction false} AllAreObserved(threshold: nat, lessons: seq<Lesson>)
    ensures RecordedAll(threshold, lessons).observed == Observations(lessons)
    ensures RecordedAll(threshold, lessons).rows.Keys == set o | o in Observations(lessons) :: o.key
  {
    if lessons != [] {
      var init, last := lessons[..|lessons| - 1], lessons[|lessons| - 1];
      AllAreObserved(threshold, init);
      assert lessons == init + [last];
      assert Observations(lessons) == Observations(init) + {Observation(last.key, last.evidence, last.outcome)};
    }
  }

  /** Counts and standing depend on the set of observations only: neither order nor repetition matters. */
  lemma {:induction false} OrderAndRepetitionDoNotMatter(threshold: nat, a: seq<Lesson>, b: seq<Lesson>, key: Key)
    requires Clamped(a) && Clamped(b)
    requires Observations(a) == Observations(b)
    ensures var x, y := RecordedAll(threshold, a).rows, RecordedAll(threshold, b).rows;
            && (key in x <==> key in y)
            && (key in x ==> x[key].supports == y[key].supports && x[key].counterexamples == y[key].counterexamples
                             && x[key].standing == y[key].standing)
  {
    MemoryAlwaysOk(threshold, a);
    MemoryAlwaysOk(threshold, b);
    AllAreObserved(threshold, a);
    AllAreObserved(threshold, b);
    var x, y := RecordedAll(threshold, a), RecordedAll(threshold, b);
    if key in x.rows { assert RowOk(threshold, x, key) && RowOk(threshold, y, key); }
  }

  /** Where a lesson stands, by its evidence on either side. */
  lemma {:induction false} StandingMeans(threshold: nat, lessons: seq<Lesson>, key: Key)
    requires threshold >= 2 && Clamped(lessons) && key in RecordedAll(threshold, lessons).rows
    ensures var m := RecordedAll(threshold, lessons);
            var pro, contra := |Evidence(m.observed, key, Support)|, |Evidence(m.observed, key, Counterexample)|;
            && (m.rows[key].standing == Contested <==> pro >= 1 && contra >= 1)
            && (m.rows[key].standing == Contradicted <==> pro == 0 && contra >= threshold)
            && (m.rows[key].standing == Validated <==> pro >= threshold && contra == 0)
            && (m.rows[key].standing == Candidate <==> (pro < threshold && contra == 0) || (pro == 0 && contra < threshold))
  {
    MemoryAlwaysOk(threshold, lessons);
    assert RowOk(threshold, RecordedAll(threshold, lessons), key);
  }

  /** The empirical value is the rule of succession: one more for either side than was seen, out of all; and what
      supports and what contradicts make up the whole. */
  lemma SuccessionRule(supports: nat, counterexamples: nat)
    ensures Empirical(supports, counterexamples) * (supports + counterexamples + 2) as real == (supports + 1) as real
    ensures Empirical(supports, counterexamples) + Empirical(counterexamples, supports) == 1.0
    ensures Empirical(0, 0) == 0.5
  {
    var n := supports as real + counterexamples as real + 2.0;
    assert Empirical(supports, counterexamples) + Empirical(counterexamples, supports)
        == (supports as real + 1.0 + (counterexamples as real + 1.0)) / n;
  }

  /** A lesson writes its own row only: the claim is its own, and the first confidence is blended with its own. */
  lemma RecordedRow(threshold: nat, m: Memory, l: Lesson)
    requires MemoryOk(threshold, m) && 0.0 <= l.confidence <= 1.0
    ensures var next := Recorded(threshold, m, l);
            && (forall key :: key in m.rows && key != l.key ==> key in next.rows && next.rows[key] == m.rows[key])
            && next.rows.Keys == m.rows.Keys + {l.key}
            && l.key in next.rows && next.rows[l.key].claim == l.claim
            && var r := next.rows[l.key];
            && r.confidence == (Empirical(r.supports, r.counterexamples)
                                + if l.key in m.rows then m.rows[l.key].confidence else l.confidence) / 2.0
  {
    hide Seen, StandingOf, Empirical, Blend;
    var r := Recorded(threshold, m, l).rows[l.key];
    if l.key in m.rows { assert RowOk(threshold, m, l.key); }
    BlendHalves(if l.key in m.rows then m.rows[l.key].confidence else l.confidence, r.supports, r.counterexamples);
  }

  /** Confidence is another matter: recording the very same lesson again moves it, half way to the empirical value,
      though nothing new was observed. It stays only if it is there already. */
  lemma RepetitionMovesConfidence(threshold: nat, m: Memory, l: Lesson)
    requires MemoryOk(threshold, m) && Observation(l.key, l.evidence, l.outcome) in m.observed
    ensures l.key in m.rows
    ensures var r, next := m.rows[l.key], Recorded(threshold, m, l);
            && next.observed == m.observed
            && next.rows[l.key].supports == r.supports && next.rows[l.key].standing == r.standing
            && (next.rows[l.key].confidence == r.confidence <==> r.confidence == Empirical(r.supports, r.counterexamples))
  {
    var r := m.rows[l.key];
    assert RowOk(threshold, m, l.key);
    assert m.observed + {Observation(l.key, l.evidence, l.outcome)} == m.observed;
    OneObservationEach(m.observed, l.key, Support);
    OneObservationEach(m.observed, l.key, Counterexample);
    BlendHalves(r.confidence, r.supports, r.counterexamples);
  }

  class ExperienceTable {
    const threshold: nat
    var rows: map<Key, Row>
    var observed: set<Observation>

    ghost predicate Valid()
      reads this
    {
      threshold >= 2 && MemoryOk(threshold, Memory(rows, observed))
    }

    constructor (threshold: int)
      ensures Valid() && rows == map[] && observed == {}
      ensures this.threshold == if threshold > 2 then threshold else 2
    {
      this.threshold := if threshold > 2 then threshold else 2;
      rows, observed := map[], {};
    }

    /** Inserts the row if it is missing and the observation if it is new, counts anew and updates the row. */
    method Record(l: Lesson)
      requires Valid() && 0.0 <= l.confidence <= 1.0
      modifies this
      ensures Valid()
      ensures Memory(rows, observed) == Recorded(threshold, Memory(old(rows), old(observed)), l)
    {
      hide MemoryOk, Seen, Blend, StandingOf;
      RecordKeeps(threshold, Memory(rows, observed), l);
      if l.key !in rows { rows := rows[l.key := Row(l.claim, l.confidence, Candidate, 0, 0)]; }
      var row := rows[l.key];
      observed := observed + {Observation(l.key, l.evidence, l.outcome)};
      var supports, counterexamples := |Seen(observed, l.key, Support)|, |Seen(observed, l.key, Counterexample)|;
      var standing := StandingOf(threshold, supports, counterexamples);
      var updated := Row(l.claim, Blend(row.confidence, supports, counterexamples), standing, supports, counterexamples);
      assert rows[l.key := updated] == old(rows)[l.key := updated];
      rows := rows[l.key := updated];
    }
  }
}
