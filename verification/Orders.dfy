/** Lexicographic order, over texts and over any other sequences. */
module Orders {
  /** Irreflexive, asymmetric, and nothing slips between two that are in order. */
  ghost predicate StrictWeak<T(!new)>(less: (T, T) -> bool) {
    && (forall a, b :: less(a, b) ==> !less(b, a))
    && (forall a, b, c :: less(a, c) ==> less(a, b) || less(b, c))
  }

  /** Position by position; a proper prefix comes first. */
  function LexLess<T>(less: (T, T) -> bool, p: seq<T>, q: seq<T>): bool {
    if p == [] || q == [] then p == [] && q != []
    else less(p[0], q[0]) || (!less(q[0], p[0]) && LexLess(less, p[1..], q[1..]))
  }

  lemma {:induction false} LexIsStrictWeak<T(!new)>(less: (T, T) -> bool, p: seq<T>, q: seq<T>, r: seq<T>)
    requires StrictWeak(less)
    ensures LexLess(less, p, q) ==> !LexLess(less, q, p)
    ensures LexLess(less, p, r) ==> LexLess(less, p, q) || LexLess(less, q, r)
  {
    if p != [] && q != [] && r != [] {
      LexIsStrictWeak(less, p[1..], q[1..], r[1..]);
      assert less(p[0], r[0]) ==> less(p[0], q[0]) || less(q[0], r[0]);
      assert less(q[0], p[0]) ==> less(q[0], r[0]) || less(r[0], p[0]);
      assert less(r[0], q[0]) ==> less(r[0], p[0]) || less(p[0], q[0]);
    } else if p != [] && q != [] {
      LexIsStrictWeak(less, p[1..], q[1..], []);
    }
  }

  predicate CharLess(a: char, b: char) { a < b }

  lemma {:induction false} SameText(a: string, b: string)
    requires !LexLess(CharLess, a, b) && !LexLess(CharLess, b, a)
    ensures a == b
  {
    if a != "" && b != "" { SameText(a[1..], b[1..]); }
  }

  lemma {:induction false} LexIrreflexive(a: string)
    ensures !LexLess(CharLess, a, a)
  {
    if a != "" { LexIrreflexive(a[1..]); }
  }

  /** Texts whose first parts are of one length compare by these first. */
  lemma {:induction false} FirstPartsDecide(a: string, b: string, c: string, d: string)
    requires |a| == |c|
    ensures LexLess(CharLess, a + b, c + d) <==> LexLess(CharLess, a, c) || (a == c && LexLess(CharLess, b, d))
  {
    if a == "" {
      assert a + b == b && c + d == d;
    } else {
      assert (a + b)[1..] == a[1..] + b && (c + d)[1..] == c[1..] + d;
      FirstPartsDecide(a[1..], b, c[1..], d);
      if a[0] == c[0] && a[1..] == c[1..] { assert a == [a[0]] + a[1..] && c == [c[0]] + c[1..]; }
    }
  }
}
