/** Release versions: parsing, printing, and the order in which updates are offered. */
module SemVers {
  import opened Wrappers
  import opened Text
  import opened Orders

  datatype SemVer = SemVer(major: nat, minor: nat, patch: nat, pre: seq<string>)

  predicate IsDigit(c: char) { '0' <= c <= '9' }

  predicate IsWord(c: char) { IsDigit(c) || 'A' <= c <= 'Z' || 'a' <= c <= 'z' || c == '-' || c == '.' }

  predicate All(s: string, p: char -> bool) {
    forall i :: 0 <= i < |s| ==> p(s[i])
  }

  // ---- numbers ----

  function ToNat(s: string): nat
    requires All(s, IsDigit)
  {
    if s == "" then 0 else 10 * ToNat(s[..|s| - 1]) + (s[|s| - 1] as int - '0' as int)
  }

  function Decimal(n: nat): (s: string)
    ensures s != "" && All(s, IsDigit)
  {
    if n < 10 then ['0' + n as char] else Decimal(n / 10) + ['0' + (n % 10) as char]
  }

  lemma {:induction false} DecimalReadsBack(n: nat)
    ensures ToNat(Decimal(n)) == n
  {
    if n >= 10 {
      DecimalReadsBack(n / 10);
      assert Decimal(n)[..|Decimal(n)| - 1] == Decimal(n / 10);
    }
  }

  /** How many characters at the start of the text satisfy `p`. */
  function Span(s: string, p: char -> bool): (k: nat)
    ensures k <= |s|
  {
    if s == "" || !p(s[0]) then 0 else 1 + Span(s[1..], p)
  }

  lemma {:induction false} SpanOf(d: string, r: string, p: char -> bool)
    requires All(d, p) && (r == "" || !p(r[0]))
    ensures Span(d + r, p) == |d|
  {
    if d == "" {
      assert d + r == r;
    } else {
      assert (d + r)[1..] == d[1..] + r;
      SpanOf(d[1..], r, p);
    }
  }

  lemma {:induction false} SpanHolds(s: string, p: char -> bool)
    ensures All(s[..Span(s, p)], p)
  {
    if s != "" && p(s[0]) {
      SpanHolds(s[1..], p);
      var k := Span(s, p);
      assert s[1..][..k - 1] == s[..k][1..];
      forall i | 0 <= i < k ensures p(s[..k][i]) { if i > 0 { assert s[..k][i] == s[1..][..k - 1][i - 1]; } }
    }
  }

  // ---- identifiers ----

  /** `text.split(".")`. */
  function Split(s: string): (parts: seq<string>)
    ensures parts != []
  {
    if s == "" then [""]
    else if s[0] == '.' then [""] + Split(s[1..])
    else [[s[0]] + Split(s[1..])[0]] + Split(s[1..])[1..]
  }

  /** `".".join(parts)`. */
  function Join(parts: seq<string>): string {
    if parts == [] then "" else if |parts| == 1 then parts[0] else parts[0] + "." + Join(parts[1..])
  }

  predicate NoDot(c: char) { c != '.' }

  predicate Dotless(parts: seq<string>) {
    forall i :: 0 <= i < |parts| ==> All(parts[i], NoDot)
  }

  lemma {:induction false} SplitDotless(s: string)
    ensures Dotless(Split(s))
  {
    if s != "" {
      SplitDotless(s[1..]);
      var rest := Split(s[1..]);
      assert All(rest[0], NoDot);
    }
  }

  lemma Regroup(c: char, p: string, r: string)
    ensures ([c] + p) + "." + r == [c] + (p + "." + r)
  {
  }

  lemma JoinPrepends(c: char, parts: seq<string>)
    requires parts != []
    ensures Join([[c] + parts[0]] + parts[1..]) == [c] + Join(parts)
  {
    hide Join;
    var more := [[c] + parts[0]] + parts[1..];
    assert more[1..] == parts[1..];
    Regroup(c, parts[0], Join(parts[1..]));
    JoinStep(more);
    JoinStep(parts);
  }

  lemma JoinStep(parts: seq<string>)
    requires parts != []
    ensures Join(parts) == if |parts| == 1 then parts[0] else parts[0] + "." + Join(parts[1..])
  {
  }

  lemma JoinEmpty(parts: seq<string>)
    requires parts != []
    ensures Join([""] + parts) == "." + Join(parts)
  {
    hide Join;
    JoinStep([""] + parts);
    assert ([""] + parts)[1..] == parts;
    assert "" + "." == ".";
  }

  lemma {:induction false} JoinSplit(s: string)
    ensures Join(Split(s)) == s
  {
    hide Join;
    if s == "" {
      JoinOne("");
    } else {
      JoinSplit(s[1..]);
      JoinPrepends(s[0], Split(s[1..]));
      JoinEmpty(Split(s[1..]));
      assert [s[0]] + s[1..] == s;
    }
  }

  lemma JoinOne(s: string)
    ensures Join([s]) == s
  {
  }

  /** Splitting what a first part and the rest make together. */
  lemma {:induction false} SplitAfter(part: string, more: string)
    requires All(part, NoDot)
    ensures Split(part) == [part] && Split(part + "." + more) == [part] + Split(more)
  {
    if part == "" {
      assert part + "." + more == "." + more && ("." + more)[1..] == more;
    } else {
      SplitAfter(part[1..], more);
      assert [part[0]] + part[1..] == part;
      assert (part + "." + more)[1..] == part[1..] + "." + more;
    }
  }

  lemma {:induction false} SplitJoin(parts: seq<string>)
    requires parts != [] && Dotless(parts)
    ensures Split(Join(parts)) == parts
  {
    assert All(parts[0], NoDot);
    if |parts| == 1 {
      SplitAfter(parts[0], "");
    } else {
      SplitJoin(parts[1..]);
      SplitAfter(parts[0], Join(parts[1..]));
      assert [parts[0]] + parts[1..] == parts;
    }
  }

  // ---- parsing and printing ----

  function ReadNumber(s: string): Option<(nat, string)> {
    var k := Span(s, IsDigit);
    SpanHolds(s, IsDigit);
    if k == 0 then None else Some((ToNat(s[..k]), s[k..]))
  }

  function ReadDot(s: string): Option<string> {
    if s != "" && s[0] == '.' then Some(s[1..]) else None
  }

  predicate IsBuild(s: string) {
    |s| > 1 && s[0] == '+' && All(s[1..], IsWord)
  }

  /** What may follow the three numbers: a prerelease, a build, both or nothing. */
  function ReadTail(s: string): Option<seq<string>> {
    if s == "" || IsBuild(s) then Some([])
    else if s[0] != '-' then None
    else
      var k := Span(s[1..], IsWord);
      var rest := s[1..][k..];
      if k > 0 && (rest == "" || IsBuild(rest)) then Some(Split(s[1..][..k])) else None
  }

  function ParseNumbers(s: string): Option<(nat, nat, nat, string)> {
    var major := ReadNumber(s);
    if major.None? || ReadDot(major.value.1).None? then None else
    var minor := ReadNumber(ReadDot(major.value.1).value);
    if minor.None? || ReadDot(minor.value.1).None? then None else
    var patch := ReadNumber(ReadDot(minor.value.1).value);
    if patch.None? then None else Some((major.value.0, minor.value.0, patch.value.0, patch.value.1))
  }

  /** `SemVer.parse`. */
  function Parse(value: string): Option<SemVer> {
    var t := Strip(value);
    var numbers := ParseNumbers(if t != "" && t[0] == 'v' then t[1..] else t);
    if numbers.None? || ReadTail(numbers.value.3).None? then None
    else Some(SemVer(numbers.value.0, numbers.value.1, numbers.value.2, ReadTail(numbers.value.3).value))
  }

  function PreText(pre: seq<string>): string {
    if pre == [] then "" else "-" + Join(pre)
  }

  /** `str(version)`. */
  function Print(v: SemVer): string {
    Decimal(v.major) + "." + Decimal(v.minor) + "." + Decimal(v.patch) + PreText(v.pre)
  }

  /** `normalize_version`. */
  function Normalize(value: string): Option<string> {
    if Parse(value).Some? then Some(Print(Parse(value).value)) else None
  }

  /** What parsing can return: the prerelease joins to a text of word characters that is not empty. */
  predicate WellFormed(v: SemVer) {
    v.pre != [] ==> Dotless(v.pre) && Join(v.pre) != "" && All(Join(v.pre), IsWord)
  }

  lemma ParsedIsWellFormed(value: string)
    requires Parse(value).Some?
    ensures WellFormed(Parse(value).value)
  {
    var t := Strip(value);
    var tail := ParseNumbers(if t != "" && t[0] == 'v' then t[1..] else t).value.3;
    if tail != "" && !IsBuild(tail) {
      var word := tail[1..][..Span(tail[1..], IsWord)];
      SpanHolds(tail[1..], IsWord);
      JoinSplit(word);
      SplitDotless(word);
    }
  }

  lemma ReadsNumber(n: nat, rest: string)
    requires rest == "" || !IsDigit(rest[0])
    ensures ReadNumber(Decimal(n) + rest) == Some((n, rest))
  {
    SpanOf(Decimal(n), rest, IsDigit);
    DecimalReadsBack(n);
    assert (Decimal(n) + rest)[..|Decimal(n)|] == Decimal(n);
  }

  lemma ReadsTail(pre: seq<string>)
    requires pre != [] ==> Dotless(pre) && Join(pre) != "" && All(Join(pre), IsWord)
    ensures ReadTail(PreText(pre)) == Some(pre)
  {
    if pre != [] {
      var word := Join(pre);
      assert PreText(pre)[1..] == word && word + "" == word;
      SpanOf(word, "", IsWord);
      SplitJoin(pre);
      assert word[..|word|] == word;
    }
  }

  lemma ReadsNumbers(v: SemVer)
    ensures ParseNumbers(Print(v)) == Some((v.major, v.minor, v.patch, PreText(v.pre)))
  {
    hide ReadNumber, Decimal;
    var tail := PreText(v.pre);
    var c := Decimal(v.patch) + tail;
    var b := Decimal(v.minor) + ("." + c);
    assert Print(v) == Decimal(v.major) + ("." + b);
    ReadsNumber(v.major, "." + b);
    assert ("." + b)[1..] == b && ("." + c)[1..] == c;
    ReadsNumber(v.minor, "." + c);
    ReadsNumber(v.patch, tail);
  }

  lemma PrintIsTrimmed(v: SemVer)
    requires WellFormed(v)
    ensures Trimmed(Print(v)) && Print(v) != "" && Print(v)[0] != 'v'
  {
    var s := Print(v);
    assert s[0] == Decimal(v.major)[0];
    if v.pre == [] {
      assert s[|s| - 1] == Decimal(v.patch)[|Decimal(v.patch)| - 1];
    } else {
      assert s[|s| - 1] == Join(v.pre)[|Join(v.pre)| - 1];
    }
  }

  /** Printing a version and parsing it again gives the version back. */
  lemma {:induction false} PrintedReadsBack(v: SemVer)
    requires WellFormed(v)
    ensures Parse(Print(v)) == Some(v)
  {
    hide Print, ParseNumbers, ReadTail;
    PrintIsTrimmed(v);
    ReadsNumbers(v);
    ReadsTail(v.pre);
  }

  /** Normalizing is idempotent, and two texts normalize alike exactly when they mean the same version. */
  lemma NormalizingTwice(a: string, b: string)
    requires Parse(a).Some? && Parse(b).Some?
    ensures Normalize(Normalize(a).value) == Normalize(a)
    ensures Normalize(a) == Normalize(b) <==> Parse(a) == Parse(b)
  {
    hide Parse, Print, WellFormed;
    ParsedIsWellFormed(a);
    ParsedIsWellFormed(b);
    PrintedReadsBack(Parse(a).value);
    PrintedReadsBack(Parse(b).value);
  }

  // ---- the language of versions ----

  /** A text spells a version: an optional `v`, three numbers, the prerelease, and an optional build. */
  predicate SpelledOut(t: string, v: SemVer, lead: string, a: string, b: string, c: string, build: string) {
    && (lead == "" || lead == "v") && (build == "" || IsBuild(build))
    && Numeric(a) && Numeric(b) && Numeric(c) && ToNat(a) == v.major && ToNat(b) == v.minor && ToNat(c) == v.patch
    && t == lead + (a + ("." + (b + ("." + (c + (PreText(v.pre) + build))))))
  }

  ghost predicate Spells(t: string, v: SemVer) {
    exists lead, a, b, c, build :: SpelledOut(t, v, lead, a, b, c, build)
  }

  lemma ReadsDigits(a: string, rest: string)
    requires Numeric(a) && (rest == "" || !IsDigit(rest[0]))
    ensures ReadNumber(a + rest) == Some((ToNat(a), rest))
  {
    SpanOf(a, rest, IsDigit);
    assert (a + rest)[..|a|] == a;
  }

  lemma NumberIsDigits(s: string)
    requires ReadNumber(s).Some?
    ensures var a := s[..|s| - |ReadNumber(s).value.1|];
            Numeric(a) && ToNat(a) == ReadNumber(s).value.0 && s == a + ReadNumber(s).value.1
  {
    SpanHolds(s, IsDigit);
  }

  lemma DotIsDot(s: string)
    ensures ReadDot(s).Some? ==> s == "." + ReadDot(s).value
    ensures ReadDot("." + s) == Some(s)
  {
  }

  lemma ReadsTailAndBuild(v: SemVer, build: string)
    requires WellFormed(v) && (build == "" || IsBuild(build))
    ensures ReadTail(PreText(v.pre) + build) == Some(v.pre)
    ensures var tail := PreText(v.pre) + build; tail == "" || tail[0] == '-' || tail[0] == '+'
  {
    if v.pre == [] {
      assert "" + build == build;
    } else {
      var word := Join(v.pre);
      var tail := PreText(v.pre) + build;
      assert tail == "-" + (word + build) && tail[1..] == word + build;
      SpanOf(word, build, IsWord);
      SplitJoin(v.pre);
      assert tail[1..][..|word|] == word && tail[1..][|word|..] == build;
    }
  }

  lemma TailIsPreAndBuild(s: string) returns (build: string)
    requires ReadTail(s).Some?
    ensures (build == "" || IsBuild(build)) && s == PreText(ReadTail(s).value) + build
  {
    if s == "" || IsBuild(s) {
      build := s;
    } else {
      var k := Span(s[1..], IsWord);
      build := s[1..][k..];
      JoinSplit(s[1..][..k]);
      assert s == "-" + (s[1..][..k] + s[1..][k..]);
    }
  }

  lemma SpelledNumbers(v: SemVer, a: string, b: string, c: string, tail: string)
    requires Numeric(a) && Numeric(b) && Numeric(c) && ToNat(a) == v.major && ToNat(b) == v.minor && ToNat(c) == v.patch
    requires tail == "" || !IsDigit(tail[0])
    ensures ParseNumbers(a + ("." + (b + ("." + (c + tail))))) == Some((v.major, v.minor, v.patch, tail))
  {
    hide ReadNumber, ReadDot, Numeric, ToNat;
    ReadsDigits(a, "." + (b + ("." + (c + tail))));
    DotIsDot(b + ("." + (c + tail)));
    ReadsDigits(b, "." + (c + tail));
    DotIsDot(c + tail);
    ReadsDigits(c, tail);
  }

  lemma NumbersAreSpelled(s: string) returns (a: string, b: string, c: string)
    requires ParseNumbers(s).Some?
    ensures Numeric(a) && Numeric(b) && Numeric(c)
    ensures var n := ParseNumbers(s).value;
            && ToNat(a) == n.0 && ToNat(b) == n.1 && ToNat(c) == n.2
            && s == a + ("." + (b + ("." + (c + n.3))))
  {
    hide ReadNumber, ReadDot, Numeric, ToNat;
    var x := ReadNumber(s).value;
    NumberIsDigits(s);
    a := s[..|s| - |x.1|];
    DotIsDot(x.1);
    var after := ReadDot(x.1).value;
    var y := ReadNumber(after).value;
    NumberIsDigits(after);
    b := after[..|after| - |y.1|];
    DotIsDot(y.1);
    var last := ReadDot(y.1).value;
    NumberIsDigits(last);
    c := last[..|last| - |ReadNumber(last).value.1|];
  }

  lemma SpelledIsParsed(value: string, v: SemVer, lead: string, a: string, b: string, c: string, build: string)
    requires WellFormed(v) && SpelledOut(Strip(value), v, lead, a, b, c, build)
    ensures Parse(value) == Some(v)
  {
    hide Strip, ParseNumbers, ReadTail, WellFormed, PreText, ToNat;
    var t, tail := Strip(value), PreText(v.pre) + build;
    var body := a + ("." + (b + ("." + (c + tail))));
    ReadsTailAndBuild(v, build);
    SpelledNumbers(v, a, b, c, tail);
    assert t == lead + body;
    if lead == "v" { assert t[1..] == body; } else { assert t == body && t[0] == a[0]; }
  }

  /** A text parses as a version exactly when it spells it, apart from white space around it: every other text is
      refused, and no text is read as two versions. */
  lemma {:induction false} ParsesExactly(value: string, v: SemVer)
    ensures Parse(value) == Some(v) <==> WellFormed(v) && Spells(Strip(value), v)
  {
    hide Strip, ParseNumbers, ReadTail, WellFormed, PreText, ToNat, Numeric;
    if Parse(value) == Some(v) {
      var t := Strip(value);
      ParsedIsWellFormed(value);
      var lead := if t != "" && t[0] == 'v' then "v" else "";
      var body := if t != "" && t[0] == 'v' then t[1..] else t;
      var a, b, c := NumbersAreSpelled(body);
      var build := TailIsPreAndBuild(ParseNumbers(body).value.3);
      assert t == lead + body;
      assert SpelledOut(t, v, lead, a, b, c, build);
    }
    if WellFormed(v) && Spells(Strip(value), v) {
      var lead, a, b, c, build :| SpelledOut(Strip(value), v, lead, a, b, c, build);
      SpelledIsParsed(value, v, lead, a, b, c, build);
    }
  }

  // ---- order ----

  predicate Numeric(id: string) {
    id != "" && All(id, IsDigit)
  }

  /** Section 11.4 of Semantic Versioning 2.0.0: numbers by value, before words; words in ASCII order. */
  predicate IdLess(a: string, b: string) {
    if Numeric(a) && Numeric(b) then ToNat(a) < ToNat(b)
    else if Numeric(a) || Numeric(b) then Numeric(a)
    else LexLess(CharLess, a, b)
  }

  predicate NumbersPrecede(a: SemVer, b: SemVer) {
    a.major < b.major || (a.major == b.major && (a.minor < b.minor || (a.minor == b.minor && a.patch < b.patch)))
  }

  predicate SameNumbers(a: SemVer, b: SemVer) {
    a.major == b.major && a.minor == b.minor && a.patch == b.patch
  }

  /** Section 11: the three numbers, then the prerelease; a version without one comes last. */
  predicate Precedes(a: SemVer, b: SemVer) {
    || NumbersPrecede(a, b)
    || (SameNumbers(a, b) && a.pre != [] && (b.pre == [] || LexLess(IdLess, a.pre, b.pre)))
  }

  lemma IdLessIsStrictWeak()
    ensures StrictWeak(IdLess)
  {
    assert StrictWeak(CharLess);
    forall a, b, c
      ensures IdLess(a, b) ==> !IdLess(b, a)
      ensures IdLess(a, c) ==> IdLess(a, b) || IdLess(b, c)
    {
      LexIsStrictWeak(CharLess, a, b, c);
    }
  }

  /** Precedence is a strict weak order. */
  lemma PrecedenceIsStrictWeak()
    ensures StrictWeak(Precedes)
  {
    IdLessIsStrictWeak();
    forall a, b, c
      ensures Precedes(a, b) ==> !Precedes(b, a)
      ensures Precedes(a, c) ==> Precedes(a, b) || Precedes(b, c)
    {
      hide LexLess, IdLess;
      LexIsStrictWeak(IdLess, a.pre, b.pre, c.pre);
    }
  }

  // ---- the sort key, compared the way tuples are ----

  datatype Value = I(n: int) | S(s: string) | T(items: seq<Value>)

  /** `a < b`, or None where the comparison raises: a number with a text, or either with a tuple. */
  function Less(a: Value, b: Value): Option<bool> {
    match (a, b)
    case (I(x), I(y)) => Some(x < y)
    case (S(x), S(y)) => Some(LexLess(CharLess, x, y))
    case (T(x), T(y)) => LessItems(x, y)
    case _ => None
  }

  function LessItems(x: seq<Value>, y: seq<Value>): Option<bool> {
    if x == [] || y == [] then Some(x == [] && y != [])
    else if x[0] != y[0] then Less(x[0], y[0])
    else LessItems(x[1..], y[1..])
  }

  function IdKey(id: string): Value {
    if Numeric(id) then T([I(0), I(ToNat(id))]) else T([I(1), S(id)])
  }

  function IdKeys(pre: seq<string>): seq<Value> {
    if pre == [] then [] else [IdKey(pre[0])] + IdKeys(pre[1..])
  }

  /** `_pre_key`. */
  function PreKey(pre: seq<string>): Value {
    if pre == [] then T([I(1)]) else T([I(0)] + IdKeys(pre))
  }

  /** `sort_key`. */
  function SortKey(v: SemVer): Value {
    T([I(v.major), I(v.minor), I(v.patch), PreKey(v.pre)])
  }

  lemma PairsCompare(k: Value, u: Value, l: Value, v: Value)
    ensures LessItems([k, u], [l, v]) == if k != l then Less(k, l) else if u != v then Less(u, v) else Some(false)
  {
    assert [k, u][1..] == [u] && [l, v][1..] == [v];
    assert LessItems([u], [v]) == if u != v then Less(u, v) else LessItems([u][1..], [v][1..]);
  }

  lemma IdKeysCompare(a: string, b: string)
    ensures IdKey(a) != IdKey(b) ==> Less(IdKey(a), IdKey(b)) == Some(IdLess(a, b)) && (IdLess(a, b) || IdLess(b, a))
    ensures IdKey(a) == IdKey(b) ==> !IdLess(a, b) && !IdLess(b, a)
  {
    hide LexLess, LessItems, ToNat;
    PairsCompare(IdKey(a).items[0], IdKey(a).items[1], IdKey(b).items[0], IdKey(b).items[1]);
    LexIrreflexive(a);
    if !LexLess(CharLess, a, b) && !LexLess(CharLess, b, a) { SameText(a, b); }
  }

  lemma {:induction false} PreKeysCompare(p: seq<string>, q: seq<string>)
    ensures Less(T(IdKeys(p)), T(IdKeys(q))) == Some(LexLess(IdLess, p, q))
  {
    if p != [] && q != [] {
      IdKeysCompare(p[0], q[0]);
      PreKeysCompare(p[1..], q[1..]);
    }
  }

  lemma FirstItems(x: Value, y: Value, p: seq<Value>, q: seq<Value>)
    ensures LessItems([x] + p, [y] + q) == if x != y then Less(x, y) else LessItems(p, q)
  {
    assert ([x] + p)[1..] == p && ([y] + q)[1..] == q;
  }

  lemma PreKeyCompares(p: seq<string>, q: seq<string>)
    ensures PreKey(p) != PreKey(q) ==> Less(PreKey(p), PreKey(q)) == Some(p != [] && (q == [] || LexLess(IdLess, p, q)))
    ensures PreKey(p) == PreKey(q) ==> !(p != [] && (q == [] || LexLess(IdLess, p, q)))
  {
    hide LexLess;
    PreKeysCompare(p, q);
    FirstItems(PreKey(p).items[0], PreKey(q).items[0], PreKey(p).items[1..], PreKey(q).items[1..]);
    assert PreKey(p).items == [PreKey(p).items[0]] + PreKey(p).items[1..];
    assert PreKey(q).items == [PreKey(q).items[0]] + PreKey(q).items[1..];
    if p != [] && q != [] {
      assert PreKey(p).items[1..] == IdKeys(p) && PreKey(q).items[1..] == IdKeys(q);
      if PreKey(p) == PreKey(q) { SameItems(IdKeys(p)); }
    }
  }

  lemma {:induction false} SameItems(x: seq<Value>)
    ensures LessItems(x, x) == Some(false)
  {
    if x != [] { SameItems(x[1..]); }
  }

  /** Comparing sort keys never raises, and gives the precedence of section 11. */
  lemma SortKeyIsPrecedence(a: SemVer, b: SemVer)
    ensures Less(SortKey(a), SortKey(b)) == Some(Precedes(a, b))
  {
    hide LessItems, LexLess, PreKey;
    PreKeyCompares(a.pre, b.pre);
    var x, y := SortKey(a).items, SortKey(b).items;
    FirstItems(x[0], y[0], x[1..], y[1..]);
    FirstItems(x[1], y[1], x[2..], y[2..]);
    FirstItems(x[2], y[2], x[3..], y[3..]);
    FirstItems(x[3], y[3], [], []);
    SameItems([]);
    assert x == [x[0]] + x[1..] && x[1..] == [x[1]] + x[2..] && x[2..] == [x[2]] + x[3..] && x[3..] == [x[3]] + [];
    assert y == [y[0]] + y[1..] && y[1..] == [y[1]] + y[2..] && y[2..] == [y[2]] + y[3..] && y[3..] == [y[3]] + [];
  }

  // ---- which updates are offered ----

  datatype Channel = Stable | Beta | Edge

  /** `_candidate_available`; None where a version does not parse. */
  function Available(current: string, currentCommit: Option<string>, version: string, commit: Option<string>,
                     channel: Channel, exact: bool): Option<bool>
  {
    if channel == Edge then Some(currentCommit != commit)
    else if Parse(current).None? || Parse(version).None? then None
    else if exact then Some(Normalize(current) != Normalize(version))
    else Less(SortKey(Parse(current).value), SortKey(Parse(version).value))
  }

  /** Nothing can be said exactly when a version does not parse off the edge channel; on it, the commits decide. */
  lemma EdgeOffers(current: string, currentCommit: Option<string>, version: string, commit: Option<string>,
                   channel: Channel, exact: bool)
    ensures Available(current, currentCommit, version, commit, channel, exact).None? <==>
      channel != Edge && (Parse(current).None? || Parse(version).None?)
    ensures channel == Edge ==>
      (Available(current, currentCommit, version, commit, channel, exact) == Some(false) <==> commit == currentCommit)
  {
    if channel != Edge && Parse(current).Some? && Parse(version).Some? {
      SortKeyIsPrecedence(Parse(current).value, Parse(version).value);
    }
  }

  /** Off the edge channel, an update that was not asked for by version is offered exactly when it is newer; one that
      was, exactly when it is another version. Once installed, neither is offered again. */
  lemma OffersOnlyNewer(current: string, version: string, commit: Option<string>, other: Option<string>,
                        channel: Channel)
    requires channel != Edge && Parse(current).Some? && Parse(version).Some?
    ensures Available(current, other, version, commit, channel, false)
         == Some(Precedes(Parse(current).value, Parse(version).value))
    ensures Available(current, other, version, commit, channel, true) == Some(Parse(current) != Parse(version))
    ensures Available(version, other, version, commit, channel, false) == Some(false)
    ensures Available(version, other, version, commit, channel, true) == Some(false)
  {
    hide Parse, Precedes, SortKey, Less, Normalize;
    SortKeyIsPrecedence(Parse(current).value, Parse(version).value);
    SortKeyIsPrecedence(Parse(version).value, Parse(version).value);
    NormalizingTwice(current, version);
    PrecedenceIsStrictWeak();
  }

  /** Two offers in a row make one: what is newer than a newer version is newer. */
  lemma OffersCompose(a: SemVer, b: SemVer, c: SemVer)
    requires Precedes(a, b) && Precedes(b, c)
    ensures Precedes(a, c) && !Precedes(c, a)
  {
    hide Precedes;
    PrecedenceIsStrictWeak();
  }
}
