/** Text clean-up as the records use it: Python's `strip` and `upper`. */
module Text {

  /** The characters for which `str.isspace` holds. */
  predicate IsSpace(c: char) {
    var n := c as int;
    9 <= n <= 13 || 28 <= n <= 32 || n == 0x85 || n == 0xA0 || n == 0x1680 || 0x2000 <= n <= 0x200A
    || n == 0x2028 || n == 0x2029 || n == 0x202F || n == 0x205F || n == 0x3000
  }

  /** True when every character is white space; the empty text is blank. */
  predicate Blank(s: string) {
    forall i :: 0 <= i < |s| ==> IsSpace(s[i])
  }

  predicate Trimmed(s: string) {
    s == "" || (!IsSpace(s[0]) && !IsSpace(s[|s| - 1]))
  }

  /** The first index from `i` on whose character is not white space. */
  function Lead(s: string, i: nat): (r: nat)
    requires i <= |s|
    ensures i <= r <= |s| && (r < |s| ==> !IsSpace(s[r]))
    ensures forall k :: i <= k < r ==> IsSpace(s[k])
    decreases |s| - i
  {
    if i < |s| && IsSpace(s[i]) then Lead(s, i + 1) else i
  }

  /** The end of the text once the white space before `j` is dropped, but no earlier than `i`. */
  function Trail(s: string, i: nat, j: nat): (r: nat)
    requires i <= j <= |s|
    ensures i <= r <= j && (r > i ==> !IsSpace(s[r - 1]))
    ensures forall k :: r <= k < j ==> IsSpace(s[k])
    decreases j
  {
    if j > i && IsSpace(s[j - 1]) then Trail(s, i, j - 1) else j
  }

  /** `str.strip()`: no white space at either end, and only white space removed. */
  function Strip(s: string): (r: string)
    ensures Trimmed(r)
    ensures r == "" <==> Blank(s)
    ensures Trimmed(s) ==> r == s
  {
    var i := Lead(s, 0);
    s[i..Trail(s, i, |s|)]
  }

  /** `str.upper()` on ASCII letters. */
  function Upper(s: string): (r: string)
    ensures |r| == |s|
  {
    seq(|s|, i requires 0 <= i < |s| => if 'a' <= s[i] <= 'z' then s[i] - 32 as char else s[i])
  }

  /** Only white space is taken off, and only at the ends. */
  lemma StripTakesSpaceOnly(s: string)
    ensures exists i, j :: 0 <= i <= j <= |s| && Strip(s) == s[i..j] && Blank(s[..i]) && Blank(s[j..])
  {
    var i := Lead(s, 0);
    var j := Trail(s, i, |s|);
    assert Strip(s) == s[i..j];
  }

  predicate SameLetter(a: char, b: char) {
    a == b || ('a' <= a <= 'z' && b == a - 32 as char) || ('a' <= b <= 'z' && a == b - 32 as char)
  }

  /** Two texts are one in upper case exactly when they differ in the case of letters only. */
  lemma UpperForgetsCase(a: string, b: string)
    ensures Upper(a) == Upper(b) <==> |a| == |b| && forall i :: 0 <= i < |a| ==> SameLetter(a[i], b[i])
  {
    if Upper(a) == Upper(b) {
      forall i | 0 <= i < |a| ensures SameLetter(a[i], b[i]) { assert Upper(a)[i] == Upper(b)[i]; }
    }
  }
}

/** The planner's decisions and how they are cleaned, stored and read back. */
module Models {
  import opened Wrappers
  import opened Text

  datatype Kind = EXECUTE | WAIT | FINISH | BLOCK | CANCEL

  /** The `kind` field holds a member of the enumeration or a text. */
  datatype KindField = Enum(kind: Kind) | Raw(text: string)

  type Args = map<string, string>

  datatype Decision = Decision(
    kind: KindField,
    reason: string,
    capability: Option<string>,
    arguments: Args,
    riskTier: int,
    verifierId: string,
    key: Option<string>,
    evidenceId: Option<nat>,
    waitMicros: Option<int>,
    terminalOnPass: bool,
    experienceKey: Option<string>,
    experienceScope: Args)

  /** The twelve entries `as_dict` writes and the database keeps as JSON. */
  datatype Payload = Payload(
    kind: string,
    reason: string,
    capability: Option<string>,
    arguments: Args,
    riskTier: int,
    verifierId: string,
    key: Option<string>,
    evidenceId: Option<nat>,
    waitMicros: Option<int>,
    terminalOnPass: bool,
    experienceKey: Option<string>,
    experienceScope: Args)

  datatype ValueError =
    | UnknownKind | EmptyReason | NeedsCapability | NeedsEvidence | NegativeWait | StrayCapability | BadRisk

  datatype Verdict = PASS | FAIL | INCONCLUSIVE | INVALID | ERROR

  datatype Verification = Verification(verdict: Verdict, verifierId: string, summary: string, detail: Args)

  datatype CapabilityResult = CapabilityResult(status: string, observation: Args)

  function KindName(k: Kind): string {
    match k
    case EXECUTE => "EXECUTE"
    case WAIT => "WAIT"
    case FINISH => "FINISH"
    case BLOCK => "BLOCK"
    case CANCEL => "CANCEL"
  }

  function ParseKind(s: string): Option<Kind> {
    if s == "EXECUTE" then Some(EXECUTE)
    else if s == "WAIT" then Some(WAIT)
    else if s == "FINISH" then Some(FINISH)
    else if s == "BLOCK" then Some(BLOCK)
    else if s == "CANCEL" then Some(CANCEL)
    else None
  }

  function KindOf(f: KindField): Option<Kind> {
    match f
    case Enum(k) => Some(k)
    case Raw(s) => ParseKind(Upper(s))
  }

  /** `x.strip() if x else None`: an empty text becomes None, a blank one becomes the empty text. */
  function Clean(o: Option<string>): Option<string> {
    if o.Some? && o.value != "" then Some(Strip(o.value)) else None
  }

  function StripOr(s: string, fallback: string): string {
    if Strip(s) == "" then fallback else Strip(s)
  }

  /** The first check of `normalized` that a decision fails, in the source's order. */
  function Complaint(d: Decision): Option<ValueError> {
    var kind := KindOf(d.kind);
    if kind.None? then Some(UnknownKind)
    else if Blank(d.reason) then Some(EmptyReason)
    else if kind.value == EXECUTE && (d.capability.None? || Blank(d.capability.value)) then Some(NeedsCapability)
    else if kind.value == FINISH && d.evidenceId.None? then Some(NeedsEvidence)
    else if kind.value == WAIT && d.waitMicros.Some? && d.waitMicros.value < 0 then Some(NegativeWait)
    else if kind.value != EXECUTE && d.capability.Some? && d.capability.value != "" then Some(StrayCapability)
    else if !(0 <= d.riskTier <= 4) then Some(BadRisk)
    else None
  }

  function Normalized(d: Decision): Result<Decision, ValueError> {
    match Complaint(d)
    case Some(e) => Failure(e)
    case None => Success(d.(
      kind := Enum(KindOf(d.kind).value),
      reason := Strip(d.reason),
      capability := Clean(d.capability),
      verifierId := StripOr(d.verifierId, "default"),
      key := Clean(d.key),
      experienceKey := Clean(d.experienceKey)))
  }

  function AsDict(d: Decision): Result<Payload, ValueError> {
    match Normalized(d)
    case Failure(e) => Failure(e)
    case Success(n) => Success(Payload(
      KindName(n.kind.kind), n.reason, n.capability, n.arguments, n.riskTier, n.verifierId, n.key,
      n.evidenceId, n.waitMicros, n.terminalOnPass, n.experienceKey, n.experienceScope))
  }

  function FromDict(p: Payload): Result<Decision, ValueError> {
    Normalized(Decision(
      Raw(p.kind), p.reason, p.capability, p.arguments, p.riskTier,
      if p.verifierId == "" then "default" else p.verifierId,
      p.key, p.evidenceId, p.waitMicros, p.terminalOnPass, p.experienceKey, p.experienceScope))
  }

  /** A decision that cleaning leaves as it is. */
  predicate Settled(d: Decision) {
    Normalized(d) == Success(d)
  }

  /** A key made of white space only: the first cleaning empties it, the second one drops it. */
  predicate BlankText(o: Option<string>) {
    o.Some? && o.value != "" && Blank(o.value)
  }

  lemma KindNamesParse(k: Kind)
    ensures ParseKind(Upper(KindName(k))) == Some(k)
  {
    var s := KindName(k);
    assert Upper(s) == s by {
      assert forall i :: 0 <= i < |s| ==> !('a' <= s[i] <= 'z');
    }
  }

  lemma CleanTwice(o: Option<string>)
    ensures Clean(Clean(o)) == Clean(o) <==> !BlankText(o)
    ensures Clean(Clean(Clean(o))) == Clean(Clean(o))
  {
    if o.Some? && o.value != "" {
      assert Trimmed(Strip(o.value));
    }
  }

  lemma StripOrTwice(s: string)
    ensures StripOr(StripOr(s, "default"), "default") == StripOr(s, "default")
    ensures StripOr(s, "default") != ""
  {
    assert Trimmed("default");
    assert Trimmed(Strip(s));
  }

  lemma CleanedKind(d: Decision)
    requires Normalized(d).Success?
    ensures KindOf(d.kind).Some? && Normalized(d).value.kind == Enum(KindOf(d.kind).value)
    ensures AsDict(Normalized(d).value).Success?
  {
    CleanedPasses(d);
  }

  lemma CleanedPasses(d: Decision)
    requires Normalized(d).Success?
    ensures Complaint(Normalized(d).value) == None
    ensures Normalized(d).value.capability == Clean(Normalized(d).value.capability)
  {
    var n := Normalized(d).value;
    assert Strip(d.reason) != "" && Trimmed(Strip(d.reason));
    assert !Blank(n.reason) by { assert Strip(n.reason) == n.reason; }
    if d.capability.Some? && d.capability.value != "" {
      assert KindOf(d.kind) == Some(EXECUTE);
      var c := Strip(d.capability.value);
      assert Trimmed(c) && c != "" && Strip(c) == c;
    }
  }

  /** Cleaning a cleaned decision changes nothing exactly when neither key was blank text. */
  lemma NormalizingTwice(d: Decision)
    requires Normalized(d).Success?
    ensures Settled(Normalized(d).value) <==> !BlankText(d.key) && !BlankText(d.experienceKey)
    ensures Normalized(Normalized(d).value).Success? && Settled(Normalized(Normalized(d).value).value)
  {
    var n := Normalized(d).value;
    CleanedPasses(d);
    CleanedPasses(n);
    CleanTwice(d.key);
    CleanTwice(d.experienceKey);
    StripOrTwice(d.verifierId);
    assert Strip(n.reason) == n.reason by { assert Trimmed(Strip(d.reason)); }
  }

  /** A text names a kind, in letters of either case, exactly when it is one of the five names. */
  lemma KindsExactly(s: string, k: Kind)
    ensures KindOf(Raw(s)) == Some(k) <==>
      Upper(s) == match k case EXECUTE => "EXECUTE" case WAIT => "WAIT" case FINISH => "FINISH"
                          case BLOCK => "BLOCK" case CANCEL => "CANCEL"
  {
    var u := Upper(s);
    if u == "EXECUTE" { assert u[0] == 'E'; }
  }

  /** What `normalized` asks for, and what it keeps: the work itself untouched, the texts trimmed. */
  lemma CleaningExactly(d: Decision)
    ensures Normalized(d).Success? <==>
      && KindOf(d.kind).Some? && !Blank(d.reason) && 0 <= d.riskTier <= 4
      && (if KindOf(d.kind) == Some(EXECUTE) then d.capability.Some? && !Blank(d.capability.value)
          else d.capability.None? || d.capability.value == "")
      && (KindOf(d.kind) == Some(FINISH) ==> d.evidenceId.Some?)
      && (KindOf(d.kind) == Some(WAIT) && d.waitMicros.Some? ==> 0 <= d.waitMicros.value)
    ensures Normalized(d).Success? ==>
      var n := Normalized(d).value;
      && n.arguments == d.arguments && n.riskTier == d.riskTier && n.evidenceId == d.evidenceId
      && n.waitMicros == d.waitMicros && n.terminalOnPass == d.terminalOnPass && n.experienceScope == d.experienceScope
      && KindOf(d.kind) == Some(n.kind.kind) && n.reason == Strip(d.reason)
      && n.verifierId == (if Blank(d.verifierId) then "default" else Strip(d.verifierId))
      && TrimmedTo(d.capability, n.capability) && TrimmedTo(d.key, n.key) && TrimmedTo(d.experienceKey, n.experienceKey)
  {
  }

  /** An optional text is trimmed; an empty one counts as none. */
  predicate TrimmedTo(a: Option<string>, b: Option<string>) {
    if a.None? || a.value == "" then b.None? else b == Some(Strip(a.value))
  }

  /** The work that a decision asks for, whoever keeps it and in what form. */
  datatype Work = Work(capability: Option<string>, arguments: Args, riskTier: int, verifierId: string,
                       terminalOnPass: bool, experienceScope: Args)

  function WorkOf(d: Decision): Work {
    Work(d.capability, d.arguments, d.riskTier, d.verifierId, d.terminalOnPass, d.experienceScope)
  }

  function StoredWork(p: Payload): Work {
    Work(p.capability, p.arguments, p.riskTier, p.verifierId, p.terminalOnPass, p.experienceScope)
  }

  /** What is written is the cleaned decision, entry by entry. */
  lemma WrittenExactly(d: Decision)
    requires Normalized(d).Success?
    ensures AsDict(d).Success?
    ensures var p, n := AsDict(d).value, Normalized(d).value;
            && p.kind == (match n.kind.kind
                          case EXECUTE => "EXECUTE" case WAIT => "WAIT" case FINISH => "FINISH"
                          case BLOCK => "BLOCK" case CANCEL => "CANCEL")
            && p.reason == n.reason && p.key == n.key && p.evidenceId == n.evidenceId && p.waitMicros == n.waitMicros
            && p.experienceKey == n.experienceKey && StoredWork(p) == WorkOf(n)
  {
  }

  /** Cleaning a cleaned decision leaves its work alone. */
  lemma CleanWork(d: Decision)
    requires Normalized(d).Success? && Normalized(d).value.kind == Enum(EXECUTE)
    ensures var n := Normalized(d).value;
            && n.capability.Some? && Strip(n.capability.value) == n.capability.value
            && n.verifierId != "" && Strip(n.verifierId) == n.verifierId
            && Normalized(n).Success? && WorkOf(Normalized(n).value) == WorkOf(n)
  {
    CleanedPasses(d);
    StripOrTwice(d.verifierId);
    assert Trimmed(Strip(d.capability.value)) && Trimmed(Strip(d.verifierId)) && Trimmed("default");
  }

  /** Reading back what was written gives the cleaned decision, cleaned once more. */
  lemma ReadBack(d: Decision)
    requires Normalized(d).Success?
    ensures AsDict(d).Success?
    ensures FromDict(AsDict(d).value) == Normalized(Normalized(d).value)
    ensures Settled(d) ==> FromDict(AsDict(d).value) == Success(d)
  {
    var n := Normalized(d).value;
    KindNamesParse(n.kind.kind);
    NormalizingTwice(d);
    StripOrTwice(d.verifierId);
    hide Text.Strip, ParseKind, KindName;
  }

  /** Storing the reservation key beside a decision leaves every other field readable. */
  lemma ReadBackWithKey(d: Decision, key: string)
    requires Settled(d)
    ensures AsDict(d).Success?
    ensures FromDict(AsDict(d).value.(key := Some(key))) == Success(d.(key := Clean(Some(key))))
  {
    KindNamesParse(d.kind.kind);
    assert Trimmed("default") && Strip("default") == "default";
    assert Clean(d.capability) == d.capability && Clean(d.experienceKey) == d.experienceKey;
  }
}
