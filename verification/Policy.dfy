/** Who may run what: the capability registry and the unattended-work policy. */
module Policy {
  import opened Wrappers
  import opened Text
  import opened Models

  datatype Capability = Capability(name: string, riskTier: int, replaySafe: bool)

  datatype AutonomyPolicy = AutonomyPolicy(
    maxUnattendedRisk: int,
    allowed: Option<set<string>>,
    denied: set<string>,
    requireIdempotencyFromRisk: int)

  datatype Authorization =
    | Authorized
    | NonExecution
    | Unregistered
    | ExplicitlyDenied
    | NotInAllowlist
    | AboveCeiling
    | MissingKey
    | WrongRisk
  {
    predicate Allowed() { Authorized? || NonExecution? }
  }

  type Registry = map<string, Capability>

  /** `AutonomyPolicy.authorize`: the decision is cleaned first, then checked in the source's order. */
  function Authorize(p: AutonomyPolicy, decision: Decision, capability: Option<Capability>)
    : Result<Authorization, ValueError>
  {
    match Normalized(decision)
    case Failure(e) => Failure(e)
    case Success(item) => Success(
      if item.kind != Enum(EXECUTE) then NonExecution
      else if capability.None? then Unregistered
      else
        var c := capability.value;
        if c.name in p.denied then ExplicitlyDenied
        else if p.allowed.Some? && c.name !in p.allowed.value then NotInAllowlist
        else if c.riskTier > p.maxUnattendedRisk then AboveCeiling
        else if c.riskTier >= p.requireIdempotencyFromRisk && (item.key.None? || item.key.value == "") then MissingKey
        else if item.riskTier != c.riskTier then WrongRisk
        else Authorized)
  }

  /** The capability that a decision names, when it is registered. */
  function Binding(registry: Registry, decision: Decision): Option<Capability> {
    var name := if decision.capability.Some? then decision.capability.value else "";
    if name in registry then Some(registry[name]) else None
  }

  /** An EXECUTE decision whose registered capability the policy lets run unattended. */
  predicate MayRun(p: AutonomyPolicy, registry: Registry, d: Decision) {
    && KindOf(d.kind) == Some(EXECUTE)
    && Binding(registry, d).Some?
    && Authorize(p, d, Binding(registry, d)) == Success(Authorized)
  }

  /** What an authorized run guarantees, read off the policy rather than off the order of the checks. */
  lemma AuthorizedMeans(p: AutonomyPolicy, registry: Registry, d: Decision)
    ensures MayRun(p, registry, d) <==>
      && Normalized(d).Success? && KindOf(d.kind) == Some(EXECUTE)
      && d.capability.Some? && d.capability.value in registry
      && var c := registry[d.capability.value];
         && c.name !in p.denied
         && (p.allowed.Some? ==> c.name in p.allowed.value)
         && d.riskTier == c.riskTier <= p.maxUnattendedRisk
         && (c.riskTier >= p.requireIdempotencyFromRisk ==> d.key.Some? && !Blank(d.key.value))
  {
  }

  /** A refusal is true: it names what stands against the decision, which is otherwise let run. */
  lemma RefusalsAreTrue(p: AutonomyPolicy, d: Decision, capability: Option<Capability>)
    ensures Authorize(p, d, capability).Success? <==> Normalized(d).Success?
    ensures Normalized(d).Success? ==>
      var a := Authorize(p, d, capability).value;
      && (a == NonExecution <==> KindOf(d.kind) != Some(EXECUTE))
      && (a == Unregistered <==> KindOf(d.kind) == Some(EXECUTE) && capability.None?)
      && (KindOf(d.kind) == Some(EXECUTE) && capability.Some? ==>
            var c := capability.value;
            var denied, listed := c.name in p.denied, p.allowed.Some? ==> c.name in p.allowed.value;
            var needsKey := c.riskTier >= p.requireIdempotencyFromRisk && (d.key.None? || Blank(d.key.value));
            && (a == ExplicitlyDenied <==> denied)
            && (a == NotInAllowlist <==> !denied && !listed)
            && (a == AboveCeiling <==> !denied && listed && c.riskTier > p.maxUnattendedRisk)
            && (a == MissingKey <==> !denied && listed && c.riskTier <= p.maxUnattendedRisk && needsKey)
            && (a == WrongRisk <==>
                  !denied && listed && c.riskTier <= p.maxUnattendedRisk && !needsKey && d.riskTier != c.riskTier))
  {
  }

  /** Cleaning a settled decision under another key changes the key only. */
  lemma Rekeyed(d: Decision, key: Option<string>)
    requires Settled(d)
    ensures Normalized(d.(key := key)) == Success(d.(key := Clean(key)))
  {
  }

  /** What was authorized before it was reserved is still authorized when it is read back and resumed:
      the reservation key is the decision's own key, or stands in for a key the policy did not ask for. */
  lemma StoredMayRun(p: AutonomyPolicy, registry: Registry, d: Decision, key: string)
    requires Settled(d) && MayRun(p, registry, d)
    requires d.key == Some(key) || d.key.None?
    ensures AsDict(d).Success?
    ensures var stored := FromDict(AsDict(d).value.(key := Some(key)));
            && stored.Success? && MayRun(p, registry, stored.value)
            && stored.value == d.(key := stored.value.key)
  {
    ReadBackWithKey(d, key);
    Rekeyed(d, Clean(Some(key)));
    if d.key == Some(key) { assert Clean(d.key) == d.key; }
  }

  datatype RegistrationError = EmptyName | RiskOutOfRange | AlreadyRegistered

  /** Every entry stands under its own trimmed name and in the range of risks. */
  predicate Registered(items: Registry) {
    forall name :: name in items ==> name != "" && name == Strip(items[name].name) && 0 <= items[name].riskTier <= 4
  }

  class CapabilityRegistry {
    var items: Registry

    predicate Valid()
      reads this
    {
      Registered(items)
    }

    constructor ()
      ensures Valid() && items == map[]
    {
      items := map[];
    }

    /** A name is bound once; whatever is wrong with a registration leaves the others alone. */
    method Register(capability: Capability) returns (r: Result<(), RegistrationError>)
      requires Valid()
      modifies this
      ensures Valid()
      ensures r.Success? <==>
        !Blank(capability.name) && 0 <= capability.riskTier <= 4 && Strip(capability.name) !in old(items)
      ensures items == if r.Success? then old(items)[Strip(capability.name) := capability] else old(items)
      ensures Blank(capability.name) ==> r == Failure(EmptyName)
      ensures r == Failure(RiskOutOfRange) <==> !Blank(capability.name) && !(0 <= capability.riskTier <= 4)
      ensures r == Failure(AlreadyRegistered) <==>
        !Blank(capability.name) && 0 <= capability.riskTier <= 4 && Strip(capability.name) in old(items)
    {
      var name := Strip(capability.name);
      if name == "" { return Failure(EmptyName); }
      if !(0 <= capability.riskTier <= 4) { return Failure(RiskOutOfRange); }
      if name in items { return Failure(AlreadyRegistered); }
      items := items[name := capability];
      return Success(());
    }

    method Get(name: Option<string>) returns (c: Option<Capability>)
      requires Valid()
      ensures c.Some? <==> name.Some? && name.value in items
      ensures c.Some? ==> c.value == items[name.value] && Strip(c.value.name) == name.value
    {
      var key := if name.Some? then name.value else "";
      if key in items { return Some(items[key]); }
      return None;
    }
  }
}
