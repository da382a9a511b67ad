/** What the kernel's policy allows, and which fault a refusal names, told without the policy's own ladder. */
module KernelPolicy {
  import opened Wrappers
  import opened KernelModel

  predicate Described(c: Capability, name: string) {
    c.name == name && c.mode == "read" && c.schema == "action-kernel/v1" && c.contract == "capability/v1"
  }

  /** A capability of that very name, readable only, that lists the target. */
  predicate Grants(cfg: Config, r: Request) {
    && r.capability in cfg.capabilities
    && var c := cfg.capabilities[r.capability];
    && Described(c, r.capability) && r.targetId in c.allowedTargets
    && (r.arguments.given ==> c.argumentsAllowed)
  }

  predicate Traceable(p: Provenance) {
    && p.contract == "provenance/v1" && |p.source| > 0 && |p.adapter| > 0 && |p.instance| > 0 && p.zoned
    && (p.confidence == "verified" || p.confidence == "supported" || p.confidence == "inferred" || p.confidence == "unknown")
  }

  /** The inventory knows the target and has one of the three statuses for it. */
  predicate Inventoried(cfg: Config, target: string) {
    && target in cfg.targets && "synthetic_status" in cfg.targets[target]
    && var status := cfg.targets[target]["synthetic_status"];
       status == "ok" || status == "offline" || status == "unknown"
  }

  /** What makes a request one that this kernel may carry out for this caller, whenever it is asked. */
  predicate Permitted(cfg: Config, r: Request, actor: string) {
    && cfg.enabled && r.actor == actor && |actor| > 0 && actor in cfg.actors
    && r.schema == "action-kernel/v1" && r.contract == "action/v1" && Traceable(r.provenance)
    && |r.taskId| > 0 && |r.correlationId| > 0
    && r.zoned && r.requestedAt < r.expiresAt
    && Grants(cfg, r) && Inventoried(cfg, r.targetId)
    && r.arguments.bytes.Some? && r.arguments.bytes.value <= cfg.maxBytes
  }

  lemma ProvenanceIff(p: Provenance)
    ensures p.Valid() <==> Traceable(p)
  {
  }

  /** The policy allows exactly the permitted requests that have not expired and whose id is not taken. */
  lemma PolicyMeans(cfg: Config, r: Request, actor: string, now: int, used: set<string>)
    ensures Policy(cfg, r, actor, now, used).allow <==>
            Permitted(cfg, r, actor) && now < r.expiresAt && r.taskId !in used
  {
    hide Provenance.Valid, Traceable;
    ProvenanceIff(r.provenance);
  }

  // ---------------------------------------------------------------- refusals

  /** What can be wrong with a request, in the order in which the policy looks. */
  datatype Fault =
    | Disabled | UnknownActor | OtherActor | WrongSchema | WrongContract | Untraceable | NoId | BadTimes | Late | Taken
    | NoCapability | BadDescriptor | OtherTarget | NotJson | TooLong | UnwantedArguments | NoStatus
  {
    function Rank(): nat {
      match this
      case Disabled => 0
      case UnknownActor => 1
      case OtherActor => 2
      case WrongSchema => 3
      case WrongContract => 4
      case Untraceable => 5
      case NoId => 6
      case BadTimes => 7
      case Late => 8
      case Taken => 9
      case NoCapability => 10
      case BadDescriptor => 11
      case OtherTarget => 12
      case NotJson => 13
      case TooLong => 14
      case UnwantedArguments => 15
      case NoStatus => 16
    }

    function Reason(): string {
      match this
      case Disabled => "FEATURE_DISABLED"
      case UnknownActor => "ACTOR_DENIED"
      case OtherActor => "ACTOR_MISMATCH"
      case WrongSchema => "SCHEMA_DENIED"
      case WrongContract => "CONTRACT_DENIED"
      case Untraceable => "PROVENANCE_INVALID"
      case NoId => "INVALID_ID"
      case BadTimes => "INVALID_TIME"
      case Late => "EXPIRED"
      case Taken => "DUPLICATE"
      case NoCapability => "CAPABILITY_DENIED"
      case BadDescriptor => "CAPABILITY_DESCRIPTOR_INVALID"
      case OtherTarget => "TARGET_DENIED"
      case NotJson => "INVALID_ARGUMENTS"
      case TooLong => "OVERSIZED"
      case UnwantedArguments => "ARGUMENTS_DENIED"
      case NoStatus => "INVALID_INVENTORY"
    }
  }

  /** Whether the request has this fault; those of the capability need one. */
  predicate Has(f: Fault, cfg: Config, r: Request, actor: string, now: int, used: set<string>) {
    match f
    case Disabled => !cfg.enabled
    case UnknownActor => !(|actor| > 0 && actor in cfg.actors)
    case OtherActor => !(|r.actor| > 0 && r.actor == actor)
    case WrongSchema => r.schema != "action-kernel/v1"
    case WrongContract => r.contract != "action/v1"
    case Untraceable => !Traceable(r.provenance)
    case NoId => |r.taskId| == 0 || |r.correlationId| == 0
    case BadTimes => !(r.zoned && r.requestedAt < r.expiresAt)
    case Late => !(now < r.expiresAt)
    case Taken => r.taskId in used
    case NoCapability => r.capability !in cfg.capabilities
    case BadDescriptor => r.capability in cfg.capabilities && !Described(cfg.capabilities[r.capability], r.capability)
    case OtherTarget =>
      r.capability in cfg.capabilities &&
      !(r.targetId in cfg.capabilities[r.capability].allowedTargets && r.targetId in cfg.targets)
    case NotJson => r.arguments.bytes.None?
    case TooLong => r.arguments.bytes.Some? && r.arguments.bytes.value > cfg.maxBytes
    case UnwantedArguments =>
      r.capability in cfg.capabilities && r.arguments.given && !cfg.capabilities[r.capability].argumentsAllowed
    case NoStatus => !Inventoried(cfg, r.targetId)
  }

  /** None of the faults that come before this one. */
  ghost predicate ClearBefore(f: Fault, cfg: Config, r: Request, actor: string, now: int, used: set<string>) {
    forall g: Fault | g.Rank() < f.Rank() :: !Has(g, cfg, r, actor, now, used)
  }

  lemma Clear(f: Fault, g: Fault, cfg: Config, r: Request, actor: string, now: int, used: set<string>)
    requires ClearBefore(f, cfg, r, actor, now, used) && g.Rank() < f.Rank()
    ensures !Has(g, cfg, r, actor, now, used)
  {
  }

  /** Up to the capability, the first fault is the reason. */
  lemma EarlyFault(f: Fault, cfg: Config, r: Request, actor: string, now: int, used: set<string>)
    requires f.Rank() <= 10 && ClearBefore(f, cfg, r, actor, now, used) && Has(f, cfg, r, actor, now, used)
    ensures Policy(cfg, r, actor, now, used) == Deny(f.Reason())
  {
    hide Provenance.Valid, Traceable, PolicyOfTarget, ClearBefore;
    ProvenanceIff(r.provenance);
    if 0 < f.Rank() { Clear(f, Disabled, cfg, r, actor, now, used); }
    if 1 < f.Rank() { Clear(f, UnknownActor, cfg, r, actor, now, used); }
    if 2 < f.Rank() { Clear(f, OtherActor, cfg, r, actor, now, used); }
    if 3 < f.Rank() { Clear(f, WrongSchema, cfg, r, actor, now, used); }
    if 4 < f.Rank() { Clear(f, WrongContract, cfg, r, actor, now, used); }
    if 5 < f.Rank() { Clear(f, Untraceable, cfg, r, actor, now, used); }
    if 6 < f.Rank() { Clear(f, NoId, cfg, r, actor, now, used); }
    if 7 < f.Rank() { Clear(f, BadTimes, cfg, r, actor, now, used); }
    if 8 < f.Rank() { Clear(f, Late, cfg, r, actor, now, used); }
    if 9 < f.Rank() { Clear(f, Taken, cfg, r, actor, now, used); }
  }

  lemma LateFault(f: Fault, cfg: Config, r: Request, actor: string, now: int, used: set<string>)
    requires f.Rank() > 10 && ClearBefore(f, cfg, r, actor, now, used) && Has(f, cfg, r, actor, now, used)
    ensures Policy(cfg, r, actor, now, used) == Deny(f.Reason())
  {
    hide Provenance.Valid, Traceable, ClearBefore;
    ProvenanceIff(r.provenance);
    Clear(f, Disabled, cfg, r, actor, now, used);
    Clear(f, UnknownActor, cfg, r, actor, now, used);
    Clear(f, OtherActor, cfg, r, actor, now, used);
    Clear(f, WrongSchema, cfg, r, actor, now, used);
    Clear(f, WrongContract, cfg, r, actor, now, used);
    Clear(f, Untraceable, cfg, r, actor, now, used);
    Clear(f, NoId, cfg, r, actor, now, used);
    Clear(f, BadTimes, cfg, r, actor, now, used);
    Clear(f, Late, cfg, r, actor, now, used);
    Clear(f, Taken, cfg, r, actor, now, used);
    Clear(f, NoCapability, cfg, r, actor, now, used);
    if 11 < f.Rank() { Clear(f, BadDescriptor, cfg, r, actor, now, used); }
    if 12 < f.Rank() { Clear(f, OtherTarget, cfg, r, actor, now, used); }
    if 13 < f.Rank() { Clear(f, NotJson, cfg, r, actor, now, used); }
    if 14 < f.Rank() { Clear(f, TooLong, cfg, r, actor, now, used); }
    if 15 < f.Rank() { Clear(f, UnwantedArguments, cfg, r, actor, now, used); }
  }

  lemma NoFaultNoRefusal(cfg: Config, r: Request, actor: string, now: int, used: set<string>)
    requires forall f: Fault :: !Has(f, cfg, r, actor, now, used)
    ensures Permitted(cfg, r, actor) && now < r.expiresAt && r.taskId !in used
  {
    hide Traceable, Inventoried;
    assert !Has(Disabled, cfg, r, actor, now, used);
    assert !Has(UnknownActor, cfg, r, actor, now, used);
    assert !Has(OtherActor, cfg, r, actor, now, used);
    assert !Has(WrongSchema, cfg, r, actor, now, used);
    assert !Has(WrongContract, cfg, r, actor, now, used);
    assert !Has(Untraceable, cfg, r, actor, now, used);
    assert !Has(NoId, cfg, r, actor, now, used);
    assert !Has(BadTimes, cfg, r, actor, now, used);
    assert !Has(Late, cfg, r, actor, now, used);
    assert !Has(Taken, cfg, r, actor, now, used);
    assert !Has(NoCapability, cfg, r, actor, now, used);
    assert !Has(BadDescriptor, cfg, r, actor, now, used);
    assert !Has(OtherTarget, cfg, r, actor, now, used);
    assert !Has(NotJson, cfg, r, actor, now, used);
    assert !Has(TooLong, cfg, r, actor, now, used);
    assert !Has(UnwantedArguments, cfg, r, actor, now, used);
    assert !Has(NoStatus, cfg, r, actor, now, used);
  }

  lemma {:induction false} Least(g: Fault, cfg: Config, r: Request, actor: string, now: int, used: set<string>)
    returns (f: Fault)
    requires Has(g, cfg, r, actor, now, used)
    ensures Has(f, cfg, r, actor, now, used) && ClearBefore(f, cfg, r, actor, now, used)
    decreases g.Rank()
  {
    hide Has;
    if ClearBefore(g, cfg, r, actor, now, used) {
      f := g;
    } else {
      var h: Fault :| h.Rank() < g.Rank() && Has(h, cfg, r, actor, now, used);
      f := Least(h, cfg, r, actor, now, used);
    }
  }

  /** A refusal names a fault that the request has, and it has none of those that come before. */
  lemma RefusalNamesTheFirstFault(cfg: Config, r: Request, actor: string, now: int, used: set<string>) returns (f: Fault)
    requires !Policy(cfg, r, actor, now, used).allow
    ensures Policy(cfg, r, actor, now, used).reason == f.Reason()
    ensures Has(f, cfg, r, actor, now, used) && ClearBefore(f, cfg, r, actor, now, used)
  {
    hide Policy, Has, ClearBefore, Permitted;
    PolicyMeans(cfg, r, actor, now, used);
    if forall g: Fault :: !Has(g, cfg, r, actor, now, used) {
      NoFaultNoRefusal(cfg, r, actor, now, used);
    }
    var g: Fault :| Has(g, cfg, r, actor, now, used);
    f := Least(g, cfg, r, actor, now, used);
    if f.Rank() <= 10 {
      EarlyFault(f, cfg, r, actor, now, used);
    } else {
      LateFault(f, cfg, r, actor, now, used);
    }
  }
}
