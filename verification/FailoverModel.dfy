/**
 The failover coordinator as a function on values: the journal (operations, events, leases), the
 fenced provider and the three calls `run`, `reconcile` and `compensate`. A call yields the state it
 leaves behind and its outcome, a returned status or a raised exception.
 */
module FailoverModel {
  import opened Wrappers

  // ---------------------------------------------------------------- data

  type Id = string

  datatype OpState =
    | Prepared | Executing | Verifying | Unknown | Recovering
    | Succeeded | Stopped | RecoveryFailed | RecoveryBlocked
  {
    /** The states the journal query counts as unreconciled. */
    predicate InFlight() {
      Prepared? || Executing? || Verifying? || Unknown? || Recovering?
    }

    /** The states `reconcile` returns at once. */
    predicate Terminal() {
      Stopped? || Succeeded? || RecoveryFailed? || RecoveryBlocked?
    }

    predicate Alerting() {
      Stopped? || Unknown? || RecoveryFailed? || RecoveryBlocked?
    }
  }

  datatype Action = Restart | Restore | OtherAction(name: string)
  datatype Tier = Green | Amber | Red | OtherTier(name: string)
  datatype Decision = Allow | Deny | Undecided

  const HUMAN_APPROVER := "Jan Kočí"

  datatype Request = Request(
    operationId: Id, actor: string, target: string, action: Action, tier: Tier,
    policyHash: string, inventoryFresh: bool, restoreVerified: bool, production: bool,
    humanApproval: Option<string>, correlationId: string)

  datatype Capability = Capability(
    holder: string, target: string, action: Action, policyHash: string, expires: int)

  /** A grant is named after its holder, target and action; gates that fail early name none. */
  datatype CapabilityId = NoCapability | CapabilityId(holder: string, target: string, action: Action)

  datatype Lease = Lease(holder: string, target: string, epoch: nat, expires: int)

  /** A lease is named after its epoch and its holder. */
  datatype LeaseId = NoLease | LeaseId(epoch: nat, holder: string)

  datatype Verdict = Verdict(
    decision: Decision, target: string, action: Action, policyHash: string, expires: int, valid: bool)

  datatype Row = Row(
    actor: string, target: string, action: Action, tier: Tier, policyHash: string,
    correlationId: string, state: OpState, beforeGeneration: int, changed: bool,
    providerOp: Option<nat>, leaseEpoch: nat)

  datatype Event = Event(
    operationId: Id, timestamp: int, state: OpState, actor: string, target: string,
    policyHash: string, correlationId: string, capabilityId: CapabilityId, leaseId: LeaseId,
    leaseEpoch: nat, verdict: Option<Decision>, reason: string)

  /**
   `writesLeft` is how many journal commits still succeed: 0 is the injected write failure, any
   other number a store that starts failing after that many commits.
   */
  datatype Journal = Journal(
    operations: map<Id, Row>, events: seq<Event>, leases: map<string, Lease>, writesLeft: nat)

  /** Health, generation and highest fencing epoch of one target. */
  datatype Service = Service(healthy: bool, generation: int, epoch: nat)

  datatype Receipt = Receipt(target: string, action: Action, epoch: nat, effectId: nat)

  /**
   What a call did to the provider, for the specification only: the idempotency key, the operation
   on whose behalf, whether as compensation, and how long the event log was at that moment.
   */
  datatype Cause = Cause(
    key: string, operationId: Id, actor: string, compensating: bool, logged: nat)

  datatype Provider = Provider(
    services: map<string, Service>, fencing: bool, idempotency: bool, effects: seq<Receipt>,
    causes: seq<Cause>, receipts: map<string, Receipt>, failRestart: bool, failRestore: bool,
    readable: bool)

  datatype Alert = Alert(operationId: Id, state: OpState, reason: string)

  datatype State = State(
    journal: Journal, provider: Provider, now: int,
    capabilities: map<(string, string, Action), Capability>, verdicts: map<(string, Action), Verdict>,
    approvals: set<Id>, alerts: seq<Alert>)

  datatype Error = Unsafe(reason: string) | Crashed | AuditUnavailable | MissingKey
  datatype Outcome = Returned(state: OpState) | Raised(error: Error)

  /** A call under way, or ended with its outcome; `:-` stops at the first `Ended`. */
  datatype Exec = Running(state: State) | Ended(state: State, outcome: Outcome) {
    predicate IsFailure() { Ended? }
    function PropagateFailure(): Exec requires Ended? { this }
    function Extract(): State requires Running? { state }
  }

  // ---------------------------------------------------------------- journal

  /** A conflicting primary key and a failing store both surface as AuditUnavailable. */
  function Begin(s: State, req: Request, generation: int): Exec {
    if s.journal.writesLeft == 0 || req.operationId in s.journal.operations then
      Ended(s, Raised(AuditUnavailable))
    else
      var row := Row(req.actor, req.target, req.action, req.tier, req.policyHash,
                     req.correlationId, Prepared, generation, false, None, 0);
      var event := Event(req.operationId, s.now, Prepared, req.actor, req.target, req.policyHash,
                         req.correlationId, NoCapability, NoLease, 0, None, "");
      Running(s.(journal := s.journal.(
                   operations := s.journal.operations[req.operationId := row],
                   events := s.journal.events + [event],
                   writesLeft := s.journal.writesLeft - 1)))
  }

  /** The row after a transition: changed and the provider operation only ever become set. */
  function Moved(row: Row, state: OpState, epoch: nat, providerOp: Option<nat>): Row {
    row.(state := state,
         changed := providerOp.Some? || row.changed,
         providerOp := if providerOp.Some? then providerOp else row.providerOp,
         leaseEpoch := if epoch > 0 then epoch else row.leaseEpoch)
  }

  function TransitionEvent(s: State, req: Request, row: Row, state: OpState, reason: string): Event {
    var g := Gates(s, req);
    Event(req.operationId, s.now, state, row.actor, row.target, row.policyHash, row.correlationId,
          g.capabilityId, g.leaseId, g.epoch, g.verdict, reason)
  }

  /**
   One durable state change of an operation together with its event and its alert. The calls pass a
   provider operation exactly when they also set `changed`, so one optional argument stands for both.
   */
  function Transition(s: State, req: Request, state: OpState, providerOp: Option<nat>, reason: string)
    : Exec
  {
    var id := req.operationId;
    if s.journal.writesLeft == 0 || id !in s.journal.operations then
      Ended(s, Raised(AuditUnavailable))
    else
      var row := s.journal.operations[id];
      var event := TransitionEvent(s, req, row, state, reason);
      Running(s.(
              journal := s.journal.(
                operations := s.journal.operations[id := Moved(row, state, event.leaseEpoch, providerOp)],
                events := s.journal.events + [event],
                writesLeft := s.journal.writesLeft - 1),
              alerts := if state.Alerting() then s.alerts + [Alert(id, state, reason)] else s.alerts))
  }

  /** Log a final transition and return its state. */
  function Settle(s: State, req: Request, state: OpState, reason: string): Exec {
    var s :- Transition(s, req, state, None, reason);
    Ended(s, Returned(state))
  }

  predicate InFlightElsewhere(j: Journal, target: string, excluding: Id) {
    exists id <- j.operations ::
      id != excluding && j.operations[id].target == target && j.operations[id].state.InFlight()
  }

  // ---------------------------------------------------------------- provider

  datatype Observation = Unreadable | NoSuchTarget | Seen(healthy: bool, receipt: Option<Receipt>)

  function Observe(p: Provider, target: string, key: string): Observation {
    if !p.readable then Unreadable
    else if target !in p.services then NoSuchTarget
    else Seen(p.services[target].healthy, if key in p.receipts then Some(p.receipts[key]) else None)
  }

  datatype Mutation = Refused(reason: string) | Applied(provider: Provider, effectId: nat)

  function Mutate(p: Provider, target: string, action: Action, epoch: nat, cause: Cause): Mutation {
    if target !in p.services || action.OtherAction? then
      Refused("non-fake target or unsupported effect")
    else if !p.fencing || epoch != p.services[target].epoch then
      Refused("effect-boundary fencing rejected")
    else if p.idempotency && cause.key in p.receipts then
      Applied(p, p.receipts[cause.key].effectId)
    else
      var service := p.services[target];
      var healthy := !(if action.Restart? then p.failRestart else p.failRestore);
      var receipt := Receipt(target, action, epoch, |p.effects| + 1);
      Applied(p.(services := p.services[target := Service(healthy, service.generation + 1, service.epoch)],
                 effects := p.effects + [receipt],
                 causes := p.causes + [cause],
                 receipts := if p.idempotency then p.receipts[cause.key := receipt] else p.receipts),
              receipt.effectId)
  }

  // ---------------------------------------------------------------- coordinator

  datatype Gate = Gate(
    ok: bool, reason: string, capabilityId: CapabilityId, leaseId: LeaseId, epoch: nat,
    verdict: Option<Decision>)

  function Closed(reason: string): Gate {
    Gate(false, reason, NoCapability, NoLease, 0, None)
  }

  function Gates(s: State, req: Request): Gate {
    if req.production then Closed("production forbidden")
    else if req.target !in s.provider.services then Closed("target not a local fake")
    else if req.action.OtherAction? then Closed("invalid action")
    else if !req.inventoryFresh || !req.restoreVerified then
      Closed("stale inventory or untested restore")
    else if req.tier.OtherTier? then Closed("unrecognized risk tier")
    else if InFlightElsewhere(s.journal, req.target, req.operationId) then
      Closed("unreconciled prior operation on target")
    else if !req.tier.Green? &&
            (req.humanApproval != Some(HUMAN_APPROVER) || req.operationId !in s.approvals) then
      Closed("explicit scoped Jan approval missing")
    else
      var grant := (req.actor, req.target, req.action);
      if grant !in s.capabilities
         || s.capabilities[grant].expires <= s.now
         || s.capabilities[grant].policyHash != req.policyHash then
        Closed("capability missing, expired or wrong policy")
      else
        LeaseGate(s, req, CapabilityId(req.actor, req.target, req.action))
  }

  function LeaseGate(s: State, req: Request, cap: CapabilityId): Gate
    requires req.target in s.provider.services
  {
    if req.target !in s.journal.leases
       || s.journal.leases[req.target].holder != req.actor
       || s.journal.leases[req.target].expires <= s.now
       || !s.provider.fencing
       || s.journal.leases[req.target].epoch != s.provider.services[req.target].epoch then
      Gate(false, "exclusive fenced lease missing or stale", cap, NoLease, 0, None)
    else
      VerdictGate(s, req, cap, s.journal.leases[req.target])
  }

  function VerdictGate(s: State, req: Request, cap: CapabilityId, lease: Lease): Gate {
    var leaseId := LeaseId(lease.epoch, lease.holder);
    var asked := (req.target, req.action);
    if asked !in s.verdicts then
      Gate(false, "VOODOO veto/timeout/corrupt verdict", cap, leaseId, lease.epoch, Some(Undecided))
    else
      var v := s.verdicts[asked];
      if !v.decision.Allow? || !v.valid || v.expires <= s.now || v.policyHash != req.policyHash then
        Gate(false, "VOODOO veto/timeout/corrupt verdict", cap, leaseId, lease.epoch,
             Some(v.decision))
      else
        Gate(true, "", cap, leaseId, lease.epoch, Some(Allow))
  }

  /** What anyone may do between, or in the middle of, calls without touching an operation. */
  datatype Control =
    | TakeLease(holder: string, target: string, takeover: bool, ttl: int)
    | Grant(capability: Capability)
    | Decide(verdict: Verdict)
    | SetApprovals(operationIds: set<Id>)
    | Advance(seconds: int)
    | ConfigureProvider(fencing: bool, readable: bool, failRestart: bool, failRestore: bool)
    | SetHealth(target: string, healthy: bool)
    | JournalCommits(writesLeft: nat)

  /** The epoch of the lease on a target, 0 before the first. */
  function LeaseEpoch(leases: map<string, Lease>, target: string): nat {
    if target in leases then leases[target].epoch else 0
  }

  function AcquireLease(s: State, holder: string, target: string, takeover: bool, ttl: int): State {
    if target !in s.provider.services || !s.provider.fencing || s.journal.writesLeft == 0 then s
    else if target in s.journal.leases && s.journal.leases[target].expires > s.now && !takeover then s
    else
      var epoch := LeaseEpoch(s.journal.leases, target) + 1;
      var lease := Lease(holder, target, epoch, s.now + ttl);
      var granted := s.(journal := s.journal.(leases := s.journal.leases[target := lease],
                                              writesLeft := s.journal.writesLeft - 1));
      if epoch < s.provider.services[target].epoch then granted  // stale: raised after the commit
      else granted.(provider := s.provider.(
                      services := s.provider.services[target := s.provider.services[target].(epoch := epoch)]))
  }

  function ApplyControl(s: State, c: Control): State {
    match c
    case TakeLease(holder, target, takeover, ttl) => AcquireLease(s, holder, target, takeover, ttl)
    case Grant(cap) =>
      if cap.target !in s.provider.services then s
      else s.(capabilities := s.capabilities[(cap.holder, cap.target, cap.action) := cap])
    case Decide(v) => s.(verdicts := s.verdicts[(v.target, v.action) := v])
    case SetApprovals(ids) => s.(approvals := ids)
    case Advance(seconds) => s.(now := s.now + seconds)
    case ConfigureProvider(fencing, readable, failRestart, failRestore) =>
      s.(provider := s.provider.(fencing := fencing, readable := readable,
         failRestart := failRestart, failRestore := failRestore))
    case SetHealth(target, healthy) =>
      if target !in s.provider.services then s
      else s.(provider := s.provider.(
                services := s.provider.services[target := s.provider.services[target].(healthy := healthy)]))
    case JournalCommits(writesLeft) => s.(journal := s.journal.(writesLeft := writesLeft))
  }

  function ApplyControls(s: State, cs: seq<Control>): State
    decreases |cs|
  {
    if cs == [] then s else ApplyControls(ApplyControl(s, cs[0]), cs[1..])
  }

  datatype CrashPoint = NoCrash | BeforeEffect | DuringEffect | AfterEffect

  function CompensationKey(id: Id): string { id + ":restore" }

  /** The first authorization: PREPARED is durable, then the gates, then EXECUTING is durable. */
  function Dispatch(s: State, req: Request, crash: CrashPoint): Exec {
    var generation :=
      if req.target in s.provider.services then s.provider.services[req.target].generation else 0;
    var s :- Begin(s, req, generation);
    var g := Gates(s, req);
    if !g.ok then Settle(s, req, Stopped, g.reason)
    else if crash.BeforeEffect? then Ended(s, Raised(Crashed))
    else
      var s :- Transition(s, req, Executing, None, "");
      if crash.DuringEffect? then Ended(s, Raised(Crashed)) else Running(s)
  }

  /** The second sampling of the gates, the effect itself and its verification. */
  function Effect(s: State, req: Request, crash: CrashPoint): Exec {
    var g := Gates(s, req);
    if !g.ok then Settle(s, req, Stopped, g.reason)
    else if req.target !in s.journal.leases then Settle(s, req, Unknown, "lost lease")
    else
      var cause := Cause(req.operationId, req.operationId, req.actor, false, |s.journal.events|);
      match Mutate(s.provider, req.target, req.action, s.journal.leases[req.target].epoch, cause)
      case Refused(reason) => Settle(s, req, Stopped, reason)
      case Applied(provider, effectId) =>
        var s := s.(provider := provider);
        if crash.AfterEffect? then Ended(s, Raised(Crashed))
        else
          Verify(s, req, effectId, req.operationId, Unknown, "", "health failed after effect")
  }

  /** VERIFYING with the receipt, then SUCCEEDED if the target is healthy, else `otherwise`. */
  function Verify(s: State, req: Request, effectId: nat, key: string, otherwise: OpState,
                  good: string, bad: string): Exec
  {
    var s :- Transition(s, req, Verifying, Some(effectId), "");
    match Observe(s.provider, req.target, key)
    case Unreadable => Ended(s, Raised(Unsafe("fake provider observation unavailable")))
    case NoSuchTarget => Ended(s, Raised(MissingKey))
    case Seen(healthy, _) =>
      if healthy then Settle(s, req, Succeeded, good) else Settle(s, req, otherwise, bad)
  }

  /** `between` is what others do after the EXECUTING checkpoint, before the gates are sampled again. */
  function Run(s: State, req: Request, crash: CrashPoint, between: seq<Control>): Exec {
    if req.operationId in s.journal.operations then
      Ended(s, Raised(Unsafe("duplicate operation ID; reconcile instead")))
    else
      var s :- Dispatch(s, req, crash);
      Effect(ApplyControls(s, between), req, crash)
  }

  predicate SameIntent(row: Row, req: Request) {
    row.actor == req.actor && row.target == req.target && row.action == req.action &&
    row.tier == req.tier && row.policyHash == req.policyHash && row.correlationId == req.correlationId
  }

  function Reconcile(s: State, req: Request, retry: bool): Exec {
    var id := req.operationId;
    if id !in s.journal.operations then Ended(s, Raised(Unsafe("nothing to reconcile")))
    else if s.journal.operations[id].state.Terminal() then
      Ended(s, Returned(s.journal.operations[id].state))
    else if !SameIntent(s.journal.operations[id], req) then
      Ended(s, Raised(Unsafe("reconciliation request conflicts with durable intent")))
    else
      match Observe(s.provider, req.target, id)
      case Unreadable => Settle(s, req, Unknown, "fake provider observation unavailable")
      case NoSuchTarget => Ended(s, Raised(MissingKey))
      case Seen(healthy, Some(receipt)) =>
        var s :- Transition(s, req, Verifying, Some(receipt.effectId), "");
        if healthy then Settle(s, req, Succeeded, "")
        else Settle(s, req, Unknown, "observed unhealthy service")
      case Seen(healthy, None) =>
        if !retry || !s.provider.idempotency || !s.provider.fencing then
          Settle(s, req, Unknown, "effect not provably absent")
        else
          Redispatch(s, req)
  }

  function Redispatch(s: State, req: Request): Exec {
    var g := Gates(s, req);
    if !g.ok then Settle(s, req, Stopped, g.reason)
    else
      var s :- Transition(s, req, Executing, None, "safe idempotent re-dispatch");
      if req.target !in s.journal.leases then Settle(s, req, Unknown, "lease vanished")
      else
        var cause := Cause(req.operationId, req.operationId, req.actor, false, |s.journal.events|);
        match Mutate(s.provider, req.target, req.action, s.journal.leases[req.target].epoch, cause)
        case Refused(reason) => Ended(s, Raised(Unsafe(reason)))
        case Applied(provider, effectId) =>
          Verify(s.(provider := provider), req, effectId, req.operationId, Unknown,
                 "provider health verified", "effect unhealthy")
  }

  function Compensate(s: State, req: Request): Exec {
    var id := req.operationId;
    if id !in s.journal.operations
       || !(s.journal.operations[id].state.Unknown? || s.journal.operations[id].state.Recovering?) then
      Ended(s, Raised(Unsafe("compensation requires an unresolved operation")))
    else if !SameIntent(s.journal.operations[id], req) then
      Ended(s, Raised(Unsafe("compensation request conflicts with durable intent")))
    else
      var g := Gates(s, req.(action := Restore));
      if !g.ok then Settle(s, req, RecoveryBlocked, g.reason)
      else
        var s :- Transition(s, req, Recovering, None, "approved distinct restore effect");
        if req.target !in s.journal.leases then Settle(s, req, RecoveryBlocked, "lease missing")
        else
          var cause := Cause(CompensationKey(id), id, req.actor, true, |s.journal.events|);
          match Mutate(s.provider, req.target, Restore, s.journal.leases[req.target].epoch, cause)
          case Refused(reason) => Settle(s, req, RecoveryFailed, reason)
          case Applied(provider, effectId) =>
            Verify(s.(provider := provider), req, effectId, CompensationKey(id), RecoveryFailed,
                   "restored health verified", "compensation health check failed")
  }

  // ---------------------------------------------------------------- runs

  datatype Step =
    | RunStep(req: Request, crash: CrashPoint, between: seq<Control>)
    | ReconcileStep(req: Request, retry: bool)
    | CompensateStep(req: Request)
    | ControlStep(control: Control)

  function Apply(s: State, step: Step): State {
    match step
    case RunStep(req, crash, between) => Run(s, req, crash, between).state
    case ReconcileStep(req, retry) => Reconcile(s, req, retry).state
    case CompensateStep(req) => Compensate(s, req).state
    case ControlStep(control) => ApplyControl(s, control)
  }

  function Execute(s: State, steps: seq<Step>): State
    decreases |steps|
  {
    if steps == [] then s else Execute(Apply(s, steps[0]), steps[1..])
  }

  /** A fresh journal and a fresh provider; clock, settings, grants and verdicts are arbitrary. */
  predicate Fresh(s: State) {
    && s.journal.operations == map[] && s.journal.events == [] && s.journal.leases == map[]
    && s.provider.effects == [] && s.provider.causes == [] && s.provider.receipts == map[]
    && (forall t <- s.provider.services :: s.provider.services[t].epoch == 0)
    && s.alerts == []
  }
}
