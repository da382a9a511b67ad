/**
 What holds over every run of the failover coordinator from a fresh journal and provider, whatever
 the order of calls, crashes, lease takeovers, journal failures and outside interference.
 */
module FailoverRuns {
  import opened Wrappers
  import opened FailoverModel
  import opened FailoverInvariants

  // ---------------------------------------------------------------- what one call touches

  /** A call for `id` leaves other operations alone and only ever adds events and effects. */
  predicate Extends(s: State, s': State, id: Id) {
    && (forall k <- s.journal.operations | k != id ::
          k in s'.journal.operations && s'.journal.operations[k] == s.journal.operations[k])
    && (forall k <- s'.journal.operations | k != id :: k in s.journal.operations)
    && (id in s.journal.operations ==>
          (id in s'.journal.operations && SameIdentity(s.journal.operations[id], s'.journal.operations[id])))
    && s.journal.events <= s'.journal.events
    && s.provider.effects <= s'.provider.effects
    && s.provider.causes <= s'.provider.causes
  }

  predicate SameIdentity(a: Row, b: Row) {
    b == a.(state := b.state, changed := b.changed, providerOp := b.providerOp, leaseEpoch := b.leaseEpoch)
  }

  lemma ExtendsTransitive(s: State, m: State, s': State, id: Id)
    requires Extends(s, m, id) && Extends(m, s', id)
    ensures Extends(s, s', id)
  {
  }

  lemma TransitionExtends(s: State, req: Request, state: OpState, providerOp: Option<nat>, reason: string)
    ensures Extends(s, Transition(s, req, state, providerOp, reason).state, req.operationId)
  {
    hide Gates;
  }

  lemma SettleExtends(s: State, req: Request, state: OpState, reason: string)
    ensures Extends(s, Settle(s, req, state, reason).state, req.operationId)
  {
    TransitionExtends(s, req, state, None, reason);
  }

  lemma MutateExtends(s: State, target: string, action: Action, epoch: nat, c: Cause, id: Id)
    requires Mutate(s.provider, target, action, epoch, c).Applied?
    ensures Extends(s, s.(provider := Mutate(s.provider, target, action, epoch, c).provider), id)
  {
  }

  lemma VerifyExtends(s: State, req: Request, n: nat, key: string, otherwise: OpState, good: string, bad: string)
    ensures Extends(s, Verify(s, req, n, key, otherwise, good, bad).state, req.operationId)
  {
    hide Extends, Transition;
    TransitionExtends(s, req, Verifying, Some(n), "");
    var m := Transition(s, req, Verifying, Some(n), "").state;
    SettleExtends(m, req, Succeeded, good);
    SettleExtends(m, req, otherwise, bad);
    ExtendsTransitive(s, m, Settle(m, req, Succeeded, good).state, req.operationId);
    ExtendsTransitive(s, m, Settle(m, req, otherwise, bad).state, req.operationId);
  }

  lemma ControlExtends(s: State, c: Control, id: Id)
    ensures Extends(s, ApplyControl(s, c), id) && SameHistory(s, ApplyControl(s, c))
  {
    hide AcquireLease, SameFences;
    if c.TakeLease? {
      LeaseKeepsHistory(s, c.holder, c.target, c.takeover, c.ttl);
    } else {
      OtherControls(s, c);
    }
  }

  lemma {:induction false} ControlsExtend(s: State, cs: seq<Control>, id: Id)
    ensures Extends(s, ApplyControls(s, cs), id)
    ensures ApplyControls(s, cs).journal.operations == s.journal.operations
    ensures ApplyControls(s, cs).provider.effects == s.provider.effects
    decreases |cs|
  {
    hide ApplyControl, Extends;
    if cs == [] {
      ExtendsItself(s, id);
    } else {
      var m := ApplyControl(s, cs[0]);
      ControlExtends(s, cs[0], id);
      ControlsExtend(m, cs[1..], id);
      ExtendsTransitive(s, m, ApplyControls(m, cs[1..]), id);
    }
  }

  lemma ExtendsItself(s: State, id: Id)
    ensures Extends(s, s, id)
  {
  }

  lemma EffectExtends(s: State, req: Request, crash: CrashPoint)
    ensures Extends(s, Effect(s, req, crash).state, req.operationId)
  {
    hide Extends, Gates, Mutate, Settle, Verify;
    var id := req.operationId;
    SettleExtends(s, req, Stopped, Gates(s, req).reason);
    SettleExtends(s, req, Unknown, "lost lease");
    if req.target in s.journal.leases {
      var epoch := s.journal.leases[req.target].epoch;
      var c := Cause(id, id, req.actor, false, |s.journal.events|);
      match Mutate(s.provider, req.target, req.action, epoch, c)
      case Refused(reason) => SettleExtends(s, req, Stopped, reason);
      case Applied(provider, n) =>
        var m := s.(provider := provider);
        MutateExtends(s, req.target, req.action, epoch, c, id);
        VerifyExtends(m, req, n, id, Unknown, "", "health failed after effect");
        ExtendsTransitive(s, m, Verify(m, req, n, id, Unknown, "", "health failed after effect").state, id);
    }
  }

  lemma DispatchExtends(s: State, req: Request, crash: CrashPoint)
    requires req.operationId !in s.journal.operations
    ensures Extends(s, Dispatch(s, req, crash).state, req.operationId)
  {
    hide Gates;
    var generation :=
      if req.target in s.provider.services then s.provider.services[req.target].generation else 0;
    var m := Begin(s, req, generation).state;
    assert Extends(s, m, req.operationId);
    SettleExtends(m, req, Stopped, Gates(m, req).reason);
    TransitionExtends(m, req, Executing, None, "");
    ExtendsTransitive(s, m, Settle(m, req, Stopped, Gates(m, req).reason).state, req.operationId);
    ExtendsTransitive(s, m, Transition(m, req, Executing, None, "").state, req.operationId);
  }

  lemma RunExtends(s: State, req: Request, crash: CrashPoint, between: seq<Control>)
    ensures Extends(s, Run(s, req, crash, between).state, req.operationId)
  {
    hide Dispatch, Effect;
    var id := req.operationId;
    if id !in s.journal.operations {
      var m := Dispatch(s, req, crash).state;
      DispatchExtends(s, req, crash);
      ControlsExtend(m, between, id);
      ExtendsTransitive(s, m, ApplyControls(m, between), id);
      EffectExtends(ApplyControls(m, between), req, crash);
      ExtendsTransitive(s, ApplyControls(m, between), Effect(ApplyControls(m, between), req, crash).state, id);
    }
  }

  lemma RedispatchExtends(s: State, req: Request)
    ensures Extends(s, Redispatch(s, req).state, req.operationId)
  {
    hide Extends, Gates, Mutate, Settle, Verify, Transition;
    var id := req.operationId;
    SettleExtends(s, req, Stopped, Gates(s, req).reason);
    var m := Transition(s, req, Executing, None, "safe idempotent re-dispatch").state;
    TransitionExtends(s, req, Executing, None, "safe idempotent re-dispatch");
    SettleExtends(m, req, Unknown, "lease vanished");
    ExtendsTransitive(s, m, Settle(m, req, Unknown, "lease vanished").state, id);
    if req.target in m.journal.leases {
      var epoch := m.journal.leases[req.target].epoch;
      var c := Cause(id, id, req.actor, false, |m.journal.events|);
      match Mutate(m.provider, req.target, req.action, epoch, c)
      case Refused(_) =>
      case Applied(provider, n) =>
        var m' := m.(provider := provider);
        MutateExtends(m, req.target, req.action, epoch, c, id);
        VerifyExtends(m', req, n, id, Unknown, "provider health verified", "effect unhealthy");
        ExtendsTransitive(s, m, m', id);
        ExtendsTransitive(s, m', Verify(m', req, n, id, Unknown, "provider health verified", "effect unhealthy").state, id);
    }
  }

  lemma ReconcileExtends(s: State, req: Request, retry: bool)
    ensures Extends(s, Reconcile(s, req, retry).state, req.operationId)
  {
    hide Extends, Gates, Settle, Transition, Redispatch;
    var id := req.operationId;
    ExtendsItself(s, id);
    SettleExtends(s, req, Unknown, "fake provider observation unavailable");
    SettleExtends(s, req, Unknown, "effect not provably absent");
    RedispatchExtends(s, req);
    if id in s.provider.receipts {
      var n := s.provider.receipts[id].effectId;
      TransitionExtends(s, req, Verifying, Some(n), "");
      var m := Transition(s, req, Verifying, Some(n), "").state;
      SettleExtends(m, req, Succeeded, "");
      SettleExtends(m, req, Unknown, "observed unhealthy service");
      ExtendsTransitive(s, m, Settle(m, req, Succeeded, "").state, id);
      ExtendsTransitive(s, m, Settle(m, req, Unknown, "observed unhealthy service").state, id);
    }
  }

  lemma CompensateExtends(s: State, req: Request)
    ensures Extends(s, Compensate(s, req).state, req.operationId)
  {
    hide Extends, Gates, Mutate, Settle, Verify, Transition;
    var id := req.operationId;
    assert Extends(s, s, id) by { ExtendsItself(s, id); }
    SettleExtends(s, req, RecoveryBlocked, Gates(s, req.(action := Restore)).reason);
    var m := Transition(s, req, Recovering, None, "approved distinct restore effect").state;
    TransitionExtends(s, req, Recovering, None, "approved distinct restore effect");
    SettleExtends(m, req, RecoveryBlocked, "lease missing");
    ExtendsTransitive(s, m, Settle(m, req, RecoveryBlocked, "lease missing").state, id);
    if req.target in m.journal.leases {
      var epoch := m.journal.leases[req.target].epoch;
      var c := Cause(CompensationKey(id), id, req.actor, true, |m.journal.events|);
      match Mutate(m.provider, req.target, Restore, epoch, c)
      case Refused(reason) =>
        SettleExtends(m, req, RecoveryFailed, reason);
        ExtendsTransitive(s, m, Settle(m, req, RecoveryFailed, reason).state, id);
      case Applied(provider, n) =>
        var m' := m.(provider := provider);
        MutateExtends(m, req.target, Restore, epoch, c, id);
        var v := Verify(m', req, n, CompensationKey(id), RecoveryFailed, "restored health verified",
                        "compensation health check failed");
        VerifyExtends(m', req, n, CompensationKey(id), RecoveryFailed, "restored health verified",
                      "compensation health check failed");
        ExtendsTransitive(s, m, m', id);
        ExtendsTransitive(s, m', v.state, id);
    }
  }

  // ---------------------------------------------------------------- terminal states

  predicate Settled(s: State, id: Id) {
    id in s.journal.operations && s.journal.operations[id].state.Terminal()
  }

  /** A settled operation refuses every further call without any change at all. */
  lemma TerminalAbsorbs(s: State, req: Request, crash: CrashPoint, between: seq<Control>, retry: bool)
    requires Settled(s, req.operationId)
    ensures Run(s, req, crash, between).state == s && Run(s, req, crash, between).outcome.Raised?
    ensures Reconcile(s, req, retry) ==
            Ended(s, Returned(s.journal.operations[req.operationId].state))
    ensures Compensate(s, req).state == s && Compensate(s, req).outcome.Raised?
  {
  }

  lemma StepKeepsSettled(s: State, step: Step, id: Id)
    requires Settled(s, id)
    ensures Settled(Apply(s, step), id)
    ensures Apply(s, step).journal.operations[id] == s.journal.operations[id]
  {
    hide Run, Reconcile, Compensate;
    match step
    case RunStep(req, crash, between) =>
      RunExtends(s, req, crash, between);
      if req.operationId == id { TerminalAbsorbs(s, req, crash, between, false); }
    case ReconcileStep(req, retry) =>
      ReconcileExtends(s, req, retry);
      if req.operationId == id { TerminalAbsorbs(s, req, NoCrash, [], retry); }
    case CompensateStep(req) =>
      CompensateExtends(s, req);
      if req.operationId == id { TerminalAbsorbs(s, req, NoCrash, [], false); }
    case ControlStep(_) =>
  }

  /** No continuation of a run moves a settled operation. */
  lemma {:induction false} SettledForever(s: State, steps: seq<Step>, id: Id)
    requires Settled(s, id)
    ensures id in Execute(s, steps).journal.operations
    ensures Execute(s, steps).journal.operations[id] == s.journal.operations[id]
    decreases |steps|
  {
    if steps != [] {
      StepKeepsSettled(s, steps[0], id);
      SettledForever(Apply(s, steps[0]), steps[1..], id);
    }
  }

  // ---------------------------------------------------------------- at most once

  lemma Reachable(init: State, steps: seq<Step>)
    requires Fresh(init)
    ensures Inv(Execute(init, steps))
  {
    FreshInv(init);
    ReachableInv(init, steps);
  }

  /** Each operation causes at most one forward effect, with or without an idempotent provider. */
  lemma AtMostOnce(init: State, steps: seq<Step>, i: nat, j: nat)
    requires Fresh(init)
    requires var causes := Execute(init, steps).provider.causes;
             i < j < |causes| && causes[i].operationId == causes[j].operationId
    ensures var causes := Execute(init, steps).provider.causes;
            causes[i].compensating || causes[j].compensating
  {
    Reachable(init, steps);
  }

  /** An idempotent provider restores at most once for each operation. */
  lemma AtMostOneRestore(init: State, steps: seq<Step>, i: nat, j: nat)
    requires Fresh(init) && Execute(init, steps).provider.idempotency
    requires var causes := Execute(init, steps).provider.causes;
             i < j < |causes| && causes[i].operationId == causes[j].operationId
    ensures var causes := Execute(init, steps).provider.causes;
            !(causes[i].compensating && causes[j].compensating)
  {
    Reachable(init, steps);
    var s := Execute(init, steps);
    assert Backed(s.journal, s.provider.effects[i], s.provider.causes[i]);
    assert Backed(s.journal, s.provider.effects[j], s.provider.causes[j]);
  }

  /** STOPPED is a promise: no forward effect has happened, and none ever will. */
  lemma StoppedNeverActs(init: State, before: seq<Step>, after: seq<Step>, id: Id)
    requires Fresh(init)
    requires var s := Execute(init, before);
             id in s.journal.operations && s.journal.operations[id].state.Stopped?
    ensures NoForwardEffect(Execute(Execute(init, before), after).provider, id)
  {
    var s := Execute(init, before);
    Reachable(init, before);
    SettledForever(s, after, id);
    ReachableInv(s, after);
    var s' := Execute(s, after);
    assert RowHonest(s'.provider, id, s'.journal.operations[id]);
  }

  // ---------------------------------------------------------------- fencing

  /** Epochs of effects on a target never decrease, and grow whenever the actor changes. */
  lemma EffectsFenced(init: State, steps: seq<Step>, i: nat, j: nat)
    requires Fresh(init)
    requires var p := Execute(init, steps).provider;
             i < j < |p.effects| && p.effects[i].target == p.effects[j].target
    ensures var p := Execute(init, steps).provider;
            && |p.causes| == |p.effects|
            && p.effects[i].epoch <= p.effects[j].epoch
            && (p.causes[i].actor != p.causes[j].actor ==> p.effects[i].epoch < p.effects[j].epoch)
  {
    Reachable(init, steps);
  }

  // ---------------------------------------------------------------- write-ahead and replay

  /** The rows and the alerts are what the event log says, for every operation there is or is not. */
  lemma LogExplainsJournal(init: State, steps: seq<Step>, id: Id)
    requires Fresh(init)
    ensures var s := Execute(init, steps);
            Replay(s.journal.events, id) == Recorded(s.journal, id) && s.alerts == AlertsOf(s.journal.events)
  {
    Reachable(init, steps);
  }

  /** An effect comes after its EXECUTING or RECOVERING event, for the journaled actor and target. */
  lemma WriteAhead(init: State, steps: seq<Step>, i: nat)
    requires Fresh(init) && i < |Execute(init, steps).provider.causes|
    ensures var s := Execute(init, steps);
            && |s.provider.effects| == |s.provider.causes|
            && Backed(s.journal, s.provider.effects[i], s.provider.causes[i])
  {
    Reachable(init, steps);
  }

  /** A row that claims a change, SUCCEEDED included, names an effect made under one of its two keys. */
  lemma ChangeMeansEffect(init: State, steps: seq<Step>, id: Id)
    requires Fresh(init) && id in Execute(init, steps).journal.operations
    requires var row := Execute(init, steps).journal.operations[id]; row.changed || row.state.Succeeded?
    ensures var s := Execute(init, steps);
            var op := s.journal.operations[id].providerOp;
            op.Some? && EffectOf(s.provider, op.value, id)
  {
    Reachable(init, steps);
    var s := Execute(init, steps);
    assert RowHonest(s.provider, id, s.journal.operations[id]);
  }

  /** No other journaled operation is named like this one's compensation, nor the other way round. */
  predicate KeysApart(j: Journal, id: Id) {
    forall k <- j.operations :: k != CompensationKey(id) && id != CompensationKey(k)
  }

  lemma CompensationKeyInjective(a: Id, b: Id)
    ensures CompensationKey(a) == CompensationKey(b) ==> a == b
  {
    if CompensationKey(a) == CompensationKey(b) {
      assert a == CompensationKey(a)[..|a|];
      assert b == CompensationKey(b)[..|b|];
    }
  }

  /** Where no key collides, that effect was made for this very operation. */
  lemma ChangeMeansOwnEffect(init: State, steps: seq<Step>, id: Id)
    requires Fresh(init) && id in Execute(init, steps).journal.operations
    requires KeysApart(Execute(init, steps).journal, id)
    requires Execute(init, steps).journal.operations[id].changed
    ensures var s := Execute(init, steps);
            var n := s.journal.operations[id].providerOp;
            n.Some? && OwnEffect(s.provider, n.value, id)
  {
    hide Execute, EffectOf;
    ChangeMeansEffect(init, steps, id);
    Reachable(init, steps);
    var s := Execute(init, steps);
    OwnEffectOf(s, s.journal.operations[id].providerOp.value, id);
  }

  predicate OwnEffect(p: Provider, n: nat, id: Id) {
    1 <= n <= |p.causes| && p.causes[n - 1].operationId == id
  }

  lemma OwnEffectOf(s: State, n: nat, id: Id)
    requires Accounted(s) && KeysApart(s.journal, id) && EffectOf(s.provider, n, id)
    ensures OwnEffect(s.provider, n, id)
  {
    var c := s.provider.causes[n - 1];
    assert Backed(s.journal, s.provider.effects[n - 1], c);
    CompensationKeyInjective(c.operationId, id);
  }

  // ---------------------------------------------------------------- each new effect

  lemma VerifyKeepsProvider(s: State, req: Request, n: nat, key: string, otherwise: OpState,
                            good: string, bad: string)
    ensures Verify(s, req, n, key, otherwise, good, bad).state.provider == s.provider
  {
    hide Gates;
  }

  lemma SettleKeepsProvider(s: State, req: Request, state: OpState, reason: string)
    ensures Settle(s, req, state, reason).state.provider == s.provider
    ensures Settle(s, req, state, reason).Ended?
    ensures Settle(s, req, state, reason).outcome != Returned(Succeeded) || state.Succeeded?
  {
    hide Gates;
  }

  function ForwardCause(s: State, req: Request): Cause {
    Cause(req.operationId, req.operationId, req.actor, false, |s.journal.events|)
  }

  /** The provider after the effect part of a run: untouched, or mutated under an authorization in force. */
  lemma EffectProvider(s: State, req: Request, crash: CrashPoint)
    ensures var e := Effect(s, req, crash);
            || MutatedBy(s, e.state.provider, req, ForwardCause(s, req))
            || (e.state.provider == s.provider && e.Ended? && e.outcome != Returned(Succeeded))
  {
    hide Gates, Verify, Mutate, Settle, Authorized;
    GatesMeanAuthorized(s, req);
    if !Gates(s, req).ok {
      SettleKeepsProvider(s, req, Stopped, Gates(s, req).reason);
    } else if req.target !in s.journal.leases {
      SettleKeepsProvider(s, req, Unknown, "lost lease");
    } else {
      match Mutate(s.provider, req.target, req.action, s.journal.leases[req.target].epoch, ForwardCause(s, req))
      case Refused(reason) => SettleKeepsProvider(s, req, Stopped, reason);
      case Applied(provider, n) =>
        VerifyKeepsProvider(s.(provider := provider), req, n, req.operationId, Unknown, "",
                            "health failed after effect");
    }
  }

  /** `p` is the provider of `s` mutated for `req` under the current lease, all gates being open in `s`. */
  predicate MutatedBy(s: State, p: Provider, req: Request, c: Cause) {
    && Authorized(s, req)
    && var m := Mutate(s.provider, req.target, req.action, s.journal.leases[req.target].epoch, c);
    && m.Applied? && p == m.provider
  }

  lemma RedispatchProvider(s: State, req: Request)
    ensures var p := Redispatch(s, req).state.provider;
            p == s.provider || MutatedBy(s, p, req, Cause(req.operationId, req.operationId, req.actor, false, |s.journal.events| + 1))
  {
    hide Gates, Verify, Mutate;
    GatesMeanAuthorized(s, req);
    var e := Transition(s, req, Executing, None, "safe idempotent re-dispatch");
    if e.Running? && req.target in e.state.journal.leases {
      var m := e.state;
      var c := Cause(req.operationId, req.operationId, req.actor, false, |m.journal.events|);
      match Mutate(m.provider, req.target, req.action, m.journal.leases[req.target].epoch, c)
      case Refused(_) =>
      case Applied(provider, n) =>
        VerifyKeepsProvider(m.(provider := provider), req, n, req.operationId, Unknown,
                            "provider health verified", "effect unhealthy");
    }
  }

  lemma CompensateProvider(s: State, req: Request)
    ensures var p := Compensate(s, req).state.provider;
            p == s.provider ||
            MutatedBy(s, p, req.(action := Restore), Cause(CompensationKey(req.operationId), req.operationId, req.actor, true, |s.journal.events| + 1))
  {
    hide Gates, Verify, Mutate;
    GatesMeanAuthorized(s, req.(action := Restore));
    var e := Transition(s, req, Recovering, None, "approved distinct restore effect");
    if e.Running? && req.target in e.state.journal.leases {
      var m := e.state;
      var c := Cause(CompensationKey(req.operationId), req.operationId, req.actor, true, |m.journal.events|);
      match Mutate(m.provider, req.target, Restore, m.journal.leases[req.target].epoch, c)
      case Refused(_) =>
      case Applied(provider, n) =>
        VerifyKeepsProvider(m.(provider := provider), req, n, CompensationKey(req.operationId), RecoveryFailed,
                            "restored health verified", "compensation health check failed");
    }
  }

  lemma DispatchKeepsProvider(s: State, req: Request, crash: CrashPoint)
    ensures Dispatch(s, req, crash).state.provider == s.provider
    ensures Dispatch(s, req, crash).Ended? ==> Dispatch(s, req, crash).outcome != Returned(Succeeded)
  {
    hide Gates;
  }

  /** The request whose gates a step samples last. */
  function Acting(step: Step): Request
    requires !step.ControlStep?
  {
    if step.CompensateStep? then step.req.(action := Restore) else step.req
  }

  /** The state in which it samples them: for a run, after whatever happened since EXECUTING. */
  function Boundary(s: State, step: Step): State {
    match step
    case RunStep(req, crash, between) => ApplyControls(Dispatch(s, req, crash).state, between)
    case _ => s
  }

  /** The step made exactly one effect, for the actor, action and target it was authorized for. */
  predicate OneNewEffect(s: State, s': State, at: State, req: Request) {
    && |s'.provider.effects| == |s.provider.effects| + 1
    && |s'.provider.causes| == |s.provider.causes| + 1
    && Authorized(at, req)
    && var r := s'.provider.effects[|s.provider.effects|];
    && r.target == req.target && r.action == req.action
    && r.epoch == at.journal.leases[req.target].epoch
    && s'.provider.causes[|s.provider.causes|].actor == req.actor == at.journal.leases[req.target].holder
    && s'.provider.causes[|s.provider.causes|].operationId == req.operationId
  }

  lemma MutationIsOneEffect(s: State, s': State, at: State, req: Request, c: Cause)
    requires at.provider.effects == s.provider.effects && at.provider.causes == s.provider.causes
    requires c.actor == req.actor && c.operationId == req.operationId
    requires MutatedBy(at, s'.provider, req, c)
    ensures s'.provider.effects == s.provider.effects || OneNewEffect(s, s', at, req)
  {
  }

  /**
   A step makes no effect, or exactly one: under an authorization complete at that moment, and while
   no other operation on the target is in flight, before the step as well as at the boundary.
   */
  lemma NewEffectsAuthorizedAndExclusive(s: State, step: Step)
    requires Inv(s) && Apply(s, step).provider.effects != s.provider.effects
    ensures !step.ControlStep?
    ensures OneNewEffect(s, Apply(s, step), Boundary(s, step), Acting(step))
    ensures !InFlightElsewhere(s.journal, Acting(step).target, Acting(step).operationId)
  {
    hide Run, Dispatch, Effect, Redispatch, Compensate, Authorized, Mutate, Inv;
    var s' := Apply(s, step);
    match step
    case RunStep(req, crash, between) =>
      RunBoundary(s, req, crash, between);
    case ReconcileStep(req, retry) =>
      ReconcileBoundary(s, req, retry);
    case CompensateStep(req) =>
      CompensateProvider(s, req);
      MutationIsOneEffect(s, s', s, req.(action := Restore),
        Cause(CompensationKey(req.operationId), req.operationId, req.actor, true, |s.journal.events| + 1));
      AuthorizedIsExclusive(s, req.(action := Restore));
    case ControlStep(c) => ControlKeeps(s, c);
  }

  lemma AuthorizedIsExclusive(s: State, req: Request)
    ensures Authorized(s, req) ==> !InFlightElsewhere(s.journal, req.target, req.operationId)
  {
  }

  lemma ReconcileBoundary(s: State, req: Request, retry: bool)
    ensures var s' := Reconcile(s, req, retry).state;
            s'.provider.effects == s.provider.effects || OneNewEffect(s, s', s, req)
    ensures Reconcile(s, req, retry).state.provider.effects != s.provider.effects ==>
            !InFlightElsewhere(s.journal, req.target, req.operationId)
  {
    hide Gates, Redispatch, Authorized, Mutate;
    RedispatchProvider(s, req);
    AuthorizedIsExclusive(s, req);
    var c := Cause(req.operationId, req.operationId, req.actor, false, |s.journal.events| + 1);
    if MutatedBy(s, Redispatch(s, req).state.provider, req, c) {
      MutationIsOneEffect(s, Redispatch(s, req).state, s, req, c);
    }
  }

  lemma RunBoundary(s: State, req: Request, crash: CrashPoint, between: seq<Control>)
    requires Inv(s)
    ensures var s' := Run(s, req, crash, between).state;
            var at := ApplyControls(Dispatch(s, req, crash).state, between);
            s'.provider.effects == s.provider.effects ||
            (OneNewEffect(s, s', at, req) && !InFlightElsewhere(s.journal, req.target, req.operationId))
  {
    hide Dispatch, Effect, Authorized, Mutate, Inv;
    var d := Dispatch(s, req, crash).state;
    DispatchKeepsProvider(s, req, crash);
    if req.operationId !in s.journal.operations && Dispatch(s, req, crash).Running? {
      DispatchExtends(s, req, crash);
      DispatchKeeps(s, req, crash);
      ControlsKeep(d, between);
      var at := ApplyControls(d, between);
      EffectProvider(at, req, crash);
      AuthorizedIsExclusive(at, req);
      var s' := Effect(at, req, crash).state;
      var c := ForwardCause(at, req);
      if MutatedBy(at, s'.provider, req, c) { MutationIsOneEffect(s, s', at, req, c); }
    }
  }

  predicate Succeeds(s: State, req: Request, crash: CrashPoint, between: seq<Control>) {
    var e := Run(s, req, crash, between);
    e.Ended? && e.outcome == Returned(Succeeded)
  }

  /**
   Where keys may collide: a run that succeeds made its own effect exactly when no receipt was
   already stored under its id.
   */
  lemma SuccessIsOwnEffectIff(s: State, req: Request, crash: CrashPoint, between: seq<Control>)
    requires Succeeds(s, req, crash, between) && Inv(s)
    ensures !NoForwardEffect(Run(s, req, crash, between).state.provider, req.operationId) <==>
            req.operationId !in s.provider.receipts
  {
    hide Dispatch, Effect, Authorized, Inv;
    NewHasNoEffect(s, req.operationId);
    DispatchKeeps(s, req, crash);
    DispatchKeepsProvider(s, req, crash);
    var d := Dispatch(s, req, crash).state;
    ControlsKeep(d, between);
    var at := ApplyControls(d, between);
    EffectProvider(at, req, crash);
    if req.operationId in s.provider.receipts { ReceiptsNeedIdempotency(s, req.operationId); }
    var p := Effect(at, req, crash).state.provider;
    if req.operationId !in s.provider.receipts {
      assert p.causes[|s.provider.causes|] in p.causes;
    }
  }

  lemma ReceiptsNeedIdempotency(s: State, id: Id)
    requires Inv(s) && id in s.provider.receipts
    ensures s.provider.idempotency
  {
  }

  // ---------------------------------------------------------------- one operation in flight

  /** No two operations on one target are in flight. */
  predicate Solo(j: Journal) {
    forall a, b | a in j.operations && b in j.operations && a != b &&
                  j.operations[a].state.InFlight() && j.operations[b].state.InFlight() ::
      j.operations[a].target != j.operations[b].target
  }

  /**
   A run breaks the rule exactly when it records PREPARED beside an operation already in flight on
   the target and the journal then fails before STOPPED can be recorded.
   */
  lemma RunKeepsSoloIff(s: State, req: Request, crash: CrashPoint, between: seq<Control>)
    requires Solo(s.journal)
    ensures Solo(Run(s, req, crash, between).state.journal) <==>
            !(&& req.operationId !in s.journal.operations
              && InFlightElsewhere(s.journal, req.target, req.operationId)
              && s.journal.writesLeft == 1)
  {
    var id := req.operationId;
    if id !in s.journal.operations {
      var generation :=
        if req.target in s.provider.services then s.provider.services[req.target].generation else 0;
      var b := Begin(s, req, generation);
      if b.Ended? {
      } else if InFlightElsewhere(s.journal, req.target, id) {
        RefusedBesideAnother(s, req, crash, between, generation);
      } else {
        RunExtends(s, req, crash, between);
        NewRowTarget(s, req, crash, between);
        AloneIsSolo(s, Run(s, req, crash, between).state, req);
      }
    }
  }

  lemma AloneIsSolo(s: State, s': State, req: Request)
    requires Solo(s.journal) && Extends(s, s', req.operationId)
    requires !InFlightElsewhere(s.journal, req.target, req.operationId)
    requires req.operationId in s'.journal.operations ==>
               s'.journal.operations[req.operationId].target == req.target
    ensures Solo(s'.journal)
  {
  }

  lemma RefusedBesideAnother(s: State, req: Request, crash: CrashPoint, between: seq<Control>, generation: int)
    requires Solo(s.journal) && req.operationId !in s.journal.operations && s.journal.writesLeft > 0
    requires InFlightElsewhere(s.journal, req.target, req.operationId)
    requires generation == if req.target in s.provider.services then s.provider.services[req.target].generation else 0
    ensures Solo(Run(s, req, crash, between).state.journal) <==> s.journal.writesLeft != 1
  {
    hide Gates, Effect;
    var id := req.operationId;
    var m := Begin(s, req, generation).state;
    BesideAnotherStays(s, req, generation);
    GatesClosedBeside(m, req);
    assert Run(s, req, crash, between) == Settle(m, req, Stopped, Gates(m, req).reason);
    if s.journal.writesLeft == 1 {
      var k :| k in m.journal.operations && k != id && m.journal.operations[k].target == req.target &&
               m.journal.operations[k].state.InFlight();
      assert m.journal.operations[id].target == req.target && m.journal.operations[id].state.InFlight();
      assert !Solo(m.journal);
      assert Settle(m, req, Stopped, Gates(m, req).reason).state.journal == m.journal;
    }
  }

  lemma GatesClosedBeside(s: State, req: Request)
    requires InFlightElsewhere(s.journal, req.target, req.operationId)
    ensures !Gates(s, req).ok
  {
    hide Gates;
    GatesMeanAuthorized(s, req);
  }

  lemma BesideAnotherStays(s: State, req: Request, generation: int)
    requires req.operationId !in s.journal.operations && s.journal.writesLeft > 0
    requires InFlightElsewhere(s.journal, req.target, req.operationId)
    ensures InFlightElsewhere(Begin(s, req, generation).state.journal, req.target, req.operationId)
  {
    var m := Begin(s, req, generation).state;
    var k :| k in s.journal.operations && k != req.operationId && s.journal.operations[k].target == req.target &&
             s.journal.operations[k].state.InFlight();
    assert m.journal.operations[k] == s.journal.operations[k];
  }

  lemma DispatchRowTarget(s: State, req: Request, crash: CrashPoint)
    requires req.operationId !in s.journal.operations
    ensures var s' := Dispatch(s, req, crash).state;
            req.operationId in s'.journal.operations ==> s'.journal.operations[req.operationId].target == req.target
  {
    hide Gates, Settle, Transition;
    var generation :=
      if req.target in s.provider.services then s.provider.services[req.target].generation else 0;
    var m := Begin(s, req, generation).state;
    SettleExtends(m, req, Stopped, Gates(m, req).reason);
    TransitionExtends(m, req, Executing, None, "");
  }

  lemma NewRowTarget(s: State, req: Request, crash: CrashPoint, between: seq<Control>)
    requires req.operationId !in s.journal.operations
    ensures var s' := Run(s, req, crash, between).state;
            req.operationId in s'.journal.operations ==>
              s'.journal.operations[req.operationId].target == req.target
  {
    hide Dispatch, Effect;
    DispatchRowTarget(s, req, crash);
    DispatchRunning(s, req, crash);
    var d := Dispatch(s, req, crash).state;
    ControlsExtend(d, between, req.operationId);
    EffectExtends(ApplyControls(d, between), req, crash);
  }

  /** The other calls act only on an operation that is already in flight. */
  lemma OthersKeepSolo(s: State, step: Step)
    requires Solo(s.journal) && !step.RunStep?
    ensures Solo(Apply(s, step).journal)
  {
    hide Reconcile, Compensate;
    match step
    case ReconcileStep(req, retry) =>
      ReconcileExtends(s, req, retry);
      if Settled(s, req.operationId) { TerminalAbsorbs(s, req, NoCrash, [], retry); }
      if req.operationId !in s.journal.operations { UnknownUntouched(s, req, retry); }
    case CompensateStep(req) =>
      CompensateExtends(s, req);
      if Settled(s, req.operationId) { TerminalAbsorbs(s, req, NoCrash, [], false); }
      if req.operationId !in s.journal.operations { UnknownUntouched(s, req, false); }
    case ControlStep(c) => ControlsExtend(s, [c], "");
      assert ApplyControls(s, [c]) == ApplyControl(s, c);
  }

  lemma UnknownUntouched(s: State, req: Request, retry: bool)
    requires req.operationId !in s.journal.operations
    ensures Reconcile(s, req, retry).state == s && Compensate(s, req).state == s
  {
  }

  /** No run starts with a journal that will accept exactly one more commit. */
  predicate Steady(s: State, steps: seq<Step>)
    decreases |steps|
  {
    steps != [] ==>
      (steps[0].RunStep? ==> s.journal.writesLeft != 1) && Steady(Apply(s, steps[0]), steps[1..])
  }

  lemma {:induction false} SteadyKeepsSolo(s: State, steps: seq<Step>)
    requires Solo(s.journal) && Steady(s, steps)
    ensures Solo(Execute(s, steps).journal)
    decreases |steps|
  {
    if steps != [] {
      if steps[0].RunStep? {
        RunKeepsSoloIff(s, steps[0].req, steps[0].crash, steps[0].between);
      } else {
        OthersKeepSolo(s, steps[0]);
      }
      SteadyKeepsSolo(Apply(s, steps[0]), steps[1..]);
    }
  }

  /** Between calls, at most one operation per target is in flight. */
  lemma OneInFlight(init: State, steps: seq<Step>)
    requires Fresh(init) && Steady(init, steps)
    ensures Solo(Execute(init, steps).journal)
  {
    SteadyKeepsSolo(init, steps);
  }
}
