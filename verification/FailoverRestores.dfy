/** Which fresh states keep every operation from being restored twice, whatever runs start from them. */
module FailoverRestores {
  import opened Wrappers
  import opened FailoverModel
  import opened FailoverInvariants
  import opened FailoverRuns
  import opened FailoverExamples

  // ---------------------------------------------------------------- what no run changes

  /** No call and no control gives a provider receipts, or adds or removes a target. */
  predicate SameKind(s: State, s': State) {
    s'.provider.idempotency == s.provider.idempotency && s'.provider.services.Keys == s.provider.services.Keys
  }

  lemma TransitionSameKind(s: State, req: Request, state: OpState, providerOp: Option<nat>, reason: string)
    ensures var s' := Transition(s, req, state, providerOp, reason).state;
            s'.provider == s.provider && s'.journal.leases == s.journal.leases
    ensures Settle(s, req, state, reason).state.provider == s.provider
  {
    hide Gates;
  }

  lemma MutateSameKind(s: State, target: string, action: Action, epoch: nat, c: Cause)
    ensures var m := Mutate(s.provider, target, action, epoch, c);
            m.Applied? ==> SameKind(s, s.(provider := m.provider))
  {
  }

  lemma VerifySameKind(s: State, req: Request, n: nat, key: string, otherwise: OpState, good: string, bad: string)
    ensures SameKind(s, Verify(s, req, n, key, otherwise, good, bad).state)
  {
    hide Transition, Settle;
    TransitionSameKind(s, req, Verifying, Some(n), "");
    var at := Transition(s, req, Verifying, Some(n), "").state;
    TransitionSameKind(at, req, Succeeded, None, good);
    TransitionSameKind(at, req, otherwise, None, bad);
  }

  /** A mutation and its verification, or the state in which its refusal is logged. */
  lemma MutatedSameKind(s: State, req: Request, action: Action, epoch: nat, c: Cause, key: string, otherwise: OpState,
                        good: string, bad: string, refused: OpState)
    ensures match Mutate(s.provider, req.target, action, epoch, c)
            case Refused(reason) => SameKind(s, Settle(s, req, refused, reason).state)
            case Applied(provider, n) =>
              SameKind(s, Verify(s.(provider := provider), req, n, key, otherwise, good, bad).state)
  {
    hide Verify, Mutate, Settle;
    MutateSameKind(s, req.target, action, epoch, c);
    match Mutate(s.provider, req.target, action, epoch, c)
    case Refused(reason) => SettleSameKind(s, req, refused, reason);
    case Applied(provider, n) => VerifySameKind(s.(provider := provider), req, n, key, otherwise, good, bad);
  }

  lemma SettleSameKind(s: State, req: Request, state: OpState, reason: string)
    ensures SameKind(s, Settle(s, req, state, reason).state)
  {
    TransitionSameKind(s, req, state, None, reason);
  }

  lemma EffectSameKind(s: State, req: Request, crash: CrashPoint)
    ensures SameKind(s, Effect(s, req, crash).state)
  {
    hide Gates, Verify, Mutate, Settle;
    SettleSameKind(s, req, Stopped, Gates(s, req).reason);
    SettleSameKind(s, req, Unknown, "lost lease");
    if Gates(s, req).ok && req.target in s.journal.leases {
      var cause := Cause(req.operationId, req.operationId, req.actor, false, |s.journal.events|);
      var epoch := s.journal.leases[req.target].epoch;
      MutateSameKind(s, req.target, req.action, epoch, cause);
      MutatedSameKind(s, req, req.action, epoch, cause, req.operationId, Unknown, "", "health failed after effect", Stopped);
    }
  }

  lemma RedispatchSameKind(s: State, req: Request)
    ensures SameKind(s, Redispatch(s, req).state)
  {
    hide Gates, Verify, Mutate, Settle, Transition;
    SettleSameKind(s, req, Stopped, Gates(s, req).reason);
    TransitionSameKind(s, req, Executing, None, "safe idempotent re-dispatch");
    var at := Transition(s, req, Executing, None, "safe idempotent re-dispatch").state;
    SettleSameKind(at, req, Unknown, "lease vanished");
    if req.target in at.journal.leases {
      var cause := Cause(req.operationId, req.operationId, req.actor, false, |at.journal.events|);
      MutatedSameKind(at, req, req.action, at.journal.leases[req.target].epoch, cause, req.operationId, Unknown,
                      "provider health verified", "effect unhealthy", Stopped);
    }
  }

  lemma CompensateSameKind(s: State, req: Request)
    ensures SameKind(s, Compensate(s, req).state)
  {
    hide Gates, Verify, Mutate, Settle, Transition, SameIntent, CompensationKey;
    var key := CompensationKey(req.operationId);
    SettleSameKind(s, req, RecoveryBlocked, Gates(s, req.(action := Restore)).reason);
    TransitionSameKind(s, req, Recovering, None, "approved distinct restore effect");
    var at := Transition(s, req, Recovering, None, "approved distinct restore effect").state;
    SettleSameKind(at, req, RecoveryBlocked, "lease missing");
    if req.target in at.journal.leases {
      var cause := Cause(key, req.operationId, req.actor, true, |at.journal.events|);
      MutatedSameKind(at, req, Restore, at.journal.leases[req.target].epoch, cause, key, RecoveryFailed,
                      "restored health verified", "compensation health check failed", RecoveryFailed);
    }
  }

  lemma {:induction false} ControlsSameKind(s: State, cs: seq<Control>)
    ensures SameKind(s, ApplyControls(s, cs))
    decreases |cs|
  {
    if cs != [] {
      ControlsSameKind(ApplyControl(s, cs[0]), cs[1..]);
    }
  }

  lemma DispatchSameKind(s: State, req: Request, crash: CrashPoint)
    ensures SameKind(s, Dispatch(s, req, crash).state)
  {
    hide Gates;
  }

  lemma RunSameKind(s: State, req: Request, crash: CrashPoint, between: seq<Control>)
    ensures SameKind(s, Run(s, req, crash, between).state)
  {
    hide Dispatch, Effect, ApplyControls;
    DispatchSameKind(s, req, crash);
    var at := Dispatch(s, req, crash).state;
    ControlsSameKind(at, between);
    EffectSameKind(ApplyControls(at, between), req, crash);
  }

  lemma ReconcileSameKind(s: State, req: Request, retry: bool)
    ensures SameKind(s, Reconcile(s, req, retry).state)
  {
    hide Gates, Redispatch;
    RedispatchSameKind(s, req);
  }

  lemma StepSameKind(s: State, step: Step)
    ensures SameKind(s, Apply(s, step))
  {
    hide Run, Reconcile, Compensate;
    match step
    case RunStep(req, crash, between) => RunSameKind(s, req, crash, between);
    case ReconcileStep(req, retry) => ReconcileSameKind(s, req, retry);
    case CompensateStep(req) => CompensateSameKind(s, req);
    case ControlStep(control) => ControlsSameKind(s, [control]); assert [control][1..] == [];
  }

  lemma {:induction false} AlwaysSameKind(s: State, steps: seq<Step>)
    ensures SameKind(s, Execute(s, steps))
    decreases |steps|
  {
    hide Apply;
    if steps != [] {
      StepSameKind(s, steps[0]);
      AlwaysSameKind(Apply(s, steps[0]), steps[1..]);
    }
  }

  // ---------------------------------------------------------------- two restores from any fresh state

  function Asking(t: string): Request {
    Request("a", "Ruku", t, Restart, Green, "policy-v1", true, true, false, None, "trace")
  }

  /** A lease, a grant and a verdict for a restore of the target, on a provider that can be read. */
  function Prepares(t: string, now: int): seq<Step> {
    [ControlStep(ConfigureProvider(true, true, false, false)), ControlStep(JournalCommits(1)),
     ControlStep(TakeLease("Ruku", t, false, 60)),
     ControlStep(Grant(Capability("Ruku", t, Restore, "policy-v1", now + 60))),
     ControlStep(Decide(Verdict(Allow, t, Restore, "policy-v1", now + 60, true)))]
  }

  /** An operation cut off at PREPARED, and found unresolved. */
  function LeavesUnresolved(t: string): seq<Step> {
    [ControlStep(JournalCommits(1)), RunStep(Asking(t), NoCrash, []),
     ControlStep(JournalCommits(1)), ReconcileStep(Asking(t), false)]
  }

  function RestoresTwice(t: string): seq<Step> {
    [ControlStep(JournalCommits(1)), CompensateStep(Asking(t)),
     ControlStep(JournalCommits(1)), CompensateStep(Asking(t))]
  }

  /** Whoever asks for a restore of the target now is let through, unless an operation is in flight. */
  predicate Prepared(s: State, t: string) {
    && t in s.provider.services && s.provider.fencing && s.provider.readable && !s.provider.idempotency
    && t in s.journal.leases && s.journal.leases[t] == Lease("Ruku", t, s.provider.services[t].epoch, s.now + 60)
    && ("Ruku", t, Restore) in s.capabilities
    && s.capabilities[("Ruku", t, Restore)] == Capability("Ruku", t, Restore, "policy-v1", s.now + 60)
    && (t, Restore) in s.verdicts && s.verdicts[(t, Restore)] == Verdict(Allow, t, Restore, "policy-v1", s.now + 60, true)
    && s.provider.causes == [] && s.provider.receipts == map[]
  }

  lemma FiveSteps(s: State, a: Step, b: Step, c: Step, d: Step, e: Step)
    ensures Execute(s, [a, b, c, d, e]) == Apply(Apply(Apply(Apply(Apply(s, a), b), c), d), e)
  {
    hide Apply;
    assert [a, b, c, d, e][1..] == [b, c, d, e];
    FourSteps(Apply(s, a), b, c, d, e);
  }

  lemma PreparesWell(init: State, t: string)
    requires Fresh(init) && !init.provider.idempotency && t in init.provider.services
    ensures var s := Execute(init, Prepares(t, init.now));
            Prepared(s, t) && s.journal.operations == map[]
  {
    var p := Prepares(t, init.now);
    FiveSteps(init, p[0], p[1], p[2], p[3], p[4]);
  }

  lemma UnresolvedIsRestorable(s: State, t: string)
    requires Prepared(s, t) && s.journal.operations == map[]
    ensures var s' := Execute(s, LeavesUnresolved(t));
            Restorable(s', Asking(t)) && s'.provider.causes == []
  {
    hide Run, Reconcile, Execute, Authorized;
    var req := Asking(t);
    FourSteps(s, ControlStep(JournalCommits(1)), RunStep(req, NoCrash, []),
              ControlStep(JournalCommits(1)), ReconcileStep(req, false));
    var s0 := ApplyControl(s, JournalCommits(1));
    CutOffAtPrepared(s0, req);
    var s1 := ApplyControl(Run(s0, req, NoCrash, []).state, JournalCommits(1));
    FoundUnresolved(s1, req);
    PreparedAuthorizes(Reconcile(s1, req, false).state, t);
  }

  lemma CutOffAtPrepared(s: State, req: Request)
    requires s.journal.operations == map[] && s.journal.writesLeft == 1
    ensures var s' := Run(s, req, NoCrash, []).state;
            && s'.journal.operations.Keys == {req.operationId} && SameSetting(s, s')
            && s'.journal.operations[req.operationId].state.Prepared? && SameIntent(s'.journal.operations[req.operationId], req)
  {
    hide Gates;
  }

  lemma FoundUnresolved(s: State, req: Request)
    requires s.journal.operations.Keys == {req.operationId} && s.journal.writesLeft == 1
    requires s.journal.operations[req.operationId].state.Prepared? && SameIntent(s.journal.operations[req.operationId], req)
    requires s.provider.readable && req.target in s.provider.services && s.provider.receipts == map[]
    ensures var s' := Reconcile(s, req, false).state;
            && s'.journal.operations.Keys == {req.operationId} && SameSetting(s, s')
            && s'.journal.operations[req.operationId].state.Unknown? && SameIntent(s'.journal.operations[req.operationId], req)
  {
    hide Gates;
  }

  lemma PreparedAuthorizes(s: State, t: string)
    requires Prepared(s, t) && s.journal.operations.Keys == {"a"}
    ensures Authorized(s, Asking(t).(action := Restore))
  {
  }

  /** Some operation has been restored by two effects. */
  predicate RestoredTwice(p: Provider) {
    exists i: nat, j: nat :: i < j < |p.causes| && p.causes[i].operationId == p.causes[j].operationId &&
      p.causes[i].compensating && p.causes[j].compensating
  }

  /** On a provider without receipts, any target can be restored twice for one operation. */
  lemma AnyTargetIsRestoredTwice(init: State, t: string)
    requires Fresh(init) && !init.provider.idempotency && t in init.provider.services
    ensures RestoredTwice(Execute(init, Prepares(t, init.now) + LeavesUnresolved(t) + RestoresTwice(t)).provider)
  {
    hide Execute, Prepares, LeavesUnresolved, Authorized;
    PreparesWell(init, t);
    var s := Execute(init, Prepares(t, init.now));
    UnresolvedIsRestorable(s, t);
    var s' := Execute(s, LeavesUnresolved(t));
    RestoredTwiceWithoutReceipts(s', Asking(t));
    ExecuteJoin(init, Prepares(t, init.now), LeavesUnresolved(t));
    ExecuteJoin(init, Prepares(t, init.now) + LeavesUnresolved(t), RestoresTwice(t));
    var causes := Execute(s', RestoresTwice(t)).provider.causes;
    assert causes[0].compensating && causes[1].compensating && causes[0].operationId == causes[1].operationId;
  }

  /**
   Every run from a fresh state restores each operation at most once if and only if its provider keeps
   receipts or has no targets at all.
   */
  lemma AtMostOneRestoreIff(init: State)
    requires Fresh(init)
    ensures (forall steps :: !RestoredTwice(Execute(init, steps).provider)) <==>
            (init.provider.idempotency || init.provider.services == map[])
  {
    hide Execute, Fresh, RestoredTwice;
    if init.provider.idempotency || init.provider.services == map[] {
      forall steps
        ensures !RestoredTwice(Execute(init, steps).provider)
      {
        NeverTwice(init, steps);
      }
    } else {
      var t :| t in init.provider.services;
      AnyTargetIsRestoredTwice(init, t);
    }
  }

  lemma NeverTwice(init: State, steps: seq<Step>)
    requires Fresh(init) && (init.provider.idempotency || init.provider.services == map[])
    ensures !RestoredTwice(Execute(init, steps).provider)
  {
    hide Execute, Fresh, Inv;
    AlwaysSameKind(init, steps);
    var p := Execute(init, steps).provider;
    if p.idempotency {
      forall i: nat, j: nat | i < j < |p.causes| && p.causes[i].operationId == p.causes[j].operationId
        ensures !(p.causes[i].compensating && p.causes[j].compensating)
      {
        AtMostOneRestore(init, steps, i, j);
      }
    } else {
      Reachable(init, steps);
      NoTargetsNoEffects(Execute(init, steps));
    }
  }

  lemma EffectsHaveTargets(s: State, i: nat)
    requires Inv(s) && i < |s.provider.effects|
    ensures s.provider.effects[i].target in s.provider.services.Keys
  {
    assert s.provider.effects[i] in s.provider.effects;
  }

  lemma NoTargetsNoEffects(s: State)
    requires Inv(s) && s.provider.services.Keys == {}
    ensures s.provider.causes == []
  {
    hide Journaled, Accounted, EffectsBelowEpoch, LeasesMatchProvider, OneActorPerEpoch, CurrentEpochIsHolders;
    if s.provider.effects != [] {
      EffectsHaveTargets(s, 0);
    }
  }
}
