/**
 What SUCCEEDED says: the target was seen healthy at that moment, and the effect behind it is the
 operation's own unless another operation has used its key.
 */
module FailoverSuccess {
  import opened Wrappers
  import opened FailoverModel
  import opened FailoverInvariants
  import opened FailoverRuns

  // ---------------------------------------------------------------- whose receipt it is

  /** The receipt stored under this key was left by another operation. */
  predicate StoredByAnother(p: Provider, key: string, id: Id) {
    && key in p.receipts
    && var n := p.receipts[key].effectId;
       1 <= n <= |p.causes| && p.causes[n - 1].operationId != id
  }

  function KeyFor(id: Id, compensating: bool): string { if compensating then CompensationKey(id) else id }

  /** The operation has caused an effect of this kind. */
  predicate Caused(p: Provider, id: Id, compensating: bool) {
    exists c <- p.causes :: c.operationId == id && c.compensating == compensating
  }

  /** A receipt is stored under the operation's key: it has caused the effect iff the receipt is its own. */
  lemma OwnerOfReceipt(s: State, id: Id, compensating: bool)
    requires Inv(s) && KeyFor(id, compensating) in s.provider.receipts
    ensures Caused(s.provider, id, compensating) <==> !StoredByAnother(s.provider, KeyFor(id, compensating), id)
  {
    hide Inv;
    var p, key := s.provider, KeyFor(id, compensating);
    KeysOfCauses(s, key);
    var n := p.receipts[key].effectId;
    if p.causes[n - 1].operationId == id {
      KeyTellsKind(p.causes[n - 1], id, compensating);
      assert p.causes[n - 1] in p.causes;
    }
    if c :| c in p.causes && c.operationId == id && c.compensating == compensating {
      var i :| 0 <= i < |p.causes| && p.causes[i] == c;
      assert KeyOf(p.causes[i]) == key;
    }
  }

  /** The receipt under a key is of the only effect made under it. */
  lemma KeysOfCauses(s: State, key: string)
    requires Inv(s) && key in s.provider.receipts
    ensures var p := s.provider; var n := p.receipts[key].effectId;
            && 1 <= n <= |p.causes| && KeyOf(p.causes[n - 1]) == key
            && forall i | 0 <= i < |p.causes| && KeyOf(p.causes[i]) == key :: i == n - 1
  {
    hide Journaled, Fenced, RowHonest, Logged, AtMostOneForward;
    var p := s.provider;
    ReceiptsNeedIdempotency(s, key);
    assert IsEffectUnder(p, p.receipts[key].effectId, key);
    forall i | 0 <= i < |p.causes| ensures p.causes[i].key == KeyOf(p.causes[i]) {
      assert Backed(s.journal, p.effects[i], p.causes[i]);
    }
  }

  lemma KeyTellsKind(c: Cause, id: Id, compensating: bool)
    requires c.operationId == id && KeyOf(c) == KeyFor(id, compensating)
    ensures c.compensating == compensating
  {
    assert |CompensationKey(id)| == |id| + 8;
  }

  /** An applied mutation under a key without receipt is an effect with this very cause. */
  lemma MutationUnderNewKey(s: State, p: Provider, req: Request, c: Cause)
    requires MutatedBy(s, p, req, c)
    ensures c.key !in s.provider.receipts ==> p.causes == s.provider.causes + [c]
    ensures c.key in s.provider.receipts && s.provider.idempotency ==> p == s.provider
  {
    hide Authorized;
  }

  // ---------------------------------------------------------------- reconciliation

  predicate ReconcileSucceeds(s: State, req: Request, retry: bool) {
    var e := Reconcile(s, req, retry);
    e.Ended? && e.outcome == Returned(Succeeded)
  }

  lemma RedispatchSucceeds(s: State, req: Request)
    requires Redispatch(s, req).Ended? && Redispatch(s, req).outcome == Returned(Succeeded)
    ensures MutatedBy(s, Redispatch(s, req).state.provider, req,
                      Cause(req.operationId, req.operationId, req.actor, false, |s.journal.events| + 1))
  {
    hide Gates, Verify, Mutate, Authorized;
    GatesMeanAuthorized(s, req);
    var e := Transition(s, req, Executing, None, "safe idempotent re-dispatch");
    if e.Running? && req.target in e.state.journal.leases {
      var m := e.state;
      var c := Cause(req.operationId, req.operationId, req.actor, false, |m.journal.events|);
      match Mutate(m.provider, req.target, req.action, m.journal.leases[req.target].epoch, c)
      case Refused(_) =>
      case Applied(provider, n) =>
        VerifyKeepsProvider(m.(provider := provider), req, n, req.operationId, Unknown,
                            "provider health verified", "effect unhealthy");
    }
  }

  lemma ReconcileByReceipt(s: State, req: Request, retry: bool)
    requires ReconcileSucceeds(s, req, retry) && !Settled(s, req.operationId)
    ensures req.operationId in s.provider.receipts ==> Reconcile(s, req, retry).state.provider == s.provider
    ensures req.operationId !in s.provider.receipts ==>
              Reconcile(s, req, retry) == Redispatch(s, req)
  {
    hide Gates, Redispatch;
  }

  /**
   A reconciliation that reports SUCCEEDED for an open operation: the operation has caused its effect,
   then or before, if and only if the receipt under its id was not left by another operation.
   */
  lemma ReconcileSuccessIsOwnEffectIff(s: State, req: Request, retry: bool)
    requires ReconcileSucceeds(s, req, retry) && !Settled(s, req.operationId) && Inv(s)
    ensures Caused(Reconcile(s, req, retry).state.provider, req.operationId, false) <==>
            !StoredByAnother(s.provider, req.operationId, req.operationId)
  {
    hide Reconcile, Redispatch, Inv, Authorized, Mutate;
    var id := req.operationId;
    ReconcileByReceipt(s, req, retry);
    if id in s.provider.receipts {
      OwnerOfReceipt(s, id, false);
    } else {
      RedispatchSucceeds(s, req);
      var c := Cause(id, id, req.actor, false, |s.journal.events| + 1);
      MutationUnderNewKey(s, Redispatch(s, req).state.provider, req, c);
      assert c in Redispatch(s, req).state.provider.causes;
    }
  }

  // ---------------------------------------------------------------- compensation

  predicate CompensateSucceeds(s: State, req: Request) {
    var e := Compensate(s, req);
    e.Ended? && e.outcome == Returned(Succeeded)
  }

  lemma CompensationMutates(s: State, req: Request)
    requires CompensateSucceeds(s, req)
    ensures MutatedBy(s, Compensate(s, req).state.provider, req.(action := Restore),
                      Cause(CompensationKey(req.operationId), req.operationId, req.actor, true, |s.journal.events| + 1))
  {
    hide Gates, Verify, Mutate, Authorized;
    GatesMeanAuthorized(s, req.(action := Restore));
    var e := Transition(s, req, Recovering, None, "approved distinct restore effect");
    if e.Running? && req.target in e.state.journal.leases {
      var m := e.state;
      var c := Cause(CompensationKey(req.operationId), req.operationId, req.actor, true, |m.journal.events|);
      match Mutate(m.provider, req.target, Restore, m.journal.leases[req.target].epoch, c)
      case Refused(_) =>
      case Applied(provider, n) =>
        VerifyKeepsProvider(m.(provider := provider), req, n, CompensationKey(req.operationId), RecoveryFailed,
                            "restored health verified", "compensation health check failed");
    }
  }

  /**
   A compensation that reports SUCCEEDED: the operation has been restored, then or before, if and only
   if the receipt under its compensation key was not left by another operation.
   */
  lemma CompensateSuccessIsOwnEffectIff(s: State, req: Request)
    requires CompensateSucceeds(s, req) && Inv(s)
    ensures Caused(Compensate(s, req).state.provider, req.operationId, true) <==>
            !StoredByAnother(s.provider, CompensationKey(req.operationId), req.operationId)
  {
    hide Compensate, Inv, Authorized, Mutate, MutatedBy;
    var id, key := req.operationId, CompensationKey(req.operationId);
    CompensationMutates(s, req);
    var c := Cause(key, id, req.actor, true, |s.journal.events| + 1);
    var p := Compensate(s, req).state.provider;
    MutationUnderNewKey(s, p, req.(action := Restore), c);
    if key in s.provider.receipts {
      ReceiptsNeedIdempotency(s, key);
      OwnerOfReceipt(s, id, true);
    } else {
      assert c in p.causes;
    }
  }

  // ---------------------------------------------------------------- the health behind it

  predicate SeenHealthy(p: Provider, target: string) {
    p.readable && target in p.services && p.services[target].healthy
  }

  predicate HasSucceeded(s: State, id: Id) { id in s.journal.operations && s.journal.operations[id].state.Succeeded? }

  /** The call has not made the operation SUCCEEDED without seeing its target healthy. */
  predicate Honest(s: State, s': State, id: Id, target: string) {
    HasSucceeded(s', id) ==> HasSucceeded(s, id) || SeenHealthy(s'.provider, target)
  }

  lemma TransitionHonest(s: State, req: Request, state: OpState, providerOp: Option<nat>, reason: string)
    requires !state.Succeeded?
    ensures Honest(s, Transition(s, req, state, providerOp, reason).state, req.operationId, req.target)
    ensures Honest(s, Settle(s, req, state, reason).state, req.operationId, req.target)
  {
    hide Gates;
  }

  lemma VerifyHonest(s: State, req: Request, n: nat, key: string, otherwise: OpState, good: string, bad: string)
    requires !otherwise.Succeeded?
    ensures Honest(s, Verify(s, req, n, key, otherwise, good, bad).state, req.operationId, req.target)
  {
    hide Gates, Transition, Settle;
    TransitionHonest(s, req, Verifying, Some(n), "");
    VerifyKeepsProvider(s, req, n, key, otherwise, good, bad);
    var e := Transition(s, req, Verifying, Some(n), "");
    if e.Running? {
      SettleKeepsProvider(e.state, req, Succeeded, good);
      SettleKeepsProvider(e.state, req, otherwise, bad);
      TransitionHonest(e.state, req, otherwise, None, bad);
    }
  }

  lemma EffectHonest(s: State, req: Request, crash: CrashPoint)
    ensures Honest(s, Effect(s, req, crash).state, req.operationId, req.target)
  {
    hide Gates, Verify, Mutate, Settle;
    TransitionHonest(s, req, Stopped, None, Gates(s, req).reason);
    TransitionHonest(s, req, Unknown, None, "lost lease");
    if req.target in s.journal.leases {
      match Mutate(s.provider, req.target, req.action, s.journal.leases[req.target].epoch,
                   Cause(req.operationId, req.operationId, req.actor, false, |s.journal.events|))
      case Refused(reason) => TransitionHonest(s, req, Stopped, None, reason);
      case Applied(provider, n) =>
        VerifyHonest(s.(provider := provider), req, n, req.operationId, Unknown, "", "health failed after effect");
    }
  }

  lemma DispatchHonest(s: State, req: Request, crash: CrashPoint)
    requires req.operationId !in s.journal.operations
    ensures !HasSucceeded(Dispatch(s, req, crash).state, req.operationId)
  {
    hide Gates;
  }

  lemma RunHonest(s: State, req: Request, crash: CrashPoint, between: seq<Control>)
    ensures Honest(s, Run(s, req, crash, between).state, req.operationId, req.target)
  {
    hide Dispatch, Effect;
    if req.operationId !in s.journal.operations {
      var d := Dispatch(s, req, crash).state;
      DispatchHonest(s, req, crash);
      ControlsExtend(d, between, req.operationId);
      EffectHonest(ApplyControls(d, between), req, crash);
    }
  }

  lemma RedispatchHonest(s: State, req: Request)
    ensures Honest(s, Redispatch(s, req).state, req.operationId, req.target)
  {
    hide Gates, Verify, Mutate, Settle, Transition;
    TransitionHonest(s, req, Stopped, None, Gates(s, req).reason);
    TransitionHonest(s, req, Executing, None, "safe idempotent re-dispatch");
    var e := Transition(s, req, Executing, None, "safe idempotent re-dispatch");
    if e.Running? {
      NotSucceededAfter(s, req, Executing, "safe idempotent re-dispatch");
      TransitionHonest(e.state, req, Unknown, None, "lease vanished");
      if req.target in e.state.journal.leases {
        match Mutate(e.state.provider, req.target, req.action, e.state.journal.leases[req.target].epoch,
                     Cause(req.operationId, req.operationId, req.actor, false, |e.state.journal.events|))
        case Refused(_) =>
        case Applied(provider, n) =>
          VerifyHonest(e.state.(provider := provider), req, n, req.operationId, Unknown,
                       "provider health verified", "effect unhealthy");
      }
    }
  }

  lemma NotSucceededAfter(s: State, req: Request, state: OpState, reason: string)
    requires !state.Succeeded? && Transition(s, req, state, None, reason).Running?
    ensures !HasSucceeded(Transition(s, req, state, None, reason).state, req.operationId)
  {
    hide Gates;
  }

  lemma ReconcileHonest(s: State, req: Request, retry: bool)
    ensures Honest(s, Reconcile(s, req, retry).state, req.operationId, req.target)
  {
    hide Gates, Redispatch;
    RedispatchHonest(s, req);
  }

  lemma CompensateHonest(s: State, req: Request)
    ensures Honest(s, Compensate(s, req).state, req.operationId, req.target)
  {
    hide Gates, Verify, Mutate, Settle, Transition;
    TransitionHonest(s, req, RecoveryBlocked, None, Gates(s, req.(action := Restore)).reason);
    TransitionHonest(s, req, Recovering, None, "approved distinct restore effect");
    var e := Transition(s, req, Recovering, None, "approved distinct restore effect");
    if e.Running? {
      NotSucceededAfter(s, req, Recovering, "approved distinct restore effect");
      TransitionHonest(e.state, req, RecoveryBlocked, None, "lease missing");
      if req.target in e.state.journal.leases {
        match Mutate(e.state.provider, req.target, Restore, e.state.journal.leases[req.target].epoch,
                     Cause(CompensationKey(req.operationId), req.operationId, req.actor, true, |e.state.journal.events|))
        case Refused(reason) => TransitionHonest(e.state, req, RecoveryFailed, None, reason);
        case Applied(provider, n) =>
          VerifyHonest(e.state.(provider := provider), req, n, CompensationKey(req.operationId), RecoveryFailed,
                       "restored health verified", "compensation health check failed");
      }
    }
  }

  /** A step that makes an operation SUCCEEDED has acted for it and seen its target healthy and readable. */
  lemma NewSuccessIsHealthy(s: State, step: Step, id: Id)
    requires HasSucceeded(Apply(s, step), id) && !HasSucceeded(s, id)
    ensures !step.ControlStep? && id == Acting(step).operationId
    ensures SeenHealthy(Apply(s, step).provider, Apply(s, step).journal.operations[id].target)
  {
    hide Run, Reconcile, Compensate, ApplyControl, SameHistory, Extends, SameIdentity;
    match step
    case RunStep(req, crash, between) =>
      RunHonest(s, req, crash, between);
      OnlyOwnRow(s, Apply(s, step), req.operationId, id) by { RunExtends(s, req, crash, between); }
      RunTarget(s, req, crash, between);
    case ReconcileStep(req, retry) =>
      ReconcileHonest(s, req, retry);
      OnlyOwnRow(s, Apply(s, step), req.operationId, id) by { ReconcileExtends(s, req, retry); }
      ReconcileTarget(s, req, retry);
    case CompensateStep(req) =>
      CompensateHonest(s, req);
      OnlyOwnRow(s, Apply(s, step), req.operationId, id) by { CompensateExtends(s, req); }
      CompensateTarget(s, req);
    case ControlStep(c) =>
      ControlsMoveNoRow(s, c);
  }

  lemma OnlyOwnRow(s: State, s': State, own: Id, id: Id)
    requires Extends(s, s', own) && HasSucceeded(s', id) && !HasSucceeded(s, id)
    ensures id == own
  {
  }

  lemma ControlsMoveNoRow(s: State, c: Control)
    ensures ApplyControl(s, c).journal.operations == s.journal.operations
  {
    hide AcquireLease, SameFences;
    ControlExtends(s, c, "");
  }

  lemma RunTarget(s: State, req: Request, crash: CrashPoint, between: seq<Control>)
    requires HasSucceeded(Run(s, req, crash, between).state, req.operationId) && !HasSucceeded(s, req.operationId)
    ensures Run(s, req, crash, between).state.journal.operations[req.operationId].target == req.target
  {
    hide Dispatch, Effect;
    if req.operationId !in s.journal.operations {
      NewRowTarget(s, req, crash, between);
    }
  }

  lemma ReconcileTarget(s: State, req: Request, retry: bool)
    requires HasSucceeded(Reconcile(s, req, retry).state, req.operationId) && !HasSucceeded(s, req.operationId)
    ensures Reconcile(s, req, retry).state.journal.operations[req.operationId].target == req.target
  {
    hide Redispatch, Transition, Settle, Gates;
    ReconcileExtends(s, req, retry);
  }

  lemma CompensateTarget(s: State, req: Request)
    requires HasSucceeded(Compensate(s, req).state, req.operationId) && !HasSucceeded(s, req.operationId)
    ensures Compensate(s, req).state.journal.operations[req.operationId].target == req.target
  {
    hide Transition, Settle, Gates, Mutate, Verify;
    CompensateExtends(s, req);
  }
}
