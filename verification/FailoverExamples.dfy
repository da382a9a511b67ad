/**
 Reachable runs that show where tempting claims about the failover coordinator fail: success without
 an effect of one's own, two operations in flight, and a second restore.
 */
module FailoverExamples {
  import opened Wrappers
  import opened FailoverModel
  import opened FailoverInvariants
  import opened FailoverRuns

  /** What the gates read besides the operations, and enough journal commits to finish a call. */
  predicate SameSetting(s: State, s': State) {
    && s'.journal.leases == s.journal.leases && s'.provider == s.provider && s'.now == s.now
    && s'.capabilities == s.capabilities && s'.verdicts == s.verdicts && s'.approvals == s.approvals
  }

  lemma StillAuthorized(s: State, s': State, req: Request)
    requires Authorized(s, req) && SameSetting(s, s')
    requires !InFlightElsewhere(s'.journal, req.target, req.operationId)
    ensures Gates(s', req).ok
  {
    GatesMeanAuthorized(s', req);
  }

  /** A stored receipt under its id is all that a new operation needs to be reported SUCCEEDED. */
  lemma ReceiptMakesRunSucceed(s: State, req: Request)
    requires Authorized(s, req) && req.operationId !in s.journal.operations
    requires s.provider.idempotency && req.operationId in s.provider.receipts
    requires s.provider.readable && s.provider.services[req.target].healthy && s.journal.writesLeft >= 4
    ensures var s' := Run(s, req, NoCrash, []).state;
            && req.operationId in s'.journal.operations
            && s'.journal.operations[req.operationId].state.Succeeded?
            && s'.provider == s.provider
  {
    hide Gates, Authorized;
    AuthorizedLease(s, req);
    var s1 := Begin(s, req, s.provider.services[req.target].generation).state;
    OnlyOwnRowMoved(s, s1, req);
    StillAuthorized(s, s1, req);
    var s2 := Transition(s1, req, Executing, None, "").state;
    OnlyOwnRowMoved(s, s2, req);
    StillAuthorized(s, s2, req);
    var n := s.provider.receipts[req.operationId].effectId;
    assert Effect(s2, req, NoCrash) == Verify(s2, req, n, req.operationId, Unknown, "", "health failed after effect");
    VerifyHealthy(s2, req, n, req.operationId, Unknown, "", "health failed after effect");
  }

  lemma AuthorizedLease(s: State, req: Request)
    requires Authorized(s, req)
    ensures req.target in s.journal.leases && req.target in s.provider.services && s.provider.fencing
    ensures s.journal.leases[req.target].epoch == s.provider.services[req.target].epoch
    ensures !req.action.OtherAction? && !InFlightElsewhere(s.journal, req.target, req.operationId)
  {
  }

  lemma OnlyOwnRowMoved(s: State, s': State, req: Request)
    requires !InFlightElsewhere(s.journal, req.target, req.operationId)
    requires forall k <- s'.journal.operations | k != req.operationId ::
               k in s.journal.operations && s'.journal.operations[k] == s.journal.operations[k]
    ensures !InFlightElsewhere(s'.journal, req.target, req.operationId)
  {
  }

  lemma VerifyHealthy(s: State, req: Request, n: nat, key: string, otherwise: OpState, good: string, bad: string)
    requires req.operationId in s.journal.operations && s.journal.writesLeft >= 2
    requires s.provider.readable && req.target in s.provider.services && s.provider.services[req.target].healthy
    ensures var s' := Verify(s, req, n, key, otherwise, good, bad).state;
            && s'.journal.operations.Keys == s.journal.operations.Keys
            && s'.journal.operations[req.operationId].state.Succeeded?
            && s'.provider == s.provider && SameSetting(s, s')
            && s'.journal.writesLeft == s.journal.writesLeft - 2
  {
    hide Gates;
  }

  /** An unresolved operation whose target can be restored is compensated, leaving a receipt. */
  lemma CompensationLeavesReceipt(s: State, req: Request)
    requires Authorized(s, req.(action := Restore)) && req.operationId in s.journal.operations
    requires SameIntent(s.journal.operations[req.operationId], req)
    requires s.journal.operations[req.operationId].state.Unknown?
    requires s.provider.idempotency && CompensationKey(req.operationId) !in s.provider.receipts
    requires s.provider.readable && !s.provider.failRestore && s.journal.writesLeft >= 3
    ensures var s' := Compensate(s, req).state;
            && s'.journal.operations.Keys == s.journal.operations.Keys
            && s'.journal.operations[req.operationId].state.Succeeded?
            && s'.provider.causes == s.provider.causes +
                 [Cause(CompensationKey(req.operationId), req.operationId, req.actor, true, |s.journal.events| + 1)]
            && CompensationKey(req.operationId) in s'.provider.receipts
            && s'.provider.services.Keys == s.provider.services.Keys
            && s'.provider.services[req.target] ==
                 s.provider.services[req.target].(healthy := true, generation := s.provider.services[req.target].generation + 1)
            && s'.provider.(services := s.provider.services, effects := s.provider.effects,
                            causes := s.provider.causes, receipts := s.provider.receipts) == s.provider
            && SameSetting(s.(provider := s'.provider), s')
            && s'.journal.writesLeft == s.journal.writesLeft - 3
  {
    hide Gates, Authorized, Verify;
    AuthorizedLease(s, req.(action := Restore));
    StillAuthorized(s, s, req.(action := Restore));
    var key := CompensationKey(req.operationId);
    var s1 := Transition(s, req, Recovering, None, "approved distinct restore effect").state;
    var c := Cause(key, req.operationId, req.actor, true, |s1.journal.events|);
    var m := Mutate(s1.provider, req.target, Restore, s1.journal.leases[req.target].epoch, c);
    VerifyHealthy(s1.(provider := m.provider), req, m.effectId, key, RecoveryFailed,
                  "restored health verified", "compensation health check failed");
  }

  /** A receipt under its id is all that an unresolved operation needs to be reconciled as SUCCEEDED. */
  lemma ReceiptMakesReconcileSucceed(s: State, req: Request, retry: bool)
    requires req.operationId in s.journal.operations && SameIntent(s.journal.operations[req.operationId], req)
    requires !s.journal.operations[req.operationId].state.Terminal()
    requires req.operationId in s.provider.receipts && s.provider.readable
    requires req.target in s.provider.services && s.provider.services[req.target].healthy && s.journal.writesLeft >= 2
    ensures var s' := Reconcile(s, req, retry).state;
            && s'.journal.operations.Keys == s.journal.operations.Keys
            && s'.journal.operations[req.operationId].state.Succeeded?
            && OthersSame(s, s', req.operationId)
            && s'.provider == s.provider && SameSetting(s, s') && s'.journal.writesLeft == s.journal.writesLeft - 2
  {
    hide Gates;
  }

  /** A receipt under the compensation key, and a target healthy for whatever reason, make a compensation succeed. */
  lemma ReceiptMakesCompensationSucceed(s: State, req: Request)
    requires Authorized(s, req.(action := Restore)) && req.operationId in s.journal.operations
    requires SameIntent(s.journal.operations[req.operationId], req)
    requires s.journal.operations[req.operationId].state.Unknown?
    requires s.provider.idempotency && CompensationKey(req.operationId) in s.provider.receipts
    requires s.provider.readable && s.provider.services[req.target].healthy && s.journal.writesLeft >= 3
    ensures var s' := Compensate(s, req).state;
            && s'.journal.operations.Keys == s.journal.operations.Keys
            && s'.journal.operations[req.operationId].state.Succeeded? && s'.provider == s.provider
  {
    hide Gates, Authorized, Verify;
    AuthorizedLease(s, req.(action := Restore));
    StillAuthorized(s, s, req.(action := Restore));
    var key := CompensationKey(req.operationId);
    var s1 := Transition(s, req, Recovering, None, "approved distinct restore effect").state;
    VerifyHealthy(s1, req, s.provider.receipts[key].effectId, key, RecoveryFailed,
                  "restored health verified", "compensation health check failed");
  }

  // ---------------------------------------------------------------- a scene

  function Restarting(id: Id): Request {
    Request(id, "Ruku", "service_a", Restart, Green, "policy-v1", true, true, false, None, "trace")
  }

  const GRANTS := map[
    ("Ruku", "service_a", Restart) := Capability("Ruku", "service_a", Restart, "policy-v1", 60),
    ("Ruku", "service_a", Restore) := Capability("Ruku", "service_a", Restore, "policy-v1", 60)]

  const VERDICTS := map[
    ("service_a", Restart) := Verdict(Allow, "service_a", Restart, "policy-v1", 60, true),
    ("service_a", Restore) := Verdict(Allow, "service_a", Restore, "policy-v1", 60, true)]

  /** One target whose restart fails; restart and restore are granted and allowed. */
  function Start(idempotency: bool): State {
    State(Journal(map[], [], map[], 100),
          Provider(map["service_a" := Service(true, 0, 0)], true, idempotency, [], [], map[], true, false, true),
          0, GRANTS, VERDICTS, {}, [])
  }

  const LEASE := TakeLease("Ruku", "service_a", false, 60)
  const HEAL := SetHealth("service_a", true)

  /** The target is leased, and everything an operation on it needs is in place. */
  predicate Scene(s: State, idempotency: bool) {
    && s.journal.leases == map["service_a" := Lease("Ruku", "service_a", 1, 60)]
    && s.now == 0 && s.capabilities == GRANTS && s.verdicts == VERDICTS && s.approvals == {}
    && s.provider.services.Keys == {"service_a"} && s.provider.services["service_a"].epoch == 1
    && s.provider.fencing && s.provider.idempotency == idempotency && s.provider.readable
    && s.provider.failRestart && !s.provider.failRestore
  }

  predicate Quiet(s: State) { forall k <- s.journal.operations :: !s.journal.operations[k].state.InFlight() }

  /** Only this operation is unresolved, and it was asked for by a restart. */
  predicate Unresolved(s: State, id: Id) {
    && id in s.journal.operations && s.journal.operations[id].state.Unknown?
    && SameIntent(s.journal.operations[id], Restarting(id))
    && (forall k <- s.journal.operations | k != id :: !s.journal.operations[k].state.InFlight())
  }

  predicate OthersSame(s: State, s': State, id: Id) {
    forall k <- s'.journal.operations | k != id ::
      k in s.journal.operations && s'.journal.operations[k] == s.journal.operations[k]
  }

  lemma SceneAuthorizes(s: State, id: Id, idempotency: bool)
    requires Scene(s, idempotency) && !InFlightElsewhere(s.journal, "service_a", id)
    ensures Authorized(s, Restarting(id)) && Authorized(s, Restarting(id).(action := Restore))
  {
  }

  lemma LeaseSetsScene(idempotency: bool)
    ensures Fresh(Start(idempotency))
    ensures var s := Apply(Start(idempotency), ControlStep(LEASE));
            Scene(s, idempotency) && Quiet(s) && s.journal.writesLeft == 99 &&
            s.journal.operations == map[] && s.provider.causes == [] && s.provider.receipts == map[]
  {
  }

  lemma HealKeepsScene(s: State, idempotency: bool)
    requires Scene(s, idempotency)
    ensures var s' := Apply(s, ControlStep(HEAL));
            && Scene(s', idempotency) && s'.provider.services["service_a"].healthy
            && s'.journal == s.journal && s'.provider.causes == s.provider.causes
            && s'.provider.receipts == s.provider.receipts
  {
  }

  lemma VerifyUnhealthy(s: State, req: Request, n: nat, key: string, otherwise: OpState, good: string, bad: string)
    requires req.operationId in s.journal.operations && s.journal.writesLeft >= 2
    requires s.provider.readable && req.target in s.provider.services && !s.provider.services[req.target].healthy
    ensures var s' := Verify(s, req, n, key, otherwise, good, bad).state;
            && s'.journal.operations.Keys == s.journal.operations.Keys
            && s'.journal.operations[req.operationId].state == otherwise && OthersSame(s, s', req.operationId)
            && SameIntent(s'.journal.operations[req.operationId], req) == SameIntent(s.journal.operations[req.operationId], req)
            && s'.provider == s.provider && SameSetting(s, s')
            && s'.journal.writesLeft == s.journal.writesLeft - 2
  {
    hide Gates;
  }

  /** The state of a new operation at its effect. */
  function AtEffect(s: State, id: Id): State
    requires "service_a" in s.provider.services
  {
    Transition(Begin(s, Restarting(id), s.provider.services["service_a"].generation).state,
               Restarting(id), Executing, None, "").state
  }

  lemma ReachesEffect(s: State, id: Id, idempotency: bool)
    requires Scene(s, idempotency) && Quiet(s) && id !in s.journal.operations && s.journal.writesLeft >= 4
    ensures var at := AtEffect(s, id);
            && Run(s, Restarting(id), NoCrash, []).state == Effect(at, Restarting(id), NoCrash).state
            && Scene(at, idempotency) && Gates(at, Restarting(id)).ok && at.provider == s.provider
            && at.journal.operations.Keys == s.journal.operations.Keys + {id} && OthersSame(s, at, id)
            && SameIntent(at.journal.operations[id], Restarting(id)) && at.journal.writesLeft == s.journal.writesLeft - 2
  {
    hide Gates, Authorized, Effect;
    var req := Restarting(id);
    var s1 := Begin(s, req, s.provider.services["service_a"].generation).state;
    SceneAuthorizes(s1, id, idempotency);
    GatesMeanAuthorized(s1, req);
    SceneAuthorizes(AtEffect(s, id), id, idempotency);
    GatesMeanAuthorized(AtEffect(s, id), req);
  }

  /** In this scene a restart takes effect, fails its health check, and stays unresolved. */
  lemma RestartStaysUnresolved(s: State, id: Id, idempotency: bool)
    requires Scene(s, idempotency) && Quiet(s) && id !in s.journal.operations && id !in s.provider.receipts
    requires s.journal.writesLeft >= 4
    ensures var s' := Apply(s, RunStep(Restarting(id), NoCrash, []));
            && Scene(s', idempotency) && Unresolved(s', id) && s'.journal.operations.Keys == s.journal.operations.Keys + {id}
            && s'.journal.writesLeft == s.journal.writesLeft - 4
            && |s'.provider.causes| == |s.provider.causes| + 1 && s.provider.causes <= s'.provider.causes
            && Forward(s'.provider.causes[|s.provider.causes|], id)
            && s'.provider.receipts.Keys == s.provider.receipts.Keys + (if idempotency then {id} else {})
  {
    hide Gates, Authorized, Verify, Run, AtEffect;
    ReachesEffect(s, id, idempotency);
    var at, req := AtEffect(s, id), Restarting(id);
    var c := Cause(id, id, "Ruku", false, |at.journal.events|);
    var m := Mutate(at.provider, "service_a", Restart, 1, c);
    var mutated := at.(provider := m.provider);
    VerifyUnhealthy(mutated, req, m.effectId, id, Unknown, "", "health failed after effect");
    assert Effect(at, req, NoCrash) == Verify(mutated, req, m.effectId, id, Unknown, "", "health failed after effect");
  }

  lemma ExecuteOne(s: State, steps: seq<Step>, step: Step)
    ensures Execute(s, steps + [step]) == Apply(Execute(s, steps), step)
    decreases |steps|
  {
    hide Apply;
    if steps == [] {
      assert steps + [step] == [step];
      assert Execute(Apply(s, step), []) == Apply(s, step);
    } else {
      assert (steps + [step])[1..] == steps[1..] + [step];
      ExecuteOne(Apply(s, steps[0]), steps[1..], step);
    }
  }

  /** A lease, and a restart that stays unresolved. */
  function Restarted(id: Id): seq<Step> { [ControlStep(LEASE)] + [RunStep(Restarting(id), NoCrash, [])] }

  lemma AfterRestart(id: Id, idempotency: bool)
    ensures var s := Execute(Start(idempotency), Restarted(id));
            && Scene(s, idempotency) && Unresolved(s, id) && s.journal.operations.Keys == {id}
            && s.journal.writesLeft == 95 && |s.provider.causes| == 1 && Forward(s.provider.causes[0], id)
            && s.provider.receipts.Keys == if idempotency then {id} else {}
  {
    hide Apply, Scene, Unresolved, Quiet;
    LeaseSetsScene(idempotency);
    ExecuteOne(Start(idempotency), [], ControlStep(LEASE));
    ExecuteOne(Start(idempotency), [ControlStep(LEASE)], RunStep(Restarting(id), NoCrash, []));
    assert [] + [ControlStep(LEASE)] == [ControlStep(LEASE)];
    RestartStaysUnresolved(Apply(Start(idempotency), ControlStep(LEASE)), id, idempotency);
  }

  // ---------------------------------------------------------------- colliding ids

  /** Compensating "a" puts a receipt under "a:restore". */
  function Compensated(): seq<Step> { Restarted("a") + [CompensateStep(Restarting("a"))] }

  lemma AfterCompensation()
    ensures var s := Execute(Start(true), Compensated());
            && Scene(s, true) && Quiet(s) && s.journal.operations.Keys == {"a"}
            && "a:restore" in s.provider.receipts && s.provider.services["service_a"].healthy
            && s.journal.writesLeft == 92 && (forall c <- s.provider.causes :: c.operationId == "a")
  {
    hide Apply, Authorized, Compensate;
    AfterRestart("a", true);
    var s := Execute(Start(true), Restarted("a"));
    ExecuteOne(Start(true), Restarted("a"), CompensateStep(Restarting("a")));
    SceneAuthorizes(s, "a", true);
    assert CompensationKey("a") == "a:restore";
    CompensationLeavesReceipt(s, Restarting("a"));
    assert Apply(s, CompensateStep(Restarting("a"))) == Compensate(s, Restarting("a")).state by { CompensateIsApplied(s); }
  }

  lemma CompensateIsApplied(s: State)
    ensures Apply(s, CompensateStep(Restarting("a"))) == Compensate(s, Restarting("a")).state
  {
    hide Compensate;
  }

  /**
   An operation named like another's compensation key is reported SUCCEEDED on the strength of that
   other operation's effect, having caused none.
   */
  lemma CollidingIdSucceedsWithoutEffect()
    ensures Fresh(Start(true))
    ensures var s := Execute(Start(true), Compensated() + [RunStep(Restarting("a:restore"), NoCrash, [])]);
            && "a:restore" in s.journal.operations && s.journal.operations["a:restore"].state.Succeeded?
            && (forall c <- s.provider.causes :: c.operationId != "a:restore")
  {
    hide Run, Authorized;
    AfterCompensation();
    var s := Execute(Start(true), Compensated());
    ExecuteOne(Start(true), Compensated(), RunStep(Restarting("a:restore"), NoCrash, []));
    hide Compensated, Execute;
    SceneAuthorizes(s, "a:restore", true);
    ReceiptMakesRunSucceed(s, Restarting("a:restore"));
  }

  /** "a:restore" is begun and cut off, and reconciled when the journal works again. */
  function CutOffAndReconciled(): seq<Step> {
    [ControlStep(JournalCommits(1)), RunStep(Restarting("a:restore"), NoCrash, []), ControlStep(JournalCommits(9)),
     ReconcileStep(Restarting("a:restore"), false)]
  }

  /** Reconciliation takes the same receipt for the operation's own: it is SUCCEEDED without an effect. */
  lemma CollidingReconcileSucceedsWithoutEffect()
    ensures Fresh(Start(true))
    ensures var s := Execute(Start(true), Compensated() + CutOffAndReconciled());
            && "a:restore" in s.journal.operations && s.journal.operations["a:restore"].state.Succeeded?
            && (forall c <- s.provider.causes :: c.operationId != "a:restore")
  {
    hide Apply, Execute, Compensated, Scene, Quiet, CutOffAndReconciled;
    LeaseSetsScene(true);
    AfterCompensation();
    var s := Execute(Start(true), Compensated());
    ExecuteJoin(Start(true), Compensated(), CutOffAndReconciled());
    ReconciledByForeignReceipt(s);
  }

  lemma ReconciledByForeignReceipt(s: State)
    requires Scene(s, true) && "a:restore" !in s.journal.operations && "a:restore" in s.provider.receipts
    requires s.provider.services["service_a"].healthy
    ensures var s' := Execute(s, CutOffAndReconciled());
            && "a:restore" in s'.journal.operations && s'.journal.operations["a:restore"].state.Succeeded?
            && s'.provider == s.provider
  {
    hide Run, Reconcile, Execute;
    var req := Restarting("a:restore");
    FourSteps(s, ControlStep(JournalCommits(1)), RunStep(req, NoCrash, []),
              ControlStep(JournalCommits(9)), ReconcileStep(req, false));
    var s0 := ApplyControl(s, JournalCommits(1));
    CutOffRun(s0, req);
    var s1 := ApplyControl(Run(s0, req, NoCrash, []).state, JournalCommits(9));
    ReceiptMakesReconcileSucceed(s1, req, false);
  }

  /** "a:restore" takes effect and is reconciled, "a" takes effect, and the target recovers by itself. */
  function RecoveredByItself(): seq<Step> {
    Restarted("a:restore") + [ControlStep(HEAL)] + [ReconcileStep(Restarting("a:restore"), false)]
    + [RunStep(Restarting("a"), NoCrash, [])] + [ControlStep(HEAL)]
  }

  lemma AfterReconcile()
    ensures var s := Execute(Start(true), Restarted("a:restore") + [ControlStep(HEAL)] +
                                          [ReconcileStep(Restarting("a:restore"), false)]);
            && Scene(s, true) && Quiet(s) && s.journal.operations.Keys == {"a:restore"}
            && s.provider.receipts.Keys == {"a:restore"} && s.journal.writesLeft == 93
            && (forall c <- s.provider.causes :: !c.compensating)
  {
    hide Apply, Reconcile, Execute;
    AfterRestart("a:restore", true);
    var s := Execute(Start(true), Restarted("a:restore"));
    ExecuteOne(Start(true), Restarted("a:restore"), ControlStep(HEAL));
    ExecuteOne(Start(true), Restarted("a:restore") + [ControlStep(HEAL)], ReconcileStep(Restarting("a:restore"), false));
    HealKeepsScene(s, true);
    var s1 := Apply(s, ControlStep(HEAL));
    ReceiptMakesReconcileSucceed(s1, Restarting("a:restore"), false);
    ReconcileIsApplied(s1);
  }

  lemma ReconcileIsApplied(s: State)
    ensures Apply(s, ReconcileStep(Restarting("a:restore"), false)) == Reconcile(s, Restarting("a:restore"), false).state
  {
    hide Reconcile;
  }

  lemma BeforeUnneededCompensation()
    ensures var s := Execute(Start(true), RecoveredByItself());
            && Scene(s, true) && Unresolved(s, "a") && s.journal.operations.Keys == {"a:restore", "a"}
            && "a:restore" in s.provider.receipts && s.provider.services["service_a"].healthy
            && s.journal.writesLeft == 89 && (forall c <- s.provider.causes :: !c.compensating)
  {
    hide Apply, Execute, Scene, Quiet, Unresolved;
    var steps := Restarted("a:restore") + [ControlStep(HEAL)] + [ReconcileStep(Restarting("a:restore"), false)];
    AfterReconcile();
    var s := Execute(Start(true), steps);
    ExecuteOne(Start(true), steps, RunStep(Restarting("a"), NoCrash, []));
    RestartStaysUnresolved(s, "a", true);
    var s1 := Apply(s, RunStep(Restarting("a"), NoCrash, []));
    ExecuteOne(Start(true), steps + [RunStep(Restarting("a"), NoCrash, [])], ControlStep(HEAL));
    HealKeepsScene(s1, true);
    StillUnresolved(s1, Apply(s1, ControlStep(HEAL)), "a");
  }

  lemma StillUnresolved(s: State, s': State, id: Id)
    requires Unresolved(s, id) && s'.journal == s.journal
    ensures Unresolved(s', id)
  {
  }

  /**
   A compensation whose key another operation has used for its own effect is reported SUCCEEDED, and
   nothing has been restored.
   */
  lemma CollidingCompensationRestoresNothing()
    ensures Fresh(Start(true))
    ensures var s := Execute(Start(true), RecoveredByItself() + [CompensateStep(Restarting("a"))]);
            && "a" in s.journal.operations && s.journal.operations["a"].state.Succeeded?
            && (forall c <- s.provider.causes :: !c.compensating)
  {
    hide Authorized, Compensate, Execute, RecoveredByItself;
    BeforeUnneededCompensation();
    var s := Execute(Start(true), RecoveredByItself());
    ExecuteOne(Start(true), RecoveredByItself(), CompensateStep(Restarting("a")));
    SceneAuthorizes(s, "a", true);
    assert CompensationKey("a") == "a:restore";
    ReceiptMakesCompensationSucceed(s, Restarting("a"));
    CompensateIsApplied(s);
  }

  lemma FourSteps(s: State, a: Step, b: Step, c: Step, d: Step)
    ensures Execute(s, [a, b, c, d]) == Apply(Apply(Apply(Apply(s, a), b), c), d)
  {
    hide Apply;
    assert [a, b, c, d][1..] == [b, c, d] && [b, c, d][1..] == [c, d] && [c, d][1..] == [d];
    assert Execute(Apply(Apply(Apply(s, a), b), c), [d]) == Apply(Apply(Apply(Apply(s, a), b), c), d);
    assert Execute(Apply(Apply(s, a), b), [c, d]) == Execute(Apply(Apply(Apply(s, a), b), c), [d]);
  }

  // ---------------------------------------------------------------- a journal failing inside a call

  /** A run with one commit left records PREPARED and nothing more. */
  lemma CutOffRun(s: State, req: Request)
    requires req.operationId !in s.journal.operations && s.journal.writesLeft == 1
    ensures var s' := Run(s, req, NoCrash, []).state;
            && req.operationId in s'.journal.operations && s'.journal.operations[req.operationId].state.Prepared?
            && s'.journal.operations[req.operationId].target == req.target
            && s'.journal.operations.Keys == s.journal.operations.Keys + {req.operationId}
            && SameIntent(s'.journal.operations[req.operationId], req) && s'.provider == s.provider
  {
    hide Gates;
  }

  /** Two runs on one target, each cut off after its first commit, leave both operations in flight. */
  lemma TornJournalLeavesTwoInFlight(init: State, first: Request, second: Request)
    requires Fresh(init) && first.operationId != second.operationId && first.target == second.target
    ensures !Solo(Execute(init, [ControlStep(JournalCommits(1)), RunStep(first, NoCrash, []),
                                 ControlStep(JournalCommits(1)), RunStep(second, NoCrash, [])]).journal)
  {
    hide Run;
    FourSteps(init, ControlStep(JournalCommits(1)), RunStep(first, NoCrash, []),
              ControlStep(JournalCommits(1)), RunStep(second, NoCrash, []));
    var s := ApplyControl(init, JournalCommits(1));
    CutOffRun(s, first);
    var s1 := Run(s, first, NoCrash, []).state;
    var s2 := ApplyControl(s1, JournalCommits(1));
    RunKeepsSoloIff(s2, second, NoCrash, []);
  }

  // ---------------------------------------------------------------- a provider without idempotency

  /** An unresolved operation that may be restored, on a provider that keeps no receipts. */
  predicate Restorable(s: State, req: Request) {
    && Authorized(s, req.(action := Restore)) && req.operationId in s.journal.operations
    && SameIntent(s.journal.operations[req.operationId], req)
    && (s.journal.operations[req.operationId].state.Unknown? || s.journal.operations[req.operationId].state.Recovering?)
    && !s.provider.idempotency
  }

  /** A restore has happened for the operation, and it may be restored once more. */
  predicate RestoredOnceMore(s: State, s': State, id: Id) {
    && |s'.provider.causes| == |s.provider.causes| + 1 && s'.provider.causes[..|s.provider.causes|] == s.provider.causes
    && Restoring(s'.provider.causes[|s.provider.causes|], id)
  }

  /** A compensation cut off after its RECOVERING checkpoint restores the target and can be repeated. */
  lemma CutOffCompensation(s: State, req: Request)
    requires Restorable(s, req) && s.journal.writesLeft == 1
    ensures var s' := Compensate(s, req).state;
            Restorable(s', req) && RestoredOnceMore(s, s', req.operationId) && s'.journal.writesLeft == 0
  {
    hide Gates, Authorized;
    var restore := req.(action := Restore);
    AuthorizedLease(s, restore);
    StillAuthorized(s, s, restore);
    var s1 := Transition(s, req, Recovering, None, "approved distinct restore effect").state;
    var c := Cause(CompensationKey(req.operationId), req.operationId, req.actor, true, |s1.journal.events|);
    var m := Mutate(s1.provider, req.target, Restore, s1.journal.leases[req.target].epoch, c);
    var s2 := s1.(provider := m.provider);
    assert Compensate(s, req).state == s2;
    RestoringKeepsAuthority(s, s2, restore);
  }

  lemma RestoringKeepsAuthority(s: State, s': State, req: Request)
    requires Authorized(s, req) && s'.journal.leases == s.journal.leases && s'.now == s.now
    requires s'.capabilities == s.capabilities && s'.verdicts == s.verdicts && s'.approvals == s.approvals
    requires s'.provider.services.Keys == s.provider.services.Keys && s'.provider.fencing == s.provider.fencing
    requires s'.provider.services[req.target].epoch == s.provider.services[req.target].epoch
    requires forall k <- s'.journal.operations | k != req.operationId ::
               k in s.journal.operations && s'.journal.operations[k] == s.journal.operations[k]
    ensures Authorized(s', req)
  {
    OnlyOwnRowMoved(s, s', req);
  }

  /** Nothing else keeps a restore from being repeated: without receipts the second one is an effect too. */
  lemma RestoredTwiceWithoutReceipts(s: State, req: Request)
    requires Restorable(s, req)
    ensures var steps := [ControlStep(JournalCommits(1)), CompensateStep(req),
                          ControlStep(JournalCommits(1)), CompensateStep(req)];
            var before, after := s.provider.causes, Execute(s, steps).provider.causes;
            && |after| == |before| + 2 && before <= after
            && Restoring(after[|before|], req.operationId) && Restoring(after[|before| + 1], req.operationId)
  {
    hide Compensate, Authorized;
    FourSteps(s, ControlStep(JournalCommits(1)), CompensateStep(req), ControlStep(JournalCommits(1)), CompensateStep(req));
    var s0 := ApplyControl(s, JournalCommits(1));
    MoreCommits(s, req);
    CutOffCompensation(s0, req);
    var s1 := Compensate(s0, req).state;
    var s2 := ApplyControl(s1, JournalCommits(1));
    MoreCommits(s1, req);
    CutOffCompensation(s2, req);
    var after := Compensate(s2, req).state.provider.causes;
    assert after[|s.provider.causes|] == after[..|s1.provider.causes|][|s.provider.causes|];
  }

  lemma MoreCommits(s: State, req: Request)
    requires Restorable(s, req)
    ensures Restorable(ApplyControl(s, JournalCommits(1)), req)
  {
  }

  /** Such a state is reached from a fresh one, and the two restores with it. */
  lemma RestoredTwiceFromFresh()
    ensures Fresh(Start(false)) && !Start(false).provider.idempotency
    ensures var steps := Restarted("a") + [ControlStep(JournalCommits(1)), CompensateStep(Restarting("a")),
                                           ControlStep(JournalCommits(1)), CompensateStep(Restarting("a"))];
            var causes := Execute(Start(false), steps).provider.causes;
            |causes| == 3 && Forward(causes[0], "a") && Restoring(causes[1], "a") && Restoring(causes[2], "a")
  {
    hide Execute, Authorized, Restarted;
    LeaseSetsScene(false);
    AfterRestart("a", false);
    var s := Execute(Start(false), Restarted("a"));
    SceneAuthorizes(s, "a", false);
    RestoredTwiceWithoutReceipts(s, Restarting("a"));
    ExecuteJoin(Start(false), Restarted("a"), [ControlStep(JournalCommits(1)), CompensateStep(Restarting("a")),
                                               ControlStep(JournalCommits(1)), CompensateStep(Restarting("a"))]);
  }

  lemma {:induction false} ExecuteJoin(s: State, a: seq<Step>, b: seq<Step>)
    ensures Execute(s, a + b) == Execute(Execute(s, a), b)
    decreases |a|
  {
    hide Apply;
    if a == [] {
      assert a + b == b;
    } else {
      assert (a + b)[1..] == a[1..] + b;
      ExecuteJoin(Apply(s, a[0]), a[1..], b);
    }
  }
}
