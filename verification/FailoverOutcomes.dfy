/** What each call decides, in every state of journal and provider: when it refuses, when it acts, how it ends. */
module FailoverOutcomes {
  import opened Wrappers
  import opened FailoverModel
  import opened FailoverInvariants
  import opened FailoverRuns
  import opened FailoverExamples

  /** Every state is one or the other: over for good, or in flight and to be reconciled. */
  lemma InFlightOrTerminal(state: OpState)
    ensures state.Terminal() <==>
            state == Stopped || state == Succeeded || state == RecoveryFailed || state == RecoveryBlocked
    ensures state.InFlight() <==> !state.Terminal()
    ensures state.Alerting() <==> (state.Terminal() && state != Succeeded) || state == Unknown
  {
  }

  /** The operation is journaled for exactly this request. */
  predicate AskedFor(s: State, req: Request) {
    && req.operationId in s.journal.operations
    && var row := s.journal.operations[req.operationId];
       (row.actor, row.target, row.action, row.tier, row.policyHash, row.correlationId) ==
       (req.actor, req.target, req.action, req.tier, req.policyHash, req.correlationId)
  }

  predicate Uncertain(s: State, id: Id) {
    && id in s.journal.operations
    && (s.journal.operations[id].state == Unknown || s.journal.operations[id].state == Recovering)
  }

  predicate Over(s: State, id: Id) {
    id in s.journal.operations && s.journal.operations[id].state in {Stopped, Succeeded, RecoveryFailed, RecoveryBlocked}
  }

  /** The first thing that the call has logged is this state. */
  predicate LogsFirst(s: State, s': State, id: Id, state: OpState) {
    && |s'.journal.events| > |s.journal.events|
    && s'.journal.events[|s.journal.events|].operationId == id && s'.journal.events[|s.journal.events|].state == state
  }

  /** The call returns this state, and it is what the journal says. */
  predicate Ends(e: Exec, id: Id, state: OpState) {
    && e.Ended? && e.outcome == Returned(state)
    && id in e.state.journal.operations && e.state.journal.operations[id].state == state
  }

  predicate Raises(e: Exec, s: State, reason: string) { e == Ended(s, Raised(Unsafe(reason))) }

  // ---------------------------------------------------------------- the gates

  /** No other operation on the target is still open. */
  predicate Free(s: State, req: Request) {
    forall k <- s.journal.operations | k != req.operationId && s.journal.operations[k].target == req.target :: Over(s, k)
  }

  /** What the verdict is, if there is none that can be read. */
  function VerdictOn(s: State, req: Request): Decision {
    if (req.target, req.action) in s.verdicts then s.verdicts[(req.target, req.action)].decision else Undecided
  }

  /** Everything that is checked before any grant: the request itself, the target, and whether it is free. */
  predicate Eligible(s: State, req: Request) {
    && !req.production && req.target in s.provider.services && (req.action == Restart || req.action == Restore)
    && req.inventoryFresh && req.restoreVerified && (req.tier == Green || req.tier == Amber || req.tier == Red)
    && Free(s, req)
    && (req.tier != Green ==> req.humanApproval == Some("Jan Kočí") && req.operationId in s.approvals)
  }

  predicate Capable(s: State, req: Request) {
    && (req.actor, req.target, req.action) in s.capabilities
    && var c := s.capabilities[(req.actor, req.target, req.action)]; s.now < c.expires && c.policyHash == req.policyHash
  }

  /** The actor has the lease, and the provider honours no newer one. */
  predicate Leased(s: State, req: Request) {
    && req.target in s.journal.leases && req.target in s.provider.services && s.provider.fencing
    && var l := s.journal.leases[req.target];
       l.holder == req.actor && s.now < l.expires && l.epoch == s.provider.services[req.target].epoch
  }

  predicate Cleared(s: State, req: Request) {
    && (req.target, req.action) in s.verdicts
    && var v := s.verdicts[(req.target, req.action)];
       v.decision == Allow && v.valid && s.now < v.expires && v.policyHash == req.policyHash
  }

  /**
   The gates pass exactly when all four hold, and what they report is as far as they got: the capability
   once there is one, the lease and its epoch once it is held, and then the verdict, whatever it is.
   */
  lemma GatesTell(s: State, req: Request)
    ensures var g := Gates(s, req);
            && (g.ok <==> Eligible(s, req) && Capable(s, req) && Leased(s, req) && Cleared(s, req))
            && g.capabilityId == (if Eligible(s, req) && Capable(s, req)
                                  then CapabilityId(req.actor, req.target, req.action) else NoCapability)
            && (if Eligible(s, req) && Capable(s, req) && Leased(s, req) then
                  var l := s.journal.leases[req.target];
                  g.leaseId == LeaseId(l.epoch, l.holder) && g.epoch == l.epoch && g.verdict == Some(VerdictOn(s, req))
                else g.leaseId == NoLease && g.epoch == 0 && g.verdict == None)
  {
    hide Gates, Eligible, LeaseGate;
    BeforeTheLease(s, req);
    if req.target in s.provider.services {
      FromTheLeaseOn(s, req);
    } else {
      NoTargetNoGrant(s, req);
    }
  }

  lemma NoTargetNoGrant(s: State, req: Request)
    ensures req.target !in s.provider.services ==> !Eligible(s, req)
  {
  }

  lemma BeforeTheLease(s: State, req: Request)
    ensures Gates(s, req) == if Eligible(s, req) && Capable(s, req)
                             then LeaseGate(s, req, CapabilityId(req.actor, req.target, req.action))
                             else Gate(false, Gates(s, req).reason, NoCapability, NoLease, 0, None)
  {
    hide LeaseGate, InFlightElsewhere;
    FreeIff(s, req);
  }

  lemma FromTheLeaseOn(s: State, req: Request)
    requires req.target in s.provider.services
    ensures var cap := CapabilityId(req.actor, req.target, req.action);
            var g := LeaseGate(s, req, cap);
            if Leased(s, req) then
              var l := s.journal.leases[req.target];
              && (g.ok <==> Cleared(s, req)) && g.capabilityId == cap
              && g.leaseId == LeaseId(l.epoch, l.holder) && g.epoch == l.epoch && g.verdict == Some(VerdictOn(s, req))
            else g == Gate(false, g.reason, cap, NoLease, 0, None)
  {
  }

  lemma FreeIff(s: State, req: Request)
    ensures InFlightElsewhere(s.journal, req.target, req.operationId) <==>
            !Free(s, req)
  {
  }

  /** A transition is logged with the time, the recorded intent, what the gates report at that moment, and its reason. */
  lemma TransitionIsLogged(s: State, req: Request, state: OpState, providerOp: Option<nat>, reason: string)
    requires req.operationId in s.journal.operations && s.journal.writesLeft > 0
    ensures var row, g := s.journal.operations[req.operationId], Gates(s, req);
            Transition(s, req, state, providerOp, reason).state.journal.events == s.journal.events +
              [Event(req.operationId, s.now, state, row.actor, row.target, row.policyHash, row.correlationId,
                     g.capabilityId, g.leaseId, g.epoch, g.verdict, reason)]
  {
    hide Gates;
  }

  /**
   A lease changes hands only when there is none in force or it is taken over, on a known target that is
   fenced; it then has the next epoch, which becomes the provider's unless that is ahead already.
   */
  lemma LeaseIsGrantedIff(s: State, holder: string, target: string, takeover: bool, ttl: int)
    ensures var s' := AcquireLease(s, holder, target, takeover, ttl);
            var free := target in s.journal.leases ==> s.journal.leases[target].expires <= s.now || takeover;
            if target in s.provider.services && s.provider.fencing && s.journal.writesLeft > 0 && free then
              var epoch := if target in s.journal.leases then s.journal.leases[target].epoch + 1 else 1;
              var service := s.provider.services[target];
              && s'.journal == s.journal.(leases := s.journal.leases[target := Lease(holder, target, epoch, s.now + ttl)],
                                          writesLeft := s.journal.writesLeft - 1)
              && s'.provider == s.provider.(services := s.provider.services[target := service.(
                                              epoch := if service.epoch > epoch then service.epoch else epoch)])
              && s' == s.(journal := s'.journal, provider := s'.provider)
            else s' == s
  {
    if target in s.provider.services {
      assert s.provider.services[target := s.provider.services[target]] == s.provider.services;
    }
  }

  /** Nobody is granted a capability for a target the provider does not have; time moves by what the clock says. */
  lemma ControlsTell(s: State, c: Control)
    ensures c.Grant? ==>
              var g := c.capability;
              if g.target in s.provider.services then
                ApplyControl(s, c) == s.(capabilities := s.capabilities[(g.holder, g.target, g.action) := g])
              else ApplyControl(s, c) == s
    ensures c.Advance? ==> ApplyControl(s, c).now - s.now == c.seconds && ApplyControl(s, c).(now := s.now) == s
  {
  }

  // ---------------------------------------------------------------- parts of a call

  /** The provider refuses, whoever asks, what is not a restart or restore of a target under its current epoch. */
  lemma MutateRefusesIff(p: Provider, target: string, action: Action, epoch: nat, c: Cause)
    ensures Mutate(p, target, action, epoch, c).Refused? <==>
            !(target in p.services && (action == Restart || action == Restore) &&
              p.fencing && p.services[target].epoch == epoch)
  {
  }

  lemma SettleEnds(s: State, req: Request, state: OpState, reason: string)
    requires req.operationId in s.journal.operations
    ensures var e := Settle(s, req, state, reason);
            if s.journal.writesLeft == 0 then e == Ended(s, Raised(AuditUnavailable))
            else Ends(e, req.operationId, state) && LogsFirst(s, e.state, req.operationId, state) &&
                 e.state.provider == s.provider
  {
    hide Gates;
  }

  /** What can be said of a call from its VERIFYING on. */
  predicate Verified(e: Exec, p: Provider, req: Request, otherwise: OpState)
    requires req.target in p.services
  {
    && e.state.provider == p
    && (p.readable ==> Ends(e, req.operationId, if p.services[req.target].healthy then Succeeded else otherwise))
    && (!p.readable ==>
          e.Ended? && e.outcome == Raised(Unsafe("fake provider observation unavailable")) &&
          req.operationId in e.state.journal.operations && e.state.journal.operations[req.operationId].state == Verifying)
  }

  lemma TransitionMoves(s: State, req: Request, state: OpState, providerOp: Option<nat>, reason: string)
    requires req.operationId in s.journal.operations && s.journal.writesLeft > 0
    ensures var e := Transition(s, req, state, providerOp, reason);
            && e.Running? && req.operationId in e.state.journal.operations
            && e.state.journal.operations[req.operationId].state == state
            && e.state.provider == s.provider && e.state.journal.writesLeft == s.journal.writesLeft - 1
            && LogsFirst(s, e.state, req.operationId, state) && s.journal.events <= e.state.journal.events
            && |e.state.journal.events| == |s.journal.events| + 1
            && SameSetting(s, e.state) && OthersSame(s, e.state, req.operationId)
            && e.state.journal.operations.Keys == s.journal.operations.Keys
  {
    hide Gates;
  }

  lemma VerifyEnds(s: State, req: Request, n: nat, key: string, otherwise: OpState, good: string, bad: string)
    requires req.operationId in s.journal.operations && s.journal.writesLeft >= 2 && req.target in s.provider.services
    ensures var e := Verify(s, req, n, key, otherwise, good, bad);
            && Verified(e, s.provider, req, otherwise) && e.state.provider == s.provider
            && s.journal.events <= e.state.journal.events
  {
    hide Transition, Settle, LogsFirst, OthersSame;
    TransitionMoves(s, req, Verifying, Some(n), "");
    var s1 := Transition(s, req, Verifying, Some(n), "").state;
    VerifyExtends(s, req, n, key, otherwise, good, bad);
    SettleEnds(s1, req, Succeeded, good);
    SettleEnds(s1, req, otherwise, bad);
  }

  /** The effect on the target: none if there is a receipt under the key already, else one more, for this cause. */
  predicate Acted(p: Provider, p': Provider, req: Request, c: Cause)
    requires req.target in p.services && req.target in p'.services
  {
    if p.idempotency && c.key in p.receipts then p' == p
    else
      && p'.causes == p.causes + [c] && |p'.effects| == |p.effects| + 1
      && p'.effects[|p.effects|].target == req.target && p'.effects[|p.effects|].action == req.action
      && p'.services[req.target].healthy == !(if req.action == Restore then p.failRestore else p.failRestart)
      && p'.services[req.target].generation == p.services[req.target].generation + 1
      && (forall t <- p.services | t != req.target :: t in p'.services && p'.services[t] == p.services[t])
      && (c.key in p'.receipts <==> p.idempotency || c.key in p.receipts)
  }

  lemma MutateActs(s: State, req: Request, c: Cause)
    requires Authorized(s, req)
    ensures req.target in s.journal.leases && req.target in s.provider.services
    ensures var m := Mutate(s.provider, req.target, req.action, s.journal.leases[req.target].epoch, c);
            && m.Applied? && req.target in m.provider.services && m.provider.readable == s.provider.readable
            && Acted(s.provider, m.provider, req, c)
  {
    hide Authorized;
    AuthorizedLease(s, req);
    EffectAppended(s.provider, req.target, req.action, s.journal.leases[req.target].epoch, c);
  }

  lemma EffectAppended(p: Provider, target: string, action: Action, epoch: nat, c: Cause)
    ensures var m := Mutate(p, target, action, epoch, c);
            m.Applied? && m.provider != p ==> |m.provider.effects| == |p.effects| + 1
  {
  }

  // ---------------------------------------------------------------- compensation

  /** A compensation is refused, and changes nothing, unless its operation is uncertain and recorded for this request. */
  lemma CompensateRefuses(s: State, req: Request)
    ensures !Uncertain(s, req.operationId) ==>
              Raises(Compensate(s, req), s, "compensation requires an unresolved operation")
    ensures Uncertain(s, req.operationId) && !AskedFor(s, req) ==>
              Raises(Compensate(s, req), s, "compensation request conflicts with durable intent")
  {
    hide Gates, Transition, Settle, Verify, Mutate;
  }

  /** Otherwise it goes on to RECOVERING exactly when a restore is authorized, and to RECOVERY_BLOCKED when not. */
  lemma CompensateGoesOn(s: State, req: Request)
    requires Uncertain(s, req.operationId) && AskedFor(s, req) && s.journal.writesLeft >= 3
    ensures var e := Compensate(s, req);
            if Authorized(s, req.(action := Restore)) then
              && LogsFirst(s, e.state, req.operationId, Recovering)
              && req.target in s.provider.services && req.target in e.state.provider.services
              && Acted(s.provider, e.state.provider, req.(action := Restore),
                       Cause(CompensationKey(req.operationId), req.operationId, req.actor, true, |s.journal.events| + 1))
              && Verified(e, e.state.provider, req, RecoveryFailed)
            else
              && Ends(e, req.operationId, RecoveryBlocked) && LogsFirst(s, e.state, req.operationId, RecoveryBlocked)
              && e.state.provider == s.provider
  {
    hide Gates, Verify, Mutate, Settle, Transition, Authorized, Acted, Verified;
    var restore := req.(action := Restore);
    GatesMeanAuthorized(s, restore);
    SettleEnds(s, req, RecoveryBlocked, Gates(s, restore).reason);
    if Authorized(s, restore) {
      AuthorizedLease(s, restore);
      TransitionMoves(s, req, Recovering, None, "approved distinct restore effect");
      var s1 := Transition(s, req, Recovering, None, "approved distinct restore effect").state;
      OnlyOwnRowMoved(s, s1, restore);
      StillAuthorized(s, s1, restore);
      GatesMeanAuthorized(s1, restore);
      var c := Cause(CompensationKey(req.operationId), req.operationId, req.actor, true, |s1.journal.events|);
      MutateActs(s1, restore, c);
      var m := Mutate(s1.provider, req.target, Restore, s1.journal.leases[req.target].epoch, c);
      VerifyEnds(s1.(provider := m.provider), req, m.effectId, CompensationKey(req.operationId), RecoveryFailed,
                 "restored health verified", "compensation health check failed");
      assert Compensate(s, req) == Verify(s1.(provider := m.provider), req, m.effectId, CompensationKey(req.operationId),
                                          RecoveryFailed, "restored health verified", "compensation health check failed");
    }
  }

  // ---------------------------------------------------------------- reconciliation

  /** Without a retry, reconciling only looks: the provider is as before, whatever is found. */
  lemma ReconcileWithoutRetryOnlyLooks(s: State, req: Request)
    ensures Reconcile(s, req, false).state.provider == s.provider
  {
    hide Gates;
  }

  /** It refuses, or returns at once, what it cannot or need not reconcile, and changes nothing then. */
  lemma ReconcileRefuses(s: State, req: Request, retry: bool)
    ensures req.operationId !in s.journal.operations ==> Raises(Reconcile(s, req, retry), s, "nothing to reconcile")
    ensures Over(s, req.operationId) ==>
              Reconcile(s, req, retry) == Ended(s, Returned(s.journal.operations[req.operationId].state))
    ensures req.operationId in s.journal.operations && !Over(s, req.operationId) && !AskedFor(s, req) ==>
              Raises(Reconcile(s, req, retry), s, "reconciliation request conflicts with durable intent")
  {
    hide Gates, Transition, Settle, Redispatch;
  }

  predicate Open(s: State, req: Request) {
    req.operationId in s.journal.operations && !Over(s, req.operationId) && AskedFor(s, req)
  }

  /** An open operation without a receipt, on a target that can be looked at. */
  predicate NoReceipt(s: State, req: Request) {
    Open(s, req) && s.provider.readable && req.target in s.provider.services && req.operationId !in s.provider.receipts
  }

  /** Acting again is asked for, and the provider would recognise an effect that is there already. */
  predicate MayActAgain(s: State, retry: bool) { retry && s.provider.idempotency && s.provider.fencing }

  /** A receipt of the operation's own key, found on a target that can be looked at, settles it by the target's health. */
  lemma ReceiptDecides(s: State, req: Request, retry: bool)
    requires Open(s, req) && s.journal.writesLeft >= 3
    requires s.provider.readable && req.target in s.provider.services && req.operationId in s.provider.receipts
    ensures var e, id := Reconcile(s, req, retry), req.operationId;
            && Ends(e, id, if s.provider.services[req.target].healthy then Succeeded else Unknown)
            && LogsFirst(s, e.state, id, Verifying) && e.state.provider == s.provider
  {
    hide Gates, Transition, Settle, Redispatch, OthersSame, SameSetting;
    var n := s.provider.receipts[req.operationId].effectId;
    TransitionMoves(s, req, Verifying, Some(n), "");
    var s1 := Transition(s, req, Verifying, Some(n), "").state;
    SettleEnds(s1, req, Succeeded, "");
    SettleEnds(s1, req, Unknown, "observed unhealthy service");
    assert Observe(s.provider, req.target, req.operationId) ==
           Seen(s.provider.services[req.target].healthy, Some(s.provider.receipts[req.operationId]));
    if s.provider.services[req.target].healthy {
      SettleAppends(s1, req, Succeeded, "");
    } else {
      SettleAppends(s1, req, Unknown, "observed unhealthy service");
    }
  }

  lemma SettleAppends(s: State, req: Request, state: OpState, reason: string)
    ensures s.journal.events <= Settle(s, req, state, reason).state.journal.events
  {
    SettleExtends(s, req, state, reason);
  }

  /** What is found decides: an open operation whose effect is not proved absent or present is UNKNOWN, untouched. */
  lemma ReconcileLooks(s: State, req: Request, retry: bool)
    requires Open(s, req) && s.journal.writesLeft >= 3
    requires !(s.provider.readable && req.target in s.provider.services && req.operationId in s.provider.receipts)
    ensures var e, id := Reconcile(s, req, retry), req.operationId;
            && (!s.provider.readable ==>
                  Ends(e, id, Unknown) && LogsFirst(s, e.state, id, Unknown) && e.state.provider == s.provider)
            && (s.provider.readable && req.target !in s.provider.services ==> e == Ended(s, Raised(MissingKey)))
            && (NoReceipt(s, req) && !MayActAgain(s, retry) ==>
                  Ends(e, id, Unknown) && LogsFirst(s, e.state, id, Unknown) && e.state.provider == s.provider)
            && (NoReceipt(s, req) && MayActAgain(s, retry) ==> e == Redispatch(s, req))
  {
    hide Gates, Transition, Settle, Redispatch, Ends, LogsFirst;
    SettleEnds(s, req, Unknown, "fake provider observation unavailable");
    SettleEnds(s, req, Unknown, "effect not provably absent");
  }

  /** Acting again is logged as EXECUTING first and then like any effect; without authority it is STOPPED instead. */
  lemma RedispatchEnds(s: State, req: Request)
    requires NoReceipt(s, req) && s.journal.writesLeft >= 3
    ensures var e, id := Redispatch(s, req), req.operationId;
            if Authorized(s, req) then
              && LogsFirst(s, e.state, id, Executing) && req.target in e.state.provider.services
              && Acted(s.provider, e.state.provider, req, Cause(id, id, req.actor, false, |s.journal.events| + 1))
              && Verified(e, e.state.provider, req, Unknown)
            else Ends(e, id, Stopped) && LogsFirst(s, e.state, id, Stopped) && e.state.provider == s.provider
  {
    hide Gates, Verify, Mutate, Settle, Transition, Authorized, Acted, Verified;
    var id := req.operationId;
    GatesMeanAuthorized(s, req);
    SettleEnds(s, req, Stopped, Gates(s, req).reason);
    if Authorized(s, req) {
      AuthorizedLease(s, req);
      TransitionMoves(s, req, Executing, None, "safe idempotent re-dispatch");
      var s1 := Transition(s, req, Executing, None, "safe idempotent re-dispatch").state;
      OnlyOwnRowMoved(s, s1, req);
      StillAuthorized(s, s1, req);
      GatesMeanAuthorized(s1, req);
      var c := Cause(id, id, req.actor, false, |s1.journal.events|);
      MutateActs(s1, req, c);
      var m := Mutate(s1.provider, req.target, req.action, s1.journal.leases[req.target].epoch, c);
      VerifyEnds(s1.(provider := m.provider), req, m.effectId, id, Unknown, "provider health verified", "effect unhealthy");
      assert Redispatch(s, req) == Verify(s1.(provider := m.provider), req, m.effectId, id, Unknown,
                                          "provider health verified", "effect unhealthy");
    }
  }

  /**
   Reconciliation acts again, EXECUTING first, if and only if that is asked for, the operation is open,
   the target readable and without a receipt, receipts and fencing are kept, and the effect is authorized.
   */
  lemma ReconcileActsAgainIff(s: State, req: Request, retry: bool)
    requires s.journal.writesLeft >= 3
    ensures LogsFirst(s, Reconcile(s, req, retry).state, req.operationId, Executing) <==>
            retry && s.provider.idempotency && s.provider.fencing && NoReceipt(s, req) && Authorized(s, req)
  {
    hide Reconcile, Redispatch, Authorized;
    ReconcileRefuses(s, req, retry);
    if Open(s, req) {
      if s.provider.readable && req.target in s.provider.services && req.operationId in s.provider.receipts {
        ReceiptDecides(s, req, retry);
      } else {
        ReconcileLooks(s, req, retry);
        if NoReceipt(s, req) && MayActAgain(s, retry) {
          RedispatchEnds(s, req);
        }
      }
    }
  }

  // ---------------------------------------------------------------- a run

  /** A new operation is refused under an id that is journaled, whatever its state, and changes nothing then. */
  lemma RunRefuses(s: State, req: Request, crash: CrashPoint, between: seq<Control>)
    requires req.operationId in s.journal.operations
    ensures Raises(Run(s, req, crash, between), s, "duplicate operation ID; reconcile instead")
  {
    hide Dispatch, Effect;
  }

  /** A new operation is journaled as PREPARED first. The rest of it is what follows from there. */
  predicate Begun(s: State, s': State, req: Request) {
    && AskedFor(s', req) && s'.journal.operations[req.operationId].state == Prepared
    && s'.journal.operations.Keys == s.journal.operations.Keys + {req.operationId}
    && OthersSame(s, s', req.operationId) && SameSetting(s, s')
    && LogsFirst(s, s', req.operationId, Prepared) && |s'.journal.events| == |s.journal.events| + 1
    && s'.journal.writesLeft == s.journal.writesLeft - 1
  }

  lemma BeginBegins(s: State, req: Request, generation: int)
    requires req.operationId !in s.journal.operations && s.journal.writesLeft > 0
    ensures var e := Begin(s, req, generation); e.Running? && Begun(s, e.state, req)
  {
  }

  /** A dispatch stops for good without authority, and otherwise goes as far as the crash lets it. */
  lemma DispatchGoes(s: State, req: Request, crash: CrashPoint)
    requires req.operationId !in s.journal.operations && s.journal.writesLeft >= 4
    ensures var e, id := Dispatch(s, req, crash), req.operationId;
            && e.state.provider == s.provider
            && (!Authorized(s, req) ==> Ends(e, id, Stopped))
            && (Authorized(s, req) && (crash.BeforeEffect? || crash.DuringEffect?) ==>
                  e.Ended? && e.outcome == Raised(Crashed) && AskedFor(e.state, req) &&
                  e.state.journal.operations[id].state == if crash.BeforeEffect? then Prepared else Executing)
            && (Authorized(s, req) && !crash.BeforeEffect? && !crash.DuringEffect? ==>
                  e.Running? && AskedFor(e.state, req) && e.state.journal.operations[id].state == Executing &&
                  SameSetting(s, e.state) && OthersSame(s, e.state, id) &&
                  e.state.journal.operations.Keys == s.journal.operations.Keys + {id} &&
                  e.state.journal.writesLeft == s.journal.writesLeft - 2 &&
                  |e.state.journal.events| == |s.journal.events| + 2)
  {
    hide Gates, Begin, Transition, Settle, Authorized;
    var generation := if req.target in s.provider.services then s.provider.services[req.target].generation else 0;
    BeginBegins(s, req, generation);
    var s1 := Begin(s, req, generation).state;
    SameAuthority(s, s1, req);
    GatesMeanAuthorized(s1, req);
    SettleEnds(s1, req, Stopped, Gates(s1, req).reason);
    TransitionMoves(s1, req, Executing, None, "");
    TransitionKeepsIntent(s1, req, Executing, None, "");
  }

  lemma TransitionKeepsIntent(s: State, req: Request, state: OpState, providerOp: Option<nat>, reason: string)
    requires AskedFor(s, req)
    ensures AskedFor(Transition(s, req, state, providerOp, reason).state, req)
  {
    hide Gates;
  }

  /** Its own row does not count against an operation. */
  lemma SameAuthority(s: State, s': State, req: Request)
    requires SameSetting(s, s') && OthersSame(s, s', req.operationId)
    requires forall k <- s.journal.operations :: k in s'.journal.operations
    ensures Authorized(s, req) <==> Authorized(s', req)
  {
  }

  /** The effect happens exactly with authority at that moment; it ends as its target is then found. */
  lemma EffectEnds(s: State, req: Request, crash: CrashPoint)
    requires AskedFor(s, req) && s.journal.writesLeft >= 2
    ensures var e, id := Effect(s, req, crash), req.operationId;
            if Authorized(s, req) then
              && req.target in s.provider.services && req.target in e.state.provider.services
              && Acted(s.provider, e.state.provider, req, Cause(id, id, req.actor, false, |s.journal.events|))
              && (if crash.AfterEffect? then
                    e.Ended? && e.outcome == Raised(Crashed) && e.state.journal == s.journal
                  else Verified(e, e.state.provider, req, Unknown))
            else Ends(e, id, Stopped) && e.state.provider == s.provider
  {
    hide Gates, Verify, Mutate, Settle, Transition, Authorized, Acted, Verified;
    var id := req.operationId;
    GatesMeanAuthorized(s, req);
    SettleEnds(s, req, Stopped, Gates(s, req).reason);
    if Authorized(s, req) {
      AuthorizedLease(s, req);
      var c := Cause(id, id, req.actor, false, |s.journal.events|);
      MutateActs(s, req, c);
      var m := Mutate(s.provider, req.target, req.action, s.journal.leases[req.target].epoch, c);
      VerifyEnds(s.(provider := m.provider), req, m.effectId, id, Unknown, "", "health failed after effect");
    }
  }

  /**
   A new operation that nobody interferes with and nothing interrupts: it acts, and ends as its target is
   found, if and only if it is authorized; otherwise it is STOPPED and nothing has been touched.
   */
  lemma RunEnds(s: State, req: Request)
    requires req.operationId !in s.journal.operations && s.journal.writesLeft >= 4
    ensures var e, id := Run(s, req, NoCrash, []), req.operationId;
            if Authorized(s, req) then
              && req.target in s.provider.services && req.target in e.state.provider.services
              && Acted(s.provider, e.state.provider, req, Cause(id, id, req.actor, false, |s.journal.events| + 2))
              && Verified(e, e.state.provider, req, Unknown)
            else Ends(e, id, Stopped) && e.state.provider == s.provider
  {
    hide Dispatch, Effect, Authorized, Acted, Verified;
    DispatchGoes(s, req, NoCrash);
    if Authorized(s, req) {
      var s1 := Dispatch(s, req, NoCrash).state;
      SameAuthority(s, s1, req);
      EffectEnds(s1, req, NoCrash);
    }
  }
}
