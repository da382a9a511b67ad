/**
 What every call of the failover coordinator keeps: the journal is the fold of its event log, the
 leases fence the effects, and each effect is accounted for by one operation and its log entries.
 */
module FailoverInvariants {
  import opened Wrappers
  import opened FailoverModel

  // ---------------------------------------------------------------- the event log

  datatype Replayed = Replayed(state: OpState, leaseEpoch: nat)

  /** What the event log alone says about an operation: its last state and last positive epoch. */
  function Replay(events: seq<Event>, id: Id): Option<Replayed> {
    if events == [] then None
    else
      var last := events[|events| - 1];
      var earlier := Replay(events[..|events| - 1], id);
      if last.operationId != id then earlier
      else if last.leaseEpoch > 0 || earlier.None? then Some(Replayed(last.state, last.leaseEpoch))
      else Some(earlier.value.(state := last.state))
  }

  function Recorded(j: Journal, id: Id): Option<Replayed> {
    if id in j.operations then Some(Replayed(j.operations[id].state, j.operations[id].leaseEpoch)) else None
  }

  /** The alerts the event log calls for. */
  function AlertsOf(events: seq<Event>): seq<Alert> {
    if events == [] then []
    else
      var last := events[|events| - 1];
      AlertsOf(events[..|events| - 1]) +
      (if last.state.Alerting() then [Alert(last.operationId, last.state, last.reason)] else [])
  }

  ghost predicate Journaled(s: State) {
    && (forall id :: Replay(s.journal.events, id) == Recorded(s.journal, id))
    && s.alerts == AlertsOf(s.journal.events)
  }

  predicate Logged(events: seq<Event>, id: Id, state: OpState) {
    exists e <- events :: e.operationId == id && e.state == state
  }

  // ---------------------------------------------------------------- fencing

  predicate LeasesMatchProvider(s: State) {
    && (forall t <- s.provider.services :: s.provider.services[t].epoch == LeaseEpoch(s.journal.leases, t))
    && (forall t <- s.journal.leases :: t in s.provider.services && s.journal.leases[t].epoch >= 1)
  }

  predicate EffectsBelowEpoch(s: State) {
    forall e <- s.provider.effects ::
      e.target in s.provider.services && 1 <= e.epoch <= s.provider.services[e.target].epoch
  }

  predicate EpochsOrdered(effects: seq<Receipt>) {
    forall i, j | 0 <= i < j < |effects| && effects[i].target == effects[j].target ::
      effects[i].epoch <= effects[j].epoch
  }

  predicate OneActorPerEpoch(p: Provider)
    requires |p.causes| == |p.effects|
  {
    forall i, j | 0 <= i < |p.effects| && 0 <= j < |p.effects| &&
                  p.effects[i].target == p.effects[j].target && p.effects[i].epoch == p.effects[j].epoch ::
      p.causes[i].actor == p.causes[j].actor
  }

  predicate CurrentEpochIsHolders(s: State)
    requires |s.provider.causes| == |s.provider.effects|
  {
    forall i | 0 <= i < |s.provider.effects| && s.provider.effects[i].target in s.journal.leases ::
      var lease := s.journal.leases[s.provider.effects[i].target];
      s.provider.effects[i].epoch == lease.epoch ==> s.provider.causes[i].actor == lease.holder
  }

  predicate Fenced(s: State) {
    && |s.provider.causes| == |s.provider.effects|
    && LeasesMatchProvider(s)
    && EffectsBelowEpoch(s)
    && EpochsOrdered(s.provider.effects)
    && OneActorPerEpoch(s.provider)
    && CurrentEpochIsHolders(s)
  }

  // ---------------------------------------------------------------- accounting

  function KeyOf(c: Cause): string {
    if c.compensating then CompensationKey(c.operationId) else c.operationId
  }

  predicate Forward(c: Cause, id: Id) { c.operationId == id && !c.compensating }
  predicate Restoring(c: Cause, id: Id) { c.operationId == id && c.compensating }

  predicate NoForwardEffect(p: Provider, id: Id) {
    forall c <- p.causes :: !Forward(c, id)
  }

  predicate AtMostOneForward(causes: seq<Cause>) {
    forall i, j | 0 <= i < j < |causes| && !causes[i].compensating && !causes[j].compensating ::
      causes[i].operationId != causes[j].operationId
  }

  /** Receipts are kept exactly when the provider is idempotent: one effect for each key. */
  predicate ReceiptsCover(p: Provider)
    requires |p.causes| == |p.effects|
  {
    && (!p.idempotency ==> p.receipts == map[])
    && (p.idempotency ==> forall c <- p.causes :: c.key in p.receipts)
    && (p.idempotency ==> forall i, j | 0 <= i < j < |p.causes| :: p.causes[i].key != p.causes[j].key)
    && (forall k <- p.receipts :: IsEffectUnder(p, p.receipts[k].effectId, k))
  }

  /** Effect number `n` exists and was made under `key`. */
  predicate IsEffectUnder(p: Provider, n: nat, key: string) {
    1 <= n <= |p.causes| && p.causes[n - 1].key == key
  }

  /** The effect was made for this operation's actor and target, after the state it had to log first. */
  predicate Backed(j: Journal, r: Receipt, c: Cause) {
    && c.key == KeyOf(c)
    && c.operationId in j.operations
    && r.target == j.operations[c.operationId].target
    && c.actor == j.operations[c.operationId].actor
    && c.logged <= |j.events|
    && Logged(j.events[..c.logged], c.operationId, if c.compensating then Recovering else Executing)
  }

  predicate RowHonest(p: Provider, id: Id, row: Row) {
    && (row.state.Stopped? ==> NoForwardEffect(p, id))
    && (row.state.Succeeded? ==> row.changed)
    && (row.changed <==> row.providerOp.Some?)
    && (row.changed ==> EffectOf(p, row.providerOp.value, id))
  }

  predicate EffectOf(p: Provider, n: nat, id: Id) {
    IsEffectUnder(p, n, id) || IsEffectUnder(p, n, CompensationKey(id))
  }

  predicate Accounted(s: State) {
    && |s.provider.causes| == |s.provider.effects|
    && (forall i | 0 <= i < |s.provider.effects| :: s.provider.effects[i].effectId == i + 1)
    && (forall i | 0 <= i < |s.provider.effects| ::
          Backed(s.journal, s.provider.effects[i], s.provider.causes[i]))
    && AtMostOneForward(s.provider.causes)
    && ReceiptsCover(s.provider)
    && (forall id <- s.journal.operations :: RowHonest(s.provider, id, s.journal.operations[id]))
  }

  ghost predicate Inv(s: State) {
    Journaled(s) && Fenced(s) && Accounted(s)
  }

  // ---------------------------------------------------------------- journal steps

  lemma AppendEvent(s: State, s': State, e: Event)
    requires Journaled(s)
    requires s'.journal.events == s.journal.events + [e]
    requires forall id :: id != e.operationId ==> Recorded(s'.journal, id) == Recorded(s.journal, id)
    requires e.operationId in s'.journal.operations
    requires s'.journal.operations[e.operationId].state == e.state
    requires s'.journal.operations[e.operationId].leaseEpoch ==
             if e.leaseEpoch > 0 || e.operationId !in s.journal.operations then e.leaseEpoch
             else s.journal.operations[e.operationId].leaseEpoch
    requires s'.alerts == s.alerts +
             if e.state.Alerting() then [Alert(e.operationId, e.state, e.reason)] else []
    ensures Journaled(s')
  {
    var events := s'.journal.events;
    assert events[..|events| - 1] == s.journal.events;
    forall id ensures Replay(events, id) == Recorded(s'.journal, id) {
      assert Replay(s.journal.events, id) == Recorded(s.journal, id);
    }
  }

  /** Growing the log and leaving the provider alone keeps every effect backed. */
  lemma StillBacked(j: Journal, j': Journal, r: Receipt, c: Cause)
    requires Backed(j, r, c) && j.events <= j'.events
    requires c.operationId in j'.operations
    requires j'.operations[c.operationId].target == j.operations[c.operationId].target
    requires j'.operations[c.operationId].actor == j.operations[c.operationId].actor
    ensures Backed(j', r, c)
  {
    assert j'.events[..c.logged] == j.events[..c.logged];
  }

  lemma BeginKeeps(s: State, req: Request, generation: int)
    requires Inv(s)
    ensures Inv(Begin(s, req, generation).state)
  {
    var e := Begin(s, req, generation);
    if e.Running? {
      var s' := e.state;
      AppendEvent(s, s', s'.journal.events[|s.journal.events|]);
      forall i | 0 <= i < |s.provider.effects|
        ensures Backed(s'.journal, s.provider.effects[i], s.provider.causes[i])
      {
        StillBacked(s.journal, s'.journal, s.provider.effects[i], s.provider.causes[i]);
      }
    }
  }

  /** What a caller of Transition owes: STOPPED without effect, SUCCEEDED and receipts only for real effects. */
  predicate MayMove(s: State, id: Id, state: OpState, providerOp: Option<nat>) {
    && (id in s.journal.operations && state.Succeeded? ==> s.journal.operations[id].changed)
    && (state.Stopped? ==> NoForwardEffect(s.provider, id))
    && (providerOp.Some? ==> EffectOf(s.provider, providerOp.value, id))
  }

  lemma TransitionKeeps(s: State, req: Request, state: OpState, providerOp: Option<nat>, reason: string)
    requires Inv(s) && MayMove(s, req.operationId, state, providerOp)
    ensures Inv(Transition(s, req, state, providerOp, reason).state)
  {
    hide Journaled, Fenced, Accounted, MayMove, Gates;
    var e := Transition(s, req, state, providerOp, reason);
    if e.Running? {
      TransitionJournaled(s, req, state, providerOp, reason);
      TransitionAccounted(s, req, state, providerOp, reason);
      FencedSame(s, e.state);
    }
  }

  lemma TransitionJournaled(s: State, req: Request, state: OpState, providerOp: Option<nat>, reason: string)
    requires Journaled(s)
    ensures Journaled(Transition(s, req, state, providerOp, reason).state)
  {
    hide Gates;
    var e := Transition(s, req, state, providerOp, reason);
    if e.Running? {
      AppendEvent(s, e.state, e.state.journal.events[|s.journal.events|]);
    }
  }

  lemma TransitionAccounted(s: State, req: Request, state: OpState, providerOp: Option<nat>, reason: string)
    requires Accounted(s) && MayMove(s, req.operationId, state, providerOp)
    ensures Accounted(Transition(s, req, state, providerOp, reason).state)
  {
    hide Gates, ReceiptsCover, AtMostOneForward, Logged, RowHonest, MayMove;
    var e := Transition(s, req, state, providerOp, reason);
    if e.Running? {
      forall i | 0 <= i < |s.provider.effects|
        ensures Backed(e.state.journal, s.provider.effects[i], s.provider.causes[i])
      {
        StillBacked(s.journal, e.state.journal, s.provider.effects[i], s.provider.causes[i]);
      }
      MovedHonest(s, req.operationId, state, providerOp);
    }
  }

  lemma MovedHonest(s: State, id: Id, state: OpState, providerOp: Option<nat>)
    requires id in s.journal.operations && RowHonest(s.provider, id, s.journal.operations[id])
    requires MayMove(s, id, state, providerOp)
    ensures forall e: nat :: RowHonest(s.provider, id, Moved(s.journal.operations[id], state, e, providerOp))
  {
  }

  lemma SettleKeeps(s: State, req: Request, state: OpState, reason: string)
    requires Inv(s) && MayMove(s, req.operationId, state, None)
    ensures Inv(Settle(s, req, state, reason).state)
  {
    TransitionKeeps(s, req, state, None, reason);
  }

  // ---------------------------------------------------------------- controls

  /** Controls touch neither operations, events, alerts nor effects. */
  predicate SameHistory(s: State, s': State) {
    && s'.journal.operations == s.journal.operations && s'.journal.events == s.journal.events
    && s'.provider.effects == s.provider.effects && s'.provider.causes == s.provider.causes
    && s'.provider.receipts == s.provider.receipts
    && s'.provider.idempotency == s.provider.idempotency
    && s'.alerts == s.alerts
  }

  lemma JournaledSame(s: State, s': State)
    requires Journaled(s) && s'.alerts == s.alerts && s'.journal.events == s.journal.events
    requires s'.journal.operations == s.journal.operations
    ensures Journaled(s')
  {
    forall id ensures Replay(s'.journal.events, id) == Recorded(s'.journal, id) {
      assert Replay(s.journal.events, id) == Recorded(s.journal, id);
    }
  }

  lemma AccountedSame(s: State, s': State)
    requires Accounted(s) && SameHistory(s, s')
    ensures Accounted(s')
  {
    forall i | 0 <= i < |s.provider.effects|
      ensures Backed(s'.journal, s.provider.effects[i], s.provider.causes[i])
    {
      StillBacked(s.journal, s'.journal, s.provider.effects[i], s.provider.causes[i]);
    }
    assert ReceiptsCover(s'.provider);
    forall id <- s'.journal.operations ensures RowHonest(s'.provider, id, s'.journal.operations[id]) {
      assert RowHonest(s.provider, id, s.journal.operations[id]);
    }
  }

  /** Neither leases, epochs nor effects differ. */
  predicate SameFences(s: State, s': State) {
    && s'.journal.leases == s.journal.leases
    && s'.provider.effects == s.provider.effects && s'.provider.causes == s.provider.causes
    && s'.provider.services.Keys == s.provider.services.Keys
    && (forall t <- s.provider.services :: s'.provider.services[t].epoch == s.provider.services[t].epoch)
  }

  lemma FencedSame(s: State, s': State)
    requires Fenced(s) && SameFences(s, s')
    ensures Fenced(s')
  {
    assert LeasesMatchProvider(s');
    assert EffectsBelowEpoch(s');
  }

  /** A new lease raises the epoch above every effect made so far. */
  lemma LeaseFenced(s: State, holder: string, target: string, takeover: bool, ttl: int)
    requires Fenced(s)
    ensures Fenced(AcquireLease(s, holder, target, takeover, ttl))
  {
    var s' := AcquireLease(s, holder, target, takeover, ttl);
    if s' != s {
      assert LeasesMatchProvider(s');
      assert EffectsBelowEpoch(s');
      assert CurrentEpochIsHolders(s');
    }
  }

  lemma LeaseKeepsHistory(s: State, holder: string, target: string, takeover: bool, ttl: int)
    ensures SameHistory(s, AcquireLease(s, holder, target, takeover, ttl))
  {
  }

  lemma OtherControls(s: State, c: Control)
    requires !c.TakeLease?
    ensures SameFences(s, ApplyControl(s, c)) && SameHistory(s, ApplyControl(s, c))
  {
  }

  lemma ControlFenced(s: State, c: Control)
    requires Fenced(s)
    ensures Fenced(ApplyControl(s, c)) && SameHistory(s, ApplyControl(s, c))
  {
    hide Fenced, AcquireLease, SameHistory, SameFences;
    if c.TakeLease? {
      LeaseFenced(s, c.holder, c.target, c.takeover, c.ttl);
      LeaseKeepsHistory(s, c.holder, c.target, c.takeover, c.ttl);
    } else {
      OtherControls(s, c);
      FencedSame(s, ApplyControl(s, c));
    }
  }

  lemma ControlKeeps(s: State, c: Control)
    requires Inv(s)
    ensures Inv(ApplyControl(s, c)) && SameHistory(s, ApplyControl(s, c))
  {
    hide ApplyControl, Journaled, Fenced, Accounted;
    ControlFenced(s, c);
    JournaledSame(s, ApplyControl(s, c));
    AccountedSame(s, ApplyControl(s, c));
  }

  lemma {:induction false} ControlsKeep(s: State, cs: seq<Control>)
    requires Inv(s)
    ensures Inv(ApplyControls(s, cs)) && SameHistory(s, ApplyControls(s, cs))
    decreases |cs|
  {
    if cs != [] {
      ControlKeeps(s, cs[0]);
      ControlsKeep(ApplyControl(s, cs[0]), cs[1..]);
    }
  }

  // ---------------------------------------------------------------- the gates

  /** Everything that must be in force at once for an effect to be allowed. */
  predicate Authorized(s: State, req: Request) {
    && !req.production && req.inventoryFresh && req.restoreVerified
    && req.target in s.provider.services && !req.action.OtherAction? && !req.tier.OtherTier?
    && !InFlightElsewhere(s.journal, req.target, req.operationId)
    && (!req.tier.Green? ==> req.humanApproval == Some(HUMAN_APPROVER) && req.operationId in s.approvals)
    && (req.actor, req.target, req.action) in s.capabilities
    && var cap := s.capabilities[(req.actor, req.target, req.action)];
    && cap.expires > s.now && cap.policyHash == req.policyHash
    && req.target in s.journal.leases && s.provider.fencing
    && var lease := s.journal.leases[req.target];
    && lease.holder == req.actor && lease.expires > s.now
    && lease.epoch == s.provider.services[req.target].epoch
    && (req.target, req.action) in s.verdicts
    && var v := s.verdicts[(req.target, req.action)];
    && v.decision.Allow? && v.valid && v.expires > s.now && v.policyHash == req.policyHash
  }

  lemma GatesMeanAuthorized(s: State, req: Request)
    ensures Gates(s, req).ok <==> Authorized(s, req)
  {
  }

  // ---------------------------------------------------------------- the effect

  /** All that must hold before the provider is touched on behalf of an operation. */
  predicate MayMutate(s: State, target: string, c: Cause) {
    && c.key == KeyOf(c)
    && c.logged == |s.journal.events|
    && c.operationId in s.journal.operations
    && s.journal.operations[c.operationId].target == target
    && s.journal.operations[c.operationId].actor == c.actor
    && s.journal.operations[c.operationId].state == (if c.compensating then Recovering else Executing)
    && Logged(s.journal.events, c.operationId, if c.compensating then Recovering else Executing)
    && target in s.journal.leases && s.journal.leases[target].holder == c.actor
    && (!c.compensating ==> NoForwardEffect(s.provider, c.operationId))
  }

  /** A mutation leaves the provider as it is or adds one effect, and moves no epoch. */
  lemma MutationAdds(p: Provider, target: string, action: Action, epoch: nat, c: Cause)
    requires Mutate(p, target, action, epoch, c).Applied?
    ensures var p' := Mutate(p, target, action, epoch, c).provider;
            && target in p.services && p.services[target].epoch == epoch
            && p'.services.Keys == p.services.Keys
            && (forall t <- p.services :: p'.services[t].epoch == p.services[t].epoch)
            && (p' == p || (p'.causes == p.causes + [c] &&
                            p'.effects == p.effects + [Receipt(target, action, epoch, |p.effects| + 1)]))
  {
  }

  lemma NewEffectFenced(s: State, target: string, action: Action, c: Cause)
    requires Fenced(s) && target in s.journal.leases && s.journal.leases[target].holder == c.actor
    requires Mutate(s.provider, target, action, s.journal.leases[target].epoch, c).Applied?
    ensures Fenced(s.(provider := Mutate(s.provider, target, action, s.journal.leases[target].epoch, c).provider))
  {
    hide Mutate;
    var epoch := s.journal.leases[target].epoch;
    var p := Mutate(s.provider, target, action, epoch, c).provider;
    MutationAdds(s.provider, target, action, epoch, c);
    if p != s.provider {
      var s' := s.(provider := p);
      assert LeasesMatchProvider(s');
      assert EffectsBelowEpoch(s');
      assert EpochsOrdered(p.effects);
      assert CurrentEpochIsHolders(s');
      assert OneActorPerEpoch(p);
    }
  }

  lemma MutateKeeps(s: State, target: string, action: Action, c: Cause)
    requires Inv(s) && MayMutate(s, target, c)
    requires Mutate(s.provider, target, action, s.journal.leases[target].epoch, c).Applied?
    ensures var m := Mutate(s.provider, target, action, s.journal.leases[target].epoch, c);
            Inv(s.(provider := m.provider)) && IsEffectUnder(m.provider, m.effectId, c.key)
  {
    hide Fenced, Journaled;
    var m := Mutate(s.provider, target, action, s.journal.leases[target].epoch, c);
    var s' := s.(provider := m.provider);
    NewEffectFenced(s, target, action, c);
    JournaledSame(s, s');
    if s.provider.idempotency && c.key in s.provider.receipts {
      assert IsEffectUnder(s.provider, s.provider.receipts[c.key].effectId, c.key);
    } else {
      assert Backed(s'.journal, m.provider.effects[|s.provider.effects|], c) by {
        assert s.journal.events[..c.logged] == s.journal.events;
      }
      NewEffectAccounted(s, s', c);
    }
  }

  lemma NewEffectAccounted(s: State, s': State, c: Cause)
    requires Accounted(s) && s'.journal == s.journal
    requires s'.provider.causes == s.provider.causes + [c]
    requires |s'.provider.effects| == |s.provider.effects| + 1
    requires s'.provider.effects[..|s.provider.effects|] == s.provider.effects
    requires var r := s'.provider.effects[|s.provider.effects|];
             r.effectId == |s'.provider.effects| && Backed(s'.journal, r, c) &&
             s'.provider.receipts == if s.provider.idempotency then s.provider.receipts[c.key := r] else s.provider.receipts
    requires s'.provider.idempotency == s.provider.idempotency
    requires s.provider.idempotency ==> c.key !in s.provider.receipts
    requires !c.compensating ==> NoForwardEffect(s.provider, c.operationId)
    requires c.operationId in s.journal.operations
    requires !s.journal.operations[c.operationId].state.Stopped?
    ensures Accounted(s')
  {
    hide Logged, RowHonest;
    var n := |s.provider.effects|;
    forall i | 0 <= i < n
      ensures s'.provider.effects[i] == s.provider.effects[i] && s'.provider.causes[i] == s.provider.causes[i]
    {
      assert s'.provider.effects[..n][i] == s'.provider.effects[i];
    }
    StillOneForward(s.provider.causes, c);
    StillCovered(s.provider, s'.provider, c);
    forall id <- s'.journal.operations ensures RowHonest(s'.provider, id, s'.journal.operations[id]) {
      StillHonest(s.provider, s'.provider, c, id, s.journal.operations[id]);
    }
  }

  lemma StillOneForward(causes: seq<Cause>, c: Cause)
    requires AtMostOneForward(causes)
    requires !c.compensating ==> forall d <- causes :: !Forward(d, c.operationId)
    ensures AtMostOneForward(causes + [c])
  {
    forall i | 0 <= i < |causes| && !c.compensating ensures !Forward(causes[i], c.operationId) {
      assert causes[i] in causes;
    }
  }

  lemma StillCovered(p: Provider, p': Provider, c: Cause)
    requires |p.causes| == |p.effects| && |p'.causes| == |p'.effects| && ReceiptsCover(p)
    requires p'.causes == p.causes + [c] && p'.idempotency == p.idempotency
    requires p.idempotency ==> c.key !in p.receipts
    requires p'.effects != [] && p'.effects[|p.effects|].effectId == |p'.effects|
    requires p'.receipts == if p.idempotency then p.receipts[c.key := p'.effects[|p.effects|]] else p.receipts
    ensures ReceiptsCover(p')
  {
    forall k <- p'.receipts ensures IsEffectUnder(p', p'.receipts[k].effectId, k) {
      if k != c.key || !p.idempotency { assert IsEffectUnder(p, p.receipts[k].effectId, k); }
    }
  }

  lemma StillHonest(p: Provider, p': Provider, c: Cause, id: Id, row: Row)
    requires RowHonest(p, id, row) && p'.causes == p.causes + [c]
    requires c.operationId == id ==> !row.state.Stopped?
    ensures RowHonest(p', id, row)
  {
  }

  /** VERIFYING with a real effect, then a final state that may not be STOPPED. */
  lemma VerifyKeeps(s: State, req: Request, effectId: nat, key: string, otherwise: OpState,
                    good: string, bad: string)
    requires Inv(s) && EffectOf(s.provider, effectId, req.operationId)
    requires otherwise.Unknown? || otherwise.RecoveryFailed?
    ensures Inv(Verify(s, req, effectId, key, otherwise, good, bad).state)
  {
    hide Inv, Gates;
    TransitionKeeps(s, req, Verifying, Some(effectId), "");
    var e := Transition(s, req, Verifying, Some(effectId), "");
    if e.Running? {
      SettleKeeps(e.state, req, Succeeded, good);
      SettleKeeps(e.state, req, otherwise, bad);
    }
  }

  // ---------------------------------------------------------------- calls

  /** Open gates mean that the lease is the actor's. */
  lemma OpenGatesHold(s: State, req: Request)
    requires Gates(s, req).ok
    ensures req.target in s.journal.leases && s.journal.leases[req.target].holder == req.actor
  {
    GatesMeanAuthorized(s, req);
  }

  lemma EffectKeeps(s: State, req: Request, crash: CrashPoint)
    requires Inv(s) && req.operationId in s.journal.operations
    requires s.journal.operations[req.operationId].target == req.target
    requires s.journal.operations[req.operationId].actor == req.actor
    requires s.journal.operations[req.operationId].state.Executing?
    requires Logged(s.journal.events, req.operationId, Executing)
    requires NoForwardEffect(s.provider, req.operationId)
    ensures Inv(Effect(s, req, crash).state)
  {
    hide Inv, Gates, Mutate, Settle, Verify;
    var g := Gates(s, req);
    if g.ok { OpenGatesHold(s, req); }
    if !g.ok {
      SettleKeeps(s, req, Stopped, g.reason);
    } else if req.target !in s.journal.leases {
      SettleKeeps(s, req, Unknown, "lost lease");
    } else {
      var c := Cause(req.operationId, req.operationId, req.actor, false, |s.journal.events|);
      match Mutate(s.provider, req.target, req.action, s.journal.leases[req.target].epoch, c)
      case Refused(reason) => SettleKeeps(s, req, Stopped, reason);
      case Applied(provider, effectId) =>
        MutateKeeps(s, req.target, req.action, c);
        VerifyKeeps(s.(provider := provider), req, effectId, req.operationId, Unknown, "",
                    "health failed after effect");
    }
  }

  lemma NewHasNoEffect(s: State, id: Id)
    requires Inv(s) && id !in s.journal.operations
    ensures NoForwardEffect(s.provider, id)
  {
    forall i | 0 <= i < |s.provider.causes| ensures !Forward(s.provider.causes[i], id) {
      assert Backed(s.journal, s.provider.effects[i], s.provider.causes[i]);
    }
  }

  /** A dispatch that goes on has EXECUTING on the log, for this request. */
  lemma DispatchRunning(s: State, req: Request, crash: CrashPoint)
    ensures Dispatch(s, req, crash).Running? ==>
              var s' := Dispatch(s, req, crash).state;
              && req.operationId in s'.journal.operations
              && s'.journal.operations[req.operationId].target == req.target
              && s'.journal.operations[req.operationId].actor == req.actor
              && s'.journal.operations[req.operationId].state.Executing?
              && Logged(s'.journal.events, req.operationId, Executing)
              && s'.provider == s.provider
  {
    hide Gates;
    if Dispatch(s, req, crash).Running? {
      var events := Dispatch(s, req, crash).state.journal.events;
      assert events[|events| - 1] in events;
    }
  }

  lemma BeginKeepsProvider(s: State, req: Request, generation: int)
    ensures Begin(s, req, generation).state.provider == s.provider
  {
  }

  /** A new operation has no effects, and reaches its effect only with EXECUTING on the log. */
  lemma DispatchKeeps(s: State, req: Request, crash: CrashPoint)
    requires Inv(s) && req.operationId !in s.journal.operations
    ensures Inv(Dispatch(s, req, crash).state)
    ensures Dispatch(s, req, crash).Running? ==>
              var s' := Dispatch(s, req, crash).state;
              && req.operationId in s'.journal.operations
              && s'.journal.operations[req.operationId].target == req.target
              && s'.journal.operations[req.operationId].actor == req.actor
              && s'.journal.operations[req.operationId].state.Executing?
              && Logged(s'.journal.events, req.operationId, Executing)
              && NoForwardEffect(s'.provider, req.operationId)
              && s'.provider == s.provider
  {
    hide Gates, Inv, Begin, Transition, Settle;
    NewHasNoEffect(s, req.operationId);
    DispatchRunning(s, req, crash);
    var generation :=
      if req.target in s.provider.services then s.provider.services[req.target].generation else 0;
    BeginKeeps(s, req, generation);
    BeginKeepsProvider(s, req, generation);
    var b := Begin(s, req, generation);
    if b.Running? {
      SettleKeeps(b.state, req, Stopped, Gates(b.state, req).reason);
      TransitionKeeps(b.state, req, Executing, None, "");
    }
  }

  lemma RunKeeps(s: State, req: Request, crash: CrashPoint, between: seq<Control>)
    requires Inv(s)
    ensures Inv(Run(s, req, crash, between).state)
  {
    if req.operationId !in s.journal.operations {
      DispatchKeeps(s, req, crash);
      var e := Dispatch(s, req, crash);
      if e.Running? {
        ControlsKeep(e.state, between);
        EffectKeeps(ApplyControls(e.state, between), req, crash);
      }
    }
  }

  /** Where an idempotent provider has no receipt under the operation's key, it made no forward effect. */
  lemma NoReceiptNoForward(s: State, id: Id)
    requires Inv(s) && s.provider.idempotency && id !in s.provider.receipts
    ensures NoForwardEffect(s.provider, id)
  {
    forall i | 0 <= i < |s.provider.causes| ensures !Forward(s.provider.causes[i], id) {
      assert Backed(s.journal, s.provider.effects[i], s.provider.causes[i]);
      assert s.provider.causes[i] in s.provider.causes;
    }
  }

  lemma RedispatchKeeps(s: State, req: Request)
    requires Inv(s) && req.operationId in s.journal.operations
    requires SameIntent(s.journal.operations[req.operationId], req)
    requires s.provider.idempotency && req.operationId !in s.provider.receipts
    ensures Inv(Redispatch(s, req).state)
  {
    hide Inv, Gates, Mutate, Settle, Verify;
    NoReceiptNoForward(s, req.operationId);
    var g := Gates(s, req);
    if g.ok { OpenGatesHold(s, req); }
    SettleKeeps(s, req, Stopped, g.reason);
    TransitionKeeps(s, req, Executing, None, "safe idempotent re-dispatch");
    var e := Transition(s, req, Executing, None, "safe idempotent re-dispatch");
    if g.ok && e.Running? && req.target in e.state.journal.leases {
      var s1 := e.state;
      assert s1.journal.events[|s.journal.events|] in s1.journal.events;
      var c := Cause(req.operationId, req.operationId, req.actor, false, |s1.journal.events|);
      match Mutate(s1.provider, req.target, req.action, s1.journal.leases[req.target].epoch, c)
      case Refused(reason) =>
      case Applied(provider, effectId) =>
        MutateKeeps(s1, req.target, req.action, c);
        VerifyKeeps(s1.(provider := provider), req, effectId, req.operationId, Unknown,
                    "provider health verified", "effect unhealthy");
    } else if g.ok && e.Running? {
      SettleKeeps(e.state, req, Unknown, "lease vanished");
    }
  }

  lemma ReceiptIsEffect(s: State, id: Id)
    requires Inv(s) && id in s.provider.receipts
    ensures EffectOf(s.provider, s.provider.receipts[id].effectId, id)
  {
    assert IsEffectUnder(s.provider, s.provider.receipts[id].effectId, id);
  }

  lemma AcknowledgeKeeps(s: State, req: Request)
    requires Inv(s) && req.operationId in s.provider.receipts
    ensures var e := Transition(s, req, Verifying, Some(s.provider.receipts[req.operationId].effectId), "");
            && Inv(e.state)
            && (e.Running? ==> (Inv(Settle(e.state, req, Succeeded, "").state)
                             && Inv(Settle(e.state, req, Unknown, "observed unhealthy service").state)))
  {
    hide Gates, Inv;
    var n := s.provider.receipts[req.operationId].effectId;
    ReceiptIsEffect(s, req.operationId);
    TransitionKeeps(s, req, Verifying, Some(n), "");
    var e := Transition(s, req, Verifying, Some(n), "");
    if e.Running? {
      SettleKeeps(e.state, req, Succeeded, "");
      SettleKeeps(e.state, req, Unknown, "observed unhealthy service");
    }
  }

  lemma ReconcileKeeps(s: State, req: Request, retry: bool)
    requires Inv(s)
    ensures Inv(Reconcile(s, req, retry).state)
  {
    hide Inv, Gates, Transition, Redispatch;
    var id := req.operationId;
    if id in s.journal.operations && SameIntent(s.journal.operations[id], req) {
      SettleKeeps(s, req, Unknown, "fake provider observation unavailable");
      SettleKeeps(s, req, Unknown, "effect not provably absent");
      if id in s.provider.receipts {
        AcknowledgeKeeps(s, req);
      } else if s.provider.idempotency {
        RedispatchKeeps(s, req);
      }
    }
  }

  lemma CompensateKeeps(s: State, req: Request)
    requires Inv(s)
    ensures Inv(Compensate(s, req).state)
  {
    hide Inv, Gates;
    var id := req.operationId;
    if id in s.journal.operations && SameIntent(s.journal.operations[id], req) {
      GatesMeanAuthorized(s, req.(action := Restore));
      var g := Gates(s, req.(action := Restore));
      SettleKeeps(s, req, RecoveryBlocked, g.reason);
      TransitionKeeps(s, req, Recovering, None, "approved distinct restore effect");
      var e := Transition(s, req, Recovering, None, "approved distinct restore effect");
      if g.ok && e.Running? && req.target in e.state.journal.leases {
        var s1 := e.state;
        assert s1.journal.events[|s.journal.events|] in s1.journal.events;
        var c := Cause(CompensationKey(id), id, req.actor, true, |s1.journal.events|);
        match Mutate(s1.provider, req.target, Restore, s1.journal.leases[req.target].epoch, c)
        case Refused(reason) => SettleKeeps(s1, req, RecoveryFailed, reason);
        case Applied(provider, effectId) =>
          MutateKeeps(s1, req.target, Restore, c);
          VerifyKeeps(s1.(provider := provider), req, effectId, CompensationKey(id), RecoveryFailed,
                      "restored health verified", "compensation health check failed");
      } else if g.ok && e.Running? {
        SettleKeeps(e.state, req, RecoveryBlocked, "lease missing");
      }
    }
  }

  lemma ApplyKeeps(s: State, step: Step)
    requires Inv(s)
    ensures Inv(Apply(s, step))
  {
    match step
    case RunStep(req, crash, between) => RunKeeps(s, req, crash, between);
    case ReconcileStep(req, retry) => ReconcileKeeps(s, req, retry);
    case CompensateStep(req) => CompensateKeeps(s, req);
    case ControlStep(control) => ControlKeeps(s, control);
  }

  /** Every state a fresh coordinator can reach satisfies the invariant. */
  lemma {:induction false} ReachableInv(s: State, steps: seq<Step>)
    requires Inv(s)
    ensures Inv(Execute(s, steps))
    decreases |steps|
  {
    if steps != [] {
      ApplyKeeps(s, steps[0]);
      ReachableInv(Apply(s, steps[0]), steps[1..]);
    }
  }

  lemma FreshInv(s: State)
    requires Fresh(s)
    ensures Inv(s)
  {
  }
}
