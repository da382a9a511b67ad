/**
 The failover coordinator as the objects it is: a journal and a provider updated in place and a
 simulator that drives them. Every call ends in the state and with the outcome that FailoverModel
 gives for it.
 */
module FailoverCoordinator {
  import opened Wrappers
  import opened FailoverModel

  class Journal {
    var operations: map<Id, Row>
    var events: seq<Event>
    var leases: map<string, Lease>
    var writesLeft: nat

    function Value(): FailoverModel.Journal
      reads this
    {
      FailoverModel.Journal(operations, events, leases, writesLeft)
    }

    constructor (writesLeft: nat)
      ensures Value() == FailoverModel.Journal(map[], [], map[], writesLeft)
    {
      operations, events, leases := map[], [], map[];
      this.writesLeft := writesLeft;
    }

    method Begin(req: Request, generation: int, now: int) returns (ok: bool)
      modifies this
      ensures ok <==> old(writesLeft) > 0 && req.operationId !in old(operations)
      ensures !ok ==> Value() == old(Value())
      ensures ok ==>
                && operations == old(operations)[req.operationId :=
                     Row(req.actor, req.target, req.action, req.tier, req.policyHash,
                         req.correlationId, Prepared, generation, false, None, 0)]
                && events == old(events) +
                     [Event(req.operationId, now, Prepared, req.actor, req.target, req.policyHash,
                            req.correlationId, NoCapability, NoLease, 0, None, "")]
                && leases == old(leases) && writesLeft == old(writesLeft) - 1
    {
      ok := writesLeft > 0 && req.operationId !in operations;
      if ok {
        operations := operations[req.operationId :=
          Row(req.actor, req.target, req.action, req.tier, req.policyHash, req.correlationId,
              Prepared, generation, false, None, 0)];
        events := events + [Event(req.operationId, now, Prepared, req.actor, req.target,
                                  req.policyHash, req.correlationId, NoCapability, NoLease, 0, None, "")];
        writesLeft := writesLeft - 1;
      }
    }

    method Transition(id: Id, now: int, state: OpState, g: Gate, providerOp: Option<nat>, reason: string)
      returns (ok: bool)
      modifies this
      ensures ok <==> old(writesLeft) > 0 && id in old(operations)
      ensures !ok ==> Value() == old(Value())
      ensures ok ==>
                var row := old(operations)[id];
                && operations == old(operations)[id := Moved(row, state, g.epoch, providerOp)]
                && events == old(events) +
                     [Event(id, now, state, row.actor, row.target, row.policyHash, row.correlationId,
                            g.capabilityId, g.leaseId, g.epoch, g.verdict, reason)]
                && leases == old(leases) && writesLeft == old(writesLeft) - 1
    {
      ok := writesLeft > 0 && id in operations;
      if ok {
        var row := operations[id];
        var updated := row.(state := state);
        if providerOp.Some? { updated := updated.(changed := true, providerOp := providerOp); }
        if g.epoch > 0 { updated := updated.(leaseEpoch := g.epoch); }
        operations := operations[id := updated];
        events := events + [Event(id, now, state, row.actor, row.target, row.policyHash,
                                  row.correlationId, g.capabilityId, g.leaseId, g.epoch, g.verdict, reason)];
        writesLeft := writesLeft - 1;
      }
    }

    method Acquire(target: string, holder: string, now: int, takeover: bool, ttl: int)
      returns (r: Result<Lease, Error>)
      modifies this
      ensures r.Ok? <==> old(writesLeft) > 0 &&
                         (target in old(leases) && old(leases)[target].expires > now ==> takeover)
      ensures r.Err? ==> Value() == old(Value())
      ensures r.Ok? ==>
                && r.value == Lease(holder, target, 1 + LeaseEpoch(old(leases), target), now + ttl)
                && leases == old(leases)[target := r.value] && writesLeft == old(writesLeft) - 1
                && operations == old(operations) && events == old(events)
    {
      if writesLeft == 0 { return Err(AuditUnavailable); }
      if target in leases && leases[target].expires > now && !takeover {
        return Err(Unsafe("active lease prevents competing controller"));
      }
      var epoch := 1;
      if target in leases { epoch := leases[target].epoch + 1; }
      var lease := Lease(holder, target, epoch, now + ttl);
      leases := leases[target := lease];
      writesLeft := writesLeft - 1;
      return Ok(lease);
    }
  }

  class FakeProvider {
    var services: map<string, Service>
    var fencing: bool
    const idempotency: bool
    var effects: seq<Receipt>
    ghost var causes: seq<Cause>
    var receipts: map<string, Receipt>
    var failRestart: bool
    var failRestore: bool
    var readable: bool

    ghost function Value(): Provider
      reads this
    {
      Provider(services, fencing, idempotency, effects, causes, receipts, failRestart, failRestore, readable)
    }

    /** Everything but the history kept for the specification. */
    function Seen(): Provider
      reads this
    {
      Provider(services, fencing, idempotency, effects, [], receipts, failRestart, failRestore, readable)
    }

    constructor (targets: set<string>, fencing: bool, idempotency: bool)
      requires forall t <- targets :: IsSymbolic(t)
      ensures Value() == Provider(map t <- targets :: Service(true, 0, 0), fencing, idempotency, [], [],
                                  map[], false, false, true)
    {
      services := map t <- targets :: Service(true, 0, 0);
      this.fencing, this.idempotency := fencing, idempotency;
      effects, causes, receipts := [], [], map[];
      failRestart, failRestore, readable := false, false, true;
    }

    method Fence(target: string, epoch: nat) returns (ok: bool)
      requires target in services
      modifies this`services
      ensures ok <==> fencing && epoch >= old(services)[target].epoch
      ensures services == if ok then old(services)[target := old(services)[target].(epoch := epoch)]
                          else old(services)
    {
      ok := fencing && epoch >= services[target].epoch;
      if ok { services := services[target := services[target].(epoch := epoch)]; }
    }

    /** The ghost cause says for whom; `key` and the rest are what the provider sees. */
    method Mutate(target: string, action: Action, epoch: nat, key: string, ghost cause: Cause)
      returns (r: Result<nat, string>)
      requires cause.key == key
      modifies this
      ensures match FailoverModel.Mutate(old(Value()), target, action, epoch, cause)
              case Refused(reason) => r == Err(reason) && Value() == old(Value())
              case Applied(provider, effectId) => r == Ok(effectId) && Value() == provider
    {
      if target !in services || action.OtherAction? {
        return Err("non-fake target or unsupported effect");
      }
      if !fencing || epoch != services[target].epoch {
        return Err("effect-boundary fencing rejected");
      }
      if idempotency && key in receipts { return Ok(receipts[key].effectId); }
      var failing := if action.Restart? then failRestart else failRestore;
      services := services[target := services[target].(generation := services[target].generation + 1,
                                                       healthy := !failing)];
      var receipt := Receipt(target, action, epoch, |effects| + 1);
      effects := effects + [receipt];
      causes := causes + [cause];
      if idempotency { receipts := receipts[key := receipt]; }
      return Ok(receipt.effectId);
    }
  }

  /** A lower-case letter followed by lower-case letters, digits and underscores. */
  predicate IsSymbolic(name: string) {
    && name != [] && 'a' <= name[0] <= 'z'
    && forall c <- name :: 'a' <= c <= 'z' || '0' <= c <= '9' || c == '_'
  }

  class Simulator {
    const journal: Journal
    const provider: FakeProvider
    var now: int
    var capabilities: map<(string, string, Action), Capability>
    var verdicts: map<(string, Action), Verdict>
    var approvals: set<Id>
    var alerts: seq<Alert>

    ghost function Value(): State
      reads this, journal, provider
    {
      State(journal.Value(), provider.Value(), now, capabilities, verdicts, approvals, alerts)
    }

    function Seen(): State
      reads this, journal, provider
    {
      State(journal.Value(), provider.Seen(), now, capabilities, verdicts, approvals, alerts)
    }

    constructor (journal: Journal, provider: FakeProvider, now: int)
      ensures this.journal == journal && this.provider == provider
      ensures Value() == State(journal.Value(), provider.Value(), now, map[], map[], {}, [])
    {
      this.journal, this.provider, this.now := journal, provider, now;
      capabilities, verdicts, approvals, alerts := map[], map[], {}, [];
    }

    function Gates(req: Request): (g: Gate)
      reads this, journal, provider
      ensures g == FailoverModel.Gates(Value(), req)
    {
      FailoverModel.Gates(Seen(), req)
    }

    // -------------------------------------------------------------- controls

    method TakeLease(holder: string, target: string, takeover: bool, ttl: int)
      returns (r: Result<Lease, Error>)
      modifies journal, provider
      ensures Value() == AcquireLease(old(Value()), holder, target, takeover, ttl)
      ensures r.Ok? ==> target in journal.leases && journal.leases[target] == r.value &&
                        target in provider.services && provider.services[target].epoch == r.value.epoch
    {
      if target !in provider.services || !provider.fencing {
        return Err(Unsafe("fencing unavailable"));
      }
      r := journal.Acquire(target, holder, now, takeover, ttl);
      if r.Ok? {
        var ok := provider.Fence(target, r.value.epoch);
        if !ok { r := Err(Unsafe("stale fencing epoch")); }
      }
    }

    method Interfere(c: Control)
      modifies this, journal, provider
      ensures Value() == ApplyControl(old(Value()), c)
    {
      match c
      case TakeLease(holder, target, takeover, ttl) =>
        var _ := TakeLease(holder, target, takeover, ttl);
      case Grant(cap) =>
        if cap.target in provider.services {
          capabilities := capabilities[(cap.holder, cap.target, cap.action) := cap];
        }
      case Decide(v) => verdicts := verdicts[(v.target, v.action) := v];
      case SetApprovals(ids) => approvals := ids;
      case Advance(seconds) => now := now + seconds;
      case ConfigureProvider(fencing, readable, failRestart, failRestore) =>
        provider.fencing, provider.readable := fencing, readable;
        provider.failRestart, provider.failRestore := failRestart, failRestore;
      case SetHealth(target, healthy) =>
        if target in provider.services {
          provider.services := provider.services[target := provider.services[target].(healthy := healthy)];
        }
      case JournalCommits(writesLeft) => journal.writesLeft := writesLeft;
    }

    method InterfereAll(cs: seq<Control>)
      modifies this, journal, provider
      ensures Value() == ApplyControls(old(Value()), cs)
    {
      var i := 0;
      while i < |cs|
        invariant i <= |cs|
        invariant ApplyControls(Value(), cs[i..]) == ApplyControls(old(Value()), cs)
      {
        Interfere(cs[i]);
        i := i + 1;
      }
    }

    // -------------------------------------------------------------- calls

    method Transition(req: Request, state: OpState, providerOp: Option<nat>, reason: string)
      returns (ok: bool)
      modifies this`alerts, journal
      ensures Value() == FailoverModel.Transition(old(Value()), req, state, providerOp, reason).state
      ensures ok <==> FailoverModel.Transition(old(Value()), req, state, providerOp, reason).Running?
    {
      ok := journal.Transition(req.operationId, now, state, Gates(req), providerOp, reason);
      if ok && state.Alerting() { alerts := alerts + [Alert(req.operationId, state, reason)]; }
    }

    method Settle(req: Request, state: OpState, reason: string) returns (outcome: Outcome)
      modifies this`alerts, journal
      ensures Ended(Value(), outcome) == FailoverModel.Settle(old(Value()), req, state, reason)
    {
      hide FailoverModel.Transition;
      SettleEnds(Value(), req, state, reason);
      var ok := Transition(req, state, None, reason);
      return if ok then Returned(state) else Raised(AuditUnavailable);
    }

    method Verify(req: Request, effectId: nat, key: string, otherwise: OpState, good: string, bad: string)
      returns (outcome: Outcome)
      modifies this`alerts, journal
      ensures Ended(Value(), outcome) ==
              FailoverModel.Verify(old(Value()), req, effectId, key, otherwise, good, bad)
    {
      hide FailoverModel.Transition, FailoverModel.Settle;
      TransitionFails(Value(), req, Verifying, Some(effectId), "");
      var ok := Transition(req, Verifying, Some(effectId), "");
      if !ok { return Raised(AuditUnavailable); }
      if !provider.readable { return Raised(Unsafe("fake provider observation unavailable")); }
      if req.target !in provider.services { return Raised(MissingKey); }
      if provider.services[req.target].healthy {
        outcome := Settle(req, Succeeded, good);
      } else {
        outcome := Settle(req, otherwise, bad);
      }
    }

    /** None when the operation is EXECUTING and may go on to its effect. */
    method Dispatch(req: Request, crash: CrashPoint) returns (ended: Option<Outcome>)
      requires req.operationId !in journal.operations
      modifies this`alerts, journal
      ensures var e := FailoverModel.Dispatch(old(Value()), req, crash);
              Value() == e.state && ended == if e.Ended? then Some(e.outcome) else None
    {
      hide FailoverModel.Transition, FailoverModel.Settle, FailoverModel.Gates;
      var generation := 0;
      if req.target in provider.services { generation := provider.services[req.target].generation; }
      var begun := journal.Begin(req, generation, now);
      if !begun { return Some(Raised(AuditUnavailable)); }
      var g := Gates(req);
      if !g.ok {
        var outcome := Settle(req, Stopped, g.reason);
        return Some(outcome);
      }
      if crash.BeforeEffect? { return Some(Raised(Crashed)); }
      TransitionFails(Value(), req, Executing, None, "");
      var ok := Transition(req, Executing, None, "");
      if !ok { return Some(Raised(AuditUnavailable)); }
      if crash.DuringEffect? { return Some(Raised(Crashed)); }
      return None;
    }

    method Effect(req: Request, crash: CrashPoint) returns (outcome: Outcome)
      modifies this`alerts, journal, provider
      ensures Ended(Value(), outcome) == FailoverModel.Effect(old(Value()), req, crash)
    {
      hide FailoverModel.Settle, FailoverModel.Verify, FailoverModel.Gates;
      var g := Gates(req);
      if !g.ok {
        outcome := Settle(req, Stopped, g.reason);
        return;
      }
      if req.target !in journal.leases {
        outcome := Settle(req, Unknown, "lost lease");
        return;
      }
      var lease := journal.leases[req.target];
      var receipt := provider.Mutate(req.target, req.action, lease.epoch, req.operationId,
        Cause(req.operationId, req.operationId, req.actor, false, |journal.events|));
      if receipt.Err? {
        outcome := Settle(req, Stopped, receipt.error);
        return;
      }
      if crash.AfterEffect? { return Raised(Crashed); }
      outcome := Verify(req, receipt.value, req.operationId, Unknown, "", "health failed after effect");
    }

    method Run(req: Request, crash: CrashPoint, between: seq<Control>) returns (outcome: Outcome)
      modifies this, journal, provider
      ensures Ended(Value(), outcome) == FailoverModel.Run(old(Value()), req, crash, between)
    {
      hide FailoverModel.Dispatch, FailoverModel.Effect;
      if req.operationId in journal.operations {
        return Raised(Unsafe("duplicate operation ID; reconcile instead"));
      }
      var ended := Dispatch(req, crash);
      if ended.Some? { return ended.value; }
      InterfereAll(between);
      outcome := Effect(req, crash);
    }

    method Reconcile(req: Request, retry: bool) returns (outcome: Outcome)
      modifies this`alerts, journal, provider
      ensures Ended(Value(), outcome) == FailoverModel.Reconcile(old(Value()), req, retry)
    {
      hide FailoverModel.Transition, FailoverModel.Settle, FailoverModel.Redispatch;
      var id := req.operationId;
      if id !in journal.operations { return Raised(Unsafe("nothing to reconcile")); }
      var row := journal.operations[id];
      if row.state.Terminal() { return Returned(row.state); }
      if !SameIntent(row, req) {
        return Raised(Unsafe("reconciliation request conflicts with durable intent"));
      }
      if !provider.readable {
        outcome := Settle(req, Unknown, "fake provider observation unavailable");
        return;
      }
      if req.target !in provider.services { return Raised(MissingKey); }
      var healthy := provider.services[req.target].healthy;
      if id in provider.receipts {
        var effectId := provider.receipts[id].effectId;
        TransitionFails(Value(), req, Verifying, Some(effectId), "");
        var ok := Transition(req, Verifying, Some(effectId), "");
        if !ok { return Raised(AuditUnavailable); }
        if healthy {
          outcome := Settle(req, Succeeded, "");
        } else {
          outcome := Settle(req, Unknown, "observed unhealthy service");
        }
        return;
      }
      if !retry || !provider.idempotency || !provider.fencing {
        outcome := Settle(req, Unknown, "effect not provably absent");
        return;
      }
      outcome := Redispatch(req);
    }

    method Redispatch(req: Request) returns (outcome: Outcome)
      modifies this`alerts, journal, provider
      ensures Ended(Value(), outcome) == FailoverModel.Redispatch(old(Value()), req)
    {
      hide FailoverModel.Transition, FailoverModel.Settle, FailoverModel.Verify, FailoverModel.Gates;
      var g := Gates(req);
      if !g.ok {
        outcome := Settle(req, Stopped, g.reason);
        return;
      }
      TransitionFails(Value(), req, Executing, None, "safe idempotent re-dispatch");
      var ok := Transition(req, Executing, None, "safe idempotent re-dispatch");
      if !ok { return Raised(AuditUnavailable); }
      if req.target !in journal.leases {
        outcome := Settle(req, Unknown, "lease vanished");
        return;
      }
      var receipt := provider.Mutate(req.target, req.action, journal.leases[req.target].epoch, req.operationId,
        Cause(req.operationId, req.operationId, req.actor, false, |journal.events|));
      if receipt.Err? { return Raised(Unsafe(receipt.error)); }
      outcome := Verify(req, receipt.value, req.operationId, Unknown, "provider health verified", "effect unhealthy");
    }

    method Compensate(req: Request) returns (outcome: Outcome)
      modifies this`alerts, journal, provider
      ensures Ended(Value(), outcome) == FailoverModel.Compensate(old(Value()), req)
    {
      hide FailoverModel.Transition, FailoverModel.Settle, FailoverModel.Verify, FailoverModel.Gates;
      var id := req.operationId;
      if id !in journal.operations
         || !(journal.operations[id].state.Unknown? || journal.operations[id].state.Recovering?) {
        return Raised(Unsafe("compensation requires an unresolved operation"));
      }
      if !SameIntent(journal.operations[id], req) {
        return Raised(Unsafe("compensation request conflicts with durable intent"));
      }
      var g := Gates(req.(action := Restore));
      if !g.ok {
        outcome := Settle(req, RecoveryBlocked, g.reason);
        return;
      }
      TransitionFails(Value(), req, Recovering, None, "approved distinct restore effect");
      var ok := Transition(req, Recovering, None, "approved distinct restore effect");
      if !ok { return Raised(AuditUnavailable); }
      if req.target !in journal.leases {
        outcome := Settle(req, RecoveryBlocked, "lease missing");
        return;
      }
      var key := CompensationKey(id);
      var receipt := provider.Mutate(req.target, Restore, journal.leases[req.target].epoch, key,
        Cause(key, id, req.actor, true, |journal.events|));
      if receipt.Err? {
        outcome := Settle(req, RecoveryFailed, receipt.error);
        return;
      }
      outcome := Verify(req, receipt.value, key, RecoveryFailed, "restored health verified",
                        "compensation health check failed");
    }
  }

  /** The only way a transition ends a call is by failing, and then nothing has changed. */
  lemma TransitionFails(s: State, req: Request, state: OpState, providerOp: Option<nat>, reason: string)
    ensures var e := FailoverModel.Transition(s, req, state, providerOp, reason);
            e.Running? || e == Ended(s, Raised(AuditUnavailable))
  {
    hide Gates;
  }

  lemma SettleEnds(s: State, req: Request, state: OpState, reason: string)
    ensures FailoverModel.Settle(s, req, state, reason) ==
            var e := FailoverModel.Transition(s, req, state, None, reason);
            Ended(e.state, if e.Running? then Returned(state) else Raised(AuditUnavailable))
  {
    hide Gates;
  }
}
