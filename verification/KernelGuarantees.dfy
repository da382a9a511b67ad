/** What every interleaving keeps, and what follows for receipts, audit records and dispatches. */
module KernelGuarantees {
  import opened Wrappers
  import opened KernelModel
  import opened KernelPolicy

  // ---------------------------------------------------------------- one call

  predicate IsCompleted(r: Record) { r.stage.ExecutionStage? && r.outcome == "COMPLETED" }

  /** What is known of a receipt or of a verdict once the call passed its expiry check. */
  predicate Cleared(cfg: Config, t: Thread, v: Verdict) {
    && v == Verdict(true, "READ_ONLY_ALLOWED") && Permitted(cfg, t.request, t.actor)
    && t.checkedAt.Some? && t.checkedAt.value < t.request.expiresAt
  }

  /** The records of a call agree with where it stands. */
  predicate ThreadGood(cfg: Config, t: Thread, i: nat, trail: seq<Record>) {
    match t.pc
    case AuditRequest => !t.holds && trail == []
    case EvaluatePolicy => !t.holds && trail == [Requested(i)]
    case AuditPolicy(v) => !t.holds && trail == [Requested(i)] && PolicyAllowed(cfg, t, v)
    case CheckExpiry(v) => !t.holds && trail == [Requested(i), Judged(i, v)] && v.allow && PolicyAllowed(cfg, t, v)
    case Reserve(v) => !t.holds && trail == [Requested(i), Judged(i, v)] && Cleared(cfg, t, v)
    case AuditDenial(_) => !t.holds && |trail| == 2 && trail[0] == Requested(i) && trail[1].stage.PolicyStage?
    case Gather(v) => t.holds && trail == [Requested(i), Judged(i, v)] && Cleared(cfg, t, v)
    case AuditExecution(v, e) =>
      t.holds && trail == [Requested(i), Judged(i, v)] && Cleared(cfg, t, v) && Genuine(cfg, t, e)
    case AuditEvidence(v, e) =>
      t.holds && trail == [Requested(i), Judged(i, v), Completed(i)] && Cleared(cfg, t, v) && Genuine(cfg, t, e)
    case Finished(r) => ReceiptGood(cfg, t, i, trail, r)
    case Handed(r, _) => r.status.Executed? && ReceiptGood(cfg, t, i, trail, r)
  }

  predicate PolicyAllowed(cfg: Config, t: Thread, v: Verdict) {
    v.allow ==> v.reason == "READ_ONLY_ALLOWED" && Permitted(cfg, t.request, t.actor)
  }

  predicate Genuine(cfg: Config, t: Thread, e: Evidence) {
    e == Evidence(t.request.targetId, StatusOf(cfg, t.request.targetId))
  }

  predicate ReceiptGood(cfg: Config, t: Thread, i: nat, trail: seq<Record>, r: Receipt) {
    && (r.status.Executed? ==>
          && t.holds && Cleared(cfg, t, r.verdict) && r.evidence.Some? && Genuine(cfg, t, r.evidence.value)
          && trail == [Requested(i), Judged(i, r.verdict), Completed(i), Hashed(i, r.evidence.value)])
    && (forall a | 0 <= a < |trail| && IsCompleted(trail[a]) :: a == 2 && t.holds)
  }

  lemma TurnReserves(cfg: Config, used: set<string>, t: Thread, i: nat, input: Input)
    requires t.holds ==> !t.pc.Reserve?
    ensures var s := Turn(cfg, used, t, i, input);
            && s.thread.request == t.request && s.thread.actor == t.actor
            && (s.reserves <==> s.thread.holds && !t.holds) && (t.holds ==> s.thread.holds)
            && (s.reserves ==> t.request.taskId !in used)
            && (forall r <- s.records :: r.thread == i) && |s.records| <= 1
  {
    hide Policy, PolicyOfTarget, StatusOf;
  }

  lemma AllowedReason(cfg: Config, r: Request, actor: string, now: int, used: set<string>)
    requires Policy(cfg, r, actor, now, used).allow
    ensures Policy(cfg, r, actor, now, used).reason == "READ_ONLY_ALLOWED"
  {
  }

  lemma BeforeReservation(cfg: Config, used: set<string>, t: Thread, i: nat, input: Input, trail: seq<Record>)
    requires ThreadGood(cfg, t, i, trail)
    requires t.pc.AuditRequest? || t.pc.EvaluatePolicy? || t.pc.AuditPolicy? || t.pc.CheckExpiry?
    ensures var s := Turn(cfg, used, t, i, input); ThreadGood(cfg, s.thread, i, trail + s.records)
  {
    hide Policy, PolicyOfTarget, StatusOf, Permitted;
    if t.pc.EvaluatePolicy? && Policy(cfg, t.request, t.actor, input.now, used).allow {
      PolicyMeans(cfg, t.request, t.actor, input.now, used);
      AllowedReason(cfg, t.request, t.actor, input.now, used);
    }
  }

  lemma AfterReservation(cfg: Config, used: set<string>, t: Thread, i: nat, input: Input, trail: seq<Record>)
    requires ThreadGood(cfg, t, i, trail)
    requires t.pc.Reserve? || t.pc.AuditDenial? || t.pc.Gather? || t.pc.AuditExecution?
    ensures var s := Turn(cfg, used, t, i, input); ThreadGood(cfg, s.thread, i, trail + s.records)
  {
    hide Policy, PolicyOfTarget, StatusOf, Permitted;
  }

  lemma AtTheEnd(cfg: Config, used: set<string>, t: Thread, i: nat, input: Input, trail: seq<Record>)
    requires ThreadGood(cfg, t, i, trail)
    requires t.pc.AuditEvidence? || t.pc.Finished? || t.pc.Handed?
    ensures var s := Turn(cfg, used, t, i, input); ThreadGood(cfg, s.thread, i, trail + s.records)
  {
    hide Policy, PolicyOfTarget, StatusOf, Permitted;
    assert trail + [] == trail;
  }

  lemma TurnKeepsThread(cfg: Config, used: set<string>, t: Thread, i: nat, input: Input, trail: seq<Record>)
    requires ThreadGood(cfg, t, i, trail)
    ensures var s := Turn(cfg, used, t, i, input); ThreadGood(cfg, s.thread, i, trail + s.records)
  {
    hide Turn, ThreadGood;
    if t.pc.AuditRequest? || t.pc.EvaluatePolicy? || t.pc.AuditPolicy? || t.pc.CheckExpiry? {
      BeforeReservation(cfg, used, t, i, input, trail);
    } else if t.pc.AuditEvidence? || t.pc.Finished? || t.pc.Handed? {
      AtTheEnd(cfg, used, t, i, input, trail);
    } else {
      AfterReservation(cfg, used, t, i, input, trail);
    }
  }

  lemma HolderHasReserved(cfg: Config, t: Thread, i: nat, trail: seq<Record>)
    requires ThreadGood(cfg, t, i, trail)
    ensures t.holds ==> !t.pc.Reserve?
  {
  }

  // ---------------------------------------------------------------- all calls

  ghost predicate Inv(cfg: Config, k: Kernel) {
    && (forall i | 0 <= i < |k.threads| :: ThreadGood(cfg, k.threads[i], i, Trail(k.log, i)))
    && (forall i | 0 <= i < |k.threads| && k.threads[i].holds :: k.threads[i].request.taskId in k.used)
    && (forall id <- k.used :: exists i: nat | i < |k.threads| :: k.threads[i].holds && k.threads[i].request.taskId == id)
    && (forall i, j | 0 <= i < |k.threads| && 0 <= j < |k.threads| && k.threads[i].holds && k.threads[j].holds &&
                      k.threads[i].request.taskId == k.threads[j].request.taskId :: i == j)
    && (forall r <- k.log :: r.thread < |k.threads|)
  }

  lemma {:induction false} TrailAppend(log: seq<Record>, more: seq<Record>, i: nat)
    requires |more| <= 1
    ensures (forall r <- more :: r.thread == i) ==> Trail(log + more, i) == Trail(log, i) + more
    ensures (forall r <- more :: r.thread != i) ==> Trail(log + more, i) == Trail(log, i)
  {
    if more == [] {
      assert log + more == log;
    } else {
      assert (log + more)[..|log|] == log;
    }
  }

  lemma {:induction false} NoTrail(log: seq<Record>, i: nat)
    requires forall r <- log :: r.thread != i
    ensures Trail(log, i) == []
  {
    if log != [] {
      NoTrail(log[..|log| - 1], i);
      assert log[|log| - 1] in log;
    }
  }

  lemma ArrivalGood(cfg: Config, r: Request, actor: string, i: nat)
    ensures ThreadGood(cfg, Arrival(cfg, r, actor), i, []) && !Arrival(cfg, r, actor).holds
  {
  }

  lemma ArriveKeeps(cfg: Config, k: Kernel, r: Request, actor: string)
    requires Inv(cfg, k)
    ensures Inv(cfg, Step(cfg, k, Arrive(r, actor)))
  {
    hide ThreadGood, Trail, Arrival;
    var k' := Step(cfg, k, Arrive(r, actor));
    var n := |k.threads|;
    NoTrail(k.log, n);
    ArrivalGood(cfg, r, actor, n);
    forall i | 0 <= i < |k'.threads| ensures ThreadGood(cfg, k'.threads[i], i, Trail(k'.log, i)) {
      if i < n {
        assert k'.threads[i] == k.threads[i];
      }
    }
    forall id <- k'.used
      ensures exists i: nat | i < |k'.threads| :: k'.threads[i].holds && k'.threads[i].request.taskId == id
    {
      var i: nat :| i < n && k.threads[i].holds && k.threads[i].request.taskId == id;
      assert k'.threads[i] == k.threads[i];
    }
  }

  lemma GoKeeps(cfg: Config, k: Kernel, i: nat, input: Input)
    requires Inv(cfg, k) && i < |k.threads|
    ensures Inv(cfg, Step(cfg, k, Go(i, input)))
  {
    hide Turn, ThreadGood, Trail;
    var k' := Step(cfg, k, Go(i, input));
    var s := Turn(cfg, k.used, k.threads[i], i, input);
    TurnKeepsThread(cfg, k.used, k.threads[i], i, input, Trail(k.log, i));
    HolderHasReserved(cfg, k.threads[i], i, Trail(k.log, i));
    TurnReserves(cfg, k.used, k.threads[i], i, input);
    forall j | 0 <= j < |k'.threads| ensures ThreadGood(cfg, k'.threads[j], j, Trail(k'.log, j)) {
      TrailAppend(k.log, s.records, j);
    }
    forall id <- k'.used
      ensures exists j: nat | j < |k'.threads| :: k'.threads[j].holds && k'.threads[j].request.taskId == id
    {
      if id in k.used {
        var j: nat :| j < |k.threads| && k.threads[j].holds && k.threads[j].request.taskId == id;
        assert k'.threads[j].holds;
      } else {
        assert k'.threads[i].holds;
      }
    }
  }

  lemma {:induction false} RunInv(cfg: Config, actions: seq<Action>)
    ensures Inv(cfg, Run(cfg, actions))
  {
    hide Inv, Step;
    if actions == [] {
      EmptyInv(cfg);
    } else {
      var k, a := Run(cfg, actions[..|actions| - 1]), actions[|actions| - 1];
      RunInv(cfg, actions[..|actions| - 1]);
      match a
      case Arrive(r, actor) => ArriveKeeps(cfg, k, r, actor);
      case Go(i, input) =>
        if i < |k.threads| {
          GoKeeps(cfg, k, i, input);
        } else {
          OutOfRange(cfg, k, i, input);
        }
    }
  }

  lemma EmptyInv(cfg: Config)
    ensures Inv(cfg, EMPTY)
  {
  }

  lemma OutOfRange(cfg: Config, k: Kernel, i: nat, input: Input)
    requires i >= |k.threads|
    ensures Step(cfg, k, Go(i, input)) == k
  {
  }

  // ---------------------------------------------------------------- guarantees

  predicate HasReceipt(t: Thread) { t.pc.Finished? || t.pc.Handed? }

  predicate IsExecuted(t: Thread) { HasReceipt(t) && t.pc.receipt.status.Executed? }

  /** However the calls interleave, one task id gets at most one EXECUTED receipt. */
  lemma AtMostOneExecuted(cfg: Config, actions: seq<Action>, i: nat, j: nat)
    requires var k := Run(cfg, actions); i < |k.threads| && j < |k.threads|
    requires var k := Run(cfg, actions); IsExecuted(k.threads[i]) && IsExecuted(k.threads[j])
    requires var k := Run(cfg, actions); k.threads[i].request.taskId == k.threads[j].request.taskId
    ensures i == j
  {
    hide Run, Trail;
    RunInv(cfg, actions);
  }

  /**
   An EXECUTED receipt was permitted: the caller is listed and its own actor, a capability of that name
   lists the target for reading, and so on. It has its four audit records, in order, and no others; the
   expiry check passed; and its evidence is the inventory status of the very target that was asked for.
   */
  lemma ExecutedIsAudited(cfg: Config, actions: seq<Action>, i: nat)
    requires i < |Run(cfg, actions).threads| && IsExecuted(Run(cfg, actions).threads[i])
    ensures var k := Run(cfg, actions); var t := k.threads[i]; var r := t.pc.receipt;
            && r.verdict == Verdict(true, "READ_ONLY_ALLOWED") && Permitted(cfg, t.request, t.actor)
            && t.checkedAt.Some? && t.checkedAt.value < t.request.expiresAt
            && r.evidence == Some(Evidence(t.request.targetId, cfg.targets[t.request.targetId]["synthetic_status"]))
            && Trail(k.log, i) == [Requested(i), Judged(i, r.verdict), Completed(i), Hashed(i, r.evidence.value)]
  {
    hide Run, Trail;
    RunInv(cfg, actions);
  }

  /** The broker hands at most one receipt of a task on to a dispatch, even if every replay guard says yes. */
  lemma AtMostOneDispatch(cfg: Config, actions: seq<Action>, i: nat, j: nat)
    requires var k := Run(cfg, actions); i < |k.threads| && j < |k.threads|
    requires var k := Run(cfg, actions); k.threads[i].pc.Handed? && k.threads[i].pc.dispatched
    requires var k := Run(cfg, actions); k.threads[j].pc.Handed? && k.threads[j].pc.dispatched
    requires var k := Run(cfg, actions); k.threads[i].request.taskId == k.threads[j].request.taskId
    ensures i == j
  {
    hide Run, Trail;
    RunInv(cfg, actions);
    AtMostOneExecuted(cfg, actions, i, j);
  }

  /** The position in the trail of `i` of the record at `a` in the log. */
  lemma {:induction false} InTrail(log: seq<Record>, i: nat, a: nat) returns (p: nat)
    requires a < |log| && log[a].thread == i
    ensures p < |Trail(log, i)| && Trail(log, i)[p] == log[a] && p == |Trail(log[..a], i)|
  {
    if a == |log| - 1 {
      p := |Trail(log[..a], i)|;
    } else {
      p := InTrail(log[..|log| - 1], i, a);
      assert log[..|log| - 1][..a] == log[..a];
    }
  }

  lemma {:induction false} TrailGrows(log: seq<Record>, i: nat, a: nat)
    requires a <= |log|
    ensures |Trail(log[..a], i)| <= |Trail(log, i)|
  {
    if a < |log| {
      TrailGrows(log[..|log| - 1], i, a);
      assert log[..|log| - 1][..a] == log[..a];
    } else {
      assert log[..a] == log;
    }
  }

  lemma {:induction false} OrderKept(log: seq<Record>, i: nat, a: nat, b: nat)
    requires a < b < |log| && log[a].thread == i
    ensures |Trail(log[..a], i)| < |Trail(log[..b], i)|
  {
    var prefix := log[..a + 1];
    assert prefix[..a] == log[..a];
    TrailGrows(log[..b], i, a + 1);
    assert log[..b][..a + 1] == prefix;
  }

  /** Of each call, at most one record says that the execution completed, and the call then holds its task id. */
  lemma CompletedOnceByHolder(cfg: Config, k: Kernel, a: nat)
    requires Inv(cfg, k) && a < |k.log| && IsCompleted(k.log[a])
    ensures k.log[a].thread < |k.threads| && k.threads[k.log[a].thread].holds
    ensures |Trail(k.log[..a], k.log[a].thread)| == 2
  {
    hide Trail;
    var i := k.log[a].thread;
    assert k.log[a] in k.log;
    var p := InTrail(k.log, i, a);
    assert ThreadGood(cfg, k.threads[i], i, Trail(k.log, i));
  }

  /** The sink never holds two records that the execution of one task completed. */
  lemma AtMostOneCompletion(cfg: Config, actions: seq<Action>, a: nat, b: nat)
    requires var k := Run(cfg, actions); a < |k.log| && b < |k.log| && IsCompleted(k.log[a]) && IsCompleted(k.log[b])
    requires var k := Run(cfg, actions); k.log[a].thread < |k.threads| && k.log[b].thread < |k.threads|
    requires var k := Run(cfg, actions);
             k.threads[k.log[a].thread].request.taskId == k.threads[k.log[b].thread].request.taskId
    ensures a == b
  {
    hide Run, Trail, ThreadGood;
    RunInv(cfg, actions);
    var k := Run(cfg, actions);
    CompletedOnceByHolder(cfg, k, a);
    CompletedOnceByHolder(cfg, k, b);
    if a < b {
      OrderKept(k.log, k.log[a].thread, a, b);
    } else if b < a {
      OrderKept(k.log, k.log[a].thread, b, a);
    }
  }

  /** A reserved id belongs to exactly one call, so a refusal as a duplicate names a real other call. */
  lemma ReservationsHaveOneHolder(cfg: Config, actions: seq<Action>, id: string)
    requires id in Run(cfg, actions).used
    ensures var k := Run(cfg, actions);
            exists i: nat | i < |k.threads| :: k.threads[i].holds && k.threads[i].request.taskId == id &&
              forall j: nat | j < |k.threads| && k.threads[j].holds && k.threads[j].request.taskId == id :: j == i
  {
    hide Run, ThreadGood, Trail;
    RunInv(cfg, actions);
  }
}
