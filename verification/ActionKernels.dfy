/** The action kernel as an object, and the broker that hands its receipts on to the bridge. */
module ActionKernels {
  import opened Wrappers
  import opened KernelModel
  import opened KernelGuarantees

  // ---------------------------------------------------------------- one call by itself

  /** The steps a call may still take before it has its receipt. */
  function Rank(pc: Pc): nat {
    match pc
    case AuditRequest => 8
    case EvaluatePolicy => 7
    case AuditPolicy(_) => 6
    case CheckExpiry(_) => 5
    case Reserve(_) => 4
    case Gather(_) => 3
    case AuditExecution(_, _) => 2
    case AuditEvidence(_, _) => 1
    case AuditDenial(_) => 1
    case Finished(_) => 0
    case Handed(_, _) => 0
  }

  /** The kernel, and the number of outside readings used. */
  datatype Progress = Progress(kernel: Kernel, turns: nat)

  lemma TurnAdvances(cfg: Config, used: set<string>, t: Thread, i: nat, input: Input)
    requires Rank(t.pc) > 0
    ensures Rank(Turn(cfg, used, t, i, input).thread.pc) < Rank(t.pc)
  {
    hide Policy, StatusOf;
  }

  /** Call `i` takes its steps, and no other does, until it has its receipt. */
  function Complete(cfg: Config, k: Kernel, i: nat, inputs: nat -> Input, turns: nat): Progress
    requires i < |k.threads|
    decreases Rank(k.threads[i].pc)
  {
    if Rank(k.threads[i].pc) == 0 then Progress(k, turns)
    else
      TurnAdvances(cfg, k.used, k.threads[i], i, inputs(turns));
      Complete(cfg, Step(cfg, k, Go(i, inputs(turns))), i, inputs, turns + 1)
  }

  /** An uninterrupted call is one of the interleavings, so every guarantee about those holds of it. */
  lemma {:induction false} CompleteIsARun(cfg: Config, actions: seq<Action>, i: nat, inputs: nat -> Input, turns: nat)
    returns (more: seq<Action>)
    requires i < |Run(cfg, actions).threads|
    ensures Run(cfg, actions + more) == Complete(cfg, Run(cfg, actions), i, inputs, turns).kernel
    ensures i < |Run(cfg, actions + more).threads| && HasReceipt(Run(cfg, actions + more).threads[i])
    decreases Rank(Run(cfg, actions).threads[i].pc)
  {
    hide Turn;
    var k := Run(cfg, actions);
    if Rank(k.threads[i].pc) == 0 {
      more := [];
      assert actions + more == actions;
    } else {
      TurnAdvances(cfg, k.used, k.threads[i], i, inputs(turns));
      var a := Go(i, inputs(turns));
      assert (actions + [a])[..|actions|] == actions;
      var rest := CompleteIsARun(cfg, actions + [a], i, inputs, turns + 1);
      more := [a] + rest;
      assert actions + more == actions + [a] + rest;
    }
  }

  // ---------------------------------------------------------------- the kernel

  class ActionKernel {
    const cfg: Config
    /** What the clock, the audit sink and the evidence size are, reading by reading. */
    const inputs: nat -> Input
    var turns: nat
    var used: set<string>
    var log: seq<Record>
    var threads: seq<Thread>

    constructor (cfg: Config, inputs: nat -> Input)
      ensures this.cfg == cfg && this.inputs == inputs && Value() == EMPTY && turns == 0
    {
      this.cfg, this.inputs := cfg, inputs;
      turns, used, log, threads := 0, {}, [], [];
    }

    ghost function Value(): Kernel
      reads this
    {
      Kernel(used, threads, log)
    }

    method Read() returns (input: Input)
      modifies this`turns
      ensures input == inputs(old(turns)) && turns == old(turns) + 1
    {
      input := inputs(turns);
      turns := turns + 1;
    }

    /** Offer an event to the sink; true when it took it. */
    method Audit(record: Record) returns (ok: bool)
      modifies this`turns, this`log
      ensures turns == old(turns) + 1 && (ok <==> inputs(old(turns)).sink.Accepts?)
      ensures log == old(log) + if inputs(old(turns)).sink.Raises? then [] else [record]
    {
      var input := Read();
      ok := input.sink.Accepts?;
      if !input.sink.Raises? {
        log := log + [record];
      }
    }

    /** Reserve a task id unless it is taken. */
    method ReserveTaskId(taskId: string) returns (ok: bool)
      modifies this`turns, this`used
      ensures turns == old(turns) + 1 && (ok <==> taskId !in old(used))
      ensures used == old(used) + {taskId}
    {
      var _ := Read();
      ok := taskId !in used;
      used := used + {taskId};
    }

    method Execute(request: Request, actor: string) returns (receipt: Receipt)
      modifies this
      ensures Progress(Value(), turns) ==
              Complete(cfg, Step(cfg, old(Value()), Arrive(request, actor)), |old(threads)|, inputs, old(turns))
      ensures |threads| == |old(threads)| + 1 && threads[|old(threads)|].pc == Finished(receipt)
    {
      hide Policy, Complete;
      var i := |threads|;
      var t := Arrival(cfg, request, actor);
      threads := threads + [t];
      ghost var k, n := Value(), turns;
      if !cfg.audited {
        CompleteStops(cfg, k, i, inputs, turns);
        return t.pc.receipt;
      }

      var ok := Audit(Requested(i));
      if !ok {
        receipt := Receipt(Failed, "AUDIT_FAILED", Deny("AUDIT_FAILED"), None);
        Finish(i, receipt, k, n);
        return;
      }
      threads := threads[i := t.(pc := EvaluatePolicy)];
      Moves(cfg, k, i, inputs, n, Value());
      k, n := Value(), turns;

      var input := Read();
      var verdict := Policy(cfg, request, actor, input.now, used);
      threads := threads[i := t.(pc := AuditPolicy(verdict))];
      Moves(cfg, k, i, inputs, n, Value());
      k, n := Value(), turns;

      ok := Audit(Judged(i, verdict));
      if !ok {
        receipt := Receipt(Failed, "AUDIT_FAILED", verdict, None);
        Finish(i, receipt, k, n);
        return;
      }
      if !verdict.allow {
        receipt := Receipt(Denied, verdict.reason, verdict, None);
        Finish(i, receipt, k, n);
        return;
      }
      threads := threads[i := t.(pc := CheckExpiry(verdict))];
      Moves(cfg, k, i, inputs, n, Value());
      receipt := Revalidate(i, verdict);
    }

    /** Check the expiry again and reserve the id, just before the dispatch. */
    method Revalidate(i: nat, verdict: Verdict) returns (receipt: Receipt)
      requires i < |threads| && threads[i].pc == CheckExpiry(verdict)
      modifies this
      ensures Progress(Value(), turns) == Complete(cfg, old(Value()), i, inputs, old(turns))
      ensures |threads| == |old(threads)| && threads[i].pc == Finished(receipt)
    {
      hide Complete;
      ghost var k, n := Value(), turns;
      var t := threads[i];
      var input := Read();
      if t.request.expiresAt <= input.now {
        threads := threads[i := t.(pc := AuditDenial("EXPIRED"))];
        Moves(cfg, k, i, inputs, n, Value());
        receipt := Refused(i, "EXPIRED");
        return;
      }
      t := t.(pc := Reserve(verdict), checkedAt := Some(input.now));
      threads := threads[i := t];
      Moves(cfg, k, i, inputs, n, Value());
      k, n := Value(), turns;

      var ok := ReserveTaskId(t.request.taskId);
      if !ok {
        threads := threads[i := t.(pc := AuditDenial("DUPLICATE"))];
        assert used == k.used;
        Moves(cfg, k, i, inputs, n, Value());
        receipt := Refused(i, "DUPLICATE");
        return;
      }
      threads := threads[i := t.(pc := Gather(verdict), holds := true)];
      Moves(cfg, k, i, inputs, n, Value());
      receipt := Dispatch(i, verdict);
    }

    /** Record that the dispatch is denied after all. */
    method Refused(i: nat, reason: string) returns (receipt: Receipt)
      requires i < |threads| && threads[i].pc == AuditDenial(reason)
      modifies this
      ensures Progress(Value(), turns) == Complete(cfg, old(Value()), i, inputs, old(turns))
      ensures |threads| == |old(threads)| && threads[i].pc == Finished(receipt)
    {
      hide Complete;
      ghost var k, n := Value(), turns;
      var ok := Audit(Record(i, ExecutionStage, "DENIED", reason, None));
      receipt := if ok then Receipt(Denied, reason, Deny(reason), None)
                 else Receipt(Failed, "AUDIT_FAILED", Deny(reason), None);
      Finish(i, receipt, k, n);
    }

    /** The synthetic dispatch: the id is reserved, and stays so whatever happens. */
    method Dispatch(i: nat, verdict: Verdict) returns (receipt: Receipt)
      requires i < |threads| && threads[i].pc == Gather(verdict)
      modifies this
      ensures Progress(Value(), turns) == Complete(cfg, old(Value()), i, inputs, old(turns))
      ensures |threads| == |old(threads)| && threads[i].pc == Finished(receipt)
    {
      hide Complete, StatusOf;
      ghost var k, n := Value(), turns;
      var t := threads[i];
      var input := Read();
      if input.evidenceBytes > cfg.maxEvidenceBytes {
        receipt := Receipt(Failed, "EVIDENCE_OVERSIZED", verdict, None);
        Finish(i, receipt, k, n);
        return;
      }
      var evidence := Evidence(t.request.targetId, StatusOf(cfg, t.request.targetId));
      threads := threads[i := t.(pc := AuditExecution(verdict, evidence))];
      Moves(cfg, k, i, inputs, n, Value());
      k, n := Value(), turns;

      var ok := Audit(Completed(i));
      if !ok {
        receipt := Receipt(Failed, "AUDIT_FAILED", verdict, None);
        Finish(i, receipt, k, n);
        return;
      }
      threads := threads[i := t.(pc := AuditEvidence(verdict, evidence))];
      Moves(cfg, k, i, inputs, n, Value());
      k, n := Value(), turns;

      ok := Audit(Hashed(i, evidence));
      receipt := if ok then Receipt(Executed, "SYNTHETIC_ONLY", verdict, Some(evidence))
                 else Receipt(Failed, "AUDIT_FAILED", verdict, None);
      Finish(i, receipt, k, n);
    }

    /** Give call `i` its receipt, which is where its step from `k` leads. */
    method Finish(i: nat, receipt: Receipt, ghost k: Kernel, ghost n: nat)
      requires i < |threads| && k.threads == threads && turns == n + 1 && Rank(threads[i].pc) > 0
      requires Step(cfg, k, Go(i, inputs(n))) == Kernel(used, threads[i := threads[i].(pc := Finished(receipt))], log)
      modifies this`threads
      ensures threads == old(threads)[i := old(threads)[i].(pc := Finished(receipt))]
      ensures Progress(Value(), turns) == Complete(cfg, k, i, inputs, n)
    {
      hide Step, Turn, Complete;
      threads := threads[i := threads[i].(pc := Finished(receipt))];
      Moves(cfg, k, i, inputs, n, Value());
      CompleteStops(cfg, Value(), i, inputs, turns);
    }
  }

  lemma CompleteStops(cfg: Config, k: Kernel, i: nat, inputs: nat -> Input, turns: nat)
    requires i < |k.threads| && Rank(k.threads[i].pc) == 0
    ensures Complete(cfg, k, i, inputs, turns) == Progress(k, turns)
  {
  }

  lemma Moves(cfg: Config, k: Kernel, i: nat, inputs: nat -> Input, turns: nat, k': Kernel)
    requires i < |k.threads| && Rank(k.threads[i].pc) > 0 && k' == Step(cfg, k, Go(i, inputs(turns)))
    ensures Complete(cfg, k, i, inputs, turns) == Complete(cfg, k', i, inputs, turns + 1)
  {
    hide Turn;
    TurnAdvances(cfg, k.used, k.threads[i], i, inputs(turns));
  }
}
