/** The broker: one kernel evaluation, and for an EXECUTED receipt one hand-over to the Hive bridge. */
module TrustedBroker {
  import opened Wrappers
  import opened KernelModel
  import opened KernelPolicy
  import opened KernelGuarantees
  import opened KernelOutcomes
  import opened ActionKernels
  import ClaimTable
  import ReplayGuards
  import HiveBridge
  import HiveBridgeRunner
  import HiveOutcomes

  datatype BrokerResult =
    | ActorMismatch
    | NotExecuted(receipt: Receipt)
    | BridgeRefused(verdict: HiveBridge.Verdict)
    | DryRun

  /** What the bridge is given for an executed request. */
  function BridgeCall(r: Request, actor: string, receipt: Receipt, completedAt: real, env: HiveBridge.Env): HiveBridge.Call {
    HiveBridge.Call(
      HiveBridge.Task(r.taskId, r.correlationId, r.capability, r.targetId, r.requestedAt as real, r.expiresAt as real),
      actor,
      HiveBridge.Receipt(receipt.status.Executed?, receipt.verdict.allow, r.taskId, r.correlationId, actor, r.capability,
                         r.targetId, Some(r.expiresAt as real), completedAt),
      env)
  }

  /** The kernel after an uninterrupted evaluation of a new request. */
  function Evaluated(cfg: Config, k: Kernel, r: Request, actor: string, inputs: nat -> Input, turns: nat): Kernel {
    Complete(cfg, Step(cfg, k, Arrive(r, actor)), |k.threads|, inputs, turns).kernel
  }

  class TrustedLocalHiveBroker {
    const kernel: ActionKernel
    const guard: ReplayGuards.ExpiringProcessReplayGuard

    constructor (kernel: ActionKernel, guard: ReplayGuards.ExpiringProcessReplayGuard)
      ensures this.kernel == kernel && this.guard == guard
    {
      this.kernel, this.guard := kernel, guard;
    }

    method Execute(r: Request, actor: string, completedAt: real, env: HiveBridge.Env)
      returns (result: BrokerResult, dispatched: bool)
      modifies kernel, guard
      ensures result.ActorMismatch? <==> actor == "" || r.actor != actor
      ensures result.ActorMismatch? ==>
                !dispatched && kernel.Value() == old(kernel.Value()) && guard.claimedUntil == old(guard.claimedUntil)
      ensures !result.ActorMismatch? ==>
                var i, k := |old(kernel.threads)|,
                            Evaluated(kernel.cfg, old(kernel.Value()), r, actor, kernel.inputs, old(kernel.turns));
                && i < |k.threads| && k.threads[i].pc.Finished?
                && var receipt := k.threads[i].pc.receipt;
                   if !receipt.status.Executed? || !receipt.verdict.allow then
                     && result == NotExecuted(receipt) && !dispatched
                     && kernel.Value() == k && guard.claimedUntil == old(guard.claimedUntil)
                   else
                     var ran := HiveBridge.Run(old(guard.claimedUntil), guard.limits,
                                               BridgeCall(r, actor, receipt, completedAt, env));
                     && guard.claimedUntil == ran.table && dispatched == ran.dispatched
                     && result == (if ran.result.DryRun? then DryRun else BridgeRefused(ran.result))
                     && kernel.Value() == k.(threads := k.threads[i := k.threads[i].(pc := Handed(receipt, dispatched))])
    {
      hide HiveBridge.Run, Complete, Step;
      dispatched := false;
      if actor == "" || r.actor != actor {
        return ActorMismatch, false;
      }
      var i := |kernel.threads|;
      var receipt := kernel.Execute(r, actor);
      if !receipt.status.Executed? || !receipt.verdict.allow {
        return NotExecuted(receipt), false;
      }
      var verdict, sent := HiveBridgeRunner.RunLocalDryRun(guard, BridgeCall(r, actor, receipt, completedAt, env));
      dispatched := sent;
      kernel.threads := kernel.threads[i := kernel.threads[i].(pc := Handed(receipt, dispatched))];
      result := if verdict.DryRun? then DryRun else BridgeRefused(verdict);
    }
  }

  /** The hand-over is the last step of the call in the kernel's state machine, so at most one per task is dispatched. */
  lemma HandOverIsAStep(cfg: Config, k: Kernel, i: nat, dispatched: bool, input: Input)
    requires i < |k.threads| && k.threads[i].pc.Finished?
    requires k.threads[i].pc.receipt.status.Executed? && k.threads[i].pc.receipt.verdict.allow
    requires input.dispatches == dispatched
    ensures k.(threads := k.threads[i := k.threads[i].(pc := Handed(k.threads[i].pc.receipt, dispatched))]) ==
            Step(cfg, k, Go(i, input))
  {
    assert k.log + [] == k.log;
  }

  /** The receipt of an executed request leaves only its lifetime, the guards and the clocks to be asked by the bridge. */
  lemma ExecutedMeansEntitled(r: Request, actor: string, receipt: Receipt, completedAt: real, env: HiveBridge.Env)
    requires receipt.status.Executed? && receipt.verdict.allow && r.requestedAt < r.expiresAt
    ensures var c := BridgeCall(r, actor, receipt, completedAt, env);
            && c.Key() == actor + ":" + r.taskId + ":" + r.correlationId
            && (HiveOutcomes.Entitled(c) <==>
                  r.requestedAt as real <= completedAt && r.expiresAt as real <= completedAt + 300.0)
  {
  }

  /** What the bridge asks beyond the receipt. */
  predicate BridgeGrants(t: ClaimTable.Table, limits: ClaimTable.Limits, c: HiveBridge.Call, completedAt: real) {
    && c.task.requestedAt <= completedAt && c.task.expiresAt <= completedAt + 300.0
    && HiveOutcomes.Started(c) && HiveOutcomes.Claimed(t, limits, c)
    && c.env.readings.utcClaim < c.task.expiresAt && HiveOutcomes.Before(c, c.env.readings.monoClaim)
    && c.env.readings.utcDispatch < c.task.expiresAt && HiveOutcomes.Before(c, c.env.readings.monoDispatch)
  }

  /** After any calls, a new one that nothing interrupts ends with a receipt, and if EXECUTED it was allowed. */
  lemma EndsWithReceipt(cfg: Config, actions: seq<Action>, r: Request, actor: string, inputs: nat -> Input, n: nat)
    ensures var k := Run(cfg, actions);
            var i, end := |k.threads|, Evaluated(cfg, k, r, actor, inputs, n);
            && i < |end.threads| && HasReceipt(end.threads[i])
            && (end.threads[i].pc.receipt.status.Executed? ==>
                  end.threads[i].pc.receipt.verdict.allow && r.requestedAt < r.expiresAt)
  {
    hide Complete, Policy, Permitted;
    var k, a := Run(cfg, actions), Arrive(r, actor);
    assert (actions + [a])[..|actions|] == actions;
    assert Run(cfg, actions + [a]) == Step(cfg, k, a);
    var more := CompleteIsARun(cfg, actions + [a], |k.threads|, inputs, n);
    var end := Run(cfg, actions + [a] + more);
    RunInv(cfg, actions + [a] + more);
    CompleteKeepsCalls(cfg, Step(cfg, k, a), |k.threads|, inputs, n);
    assert ThreadGood(cfg, end.threads[|k.threads|], |k.threads|, Trail(end.log, |k.threads|));
    if end.threads[|k.threads|].pc.receipt.status.Executed? {
      PermittedInTime(cfg, r, end.threads[|k.threads|].actor);
    }
  }

  lemma PermittedInTime(cfg: Config, r: Request, actor: string)
    ensures Permitted(cfg, r, actor) ==> r.requestedAt < r.expiresAt
  {
  }

  /**
   From request to dispatch: the broker has the kernel execute and the bridge dispatch a request if and only
   if nothing is in the way in the kernel, the receipt is not older or younger than it may be, and neither
   guard nor clock of the bridge objects.
   */
  lemma DispatchedByBrokerIff(cfg: Config, actions: seq<Action>, r: Request, actor: string, inputs: nat -> Input, n: nat,
                              completedAt: real, env: HiveBridge.Env, t: ClaimTable.Table, limits: ClaimTable.Limits)
    ensures var k := Run(cfg, actions);
            var i, end := |k.threads|, Evaluated(cfg, k, r, actor, inputs, n);
            && i < |end.threads| && HasReceipt(end.threads[i])
            && var receipt := end.threads[i].pc.receipt;
               var c := BridgeCall(r, actor, receipt, completedAt, env);
               (receipt.status.Executed? && receipt.verdict.allow && HiveBridge.Run(t, limits, c).dispatched) <==>
               (Executable(cfg, k.used, r, actor, inputs, n) && BridgeGrants(t, limits, c, completedAt))
  {
    hide Complete, Executable, HiveBridge.Run;
    hide HiveOutcomes.Started, HiveOutcomes.Before, HiveOutcomes.Claimed, HiveOutcomes.Entitled;
    var k := Run(cfg, actions);
    EndsWithReceipt(cfg, actions, r, actor, inputs, n);
    LoneCallExecutesIff(cfg, k, r, actor, inputs, n);
    var receipt := Evaluated(cfg, k, r, actor, inputs, n).threads[|k.threads|].pc.receipt;
    var c := BridgeCall(r, actor, receipt, completedAt, env);
    if receipt.status.Executed? {
      ExecutedMeansEntitled(r, actor, receipt, completedAt, env);
      HiveOutcomes.DispatchedIff(t, limits, c);
    }
  }
}
