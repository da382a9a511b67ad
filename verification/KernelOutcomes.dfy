/** When a call that runs without interruption ends with an EXECUTED receipt: not more often, and not less. */
module KernelOutcomes {
  import opened Wrappers
  import opened KernelModel
  import opened KernelPolicy
  import opened KernelGuarantees
  import opened ActionKernels

  predicate EndsExecuted(cfg: Config, k: Kernel, i: nat, inputs: nat -> Input, n: nat)
    requires i < |k.threads|
  {
    var end := Complete(cfg, k, i, inputs, n).kernel;
    i < |end.threads| && IsExecuted(end.threads[i])
  }

  lemma Ends(cfg: Config, k: Kernel, i: nat, inputs: nat -> Input, n: nat)
    requires i < |k.threads| && k.threads[i].pc.Finished?
    ensures EndsExecuted(cfg, k, i, inputs, n) <==> k.threads[i].pc.receipt.status.Executed?
  {
    CompleteStops(cfg, k, i, inputs, n);
  }

  /** One step later the same call is under way, and ends the same. */
  lemma Goes(cfg: Config, k: Kernel, i: nat, inputs: nat -> Input, n: nat) returns (k': Kernel)
    requires i < |k.threads| && Rank(k.threads[i].pc) > 0
    ensures k' == Step(cfg, k, Go(i, inputs(n))) && i < |k'.threads|
    ensures k'.threads[i] == Turn(cfg, k.used, k.threads[i], i, inputs(n)).thread
    ensures EndsExecuted(cfg, k, i, inputs, n) <==> EndsExecuted(cfg, k', i, inputs, n + 1)
  {
    hide Turn, Complete;
    k' := Step(cfg, k, Go(i, inputs(n)));
    Moves(cfg, k, i, inputs, n, k');
  }

  lemma FromDenial(cfg: Config, k: Kernel, i: nat, inputs: nat -> Input, n: nat)
    requires i < |k.threads| && k.threads[i].pc.AuditDenial?
    ensures !EndsExecuted(cfg, k, i, inputs, n)
  {
    hide EndsExecuted;
    var k' := Goes(cfg, k, i, inputs, n);
    Ends(cfg, k', i, inputs, n + 1);
  }

  predicate Accepted(inputs: nat -> Input, n: nat) { inputs(n).sink.Accepts? }

  lemma FromAudits(cfg: Config, k: Kernel, i: nat, inputs: nat -> Input, n: nat)
    requires i < |k.threads| && k.threads[i].pc.AuditExecution?
    ensures EndsExecuted(cfg, k, i, inputs, n) <==> Accepted(inputs, n) && Accepted(inputs, n + 1)
  {
    hide EndsExecuted;
    var k1 := Goes(cfg, k, i, inputs, n);
    if k1.threads[i].pc.Finished? {
      Ends(cfg, k1, i, inputs, n + 1);
    } else {
      var k2 := Goes(cfg, k1, i, inputs, n + 1);
      Ends(cfg, k2, i, inputs, n + 2);
    }
  }

  lemma FromGather(cfg: Config, k: Kernel, i: nat, inputs: nat -> Input, n: nat)
    requires i < |k.threads| && k.threads[i].pc.Gather?
    ensures EndsExecuted(cfg, k, i, inputs, n) <==>
            inputs(n).evidenceBytes <= cfg.maxEvidenceBytes && Accepted(inputs, n + 1) && Accepted(inputs, n + 2)
  {
    hide EndsExecuted, StatusOf;
    var k1 := Goes(cfg, k, i, inputs, n);
    if k1.threads[i].pc.Finished? {
      Ends(cfg, k1, i, inputs, n + 1);
    } else {
      FromAudits(cfg, k1, i, inputs, n + 1);
    }
  }

  lemma FromReserve(cfg: Config, k: Kernel, i: nat, inputs: nat -> Input, n: nat)
    requires i < |k.threads| && k.threads[i].pc.Reserve?
    ensures EndsExecuted(cfg, k, i, inputs, n) <==>
            && k.threads[i].request.taskId !in k.used && inputs(n + 1).evidenceBytes <= cfg.maxEvidenceBytes
            && Accepted(inputs, n + 2) && Accepted(inputs, n + 3)
  {
    hide EndsExecuted, Accepted;
    var k1 := Goes(cfg, k, i, inputs, n);
    if k1.threads[i].pc.AuditDenial? {
      FromDenial(cfg, k1, i, inputs, n + 1);
    } else {
      FromGather(cfg, k1, i, inputs, n + 1);
    }
  }

  lemma FromExpiry(cfg: Config, k: Kernel, i: nat, inputs: nat -> Input, n: nat)
    requires i < |k.threads| && k.threads[i].pc.CheckExpiry?
    ensures EndsExecuted(cfg, k, i, inputs, n) <==>
            && inputs(n).now < k.threads[i].request.expiresAt
            && k.threads[i].request.taskId !in k.used && inputs(n + 2).evidenceBytes <= cfg.maxEvidenceBytes
            && Accepted(inputs, n + 3) && Accepted(inputs, n + 4)
  {
    hide EndsExecuted, Accepted;
    var k1 := Goes(cfg, k, i, inputs, n);
    if k1.threads[i].pc.AuditDenial? {
      FromDenial(cfg, k1, i, inputs, n + 1);
    } else {
      FromReserve(cfg, k1, i, inputs, n + 1);
    }
  }

  lemma FromPolicy(cfg: Config, k: Kernel, i: nat, inputs: nat -> Input, n: nat)
    requires i < |k.threads| && k.threads[i].pc.EvaluatePolicy?
    ensures var t := k.threads[i];
            EndsExecuted(cfg, k, i, inputs, n) <==>
            && Permitted(cfg, t.request, t.actor) && t.request.taskId !in k.used
            && inputs(n).now < t.request.expiresAt && inputs(n + 2).now < t.request.expiresAt
            && inputs(n + 4).evidenceBytes <= cfg.maxEvidenceBytes
            && Accepted(inputs, n + 1) && Accepted(inputs, n + 5) && Accepted(inputs, n + 6)
  {
    hide EndsExecuted, Policy, Permitted;
    var t := k.threads[i];
    PolicyMeans(cfg, t.request, t.actor, inputs(n).now, k.used);
    var k1 := Goes(cfg, k, i, inputs, n);
    var k2 := Goes(cfg, k1, i, inputs, n + 1);
    if k2.threads[i].pc.Finished? {
      Ends(cfg, k2, i, inputs, n + 2);
    } else {
      FromExpiry(cfg, k2, i, inputs, n + 2);
    }
  }

  /**
   There is a sink, the request is permitted and its id not taken, it has expired neither at the policy nor
   just before the dispatch, the evidence is not too long, and the sink takes all four events. The
   readings are counted from `n`: each step finds one outside.
   */
  predicate Executable(cfg: Config, used: set<string>, r: Request, actor: string, inputs: nat -> Input, n: nat) {
    && cfg.audited && Permitted(cfg, r, actor) && r.taskId !in used
    && inputs(n + 1).now < r.expiresAt && inputs(n + 3).now < r.expiresAt
    && inputs(n + 5).evidenceBytes <= cfg.maxEvidenceBytes
    && Accepted(inputs, n) && Accepted(inputs, n + 2) && Accepted(inputs, n + 6) && Accepted(inputs, n + 7)
  }

  /** A call by itself is EXECUTED if and only if nothing is in its way. */
  lemma LoneCallExecutesIff(cfg: Config, k: Kernel, r: Request, actor: string, inputs: nat -> Input, n: nat)
    ensures EndsExecuted(cfg, Step(cfg, k, Arrive(r, actor)), |k.threads|, inputs, n) <==>
            Executable(cfg, k.used, r, actor, inputs, n)
  {
    hide EndsExecuted, Policy, Permitted;
    var k0, i := Step(cfg, k, Arrive(r, actor)), |k.threads|;
    if !cfg.audited {
      Ends(cfg, k0, i, inputs, n);
    } else {
      var k1 := Goes(cfg, k0, i, inputs, n);
      if k1.threads[i].pc.Finished? {
        Ends(cfg, k1, i, inputs, n + 1);
      } else {
        FromPolicy(cfg, k1, i, inputs, n + 1);
      }
    }
  }

  /** Every permitted request is executed by some run from the empty kernel: the guarantees are not about nothing. */
  lemma SomeRunExecutes(cfg: Config, r: Request, actor: string) returns (actions: seq<Action>)
    requires cfg.audited && Permitted(cfg, r, actor)
    ensures var k := Run(cfg, actions);
            |k.threads| == 1 && IsExecuted(k.threads[0]) && k.threads[0].request == r && k.used == {r.taskId}
  {
    hide Permitted, Complete;
    var inputs: nat -> Input := _ => Input(r.expiresAt - 1, Accepts, 0, false);
    assert [Arrive(r, actor)][..0] == [];
    assert Run(cfg, []) == EMPTY;
    var k := Run(cfg, [Arrive(r, actor)]);
    assert k == Step(cfg, EMPTY, Arrive(r, actor));
    var more := CompleteIsARun(cfg, [Arrive(r, actor)], 0, inputs, 0);
    actions := [Arrive(r, actor)] + more;
    LoneCallExecutesIff(cfg, EMPTY, r, actor, inputs, 0);
    CompleteKeepsCalls(cfg, k, 0, inputs, 0);
    RunInv(cfg, actions);
    OnlyHolder(cfg, Run(cfg, actions));
  }

  lemma {:induction false} CompleteKeepsCalls(cfg: Config, k: Kernel, i: nat, inputs: nat -> Input, n: nat)
    requires i < |k.threads|
    ensures var end := Complete(cfg, k, i, inputs, n).kernel;
            && |end.threads| == |k.threads|
            && forall j | 0 <= j < |k.threads| :: end.threads[j].request == k.threads[j].request
    decreases Rank(k.threads[i].pc)
  {
    hide Turn;
    if Rank(k.threads[i].pc) > 0 {
      TurnAdvances(cfg, k.used, k.threads[i], i, inputs(n));
      TurnKeepsRequest(cfg, k.used, k.threads[i], i, inputs(n));
      CompleteKeepsCalls(cfg, Step(cfg, k, Go(i, inputs(n))), i, inputs, n + 1);
    }
  }

  lemma TurnKeepsRequest(cfg: Config, used: set<string>, t: Thread, i: nat, input: Input)
    ensures Turn(cfg, used, t, i, input).thread.request == t.request
  {
    hide Policy, StatusOf;
  }

  lemma OnlyHolder(cfg: Config, k: Kernel)
    requires Inv(cfg, k) && |k.threads| == 1 && IsExecuted(k.threads[0])
    ensures k.used == {k.threads[0].request.taskId}
  {
    hide Trail, Permitted;
    assert k.threads[0].holds;
    forall id <- k.used ensures id == k.threads[0].request.taskId {
      var j: nat :| j < |k.threads| && k.threads[j].holds && k.threads[j].request.taskId == id;
    }
  }

  predicate Audits(pc: Pc) {
    pc.AuditRequest? || pc.AuditPolicy? || pc.AuditDenial? || pc.AuditExecution? || pc.AuditEvidence?
  }

  /** The log grows by one event exactly when a call offers one and the sink stores it, whether it then fails or not. */
  lemma LogGrowsIff(cfg: Config, k: Kernel, i: nat, input: Input)
    requires i < |k.threads|
    ensures var log := Step(cfg, k, Go(i, input)).log;
            if Audits(k.threads[i].pc) && !input.sink.Raises? then
              |log| == |k.log| + 1 && log[..|k.log|] == k.log && log[|k.log|].thread == i
            else log == k.log
  {
    hide Policy, StatusOf;
  }
}
