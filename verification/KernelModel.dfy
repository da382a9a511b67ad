/**
 The action kernel as a state machine: any number of `execute` calls in progress at once, each taking
 its atomic steps in any order relative to the others.
 */
module KernelModel {
  import opened Wrappers

  const SCHEMA := "action-kernel/v1"
  const ACTION_CONTRACT := "action/v1"
  const CAPABILITY_CONTRACT := "capability/v1"
  const PROVENANCE_CONTRACT := "provenance/v1"

  // ---------------------------------------------------------------- requests and configuration

  datatype Provenance = Provenance(
    contract: string, source: string, adapter: string, instance: string, zoned: bool, confidence: string)
  {
    predicate Valid() {
      && contract == PROVENANCE_CONTRACT && source != "" && adapter != "" && instance != "" && zoned
      && confidence in {"verified", "supported", "inferred", "unknown"}
    }
  }

  /** The arguments of a task: whether there are any, and their size as JSON if they have one. */
  datatype Arguments = Arguments(given: bool, bytes: Option<nat>)

  datatype Request = Request(
    taskId: string, correlationId: string, actor: string, capability: string, targetId: string,
    arguments: Arguments, requestedAt: int, expiresAt: int, zoned: bool, provenance: Provenance,
    schema: string, contract: string)

  datatype Capability = Capability(
    name: string, mode: string, allowedTargets: set<string>, argumentsAllowed: bool, schema: string, contract: string)

  datatype Config = Config(
    enabled: bool, audited: bool, actors: set<string>, targets: map<string, map<string, string>>,
    capabilities: map<string, Capability>, maxBytes: nat, maxEvidenceBytes: nat)

  datatype Verdict = Verdict(allow: bool, reason: string)

  function Deny(reason: string): Verdict { Verdict(false, reason) }

  /** The policy at the time `now`, with the ids in `used` reserved. */
  function Policy(cfg: Config, r: Request, actor: string, now: int, used: set<string>): Verdict {
    if !cfg.enabled then Deny("FEATURE_DISABLED")
    else if actor == "" || actor !in cfg.actors then Deny("ACTOR_DENIED")
    else if r.actor == "" || r.actor != actor then Deny("ACTOR_MISMATCH")
    else if r.schema != SCHEMA then Deny("SCHEMA_DENIED")
    else if r.contract != ACTION_CONTRACT then Deny("CONTRACT_DENIED")
    else if !r.provenance.Valid() then Deny("PROVENANCE_INVALID")
    else if r.taskId == "" || r.correlationId == "" then Deny("INVALID_ID")
    else if !r.zoned || r.expiresAt <= r.requestedAt then Deny("INVALID_TIME")
    else if r.expiresAt <= now then Deny("EXPIRED")
    else if r.taskId in used then Deny("DUPLICATE")
    else if r.capability !in cfg.capabilities then Deny("CAPABILITY_DENIED")
    else PolicyOfTarget(cfg, r, cfg.capabilities[r.capability])
  }

  function PolicyOfTarget(cfg: Config, r: Request, c: Capability): Verdict {
    if c.schema != SCHEMA || c.contract != CAPABILITY_CONTRACT || c.name != r.capability || c.mode != "read"
    then Deny("CAPABILITY_DESCRIPTOR_INVALID")
    else if r.targetId !in c.allowedTargets || r.targetId !in cfg.targets then Deny("TARGET_DENIED")
    else if r.arguments.bytes.None? then Deny("INVALID_ARGUMENTS")
    else if r.arguments.bytes.value > cfg.maxBytes then Deny("OVERSIZED")
    else if r.arguments.given && !c.argumentsAllowed then Deny("ARGUMENTS_DENIED")
    else if !HasStatus(cfg, r.targetId) then Deny("INVALID_INVENTORY")
    else Verdict(true, "READ_ONLY_ALLOWED")
  }

  predicate HasStatus(cfg: Config, target: string) {
    && target in cfg.targets && "synthetic_status" in cfg.targets[target]
    && cfg.targets[target]["synthetic_status"] in {"ok", "offline", "unknown"}
  }

  // ---------------------------------------------------------------- threads

  /** The evidence is identified by its digest, taken to be injective. */
  datatype Evidence = Evidence(target: string, status: string)

  datatype Status = Executed | Denied | Failed

  datatype Receipt = Receipt(status: Status, reason: string, verdict: Verdict, evidence: Option<Evidence>)

  /** Where a call stands: the next thing it does, or its receipt and what the broker did with it. */
  datatype Pc =
    | AuditRequest
    | EvaluatePolicy
    | AuditPolicy(verdict: Verdict)
    | CheckExpiry(verdict: Verdict)
    | Reserve(verdict: Verdict)
    | AuditDenial(reason: string)
    | Gather(verdict: Verdict)
    | AuditExecution(verdict: Verdict, evidence: Evidence)
    | AuditEvidence(verdict: Verdict, evidence: Evidence)
    | Finished(receipt: Receipt)
    | Handed(receipt: Receipt, dispatched: bool)

  /** One `execute` call. `holds` and `checkedAt` record that it reserved its id and passed the expiry check. */
  datatype Thread = Thread(request: Request, actor: string, pc: Pc, holds: bool, checkedAt: Option<int>)

  datatype Stage = RequestStage | PolicyStage | ExecutionStage | EvidenceStage

  datatype Record = Record(thread: nat, stage: Stage, outcome: string, reason: string, evidence: Option<Evidence>)

  /** The audit sink takes an event, refuses it, or fails after having stored it. */
  datatype Sink = Accepts | Raises | StoresThenRaises

  /** What a step reads from outside: the clock, the sink's answer, the evidence size, and the bridge's answer. */
  datatype Input = Input(now: int, sink: Sink, evidenceBytes: nat, dispatches: bool)

  datatype Kernel = Kernel(used: set<string>, threads: seq<Thread>, log: seq<Record>)

  datatype Turned = Turned(thread: Thread, reserves: bool, records: seq<Record>)

  function Fail(verdict: Verdict, reason: string): Pc { Finished(Receipt(Failed, reason, verdict, None)) }

  function Refuse(verdict: Verdict, reason: string): Pc { Finished(Receipt(Denied, reason, verdict, None)) }

  function Audit(t: Thread, record: Record, sink: Sink, accepted: Pc, refused: Pc): Turned {
    Turned(t.(pc := if sink.Accepts? then accepted else refused), false, if sink.Raises? then [] else [record])
  }

  function Requested(i: nat): Record { Record(i, RequestStage, "OBSERVED", "REQUEST_RECEIVED", None) }

  function Judged(i: nat, v: Verdict): Record { Record(i, PolicyStage, if v.allow then "ALLOW" else "DENY", v.reason, None) }

  function Completed(i: nat): Record { Record(i, ExecutionStage, "COMPLETED", "SYNTHETIC_ONLY", None) }

  function Hashed(i: nat, e: Evidence): Record { Record(i, EvidenceStage, "RECORDED", "EVIDENCE_HASHED", Some(e)) }

  /** The inventory status of an allowed target. */
  function StatusOf(cfg: Config, target: string): string {
    if target in cfg.targets && "synthetic_status" in cfg.targets[target] then cfg.targets[target]["synthetic_status"] else ""
  }

  /** One atomic step of call `i`. */
  function Turn(cfg: Config, used: set<string>, t: Thread, i: nat, input: Input): Turned {
    match t.pc
    case AuditRequest =>
      Audit(t, Requested(i), input.sink, EvaluatePolicy, Fail(Deny("AUDIT_FAILED"), "AUDIT_FAILED"))
    case EvaluatePolicy =>
      Turned(t.(pc := AuditPolicy(Policy(cfg, t.request, t.actor, input.now, used))), false, [])
    case AuditPolicy(v) =>
      Audit(t, Judged(i, v), input.sink, if v.allow then CheckExpiry(v) else Refuse(v, v.reason), Fail(v, "AUDIT_FAILED"))
    case CheckExpiry(v) =>
      if t.request.expiresAt <= input.now then Turned(t.(pc := AuditDenial("EXPIRED")), false, [])
      else Turned(t.(pc := Reserve(v), checkedAt := Some(input.now)), false, [])
    case Reserve(v) =>
      if t.request.taskId in used then Turned(t.(pc := AuditDenial("DUPLICATE")), false, [])
      else Turned(t.(pc := Gather(v), holds := true), true, [])
    case AuditDenial(reason) =>
      Audit(t, Record(i, ExecutionStage, "DENIED", reason, None), input.sink,
            Refuse(Deny(reason), reason), Fail(Deny(reason), "AUDIT_FAILED"))
    case Gather(v) =>
      if input.evidenceBytes > cfg.maxEvidenceBytes then Turned(t.(pc := Fail(v, "EVIDENCE_OVERSIZED")), false, [])
      else
        Turned(t.(pc := AuditExecution(v, Evidence(t.request.targetId, StatusOf(cfg, t.request.targetId)))), false, [])
    case AuditExecution(v, e) =>
      Audit(t, Completed(i), input.sink, AuditEvidence(v, e), Fail(v, "AUDIT_FAILED"))
    case AuditEvidence(v, e) =>
      Audit(t, Hashed(i, e), input.sink, Finished(Receipt(Executed, "SYNTHETIC_ONLY", v, Some(e))), Fail(v, "AUDIT_FAILED"))
    case Finished(r) =>
      if r.status.Executed? && r.verdict.allow then Turned(t.(pc := Handed(r, input.dispatches)), false, [])
      else Turned(t, false, [])
    case Handed(_, _) => Turned(t, false, [])
  }

  // ---------------------------------------------------------------- runs

  function Arrival(cfg: Config, r: Request, actor: string): Thread {
    Thread(r, actor, if cfg.audited then AuditRequest else Refuse(Deny("AUDIT_UNAVAILABLE"), "AUDIT_UNAVAILABLE"), false, None)
  }

  datatype Action = Arrive(request: Request, actor: string) | Go(i: nat, input: Input)

  function Step(cfg: Config, k: Kernel, a: Action): Kernel {
    match a
    case Arrive(r, actor) => k.(threads := k.threads + [Arrival(cfg, r, actor)])
    case Go(i, input) =>
      if i >= |k.threads| then k
      else
        var s := Turn(cfg, k.used, k.threads[i], i, input);
        Kernel(if s.reserves then k.used + {k.threads[i].request.taskId} else k.used,
               k.threads[i := s.thread], k.log + s.records)
  }

  const EMPTY := Kernel({}, [], [])

  function Run(cfg: Config, actions: seq<Action>): Kernel {
    if actions == [] then EMPTY
    else Step(cfg, Run(cfg, actions[..|actions| - 1]), actions[|actions| - 1])
  }

  /** The records of one call. */
  function Trail(log: seq<Record>, i: nat): seq<Record> {
    if log == [] then []
    else
      var last := log[|log| - 1];
      Trail(log[..|log| - 1], i) + (if last.thread == i then [last] else [])
  }
}
