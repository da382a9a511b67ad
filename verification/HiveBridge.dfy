/**
 One local dry run through the bridge, as a function of its clock readings and of what the durable
 guard and the registry answer; then as an operation on the shared process guard.
 */
module HiveBridge {
  import opened Wrappers
  import opened ClaimTable

  const MAX_LIFETIME := 300.0

  datatype Task = Task(
    taskId: string, correlationId: string, capability: string, targetId: string, requestedAt: real, expiresAt: real)

  datatype Receipt = Receipt(
    executed: bool, allowed: bool, taskId: string, correlationId: string, actor: string, capability: string,
    targetId: string, expiresAt: Option<real>, completedAt: real)

  /** Every clock reading of a run, in the order they are taken; `mono` ones are of the monotonic clock. */
  datatype Readings = Readings(
    monoStart: real, utcBefore: real, monoAuthorized: real, utcAfter: real,
    utcClaim: real, monoClaim: real, utcGuard: real,
    utcDispatch: real, monoDispatch: real, utcReturn: real, monoReturn: real)

  datatype DurableAnswer = Yes | No | Raises

  /** The result of the dispatch; an older registry gives no correlation. */
  datatype Reply =
    | Reply(requestId: string, targetNode: string, healthCheck: bool, dryRun: bool, correlation: Option<string>)
    | DispatchRaised

  datatype Env = Env(readings: Readings, guarded: bool, shaped: bool, durable: DurableAnswer, reply: Reply)

  datatype Call = Call(task: Task, actor: string, receipt: Receipt, env: Env) {
    function Key(): string { actor + ":" + task.taskId + ":" + task.correlationId }

    function Claiming(): Request { Request(Key(), task.expiresAt, env.readings.utcGuard, actor) }
  }

  datatype Verdict =
    | PolicyDenied | Mismatch | ExpiryMismatch | LifetimeExceeded | Expired | NoGuard | NotShaped
    | AlreadyConsumed | CapacityExhausted | GuardUnavailable
    | DispatchFailed | Unexpected | WrongCorrelation | DryRun

  datatype Ran = Ran(table: Table, result: Verdict, dispatched: bool)

  function Later(a: real, b: real): real { if a >= b then a else b }

  /** The seconds left when the run was authorized, net of the time the sampling took. */
  function Remaining(expiresAt: real, r: Readings): real {
    expiresAt - Later(r.utcBefore, r.utcAfter) - (r.monoAuthorized - r.monoStart)
  }

  /** Neither clock says that the time is up. */
  predicate InTime(expiresAt: real, r: Readings, utc: real, mono: real) {
    utc < expiresAt && mono - r.monoAuthorized < Remaining(expiresAt, r)
  }

  /** What is refused before any clock is read. */
  function Objection(c: Call): Option<Verdict> {
    var task, receipt := c.task, c.receipt;
    if !receipt.executed || !receipt.allowed then Some(PolicyDenied)
    else if receipt.taskId != task.taskId || receipt.correlationId != task.correlationId || receipt.actor != c.actor ||
            receipt.capability != task.capability || receipt.targetId != task.targetId then Some(Mismatch)
    else if receipt.expiresAt != Some(task.expiresAt) then Some(ExpiryMismatch)
    else if task.expiresAt <= task.requestedAt || task.requestedAt > receipt.completedAt ||
            task.expiresAt - receipt.completedAt > MAX_LIFETIME then Some(LifetimeExceeded)
    else None
  }

  /** Why the run never comes to its claims, if it does not. */
  function Barrier(c: Call): Option<Verdict> {
    var r, expiry := c.env.readings, c.task.expiresAt;
    if Objection(c).Some? then Objection(c)
    else if expiry <= r.utcBefore || expiry <= r.utcAfter || Remaining(expiry, r) <= 0.0 then Some(Expired)
    else if !c.env.guarded then Some(NoGuard)
    else if !c.env.shaped then Some(NotShaped)
    else if !InTime(expiry, r, r.utcClaim, r.monoClaim) then Some(Expired)
    else None
  }

  function Judge(c: Call): Verdict
  {
    var reply := c.env.reply;
    if reply.DispatchRaised? then DispatchFailed
    else if !InTime(c.task.expiresAt, c.env.readings, c.env.readings.utcReturn, c.env.readings.monoReturn) then Expired
    else if reply.requestId != c.task.taskId || reply.targetNode != c.task.targetId || !reply.healthCheck || !reply.dryRun
    then Unexpected
    else if reply.correlation.Some? && reply.correlation != Some(c.task.correlationId) then WrongCorrelation
    else DryRun
  }

  function Run(t: Table, limits: Limits, c: Call): Ran {
    if Barrier(c).Some? then Ran(t, Barrier(c).value, false)
    else
      var d := ClaimOnce(t, limits, c.Claiming());
      match d.outcome
      case Consumed => Ran(d.table, AlreadyConsumed, false)
      case Full => Ran(d.table, CapacityExhausted, false)
      case ActorFull => Ran(d.table, CapacityExhausted, false)
      case Accepted =>
        if c.env.durable.Raises? then Ran(d.table, GuardUnavailable, false)
        else if c.env.durable.No? then Ran(d.table, AlreadyConsumed, false)
        else if !InTime(c.task.expiresAt, c.env.readings, c.env.readings.utcDispatch, c.env.readings.monoDispatch)
        then Ran(d.table, Expired, false)
        else Ran(d.table, Judge(c), true)
  }
}

/** The bridge as an operation on the process guard it owns. */
module HiveBridgeRunner {
  import opened Wrappers
  import opened ClaimTable
  import opened ReplayGuards
  import opened HiveBridge

  /** The local claim, then the durable one; the result is a refusal, or none. */
  method ClaimBoth(guard: ExpiringProcessReplayGuard, c: Call) returns (refusal: Option<Verdict>)
    modifies guard
    ensures var d := ClaimOnce(old(guard.claimedUntil), guard.limits, c.Claiming());
            && guard.claimedUntil == d.table
            && (refusal.None? <==> d.outcome.Accepted? && c.env.durable.Yes?)
            && (refusal == Some(GuardUnavailable) <==> d.outcome.Accepted? && c.env.durable.Raises?)
            && (refusal == Some(CapacityExhausted) <==> d.outcome.Full? || d.outcome.ActorFull?)
            && (refusal == Some(AlreadyConsumed) <==>
                  d.outcome.Consumed? || (d.outcome.Accepted? && c.env.durable.No?))
  {
    var outcome := guard.ClaimOnce(c.Key(), c.task.expiresAt, c.env.readings.utcGuard, c.actor);
    match outcome
    case Consumed => refusal := Some(AlreadyConsumed);
    case Full => refusal := Some(CapacityExhausted);
    case ActorFull => refusal := Some(CapacityExhausted);
    case Accepted =>
      match c.env.durable
      case Raises => refusal := Some(GuardUnavailable);
      case No => refusal := Some(AlreadyConsumed);
      case Yes => refusal := None;
  }

  method RunLocalDryRun(guard: ExpiringProcessReplayGuard, c: Call) returns (result: Verdict, dispatched: bool)
    modifies guard
    ensures Ran(guard.claimedUntil, result, dispatched) == Run(old(guard.claimedUntil), guard.limits, c)
  {
    hide ClaimOnce;
    dispatched := false;
    var objection := Objection(c);
    if objection.Some? {
      return objection.value, false;
    }
    var r, expiry := c.env.readings, c.task.expiresAt;
    if expiry <= r.utcBefore {
      return Expired, false;
    }
    if expiry <= r.utcAfter {
      return Expired, false;
    }
    var remaining := expiry - Later(r.utcBefore, r.utcAfter);
    remaining := remaining - (r.monoAuthorized - r.monoStart);
    if remaining <= 0.0 {
      return Expired, false;
    }
    if !c.env.guarded {
      return NoGuard, false;
    }
    if !c.env.shaped {
      return NotShaped, false;
    }
    if expiry <= r.utcClaim || r.monoClaim - r.monoAuthorized >= remaining {
      return Expired, false;
    }
    var refusal := ClaimBoth(guard, c);
    if refusal.Some? {
      return refusal.value, false;
    }
    if expiry <= r.utcDispatch || r.monoDispatch - r.monoAuthorized >= remaining {
      return Expired, false;
    }
    dispatched := true;
    var reply := c.env.reply;
    if reply.DispatchRaised? {
      return DispatchFailed, true;
    }
    if expiry <= r.utcReturn || r.monoReturn - r.monoAuthorized >= remaining {
      return Expired, true;
    }
    if reply.requestId != c.task.taskId || reply.targetNode != c.task.targetId || !reply.healthCheck || !reply.dryRun {
      return Unexpected, true;
    }
    if reply.correlation.Some? && reply.correlation.value != c.task.correlationId {
      return WrongCorrelation, true;
    }
    result := DryRun;
  }
}
