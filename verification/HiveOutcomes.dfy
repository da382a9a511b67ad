/** Which calls of the bridge are dispatched and which succeed, told by their receipts, readings and replies. */
module HiveOutcomes {
  import opened Wrappers
  import opened ClaimTable
  import opened HiveBridge
  import HiveInterleavings
  import ReplayGuards

  /** The kernel has executed and allowed the task. */
  predicate Cleared(c: Call) { c.receipt.executed && c.receipt.allowed }

  /** It is this very task, asked for by this very actor. */
  predicate SameTask(c: Call) {
    && c.task.taskId == c.receipt.taskId && c.task.correlationId == c.receipt.correlationId
    && c.actor == c.receipt.actor && c.task.capability == c.receipt.capability && c.task.targetId == c.receipt.targetId
  }

  predicate SameExpiry(c: Call) { c.receipt.expiresAt.Some? && c.receipt.expiresAt.value == c.task.expiresAt }

  /** Asked for before it was granted, and granted for five minutes at the most. */
  predicate ShortLived(c: Call) {
    && c.task.requestedAt < c.task.expiresAt && c.task.requestedAt <= c.receipt.completedAt
    && c.task.expiresAt <= c.receipt.completedAt + 300.0
  }

  predicate Entitled(c: Call) { Cleared(c) && SameTask(c) && SameExpiry(c) && ShortLived(c) }

  /** Either UTC sample, carried on by the monotonic clock since the sampling began, is before the expiry. */
  predicate Before(c: Call, mono: real) {
    var r := c.env.readings;
    && r.utcBefore + (mono - r.monoStart) < c.task.expiresAt
    && r.utcAfter + (mono - r.monoStart) < c.task.expiresAt
  }

  /** Nothing is over yet when the budget is set, and the bridge has what it needs. */
  predicate Started(c: Call) {
    var r := c.env.readings;
    && r.utcBefore < c.task.expiresAt && r.utcAfter < c.task.expiresAt && Before(c, r.monoAuthorized)
    && c.env.guarded && c.env.shaped
  }

  predicate ComesToItsClaims(c: Call) {
    var r := c.env.readings;
    Entitled(c) && Started(c) && r.utcClaim < c.task.expiresAt && Before(c, r.monoClaim)
  }

  lemma BarrierMeans(c: Call)
    ensures Barrier(c).None? <==> ComesToItsClaims(c)
  {
  }

  predicate Claimed(t: Table, limits: Limits, c: Call) {
    ClaimOnce(t, limits, c.Claiming()).outcome.Accepted? && c.env.durable.Yes?
  }

  /** A task is handed to the registry exactly when the receipt entitles it, both guards grant it, and it is in time. */
  lemma DispatchedIff(t: Table, limits: Limits, c: Call)
    ensures Run(t, limits, c).dispatched <==>
            ComesToItsClaims(c) && Claimed(t, limits, c) &&
            c.env.readings.utcDispatch < c.task.expiresAt && Before(c, c.env.readings.monoDispatch)
  {
    hide Barrier, ComesToItsClaims, ClaimOnce, Judge;
    BarrierMeans(c);
  }

  /** The reply is for this task and target, reports a health check that was a dry run, and denies no correlation. */
  predicate GoodReply(c: Call) {
    && c.env.reply.Reply?
    && c.env.reply.requestId == c.task.taskId && c.env.reply.targetNode == c.task.targetId
    && c.env.reply.healthCheck && c.env.reply.dryRun
    && (c.env.reply.correlation.None? || c.env.reply.correlation.value == c.task.correlationId)
  }

  /** A call succeeds exactly when it was dispatched, its reply is good, and that came back in time. */
  lemma SucceedsIff(t: Table, limits: Limits, c: Call)
    ensures Run(t, limits, c).result.DryRun? <==>
            Run(t, limits, c).dispatched && GoodReply(c) &&
            c.env.readings.utcReturn < c.task.expiresAt && Before(c, c.env.readings.monoReturn)
  {
    hide Barrier, ClaimOnce;
    BarrierIsNoSuccess(c);
  }

  lemma BarrierIsNoSuccess(c: Call)
    ensures Barrier(c).Some? ==> !Barrier(c).value.DryRun?
  {
  }

  /** A refusal names the first thing that is wrong; whatever the receipt is wrong about comes before any clock. */
  lemma RefusalMeans(t: Table, limits: Limits, c: Call)
    ensures var result := Run(t, limits, c).result;
            && (result.PolicyDenied? <==> !Cleared(c))
            && (result.Mismatch? <==> Cleared(c) && !SameTask(c))
            && (result.ExpiryMismatch? <==> Cleared(c) && SameTask(c) && !SameExpiry(c))
            && (result.LifetimeExceeded? <==> Cleared(c) && SameTask(c) && SameExpiry(c) && !ShortLived(c))
            && (result.CapacityExhausted? <==>
                  ComesToItsClaims(c) && var o := ClaimOnce(t, limits, c.Claiming()).outcome; o.Full? || o.ActorFull?)
            && (result.AlreadyConsumed? <==>
                  ComesToItsClaims(c) && var o := ClaimOnce(t, limits, c.Claiming()).outcome;
                  o.Consumed? || (o.Accepted? && c.env.durable.No?))
            && (result.GuardUnavailable? <==>
                  ComesToItsClaims(c) && ClaimOnce(t, limits, c.Claiming()).outcome.Accepted? && c.env.durable.Raises?)
  {
    hide ClaimOnce;
    BarrierMeans(c);
  }

  // ---------------------------------------------------------------- side by side

  /** Any call that is entitled and in time is dispatched by some run of the bridge: the results are not about nothing. */
  lemma SomeRunDispatches(limits: Limits, c: Call, bytes: nat) returns (actions: seq<HiveInterleavings.Action>)
    requires limits.Valid() && ComesToItsClaims(c) && ReplayGuards.ValidKey(c.Key(), bytes)
    requires c.env.readings.utcDispatch < c.task.expiresAt && Before(c, c.env.readings.monoDispatch)
    ensures var b := HiveInterleavings.RunAll(limits, actions);
            && |b.threads| == 1 && b.threads[0].call == c && HiveInterleavings.Dispatched(b.threads[0])
            && b.claims == {c.Key()}
  {
    hide Barrier, ComesToItsClaims, ClaimOnce, Call.Key, Judge;
    BarrierMeans(c);
    EmptyTableAccepts(limits, c);
    var go := HiveInterleavings.Go(0, HiveInterleavings.Works);
    var arrive := HiveInterleavings.Arrive(c, bytes);
    actions := [arrive, go, go, go];
    assert actions[..3] == [arrive, go, go] && [arrive, go, go][..2] == [arrive, go] && [arrive, go][..1] == [arrive];
    assert [arrive][..0] == [];
    var b0 := HiveInterleavings.RunAll(limits, []);
    var b1 := HiveInterleavings.RunAll(limits, [arrive]);
    assert b1 == HiveInterleavings.Step(limits, b0, arrive);
    var b2 := HiveInterleavings.RunAll(limits, [arrive, go]);
    assert b2 == HiveInterleavings.Step(limits, b1, go) && b2.threads[0].pc.Claimed?;
    var b3 := HiveInterleavings.RunAll(limits, [arrive, go, go]);
    assert b3 == HiveInterleavings.Step(limits, b2, go) && b3.threads[0].pc.Granted?;
    var b4 := HiveInterleavings.RunAll(limits, actions);
    assert b4 == HiveInterleavings.Step(limits, b3, go) && b4.threads[0].pc.Sent?;
  }

  lemma EmptyTableAccepts(limits: Limits, c: Call)
    requires limits.Valid()
    ensures ClaimOnce(map[], limits, c.Claiming()).outcome.Accepted?
  {
    assert Purged(map[], c.env.readings.utcGuard) == map[];
    assert HeldBy(map[], c.actor) == {};
  }
}
