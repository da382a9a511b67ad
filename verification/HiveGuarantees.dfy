/** What the bridge promises: nothing happens after the true expiry, and one key is dispatched once. */
module HiveGuarantees {
  import opened Wrappers
  import opened ClaimTable
  import opened HiveBridge

  // ---------------------------------------------------------------- deadlines

  /** The true times of a run's moments, in order. */
  datatype Instants = Instants(
    start: real, before: real, authorized: real, after: real, claim: real, dispatchCheck: real,
    dispatched: real, returned: real, returnCheck: real)
  {
    predicate InOrder() {
      start <= before <= authorized <= after <= claim <= dispatchCheck <= dispatched <= returned <= returnCheck
    }
  }

  /** The monotonic clock is the true time but for a constant. The UTC readings may be anything. */
  predicate Faithful(r: Readings, at: Instants, offset: real) {
    && r.monoStart == at.start + offset && r.monoAuthorized == at.authorized + offset
    && r.monoClaim == at.claim + offset && r.monoDispatch == at.dispatchCheck + offset
    && r.monoReturn == at.returnCheck + offset
  }

  /** How far the better of the two UTC samples is behind the true time at which sampling started. */
  function Lag(r: Readings, at: Instants): real { at.start - Later(r.utcBefore, r.utcAfter) }

  /** The monotonic check, made at the true time `x`, passes. */
  predicate PassesAt(expiresAt: real, r: Readings, offset: real, x: real) {
    x + offset - r.monoAuthorized < Remaining(expiresAt, r)
  }

  /** The budget runs out exactly `Lag` after the true expiry. */
  lemma BudgetEndsAtExpiryPlusLag(expiresAt: real, r: Readings, at: Instants, offset: real, x: real)
    requires Faithful(r, at, offset)
    ensures PassesAt(expiresAt, r, offset, x) <==> x < expiresAt + Lag(r, at)
  {
  }

  /**
   The budget of an authorized run never outlives the true expiry if and only if one of the two UTC
   samples is at least the true time at which sampling started.
   */
  lemma BudgetSoundIff(expiresAt: real, r: Readings, at: Instants, offset: real)
    requires Faithful(r, at, offset) && at.InOrder() && Remaining(expiresAt, r) > 0.0
    ensures (forall x | x >= at.authorized && PassesAt(expiresAt, r, offset, x) :: x < expiresAt) <==>
            Later(r.utcBefore, r.utcAfter) >= at.start
  {
    if Lag(r, at) > 0.0 {
      var x := Later(expiresAt, at.authorized);
      BudgetEndsAtExpiryPlusLag(expiresAt, r, at, offset, x);
      assert x >= at.authorized && PassesAt(expiresAt, r, offset, x) && x >= expiresAt;
    } else {
      forall x | x >= at.authorized && PassesAt(expiresAt, r, offset, x) ensures x < expiresAt {
        BudgetEndsAtExpiryPlusLag(expiresAt, r, at, offset, x);
      }
    }
  }

  /** One UTC sample that is not behind is enough, whatever the other readings of that clock are. */
  lemma DispatchedAndReturnedInTime(t: Table, limits: Limits, c: Call, at: Instants, offset: real)
    requires Faithful(c.env.readings, at, offset) && at.InOrder()
    requires c.env.readings.utcBefore >= at.before || c.env.readings.utcAfter >= at.after
    ensures var ran := Run(t, limits, c);
            && (ran.dispatched ==> at.dispatchCheck < c.task.expiresAt)
            && (ran.result.DryRun? ==> ran.dispatched && at.dispatched < c.task.expiresAt && at.returned < c.task.expiresAt)
  {
    hide ClaimOnce;
    var r, expiry := c.env.readings, c.task.expiresAt;
    if Run(t, limits, c).dispatched {
      BudgetEndsAtExpiryPlusLag(expiry, r, at, offset, at.dispatchCheck);
      BudgetEndsAtExpiryPlusLag(expiry, r, at, offset, at.returnCheck);
    }
  }

  // ---------------------------------------------------------------- histories of the process guard

  function TableAfter(limits: Limits, calls: seq<Call>, n: nat): Table
    requires n <= |calls|
  {
    if n == 0 then map[] else Run(TableAfter(limits, calls, n - 1), limits, calls[n - 1]).table
  }

  predicate DispatchedAt(limits: Limits, calls: seq<Call>, i: nat)
    requires i < |calls|
  {
    Run(TableAfter(limits, calls, i), limits, calls[i]).dispatched
  }

  /** The claims that the first `n` calls make of the process guard. */
  function Claims(calls: seq<Call>, n: nat): seq<Request>
    requires n <= |calls|
  {
    if n == 0 then []
    else Claims(calls, n - 1) + (if Barrier(calls[n - 1]).None? then [calls[n - 1].Claiming()] else [])
  }

  lemma {:induction false} AfterPrefix(limits: Limits, rs: seq<Request>, more: seq<Request>, n: nat)
    requires n <= |rs|
    ensures After(limits, rs + more, n) == After(limits, rs, n)
  {
    if n > 0 {
      AfterPrefix(limits, rs, more, n - 1);
    }
  }

  lemma {:induction false} ClaimsPrefix(calls: seq<Call>, i: nat, n: nat)
    requires i <= n <= |calls|
    ensures |Claims(calls, i)| <= |Claims(calls, n)| && Claims(calls, n)[..|Claims(calls, i)|] == Claims(calls, i)
    decreases n
  {
    hide Barrier;
    if i < n {
      ClaimsPrefix(calls, i, n - 1);
    }
  }

  /** The table of the bridge is the table of the claims it made. */
  lemma {:induction false} TableIsThatOfClaims(limits: Limits, calls: seq<Call>, n: nat)
    requires n <= |calls|
    ensures TableAfter(limits, calls, n) == After(limits, Claims(calls, n), |Claims(calls, n)|)
  {
    hide Barrier, ClaimOnce, Judge, InTime;
    if n > 0 {
      TableIsThatOfClaims(limits, calls, n - 1);
      var rs := Claims(calls, n - 1);
      if Barrier(calls[n - 1]).None? {
        AfterPrefix(limits, rs, [calls[n - 1].Claiming()], |rs|);
      } else {
        assert Claims(calls, n) == rs;
      }
    }
  }

  /** The claim of call `i` stands at position `|Claims(calls, i)|` of any longer history. */
  lemma ClaimOfCall(limits: Limits, calls: seq<Call>, i: nat, n: nat)
    requires i < n <= |calls| && Barrier(calls[i]).None?
    ensures var p, rs := |Claims(calls, i)|, Claims(calls, n);
            p < |rs| && rs[p] == calls[i].Claiming() && After(limits, rs, p) == TableAfter(limits, calls, i)
  {
    hide Barrier, Run, ClaimOnce;
    var p, rs := |Claims(calls, i)|, Claims(calls, n);
    ClaimsPrefix(calls, i + 1, n);
    ClaimsPrefix(calls, i, n);
    assert rs[p] == rs[..p + 1][p];
    assert rs == Claims(calls, i) + rs[p..];
    AfterPrefix(limits, Claims(calls, i), rs[p..], p);
    TableIsThatOfClaims(limits, calls, i);
  }

  lemma {:induction false} CallOfClaim(calls: seq<Call>, n: nat, p: nat) returns (j: nat)
    requires n <= |calls| && p < |Claims(calls, n)|
    ensures j < n && |Claims(calls, j)| == p && Barrier(calls[j]).None? && Claims(calls, n)[p] == calls[j].Claiming()
    decreases n
  {
    hide Barrier;
    if p < |Claims(calls, n - 1)| {
      j := CallOfClaim(calls, n - 1, p);
    } else {
      j := n - 1;
    }
  }

  lemma EarlierCallsClaimEarlier(calls: seq<Call>, i: nat, j: nat)
    requires i <= |calls| && j <= |calls| && |Claims(calls, i)| < |Claims(calls, j)|
    ensures i < j
  {
    if j <= i {
      ClaimsPrefix(calls, j, i);
    }
  }

  lemma DispatchMeansAccepted(limits: Limits, calls: seq<Call>, i: nat)
    requires i < |calls| && DispatchedAt(limits, calls, i)
    ensures Barrier(calls[i]).None? && calls[i].env.durable.Yes?
    ensures ClaimOnce(TableAfter(limits, calls, i), limits, calls[i].Claiming()).outcome.Accepted?
  {
    hide Barrier, ClaimOnce, Judge, InTime;
  }

  /**
   Even when the durable guard says yes to everything, one key with one expiry is dispatched twice only
   if the process guard read, at the first of the two or since, a time at or past that expiry.
   */
  lemma TwoDispatchesNeedAnExpiredReading(limits: Limits, calls: seq<Call>, i: nat, k: nat)
    requires i < k < |calls| && calls[i].Key() == calls[k].Key()
    requires DispatchedAt(limits, calls, i) && DispatchedAt(limits, calls, k)
    ensures exists j: nat | i <= j <= k :: Barrier(calls[j]).None? && calls[j].env.readings.utcGuard >= calls[i].task.expiresAt
  {
    hide Barrier, ClaimOnce, Run, After, Claims, DispatchedAt;
    var rs := Claims(calls, k + 1);
    var a := AcceptedClaim(limits, calls, i, k + 1);
    var b := AcceptedClaim(limits, calls, k, k + 1);
    if calls[i].env.readings.utcGuard < calls[i].task.expiresAt {
      ClaimsPrefix(calls, i + 1, k);
      OneMoreClaim(limits, calls, i);
      var p := NotConsumedMeansSeenExpired(limits, rs, a, b);
      var j := CallOfClaim(calls, k + 1, p);
      EarlierCallsClaimEarlier(calls, i, j);
    } else {
      DispatchMeansAccepted(limits, calls, i);
    }
  }

  /** A call that is in order and in time, for a task that expires at 10, but for what the guard's clock reads. */
  function Orderly(taskId: string, utcGuard: real): Call {
    var readings := Readings(0.0, 1.0, 0.0, 1.0, 1.0, 0.0, utcGuard, 1.0, 0.0, 1.0, 0.0);
    Call(Task(taskId, "c", "health", "node", 0.0, 10.0), "a",
         Receipt(true, true, taskId, "c", "a", "health", "node", Some(10.0), 0.0),
         Env(readings, true, true, Yes, Reply(taskId, "node", true, true, None)))
  }

  lemma OrderlyIsLetThrough(t: Table, limits: Limits, taskId: string, utcGuard: real)
    requires ClaimOnce(t, limits, Orderly(taskId, utcGuard).Claiming()).outcome.Accepted?
    ensures var ran := Run(t, limits, Orderly(taskId, utcGuard));
            ran.dispatched && ran.table == ClaimOnce(t, limits, Orderly(taskId, utcGuard).Claiming()).table
  {
    hide ClaimOnce;
  }

  /**
   And then it happens: one reading ahead, during a call for another task, and the same key is dispatched
   twice, both times before its expiry by every reading of its own.
   */
  lemma OneReadingAheadDispatchesTwice(limits: Limits)
    requires limits.Valid()
    ensures var calls := [Orderly("t", 1.0), Orderly("u", 11.0), Orderly("t", 2.0)];
            && calls[0].Key() == calls[2].Key() != calls[1].Key()
            && DispatchedAt(limits, calls, 0) && DispatchedAt(limits, calls, 2)
  {
    hide Run;
    var calls := [Orderly("t", 1.0), Orderly("u", 11.0), Orderly("t", 2.0)];
    var key := calls[0].Key();
    assert key[2] == 't' && calls[1].Key()[2] == 'u';
    assert Purged(map[], 1.0) == map[] && HeldBy(map[], "a") == {};
    OrderlyIsLetThrough(map[], limits, "t", 1.0);
    assert TableAfter(limits, calls, 0) == map[];
    assert TableAfter(limits, calls, 1) == map[key := Claim(10.0, "a")];
    assert Purged(map[key := Claim(10.0, "a")], 11.0) == map[];
    OrderlyIsLetThrough(map[key := Claim(10.0, "a")], limits, "u", 11.0);
    assert TableAfter(limits, calls, 2) == map[];
    assert Purged(map[], 2.0) == map[];
    OrderlyIsLetThrough(map[], limits, "t", 2.0);
  }

  /** Where the accepted claim of a dispatched call stands among the claims. */
  lemma AcceptedClaim(limits: Limits, calls: seq<Call>, i: nat, n: nat) returns (p: nat)
    requires i < n <= |calls| && DispatchedAt(limits, calls, i)
    ensures p == |Claims(calls, i)| < |Claims(calls, n)| && Claims(calls, n)[p] == calls[i].Claiming()
    ensures OutcomeOf(limits, Claims(calls, n), p).Accepted?
  {
    hide Barrier, ClaimOnce, Run, After, Claims;
    DispatchMeansAccepted(limits, calls, i);
    ClaimOfCall(limits, calls, i, n);
    p := |Claims(calls, i)|;
  }

  lemma OneMoreClaim(limits: Limits, calls: seq<Call>, i: nat)
    requires i < |calls| && DispatchedAt(limits, calls, i)
    ensures |Claims(calls, i + 1)| == |Claims(calls, i)| + 1
  {
    hide Barrier, ClaimOnce, Run;
    DispatchMeansAccepted(limits, calls, i);
  }

  // ---------------------------------------------------------------- with a durable guard

  /** The keys that the first `n` calls claim of the durable guard. */
  function DurableKeys(limits: Limits, calls: seq<Call>, n: nat): seq<string>
    requires n <= |calls|
  {
    if n == 0 then []
    else DurableKeys(limits, calls, n - 1) +
         (if Barrier(calls[n - 1]).None? &&
             ClaimOnce(TableAfter(limits, calls, n - 1), limits, calls[n - 1].Claiming()).outcome.Accepted?
          then [calls[n - 1].Key()] else [])
  }

  /** The durable guard says yes only to a key that no call before has claimed of it. */
  ghost predicate DurableGuard(limits: Limits, calls: seq<Call>) {
    forall i | 0 <= i < |calls| && calls[i].env.durable.Yes? :: calls[i].Key() !in DurableKeys(limits, calls, i)
  }

  lemma {:induction false} ClaimedStays(limits: Limits, calls: seq<Call>, i: nat, n: nat, key: string)
    requires i <= n <= |calls| && key in DurableKeys(limits, calls, i)
    ensures key in DurableKeys(limits, calls, n)
    decreases n
  {
    hide Barrier, ClaimOnce;
    if i < n {
      ClaimedStays(limits, calls, i, n - 1, key);
    }
  }

  lemma DispatchClaimsDurably(limits: Limits, calls: seq<Call>, i: nat)
    requires i < |calls| && DispatchedAt(limits, calls, i)
    ensures calls[i].env.durable.Yes? && calls[i].Key() in DurableKeys(limits, calls, i + 1)
  {
    hide Barrier, ClaimOnce, Run;
    DispatchMeansAccepted(limits, calls, i);
    var keys := DurableKeys(limits, calls, i + 1);
    assert keys[|keys| - 1] == calls[i].Key();
  }

  lemma NotTwiceInOrder(limits: Limits, calls: seq<Call>, i: nat, k: nat)
    requires DurableGuard(limits, calls) && i < k < |calls| && calls[i].Key() == calls[k].Key()
    ensures !DispatchedAt(limits, calls, i) || !DispatchedAt(limits, calls, k)
  {
    hide Call.Key, DurableKeys, DispatchedAt;
    if DispatchedAt(limits, calls, i) && DispatchedAt(limits, calls, k) {
      DispatchClaimsDurably(limits, calls, i);
      DispatchClaimsDurably(limits, calls, k);
      ClaimedStays(limits, calls, i + 1, k, calls[i].Key());
    }
  }

  /** Behind a guard that never forgets, a key is dispatched at most once, whatever the clocks do. */
  lemma DispatchedAtMostOnce(limits: Limits, calls: seq<Call>, i: nat, k: nat)
    requires DurableGuard(limits, calls) && i < |calls| && k < |calls| && calls[i].Key() == calls[k].Key()
    requires DispatchedAt(limits, calls, i) && DispatchedAt(limits, calls, k)
    ensures i == k
  {
    if i < k {
      NotTwiceInOrder(limits, calls, i, k);
    } else if k < i {
      NotTwiceInOrder(limits, calls, k, i);
    }
  }
}
