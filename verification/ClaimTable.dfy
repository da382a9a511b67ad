/**
 The claim table of the bounded, expiring replay guard: what it holds after any history of claims,
 and what that means for a key claimed more than once.
 */
module ClaimTable {
  // ---------------------------------------------------------------- data

  /** A held claim: until when, and for whom. */
  datatype Claim = Claim(expiresAt: real, actor: string)

  type Table = map<string, Claim>

  datatype Request = Request(key: string, expiresAt: real, now: real, actor: string)

  datatype Outcome = Accepted | Consumed | Full | ActorFull

  datatype Limits = Limits(maxEntries: nat, maxPerActor: nat) {
    predicate Valid() { 0 < maxEntries && 0 < maxPerActor }
  }

  datatype Decision = Decision(table: Table, outcome: Outcome)

  function Purged(t: Table, now: real): Table { map k | k in t && now < t[k].expiresAt :: t[k] }

  function HeldBy(t: Table, actor: string): set<string> { set k | k in t && t[k].actor == actor }

  function ClaimOnce(t: Table, limits: Limits, r: Request): Decision {
    var live := Purged(t, r.now);
    if r.key in live then Decision(live, Consumed)
    else if r.expiresAt <= r.now then Decision(live, Accepted)
    else if |live| >= limits.maxEntries then Decision(live, Full)
    else if |HeldBy(live, r.actor)| >= limits.maxPerActor then Decision(live, ActorFull)
    else Decision(live[r.key := Claim(r.expiresAt, r.actor)], Accepted)
  }

  // ---------------------------------------------------------------- histories

  /** The table after the first `n` claims. */
  function After(limits: Limits, rs: seq<Request>, n: nat): Table
    requires n <= |rs|
  {
    if n == 0 then map[] else ClaimOnce(After(limits, rs, n - 1), limits, rs[n - 1]).table
  }

  function OutcomeOf(limits: Limits, rs: seq<Request>, i: nat): Outcome
    requires i < |rs|
  {
    ClaimOnce(After(limits, rs, i), limits, rs[i]).outcome
  }

  /** The claim was accepted while its authorization was still good. */
  predicate Recorded(limits: Limits, rs: seq<Request>, i: nat)
    requires i < |rs|
  {
    OutcomeOf(limits, rs, i).Accepted? && rs[i].now < rs[i].expiresAt
  }

  /** No claim after the `i`-th, up to and excluding the `n`-th, was made at or past its expiry. */
  predicate NeverSeenExpired(rs: seq<Request>, i: nat, n: nat)
    requires i < n <= |rs|
  {
    forall j | i < j < n :: rs[j].now < rs[i].expiresAt
  }

  predicate Standing(limits: Limits, rs: seq<Request>, i: nat, n: nat)
    requires i < n <= |rs|
  {
    Recorded(limits, rs, i) && NeverSeenExpired(rs, i, n)
  }

  predicate Forward(rs: seq<Request>) { forall i, j | 0 <= i <= j < |rs| :: rs[i].now <= rs[j].now }

  // ---------------------------------------------------------------- what the table holds

  /** What one claim does to one key of the table. */
  lemma KeyAfterClaim(t: Table, limits: Limits, r: Request, key: string)
    ensures var d := ClaimOnce(t, limits, r);
            && (key in t && r.now < t[key].expiresAt ==> key in d.table && d.table[key] == t[key])
            && (key in d.table && !(key in t && r.now < t[key].expiresAt) ==>
                  key == r.key && d.outcome.Accepted? && r.now < r.expiresAt)
            && (d.outcome.Accepted? && r.now < r.expiresAt ==>
                  r.key in d.table && d.table[r.key] == Claim(r.expiresAt, r.actor))
            && (d.outcome.Consumed? <==> r.key in t && r.now < t[r.key].expiresAt)
  {
  }

  lemma {:induction false} StandingIsHeld(limits: Limits, rs: seq<Request>, i: nat, n: nat)
    requires i < n <= |rs| && Standing(limits, rs, i, n)
    ensures rs[i].key in After(limits, rs, n) && After(limits, rs, n)[rs[i].key] == Claim(rs[i].expiresAt, rs[i].actor)
    decreases n
  {
    hide ClaimOnce;
    KeyAfterClaim(After(limits, rs, n - 1), limits, rs[n - 1], rs[i].key);
    if i + 1 < n {
      assert NeverSeenExpired(rs, i, n - 1);
      StandingIsHeld(limits, rs, i, n - 1);
      assert rs[n - 1].now < rs[i].expiresAt;
    }
  }

  lemma {:induction false} HeldIsStanding(limits: Limits, rs: seq<Request>, n: nat, key: string) returns (i: nat)
    requires n <= |rs| && key in After(limits, rs, n)
    ensures i < n && rs[i].key == key && Standing(limits, rs, i, n)
    decreases n
  {
    hide ClaimOnce;
    var before := After(limits, rs, n - 1);
    KeyAfterClaim(before, limits, rs[n - 1], key);
    if key in before && rs[n - 1].now < before[key].expiresAt {
      i := HeldIsStanding(limits, rs, n - 1, key);
      StandingIsHeld(limits, rs, i, n - 1);
    } else {
      i := n - 1;
    }
  }

  /**
   After any history the table holds a key exactly when some recorded claim of that key has never
   been seen to expire: nothing unexpired is dropped, and nothing expired is kept past the next claim.
   */
  lemma TableIsUnexpiredHistory(limits: Limits, rs: seq<Request>, n: nat, key: string)
    requires n <= |rs|
    ensures key in After(limits, rs, n) <==> exists i: nat | i < n :: rs[i].key == key && Standing(limits, rs, i, n)
  {
    if key in After(limits, rs, n) {
      var i := HeldIsStanding(limits, rs, n, key);
    }
    if i: nat :| i < n && rs[i].key == key && Standing(limits, rs, i, n) {
      StandingIsHeld(limits, rs, i, n);
    }
  }

  predicate Within(t: Table, limits: Limits, actor: string) {
    |t| <= limits.maxEntries && |HeldBy(t, actor)| <= limits.maxPerActor
  }

  lemma PurgingShrinks(t: Table, limits: Limits, now: real, actor: string)
    requires Within(t, limits, actor)
    ensures Within(Purged(t, now), limits, actor)
  {
    Smaller(Purged(t, now).Keys, t.Keys);
    Smaller(HeldBy(Purged(t, now), actor), HeldBy(t, actor));
  }

  lemma HeldByWithOneMore(t: Table, key: string, claim: Claim, actor: string)
    requires key !in t
    ensures HeldBy(t[key := claim], actor) == HeldBy(t, actor) + (if actor == claim.actor then {key} else {})
    ensures key !in HeldBy(t, actor)
  {
  }

  lemma RoomForOneMore(t: Table, limits: Limits, key: string, claim: Claim, actor: string)
    requires Within(t, limits, actor) && key !in t
    requires |t| < limits.maxEntries && |HeldBy(t, claim.actor)| < limits.maxPerActor
    ensures Within(t[key := claim], limits, actor)
  {
    hide HeldBy;
    HeldByWithOneMore(t, key, claim, actor);
  }

  lemma ClaimKeepsWithin(t: Table, limits: Limits, r: Request, actor: string)
    requires limits.Valid() && Within(t, limits, actor)
    ensures Within(ClaimOnce(t, limits, r).table, limits, actor)
  {
    hide Purged, HeldBy, Within;
    PurgingShrinks(t, limits, r.now, actor);
    var live := Purged(t, r.now);
    if ClaimOnce(t, limits, r).table != live {
      RoomForOneMore(live, limits, r.key, Claim(r.expiresAt, r.actor), actor);
    }
  }

  lemma {:induction false} Smaller<T>(a: set<T>, b: set<T>)
    requires a <= b
    ensures |a| <= |b|
  {
    assert b == a + (b - a);
  }

  /** The bounds hold after any history. */
  lemma {:induction false} BoundsHold(limits: Limits, rs: seq<Request>, n: nat, actor: string)
    requires limits.Valid() && n <= |rs|
    ensures Within(After(limits, rs, n), limits, actor)
  {
    hide ClaimOnce, Within;
    if n == 0 {
      EmptyIsWithin(limits, actor);
    } else {
      BoundsHold(limits, rs, n - 1, actor);
      ClaimKeepsWithin(After(limits, rs, n - 1), limits, rs[n - 1], actor);
    }
  }

  lemma EmptyIsWithin(limits: Limits, actor: string)
    ensures Within(map[], limits, actor)
  {
    assert HeldBy(map[], actor) == {};
  }

  // ---------------------------------------------------------------- exclusivity

  /** A claim is refused as consumed exactly when an earlier recorded claim of its key still stands. */
  lemma ConsumedIff(limits: Limits, rs: seq<Request>, k: nat)
    requires k < |rs|
    ensures OutcomeOf(limits, rs, k).Consumed? <==>
            exists i: nat | i < k :: rs[i].key == rs[k].key && Recorded(limits, rs, i) && NeverSeenExpired(rs, i, k + 1)
  {
    hide ClaimOnce;
    KeyAfterClaim(After(limits, rs, k), limits, rs[k], rs[k].key);
    if OutcomeOf(limits, rs, k).Consumed? {
      var i := HeldIsStanding(limits, rs, k, rs[k].key);
      StandingIsHeld(limits, rs, i, k);
      assert NeverSeenExpired(rs, i, k + 1);
    }
    if i: nat :| i < k && rs[i].key == rs[k].key && Recorded(limits, rs, i) && NeverSeenExpired(rs, i, k + 1) {
      assert NeverSeenExpired(rs, i, k);
      StandingIsHeld(limits, rs, i, k);
      assert rs[k].now < rs[i].expiresAt;
    }
  }

  /** A recorded claim whose key is not refused later has been seen to expire by then. */
  lemma NotConsumedMeansSeenExpired(limits: Limits, rs: seq<Request>, i: nat, k: nat) returns (p: nat)
    requires i < k < |rs| && rs[i].key == rs[k].key
    requires Recorded(limits, rs, i) && !OutcomeOf(limits, rs, k).Consumed?
    ensures i < p <= k && rs[p].now >= rs[i].expiresAt
  {
    hide After, ClaimOnce;
    ConsumedIff(limits, rs, k);
    p :| i < p < k + 1 && !(rs[p].now < rs[i].expiresAt);
  }

  /** With a clock that never goes back, a key is accepted again only at or past the expiry of its recorded claim. */
  lemma AcceptedAgainOnlyAfterExpiry(limits: Limits, rs: seq<Request>, i: nat, k: nat)
    requires i < k < |rs| && rs[i].key == rs[k].key && Forward(rs)
    requires Recorded(limits, rs, i) && OutcomeOf(limits, rs, k).Accepted?
    ensures rs[k].now >= rs[i].expiresAt
  {
    if rs[k].now < rs[i].expiresAt {
      assert NeverSeenExpired(rs, i, k + 1);
      ConsumedIff(limits, rs, k);
      assert false;
    }
  }

  /** If each key comes with one expiry, it is accepted at most once before that expiry. */
  lemma AtMostOnceBeforeExpiry(limits: Limits, rs: seq<Request>, i: nat, k: nat)
    requires i < |rs| && k < |rs| && Forward(rs)
    requires rs[i].key == rs[k].key && rs[i].expiresAt == rs[k].expiresAt
    requires Recorded(limits, rs, i) && Recorded(limits, rs, k)
    ensures i == k
  {
    if i < k {
      AcceptedAgainOnlyAfterExpiry(limits, rs, i, k);
    } else if k < i {
      AcceptedAgainOnlyAfterExpiry(limits, rs, k, i);
    }
  }

  /** A clock that jumps ahead and back forgets a claim that is still good: the same key passes twice. */
  lemma BackwardClockForgets(limits: Limits)
    requires limits.Valid()
    ensures var rs := [Request("k", 10.0, 1.0, "a"), Request("other", 5.0, 11.0, "a"), Request("k", 10.0, 2.0, "a")];
            Recorded(limits, rs, 0) && Recorded(limits, rs, 2)
  {
    var rs := [Request("k", 10.0, 1.0, "a"), Request("other", 5.0, 11.0, "a"), Request("k", 10.0, 2.0, "a")];
    assert HeldBy(map[], "a") == {};
    assert Purged(map[], 1.0) == map[];
    assert After(limits, rs, 0) == map[];
    assert After(limits, rs, 1) == map["k" := Claim(10.0, "a")];
    assert Purged(map["k" := Claim(10.0, "a")], 11.0) == map[];
    assert After(limits, rs, 2) == map[];
    assert Purged(map[], 2.0) == map[];
  }
}
