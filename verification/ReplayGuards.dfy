/** The replay guards as objects: the expiring one of a process, and the durable one that never forgets. */
module ReplayGuards {
  import opened ClaimTable

  class ExpiringProcessReplayGuard {
    const limits: Limits
    var claimedUntil: Table

    constructor (limits: Limits)
      requires limits.Valid()
      ensures this.limits == limits && claimedUntil == After(limits, [], 0)
    {
      this.limits := limits;
      claimedUntil := map[];
    }

    method ClaimOnce(key: string, expiresAt: real, now: real, actor: string) returns (outcome: Outcome)
      modifies this
      ensures Decision(claimedUntil, outcome) ==
              ClaimTable.ClaimOnce(old(claimedUntil), limits, Request(key, expiresAt, now, actor))
    {
      ghost var before := claimedUntil;
      var unseen := claimedUntil.Keys;
      while unseen != {}
        invariant unseen <= before.Keys
        invariant claimedUntil == map k | k in before && (k in unseen || now < before[k].expiresAt) :: before[k]
        decreases |unseen|
      {
        var claimed :| claimed in unseen;
        unseen := unseen - {claimed};
        if claimedUntil[claimed].expiresAt <= now {
          claimedUntil := claimedUntil - {claimed};
        }
      }
      assert claimedUntil == Purged(before, now);

      if key in claimedUntil {
        return Consumed;
      }
      if expiresAt <= now {
        return Accepted;
      }
      if |claimedUntil| >= limits.maxEntries {
        return Full;
      }
      var actorClaims := CountFor(actor);
      if actorClaims >= limits.maxPerActor {
        return ActorFull;
      }
      claimedUntil := claimedUntil[key := Claim(expiresAt, actor)];
      outcome := Accepted;
    }

    method CountFor(actor: string) returns (n: nat)
      ensures n == |HeldBy(claimedUntil, actor)|
    {
      n := 0;
      var unseen := claimedUntil.Keys;
      ghost var counted: set<string> := {};
      while unseen != {}
        invariant unseen <= claimedUntil.Keys
        invariant counted == (set k | k in claimedUntil && k !in unseen && claimedUntil[k].actor == actor)
        invariant n == |counted|
        decreases |unseen|
      {
        var key :| key in unseen;
        unseen := unseen - {key};
        if claimedUntil[key].actor == actor {
          n := n + 1;
          counted := counted + {key};
        }
      }
      assert counted == HeldBy(claimedUntil, actor);
    }
  }

  /** The durable guard: claims are never removed, and a malformed key is an error. */
  datatype Durable = Won | Lost | InvalidKey

  predicate ValidKey(key: string, bytes: nat) { key != "" && bytes <= 1024 }

  datatype DurableClaim = DurableClaim(claims: set<string>, outcome: Durable)

  /** `bytes` is the length of the key in UTF-8. */
  function ClaimDurably(claims: set<string>, key: string, bytes: nat): DurableClaim {
    if !ValidKey(key, bytes) then DurableClaim(claims, InvalidKey)
    else if key in claims then DurableClaim(claims, Lost)
    else DurableClaim(claims + {key}, Won)
  }

  class DurableReplayGuard {
    var claims: set<string>

    constructor ()
      ensures claims == {}
    {
      claims := {};
    }

    method ClaimOnce(key: string, bytes: nat) returns (d: Durable)
      modifies this
      ensures DurableClaim(claims, d) == ClaimDurably(old(claims), key, bytes)
      ensures d.InvalidKey? <==> !ValidKey(key, bytes)
      ensures d.Won? <==> ValidKey(key, bytes) && key !in old(claims)
      ensures claims == if d.Won? then old(claims) + {key} else old(claims)
    {
      if !ValidKey(key, bytes) {
        return InvalidKey;
      }
      if key in claims {
        return Lost;
      }
      claims := claims + {key};
      d := Won;
    }
  }

  /** A durable claim as it is asked for: the key and its length in UTF-8. */
  datatype DurableAsk = DurableAsk(key: string, bytes: nat) {
    predicate Valid() { ValidKey(key, bytes) }
  }

  /** What the guard holds after the first `n` claims asked of it, malformed ones included. */
  function ClaimsAfter(asks: seq<DurableAsk>, n: nat): set<string>
    requires n <= |asks|
  {
    if n == 0 then {} else ClaimDurably(ClaimsAfter(asks, n - 1), asks[n - 1].key, asks[n - 1].bytes).claims
  }

  /** Its answer to the `i`-th. */
  function AnswerTo(asks: seq<DurableAsk>, i: nat): Durable
    requires i < |asks|
  {
    ClaimDurably(ClaimsAfter(asks, i), asks[i].key, asks[i].bytes).outcome
  }

  /** The guard holds exactly the keys of the well-formed claims, and keeps them. */
  lemma {:induction false} HeldIffAsked(asks: seq<DurableAsk>, n: nat, key: string)
    requires n <= |asks|
    ensures key in ClaimsAfter(asks, n) <==> exists j | 0 <= j < n :: asks[j].key == key && asks[j].Valid()
  {
    if n > 0 {
      HeldIffAsked(asks, n - 1, key);
      if asks[n - 1].key == key && asks[n - 1].Valid() {
        assert key in ClaimsAfter(asks, n);
      }
    }
  }

  /**
   Of all well-formed claims of a key, whatever else is asked in between, exactly the first one wins;
   the later ones lose, and a malformed one is an error that costs nobody anything.
   */
  lemma ExactlyTheFirstWins(asks: seq<DurableAsk>, i: nat)
    requires i < |asks|
    ensures AnswerTo(asks, i).InvalidKey? <==> !asks[i].Valid()
    ensures AnswerTo(asks, i).Won? <==>
            asks[i].Valid() && forall j | 0 <= j < i :: asks[j].key == asks[i].key ==> !asks[j].Valid()
    ensures asks[i].Valid() ==> exists j: nat | j <= i :: asks[j].key == asks[i].key && AnswerTo(asks, j).Won?
    decreases i
  {
    HeldIffAsked(asks, i, asks[i].key);
    if AnswerTo(asks, i).Lost? {
      var j :| 0 <= j < i && asks[j].key == asks[i].key && asks[j].Valid();
      ExactlyTheFirstWins(asks, j);
    }
  }
}
