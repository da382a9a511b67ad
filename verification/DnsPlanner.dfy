/**
 The planner, the batch request and the guarded application of a manifest as they run: loops that
 fill lists and take keys out of a table, and a remote zone that is written in place.
 */
module DnsPlanner {
  import opened Wrappers
  import opened DnsModel
  import opened DnsPlanFacts
  import opened DnsConvergence
  import opened DnsGuarantees

  datatype Refusal =
    | NameConflict | TooManyChanges | MissingRecordId | PlanDrifted | BoundaryDrifted | NotConverged

  const BATCH_LIMIT := 200

  type Order = (Record, Record) -> bool

  // ---------------------------------------------------------------- planning

  /** Take each current key out of the table of wanted ones; keep the records that find none. */
  method MatchSet(current: seq<Listed>, wanted: set<Record>, rollback: bool)
    returns (unmatched: seq<Listed>, exact: set<Record>)
    ensures unmatched == Unmatched(current, wanted, rollback)
    ensures exact == Unclaimed(current, wanted, rollback)
  {
    unmatched, exact := [], wanted;
    var i := 0;
    while i < |current|
      invariant i <= |current|
      invariant unmatched == Unmatched(current[..i], wanted, rollback)
      invariant exact == Unclaimed(current[..i], wanted, rollback)
    {
      assert current[..i + 1][..i] == current[..i];
      var key := PlanningKey(current[i].record, rollback);
      if key in exact {
        exact := exact - {key};
      } else {
        unmatched := unmatched + [current[i]];
      }
      i := i + 1;
    }
    assert current[..|current|] == current;
  }

  method RemainingDesired(desired: seq<Record>, exact: set<Record>, rollback: bool) returns (r: seq<Record>)
    ensures r == StillWanted(desired, exact, rollback)
  {
    r := [];
    for i := 0 to |desired|
      invariant r == StillWanted(desired[..i], exact, rollback)
    {
      assert desired[..i + 1][..i] == desired[..i];
      if PlanningKey(desired[i], rollback) in exact { r := r + [desired[i]]; }
    }
    assert desired[..|desired|] == desired;
  }

  method PairChanges(current: seq<Listed>, desired: seq<Record>) returns (changes: seq<Change>)
    ensures changes == Pair(current, desired)
  {
    var n := Min(|current|, |desired|);
    changes := [];
    for i := 0 to n
      invariant changes == seq(i, j requires 0 <= j < i => Update(current[j], desired[j]))
    {
      changes := changes + [Update(current[i], desired[i])];
    }
    ghost var updates := changes;
    for i := n to |desired|
      invariant changes == updates + seq(i - n, j requires 0 <= j < i - n => Create(desired[n + j]))
    {
      changes := changes + [Create(desired[i])];
    }
    ghost var writes := changes;
    for i := n to |current|
      invariant changes == writes + seq(i - n, j requires 0 <= j < i - n => Delete(current[n + j]))
    {
      changes := changes + [Delete(current[i])];
    }
  }

  /** The changes of one recordset. */
  method PlanSet(m: Manifest, rs: RecordSet, current: seq<Listed>, le: Order) returns (changes: seq<Change>)
    ensures changes == SetPlan(m, rs, current, le)
  {
    var currentSet := CurrentSet(m, rs, current, le);
    var desiredSet := DesiredSet(m, rs, le);
    var left, exact := MatchSet(currentSet, KeySet(desiredSet, m.rollback), m.rollback);
    var missing := RemainingDesired(desiredSet, exact, m.rollback);
    changes := PairChanges(left, missing);
  }

  method BuildPlan(m: Manifest, current: seq<Listed>, le: Order) returns (r: Result<seq<Change>, Refusal>)
    ensures r == PlanOf(m, current, le)
  {
    hide SetPlan;
    if Conflicting(m, current) { return Err(NameConflict); }
    var changes: seq<Change> := [];
    for i := 0 to |m.managed|
      invariant changes == SetPlans(m, m.managed[..i], current, le)
    {
      assert m.managed[..i + 1][..i] == m.managed[..i];
      var planned := PlanSet(m, m.managed[i], current, le);
      changes := changes + planned;
    }
    assert m.managed[..|m.managed|] == m.managed;
    return if |changes| > BATCH_LIMIT then Err(TooManyChanges) else Ok(changes);
  }

  function PlanOf(m: Manifest, current: seq<Listed>, le: Order): Result<seq<Change>, Refusal> {
    if Conflicting(m, current) then Err(NameConflict)
    else if |Changes(m, current, le)| > BATCH_LIMIT then Err(TooManyChanges)
    else Ok(Changes(m, current, le))
  }

  /**
   A forward plan is refused for a name conflict exactly when what it would make of the zone has names
   that are not clean, and otherwise for nothing but more than 200 changes.
   */
  lemma PlanAcceptedIff(z: Zone, m: Manifest, current: seq<Listed>, newIds: seq<string>, le: Order)
    requires Ready(z, m, current) && !m.rollback && FreshFor(z, BatchOf(Changes(m, current, le)), newIds)
    ensures var clean, n := CleanNames(After(z, Changes(m, current, le), newIds), m), |Changes(m, current, le)|;
            && (PlanOf(m, current, le) == Err(NameConflict) <==> !clean)
            && (PlanOf(m, current, le) == Err(TooManyChanges) <==> clean && n > 200)
            && (PlanOf(m, current, le).Ok? <==> clean && n <= 200)
  {
    hide Changes, After, Conflicting, CleanNames, Exact, SameUnmanaged;
    PlanConverges(z, m, current, le, newIds);
    AcceptedIffCleanNames(z, After(z, Changes(m, current, le), newIds), m, current);
  }

  /** Sort the changes into one request; an update or delete without a record id is refused. */
  method BuildBatch(changes: seq<Change>) returns (r: Result<Batch, Refusal>)
    ensures r == if |changes| > BATCH_LIMIT then Err(TooManyChanges)
                 else if exists c <- changes :: !c.Create? && c.before.id == "" then Err(MissingRecordId)
                 else Ok(BatchOf(changes))
  {
    if |changes| > BATCH_LIMIT { return Err(TooManyChanges); }
    var deletes, patches, posts := [], [], [];
    for i := 0 to |changes|
      invariant Batch(deletes, patches, posts) == BatchOf(changes[..i])
      invariant forall c <- changes[..i] :: !c.Create? ==> c.before.id != ""
    {
      assert changes[..i + 1][..i] == changes[..i];
      match changes[i]
      case Delete(before) =>
        if before.id == "" { return Err(MissingRecordId); }
        deletes := deletes + [before.id];
      case Update(before, after) =>
        if before.id == "" { return Err(MissingRecordId); }
        patches := patches + [(before.id, PayloadOf(after))];
      case Create(after) =>
        posts := posts + [PayloadOf(after)];
    }
    assert changes[..|changes|] == changes;
    return Ok(Batch(deletes, patches, posts));
  }

  // ---------------------------------------------------------------- the remote zone

  /** The provider's side: one zone, listed and written through the API. */
  class RemoteZone {
    var zone: Zone

    constructor (zone: Zone)
      ensures this.zone == zone
    {
      this.zone := zone;
    }

    /** Some listing of the whole zone; the order is the provider's. */
    method ListRecords() returns (current: seq<Listed>)
      ensures Lists(zone, current)
    {
      current := [];
      var ids := zone.Keys;
      while ids != {}
        invariant ids <= zone.Keys
        invariant forall x <- current :: x.id in zone && x.id !in ids && zone[x.id] == x.record
        invariant forall id <- zone.Keys - ids :: Listed(id, zone[id]) in current
        invariant forall i, j | 0 <= i < j < |current| :: current[i].id != current[j].id
        decreases |ids|
      {
        var id :| id in ids;
        current := current + [Listed(id, zone[id])];
        ids := ids - {id};
      }
    }

    /** As many new ids as asked for, longer than any in use. */
    method NewIds(n: nat) returns (ids: seq<string>)
      ensures |ids| == n && forall id <- ids :: id !in zone
      ensures forall i, j | 0 <= i < j < n :: ids[i] != ids[j]
    {
      var longest: nat := 0;
      var rest := zone.Keys;
      while rest != {}
        invariant rest <= zone.Keys
        invariant forall id <- zone.Keys - rest :: |id| <= longest
        decreases |rest|
      {
        var id :| id in rest;
        if |id| > longest { longest := |id|; }
        rest := rest - {id};
      }
      ids := [];
      for i := 0 to n
        invariant |ids| == i && forall j | 0 <= j < i :: |ids[j]| == longest + 1 + j
      {
        ids := ids + [seq(longest + 1 + i, _ => 'n')];
      }
    }

    method Send(b: Batch) returns (ghost newIds: seq<string>)
      modifies this
      ensures FreshFor(old(zone), b, newIds) && zone == ApplyBatch(old(zone), b, newIds)
    {
      var ids := NewIds(|b.posts|);
      zone := ApplyBatch(zone, b, ids);
      newIds := ids;
    }
  }

  // ---------------------------------------------------------------- applying a manifest

  predicate SameManagedListing(m: Manifest, a: seq<Listed>, b: seq<Listed>) {
    (set x <- a | Managed(m, x.record)) == (set x <- b | Managed(m, x.record))
  }

  /** A change as the fingerprint shows it: metadata appears only in a rollback plan. */
  function Shown(c: Change, rollback: bool): Change {
    match c
    case Create(after) => Create(PlanningKey(after, rollback))
    case Update(before, after) =>
      Update(before.(record := PlanningKey(before.record, rollback)), PlanningKey(after, rollback))
    case Delete(before) => Delete(before.(record := PlanningKey(before.record, rollback)))
  }

  function Fingerprint(changes: seq<Change>, rollback: bool): seq<Change> {
    seq(|changes|, i requires 0 <= i < |changes| => Shown(changes[i], rollback))
  }

  predicate Wants(m: Manifest, changes: seq<Change>) {
    forall c <- changes :: !c.Delete? ==> c.after in m.records
  }

  /** Plans with the same fingerprint send the same batch. */
  lemma {:induction false} FingerprintFixesBatch(m: Manifest, a: seq<Change>, b: seq<Change>)
    requires Loadable(m) && Wants(m, a) && Wants(m, b)
    requires Fingerprint(a, m.rollback) == Fingerprint(b, m.rollback)
    ensures BatchOf(a) == BatchOf(b)
    decreases |a|
  {
    assert |a| == |Fingerprint(a, m.rollback)| == |b|;
    if a != [] {
      var n := |a| - 1;
      forall i | 0 <= i < |a| ensures Shown(a[i], m.rollback) == Shown(b[i], m.rollback) {
        assert Fingerprint(a, m.rollback)[i] == Fingerprint(b, m.rollback)[i];
      }
      FingerprintFixesBatch(m, a[..n], b[..n]);
      assert a[n] in a && b[n] in b;
    }
  }

  lemma PlanWants(z: Zone, m: Manifest, current: seq<Listed>, le: Order)
    requires Ready(z, m, current)
    ensures Wants(m, Changes(m, current, le))
  {
    hide LeftOver, Missing, Changes;
    PlanIsReady(z, m, current, le);
    forall c <- Changes(m, current, le) | !c.Delete? ensures c.after in m.records {
      assert SetFacts(m, SetOf(c), current, le);
    }
  }

  /**
   The zone has been written as approved: at that moment its managed records were those planned from,
   and the plan had the approved fingerprint.
   */
  ghost predicate SentAs(z: Zone, z': Zone, m: Manifest, approved: seq<Change>, current: seq<Listed>, le: Order) {
    exists boundary, newIds ::
      && Lists(z, boundary) && SameManagedListing(m, boundary, current)
      && !Conflicting(m, boundary) && Fingerprint(Changes(m, boundary, le), m.rollback) == approved
      && FreshFor(z, BatchOf(Changes(m, boundary, le)), newIds)
      && z' == ApplyBatch(z, BatchOf(Changes(m, boundary, le)), newIds)
  }

  /** Nothing has drifted: the zone's managed records are those planned from, and any listing gives the plan. */
  ghost predicate Undrifted(z: Zone, m: Manifest, approved: seq<Change>, current: seq<Listed>, le: Order) {
    && "" !in z
    && forall boundary | Lists(z, boundary) ::
         && SameManagedListing(m, boundary, current) && PlanOf(m, boundary, le).Ok?
         && Fingerprint(Changes(m, boundary, le), m.rollback) == approved
  }

  /** The managed records of two zones are the same, under the same ids. */
  ghost predicate SameManagedRecords(z: Zone, z': Zone, m: Manifest) {
    && (forall id <- z | Managed(m, z[id]) :: id in z' && z'[id] == z[id])
    && (forall id <- z' | Managed(m, z'[id]) :: id in z && z[id] == z'[id])
  }

  /** The drift check on two listings tells exactly whether the managed records of their zones are the same. */
  lemma ListingsAgreeIff(z: Zone, z': Zone, m: Manifest, a: seq<Listed>, b: seq<Listed>)
    requires Lists(z, a) && Lists(z', b)
    ensures SameManagedListing(m, a, b) <==> SameManagedRecords(z, z', m)
  {
    if SameManagedListing(m, a, b) {
      ListingCarriesOver(z, z', m, a, b);
      ListingCarriesOver(z', z, m, b, a);
    } else if SameManagedRecords(z, z', m) {
      ListedCarriesOver(z, z', m, a, b);
      ListedCarriesOver(z', z, m, b, a);
    }
  }

  lemma ListingCarriesOver(z: Zone, z': Zone, m: Manifest, a: seq<Listed>, b: seq<Listed>)
    requires Lists(z, a) && Lists(z', b) && SameManagedListing(m, a, b)
    ensures forall id <- z | Managed(m, z[id]) :: id in z' && z'[id] == z[id]
  {
    var listed, relisted := set x <- a | Managed(m, x.record), set x <- b | Managed(m, x.record);
    assert listed == relisted;
    forall id <- z | Managed(m, z[id]) ensures id in z' && z'[id] == z[id] {
      assert Listed(id, z[id]) in a;
      assert Listed(id, z[id]) in listed;
    }
  }

  lemma ListedCarriesOver(z: Zone, z': Zone, m: Manifest, a: seq<Listed>, b: seq<Listed>)
    requires Lists(z, a) && Lists(z', b) && SameManagedRecords(z, z', m)
    ensures (set x <- a | Managed(m, x.record)) <= (set x <- b | Managed(m, x.record))
  {
    forall x <- a | Managed(m, x.record) ensures x in b {
      assert Listed(x.id, z'[x.id]) in b;
    }
  }

  /** What is sent is sent to a zone whose managed records are those that were planned from. */
  lemma SentToTheSame(z0: Zone, z: Zone, z': Zone, m: Manifest, approved: seq<Change>, current: seq<Listed>, le: Order)
    requires Lists(z0, current) && SentAs(z, z', m, approved, current, le)
    ensures SameManagedRecords(z0, z, m)
  {
    hide Lists, Conflicting, Changes, ApplyBatch, SameManagedListing;
    var boundary, newIds :|
      && Lists(z, boundary) && SameManagedListing(m, boundary, current)
      && !Conflicting(m, boundary) && Fingerprint(Changes(m, boundary, le), m.rollback) == approved
      && FreshFor(z, BatchOf(Changes(m, boundary, le)), newIds)
      && z' == ApplyBatch(z, BatchOf(Changes(m, boundary, le)), newIds);
    ListingsAgreeIff(z, z0, m, boundary, current);
  }

  lemma FingerprintFixesIds(a: seq<Change>, b: seq<Change>, rollback: bool, z: Zone)
    requires Fingerprint(a, rollback) == Fingerprint(b, rollback) && "" !in z
    requires forall c <- b | !c.Create? :: c.before.id in z
    ensures |a| == |b| && forall c <- a | !c.Create? :: c.before.id != ""
  {
    assert |a| == |Fingerprint(a, rollback)| == |b|;
    forall c <- a | !c.Create? ensures c.before.id != "" {
      var i :| 0 <= i < |a| && a[i] == c;
      assert Fingerprint(a, rollback)[i] == Fingerprint(b, rollback)[i];
      assert b[i] in b;
    }
  }

  lemma PlannedIdsExist(z: Zone, m: Manifest, current: seq<Listed>, le: Order)
    requires Ready(z, m, current)
    ensures forall c <- Changes(m, current, le) | !c.Create? :: c.before.id in z
  {
    hide LeftOver, Missing, Changes;
    PlanIsReady(z, m, current, le);
    forall c <- Changes(m, current, le) | !c.Create? ensures c.before.id in z {
      assert SetFacts(m, SetOf(c), current, le);
      assert c.before in current;
    }
  }

  /**
   The write: only if the managed records and the plan are still what they were, and then with
   the batch of that plan; and always if nothing has drifted.
   */
  method WriteAtBoundary(api: RemoteZone, m: Manifest, planned: seq<Change>, current: seq<Listed>, le: Order)
    returns (refused: Option<Refusal>)
    requires Loadable(m) && ZoneWellFormed(api.zone, m) && Wants(m, planned)
    modifies api
    ensures refused.Some? ==> api.zone == old(api.zone)
    ensures refused.None? ==> SentAs(old(api.zone), api.zone, m, Fingerprint(planned, m.rollback), current, le)
    ensures Undrifted(old(api.zone), m, Fingerprint(planned, m.rollback), current, le) ==> refused.None?
    ensures refused != Some(PlanDrifted)
    ensures ZoneWellFormed(api.zone, m)
    ensures refused.None? ==> SameUnmanaged(old(api.zone), api.zone, m)
    ensures refused.None? && !m.rollback ==> Exact(api.zone, m)
    ensures refused.None? ==> NoConflictsIn(api.zone, m)
  {
    hide Changes, Exact, SameUnmanaged, NoConflictsIn, Loadable, Lists, Conflicting, ApplyBatch;
    var boundary := api.ListRecords();
    if !SameManagedListing(m, boundary, current) { return Some(BoundaryDrifted); }
    var again := BuildPlan(m, boundary, le);
    if again.Err? { return Some(again.error); }
    if Fingerprint(again.value, m.rollback) != Fingerprint(planned, m.rollback) { return Some(BoundaryDrifted); }
    var batch := BuildBatch(planned);
    PlannedIdsExist(api.zone, m, boundary, le);
    if "" !in api.zone { FingerprintFixesIds(planned, again.value, m.rollback, api.zone); }
    if batch.Err? { return Some(batch.error); }
    PlanWants(api.zone, m, boundary, le);
    FingerprintFixesBatch(m, planned, again.value);
    ghost var z := api.zone;
    ghost var newIds := api.Send(batch.value);
    WriteConverges(z, m, boundary, le, newIds, api.zone);
    return None;
  }

  lemma WriteConverges(z: Zone, m: Manifest, boundary: seq<Listed>, le: Order, newIds: seq<string>, z': Zone)
    requires Ready(z, m, boundary) && !Conflicting(m, boundary)
    requires FreshFor(z, BatchOf(Changes(m, boundary, le)), newIds)
    requires z' == ApplyBatch(z, BatchOf(Changes(m, boundary, le)), newIds)
    ensures SameUnmanaged(z, z', m) && NoConflictsIn(z', m) && (!m.rollback ==> Exact(z', m))
    ensures ZoneWellFormed(z', m)
  {
    hide Changes, Exact, SameUnmanaged, Loadable, Lists, Conflicting, ApplyBatch;
    assert z' == After(z, Changes(m, boundary, le), newIds);
    PlanConverges(z, m, boundary, le, newIds);
    WrittenIsWellFormed(z, m, boundary, le, newIds);
    forall relisted | Lists(z', relisted) ensures !Conflicting(m, relisted) {
      ConflictsStay(z, z', m, boundary, relisted);
    }
  }

  /** No listing of this zone makes the planner refuse. */
  ghost predicate NoConflictsIn(z: Zone, m: Manifest) {
    forall relisted | Lists(z, relisted) :: !Conflicting(m, relisted)
  }

  lemma OneListingTells(z: Zone, m: Manifest, listing: seq<Listed>)
    requires Lists(z, listing)
    ensures NoConflictsIn(z, m) <==> !Conflicting(m, listing)
  {
    hide Conflicting, Lists;
    forall relisted | Lists(z, relisted) ensures Conflicting(m, relisted) == Conflicting(m, listing) {
      ConflictsStay(z, z, m, listing, relisted);
    }
  }

  /** The verifying plan: accepted exactly when the zone is as desired. */
  method VerifyZone(api: RemoteZone, m: Manifest, le: Order) returns (refused: Option<Refusal>)
    requires Loadable(m) && ZoneWellFormed(api.zone, m)
    ensures refused.None? ==> Exact(api.zone, m) && NoConflictsIn(api.zone, m)
    ensures Exact(api.zone, m) && NoConflictsIn(api.zone, m) ==> refused.None?
    ensures refused != Some(PlanDrifted)
  {
    var relisted := api.ListRecords();
    var plan := BuildPlan(m, relisted, le);
    NoChangesIff(api.zone, m, relisted, le);
    OneListingTells(api.zone, m, relisted);
    if plan.Err? { return Some(plan.error); }
    return if plan.value != [] then Some(NotConverged) else None;
  }

  /**
   Plan, compare with the approved fingerprint, write at the boundary, verify. `meanwhile` and
   `later` are zones that others may leave behind before the boundary and after the write. Only the
   approved plan is ever sent; success means the zone is as desired; and a forward write that nobody
   disturbs afterwards succeeds. `current` is the listing planned from, `sent` the zone right after the write.
   */
  method ApplyManifest(api: RemoteZone, m: Manifest, approved: seq<Change>, le: Order,
                       meanwhile: Option<Zone>, later: Option<Zone>)
    returns (refused: Option<Refusal>, written: bool, ghost current: seq<Listed>, ghost sent: Zone)
    requires Loadable(m) && ZoneWellFormed(api.zone, m)
    requires meanwhile.Some? ==> ZoneWellFormed(meanwhile.value, m)
    requires later.Some? ==> ZoneWellFormed(later.value, m)
    modifies api
    ensures Lists(old(api.zone), current)
    ensures refused.None? ==> Exact(api.zone, m) && NoConflictsIn(api.zone, m)
    ensures !written ==> api.zone == old(api.zone) || meanwhile == Some(api.zone)
    ensures !written && meanwhile.None? ==> api.zone == old(api.zone)
    ensures refused == Some(PlanDrifted) <==>
              PlanOf(m, current, le).Ok? && Fingerprint(Changes(m, current, le), m.rollback) != approved
    ensures written ==> approved != [] && approved == Fingerprint(Changes(m, current, le), m.rollback)
    ensures written ==>
              SentAs(if meanwhile.Some? then meanwhile.value else old(api.zone), sent, m, approved, current, le)
    ensures written && meanwhile.Some? ==> SameManagedRecords(old(api.zone), meanwhile.value, m)
    ensures written ==> api.zone == if later.Some? then later.value else sent
    ensures written && later.None? ==>
              SameUnmanaged(if meanwhile.Some? then meanwhile.value else old(api.zone), api.zone, m)
    ensures written && later.None? && !m.rollback ==> refused.None?
  {
    hide Exact, SameUnmanaged, Loadable, NoConflictsIn, Changes, SentAs, Undrifted, Lists, Conflicting;
    written := false;
    var listing := api.ListRecords();
    current, sent := listing, api.zone;
    var plan := BuildPlan(m, listing, le);
    if plan.Err? { return Some(plan.error), false, current, sent; }
    if Fingerprint(plan.value, m.rollback) != approved { return Some(PlanDrifted), false, current, sent; }
    if plan.value != [] {
      PlanWants(api.zone, m, listing, le);
      if meanwhile.Some? { api.zone := meanwhile.value; }
      var stopped := WriteAtBoundary(api, m, plan.value, listing, le);
      if stopped.Some? { return stopped, false, current, sent; }
      written, sent := true, api.zone;
      SentToTheSame(old(api.zone), if meanwhile.Some? then meanwhile.value else old(api.zone), sent, m, approved, current, le);
      if later.Some? { api.zone := later.value; }
    }
    refused := VerifyZone(api, m, le);
  }
}
