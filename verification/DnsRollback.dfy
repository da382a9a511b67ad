/**
 The rollback round trip: a forward plan followed by the rollback plan made from the records seen
 before it leaves the zone as it was, metadata included.
 */
module DnsRollback {
  import opened DnsModel
  import opened DnsPlanFacts
  import opened DnsConvergence
  import opened DnsMinimality
  import opened DnsGuarantees

  /** The managed records of the listing, as desired records with their metadata. */
  function ManagedRecords(m: Manifest, current: seq<Listed>): seq<Record> {
    if current == [] then []
    else ManagedRecords(m, current[..|current| - 1]) +
         (if Managed(m, current[|current| - 1].record) then [current[|current| - 1].record] else [])
  }

  function RollbackManifest(m: Manifest, current: seq<Listed>): Manifest {
    Manifest(m.managed, ManagedRecords(m, current), true)
  }

  lemma {:induction false} ManagedRecordsFacts(m: Manifest, current: seq<Listed>)
    ensures forall r :: r in ManagedRecords(m, current) <==> Managed(m, r) && exists x <- current :: x.record == r
    decreases |current|
  {
    if current != [] {
      ManagedRecordsFacts(m, current[..|current| - 1]);
      assert current == current[..|current| - 1] + [current[|current| - 1]];
    }
  }

  predicate Holds(z: Zone, r: Record) { exists id <- z :: z[id] == r }

  /** The managed records of the two zones are the same, metadata included, up to their ids. */
  ghost predicate SameManaged(z: Zone, z': Zone, m: Manifest) {
    && (forall id <- z | Managed(m, z[id]) :: Holds(z', z[id]))
    && (forall id <- z' | Managed(m, z'[id]) :: Holds(z, z'[id]))
    && (forall a, b | a in z' && b in z' && a != b && Managed(m, z'[a]) :: z'[a] != z'[b])
  }

  lemma RollbackExactMeansSame(z: Zone, z': Zone, m: Manifest, current: seq<Listed>)
    requires Lists(z, current)
    ensures Exact(z', RollbackManifest(m, current)) <==> SameManaged(z, z', m)
  {
    var rb := RollbackManifest(m, current);
    ManagedRecordsFacts(m, current);
    forall r ensures r in rb.records <==> Managed(m, r) && Holds(z, r) {
      if Holds(z, r) {
        var id :| id in z && z[id] == r;
        assert Listed(id, z[id]) in current;
      }
    }
    assert forall id <- z :: Holds(z, z[id]);
    assert forall r :: PlanningKey(r, true) == r;
    if SameManaged(z, z', m) {
      forall id <- z' | Managed(m, z'[id]) ensures PlanningKey(z'[id], true) in KeySet(rb.records, true) {
        assert Holds(z, z'[id]);
      }
    }
    if Exact(z', rb) {
      forall id <- z | Managed(m, z[id]) ensures Holds(z', z[id]) {
        assert z[id] in rb.records;
      }
    }
  }

  lemma SameManagedSets(z: Zone, z': Zone, m: Manifest, rb: Manifest)
    requires rb.managed == m.managed
    ensures ZoneWellFormed(z, rb) <==> ZoneWellFormed(z, m)
    ensures SameUnmanaged(z, z', rb) <==> SameUnmanaged(z, z', m)
  {
    assert forall r :: Managed(rb, r) == Managed(m, r);
  }

  lemma UnmanagedTransitive(z: Zone, z1: Zone, z2: Zone, m: Manifest)
    ensures SameUnmanaged(z, z1, m) && SameUnmanaged(z1, z2, m) ==> SameUnmanaged(z, z2, m)
  {
  }

  // ---------------------------------------------------------------- order

  /** Metadata only breaks ties, as the last component of a lexicographic key does. */
  ghost predicate SemanticFirst(le: (Record, Record) -> bool) {
    forall a: Record, b: Record | a.Semantic() != b.Semantic() :: le(a, b) <==> le(a.Semantic(), b.Semantic())
  }

  lemma SortedSnoc<T>(xs: seq<T>, y: T, key: T -> Record, le: (Record, Record) -> bool)
    requires Sorted(xs, key, le) && forall x <- xs :: le(key(x), key(y))
    ensures Sorted(xs + [y], key, le)
  {
  }

  lemma LastIsGreatest<T>(xs: seq<T>, key: T -> Record, le: (Record, Record) -> bool)
    requires Sorted(xs, key, le) && xs != []
    ensures forall x <- xs[..|xs| - 1] :: le(key(x), key(xs[|xs| - 1]))
    ensures Sorted(xs[..|xs| - 1], key, le)
  {
  }

  lemma {:induction false} UnmatchedSorted(xs: seq<Listed>, keys: set<Record>, rollback: bool,
                                          le: (Record, Record) -> bool)
    requires Sorted(xs, ListedKey(rollback), le)
    ensures Sorted(Unmatched(xs, keys, rollback), ListedKey(rollback), le)
    ensures forall x <- Unmatched(xs, keys, rollback) :: x in xs
    decreases |xs|
  {
    if xs != [] {
      var n := |xs| - 1;
      LastIsGreatest(xs, ListedKey(rollback), le);
      UnmatchedSorted(xs[..n], keys, rollback, le);
      assert xs == xs[..n] + [xs[n]];
      SortedSnoc(Unmatched(xs[..n], keys, rollback), xs[n], ListedKey(rollback), le);
      assert Unmatched(xs[..n], keys, rollback) + [] == Unmatched(xs[..n], keys, rollback);
    }
  }

  lemma {:induction false} StillWantedSorted(xs: seq<Record>, unclaimed: set<Record>, rollback: bool,
                                            le: (Record, Record) -> bool)
    requires Sorted(xs, RecordKey(rollback), le)
    ensures Sorted(StillWanted(xs, unclaimed, rollback), RecordKey(rollback), le)
    ensures forall x <- StillWanted(xs, unclaimed, rollback) :: x in xs
    decreases |xs|
  {
    if xs != [] {
      var n := |xs| - 1;
      LastIsGreatest(xs, RecordKey(rollback), le);
      StillWantedSorted(xs[..n], unclaimed, rollback, le);
      assert xs == xs[..n] + [xs[n]];
      SortedSnoc(StillWanted(xs[..n], unclaimed, rollback), xs[n], RecordKey(rollback), le);
      assert StillWanted(xs[..n], unclaimed, rollback) + [] == StillWanted(xs[..n], unclaimed, rollback);
    }
  }

  lemma PlanSorted(m: Manifest, rs: RecordSet, current: seq<Listed>, le: (Record, Record) -> bool)
    requires TotalOrder(le)
    ensures Sorted(LeftOver(m, rs, current, le), ListedKey(m.rollback), le)
    ensures Sorted(Missing(m, rs, current, le), RecordKey(m.rollback), le)
  {
    hide TotalOrder;
    SortSorts(InSet(current, rs), ListedKey(m.rollback), le);
    SortSorts(RecordsInSet(m.records, rs), RecordKey(m.rollback), le);
    var keys := KeySet(DesiredSet(m, rs, le), m.rollback);
    UnmatchedSorted(CurrentSet(m, rs, current, le), keys, m.rollback, le);
    StillWantedSorted(DesiredSet(m, rs, le), Unclaimed(CurrentSet(m, rs, current, le), keys, m.rollback), m.rollback, le);
  }

  // ---------------------------------------------------------------- membership of the diff

  lemma LeftOverIff(m: Manifest, rs: RecordSet, current: seq<Listed>, le: (Record, Record) -> bool, x: Listed)
    requires NoDup(m.records) && NoDup(current) && x in current && x.record.Set() == rs
    requires forall y <- current | y.record.Set() == rs && y != x ::
               PlanningKey(y.record, m.rollback) != PlanningKey(x.record, m.rollback)
    ensures x in LeftOver(m, rs, current, le) <==>
            forall d <- m.records :: PlanningKey(d, m.rollback) != PlanningKey(x.record, m.rollback)
  {
    var cur, des := CurrentSet(m, rs, current, le), DesiredSet(m, rs, le);
    SetMembers(m, rs, current, le);
    var keys := KeySet(des, m.rollback);
    UnmatchedFacts(cur, keys, m.rollback);
    var i :| 0 <= i < |cur| && cur[i] == x;
    UnclaimedFacts(cur[..i], keys, m.rollback);
    forall y <- cur[..i] ensures PlanningKey(y.record, m.rollback) != PlanningKey(x.record, m.rollback) {
      assert y in cur && y != x;
    }
    forall d <- m.records | PlanningKey(d, m.rollback) == PlanningKey(x.record, m.rollback) ensures d in des { }
  }

  lemma MissingIff(m: Manifest, rs: RecordSet, current: seq<Listed>, le: (Record, Record) -> bool, d: Record)
    requires NoDup(m.records) && NoDup(current)
    ensures d in Missing(m, rs, current, le) <==>
            d in m.records && d.Set() == rs &&
            forall x <- current :: PlanningKey(x.record, m.rollback) != PlanningKey(d, m.rollback)
  {
    var cur, des := CurrentSet(m, rs, current, le), DesiredSet(m, rs, le);
    SetMembers(m, rs, current, le);
    var keys := KeySet(des, m.rollback);
    UnclaimedFacts(cur, keys, m.rollback);
    StillWantedFacts(des, Unclaimed(cur, keys, m.rollback), m.rollback);
    if d in des {
      forall x <- current | PlanningKey(x.record, m.rollback) == PlanningKey(d, m.rollback) ensures x in cur { }
    }
  }

  // ---------------------------------------------------------------- the rollback plan mirrors the forward plan

  lemma {:induction false} RecordsApart(m: Manifest, current: seq<Listed>)
    requires DistinctSemantics(ManagedRecords(m, current))
    ensures forall i, j | 0 <= i < j < |current| && Managed(m, current[i].record) && Managed(m, current[j].record) ::
              current[i].record.Semantic() != current[j].record.Semantic()
    decreases |current|
  {
    if current != [] {
      var n := |current| - 1;
      var init := ManagedRecords(m, current[..n]);
      assert forall i | 0 <= i < |init| :: init[i] == ManagedRecords(m, current)[i];
      RecordsApart(m, current[..n]);
      if Managed(m, current[n].record) {
        assert ManagedRecords(m, current)[|init|] == current[n].record;
        ManagedRecordsFacts(m, current[..n]);
        forall i | 0 <= i < n && Managed(m, current[i].record)
          ensures current[i].record.Semantic() != current[n].record.Semantic()
        {
          assert current[..n][i] in current[..n];
          var p :| 0 <= p < |init| && init[p] == current[i].record;
          assert ManagedRecords(m, current)[p].Semantic() != ManagedRecords(m, current)[|init|].Semantic();
        }
      }
    }
  }

  /** A forward plan has been sent and converged; `relisted` lists what it left behind. */
  ghost predicate Between(z: Zone, m: Manifest, current: seq<Listed>, newIds: seq<string>, z1: Zone,
                          relisted: seq<Listed>, le: (Record, Record) -> bool)
  {
    && Sent(z, m, current, le, newIds, z1) && Exact(z1, m) && !m.rollback
    && Loadable(RollbackManifest(m, current)) && Lists(z1, relisted)
    && TotalOrder(le) && SemanticFirst(le)
  }

  /** In both listings, managed records have different semantic keys. */
  ghost predicate Apart(m: Manifest, xs: seq<Listed>) {
    NoDup(xs) && forall x <- xs, y <- xs | x != y && Managed(m, x.record) && x.record.Set() == y.record.Set() ::
      x.record.Semantic() != y.record.Semantic()
  }

  lemma BothApart(z: Zone, m: Manifest, current: seq<Listed>, newIds: seq<string>, z1: Zone,
                  relisted: seq<Listed>, le: (Record, Record) -> bool)
    requires Between(z, m, current, newIds, z1, relisted, le)
    ensures Apart(m, current) && Apart(m, relisted)
  {
    hide Sent, TotalOrder, SemanticFirst;
    ListedOnce(z, m, current, le, newIds, z1);
    RecordsApart(m, current);
    forall x <- current, y <- current | x != y && Managed(m, x.record) && x.record.Set() == y.record.Set()
      ensures x.record.Semantic() != y.record.Semantic()
    {
      var i :| 0 <= i < |current| && current[i] == x;
      var j :| 0 <= j < |current| && current[j] == y;
    }
    forall x <- relisted, y <- relisted | x != y && Managed(m, x.record) && x.record.Set() == y.record.Set()
      ensures x.record.Semantic() != y.record.Semantic()
    {
      assert z1[x.id] == x.record && z1[y.id] == y.record;
    }
  }

  lemma ListedOnce(z: Zone, m: Manifest, current: seq<Listed>, le: (Record, Record) -> bool,
                   newIds: seq<string>, z': Zone)
    requires Sent(z, m, current, le, newIds, z')
    ensures NoDup(current) && Lists(z, current) && Loadable(m)
  {
    hide Changes, LeftOver, Missing;
  }

  /** The rollback misses exactly the records that the forward plan overwrote or deleted. */
  lemma LeftOverIsMissing(z: Zone, m: Manifest, current: seq<Listed>, newIds: seq<string>, z1: Zone,
                            relisted: seq<Listed>, le: (Record, Record) -> bool, rs: RecordSet, d: Record)
    requires Between(z, m, current, newIds, z1, relisted, le) && rs in m.managed
    requires exists x <- LeftOver(m, rs, current, le) :: x.record == d
    ensures d in Missing(RollbackManifest(m, current), rs, relisted, le)
  {
    hide Sent, LeftOver, Missing, TotalOrder, SemanticFirst, Changes;
    var rb := RollbackManifest(m, current);
    BothApart(z, m, current, newIds, z1, relisted, le);
    ListedOnce(z, m, current, le, newIds, z1);
    LoadableDistinct(m);
    LoadableDistinct(rb);
    ManagedRecordsFacts(m, current);
    MissingIff(rb, rs, relisted, le, d);
    SetFactsHold(m, rs, current, le);
    var x :| x in LeftOver(m, rs, current, le) && x.record == d;
    LeftOverIff(m, rs, current, le, x);
    forall y <- relisted ensures y.record != d { assert z1[y.id] == y.record; }
  }

  lemma MissingIsLeftOver(z: Zone, m: Manifest, current: seq<Listed>, newIds: seq<string>, z1: Zone,
                            relisted: seq<Listed>, le: (Record, Record) -> bool, rs: RecordSet, d: Record)
    requires Between(z, m, current, newIds, z1, relisted, le) && rs in m.managed
    requires d in Missing(RollbackManifest(m, current), rs, relisted, le)
    ensures exists x <- LeftOver(m, rs, current, le) :: x.record == d
  {
    hide Sent, LeftOver, Missing, TotalOrder, SemanticFirst, Changes;
    var rb := RollbackManifest(m, current);
    BothApart(z, m, current, newIds, z1, relisted, le);
    LoadableDistinct(rb);
    ManagedRecordsFacts(m, current);
    MissingIff(rb, rs, relisted, le, d);
    var x :| x in current && x.record == d;
    if x !in LeftOver(m, rs, current, le) {
      KeptIsListed(z, m, current, newIds, z1, relisted, le, x);
    }
  }

  lemma MissingMirrorsLeftOver(z: Zone, m: Manifest, current: seq<Listed>, newIds: seq<string>, z1: Zone,
                               relisted: seq<Listed>, le: (Record, Record) -> bool, rs: RecordSet, d: Record)
    requires Between(z, m, current, newIds, z1, relisted, le) && rs in m.managed
    ensures d in Missing(RollbackManifest(m, current), rs, relisted, le) <==>
            exists x <- LeftOver(m, rs, current, le) :: x.record == d
  {
    hide Between, LeftOver, Missing;
    if exists x <- LeftOver(m, rs, current, le) :: x.record == d {
      LeftOverIsMissing(z, m, current, newIds, z1, relisted, le, rs, d);
    }
    if d in Missing(RollbackManifest(m, current), rs, relisted, le) {
      MissingIsLeftOver(z, m, current, newIds, z1, relisted, le, rs, d);
    }
  }

  lemma KeptIsListed(z: Zone, m: Manifest, current: seq<Listed>, newIds: seq<string>, z1: Zone,
                     relisted: seq<Listed>, le: (Record, Record) -> bool, x: Listed)
    requires Between(z, m, current, newIds, z1, relisted, le)
    requires Kept(m, x, current, le)
    ensures x in relisted
  {
    hide LeftOver, Missing, Changes, TotalOrder, SemanticFirst;
    UntouchedIsKept(z, m, current, le, newIds, z1, x.id);
    assert Listed(x.id, z1[x.id]) in relisted;
  }

  /** The rollback leaves over exactly the records that the forward plan wrote. */
  lemma LeftOverMirrorsMissing(z: Zone, m: Manifest, current: seq<Listed>, newIds: seq<string>, z1: Zone,
                               relisted: seq<Listed>, le: (Record, Record) -> bool, rs: RecordSet, y: Listed, d: Record)
    requires Between(z, m, current, newIds, z1, relisted, le) && rs in m.managed
    requires y in relisted && d in m.records && y.record.Set() == rs && y.record.Semantic() == d.Semantic()
    ensures y in LeftOver(RollbackManifest(m, current), rs, relisted, le) <==> d in Missing(m, rs, current, le)
  {
    hide Sent, LeftOver, Missing, TotalOrder, SemanticFirst, Changes;
    var rb := RollbackManifest(m, current);
    BothApart(z, m, current, newIds, z1, relisted, le);
    ListedOnce(z, m, current, le, newIds, z1);
    LoadableDistinct(m);
    LoadableDistinct(rb);
    ManagedRecordsFacts(m, current);
    LeftOverIff(rb, rs, relisted, le, y);
    MissingIff(m, rs, current, le, d);
    if x :| x in current && x.record.Semantic() == d.Semantic() {
      LeftOverIff(m, rs, current, le, x);
      KeptIsListed(z, m, current, newIds, z1, relisted, le, x);
      assert y == x && x.record in rb.records;
    }
  }

  function RecordsOf(xs: seq<Listed>): seq<Record> {
    seq(|xs|, i requires 0 <= i < |xs| => xs[i].record)
  }

  function SemanticsOf(xs: seq<Listed>): seq<Record> {
    seq(|xs|, i requires 0 <= i < |xs| => xs[i].record.Semantic())
  }

  /** Two sortings of the same records, where different records differ in more than metadata. */
  lemma SameSorted(xs: seq<Record>, ys: seq<Record>, le: (Record, Record) -> bool, rollback: bool)
    requires TotalOrder(le) && NoDup(xs) && NoDup(ys) && forall r :: r in xs <==> r in ys
    requires Sorted(xs, RecordKey(rollback), le) && Sorted(ys, RecordKey(rollback), le)
    requires forall a <- xs, b <- ys | a != b :: a.Semantic() != b.Semantic()
    ensures xs == ys
  {
    SameElementsSameBag(xs, ys);
    forall a <- xs, b <- ys | a != b ensures RecordKey(rollback)(a) != RecordKey(rollback)(b) {
      assert a.Semantic() != b.Semantic();
      if rollback { assert RecordKey(rollback)(a) == a && RecordKey(rollback)(b) == b; }
    }
    SortedOnce(xs, ys, RecordKey(rollback), le);
  }

  /** Sorted without metadata is sorted with it, and the other way round, where semantics differ. */
  lemma SortedEitherWay(xs: seq<Listed>, le: (Record, Record) -> bool)
    requires SemanticFirst(le)
    requires forall i, j | 0 <= i < j < |xs| :: xs[i].record.Semantic() != xs[j].record.Semantic()
    ensures Sorted(xs, ListedKey(false), le) ==> Sorted(RecordsOf(xs), RecordKey(true), le)
    ensures Sorted(xs, ListedKey(true), le) ==> Sorted(SemanticsOf(xs), RecordKey(false), le)
  {
    forall i, j | 0 <= i < j < |xs|
      ensures le(xs[i].record, xs[j].record) <==> le(xs[i].record.Semantic(), xs[j].record.Semantic())
    {
      assert xs[i].record.Semantic() != xs[j].record.Semantic();
    }
    assert forall x: Listed :: ListedKey(true)(x) == x.record;
    assert forall x: Listed :: ListedKey(false)(x) == x.record.Semantic();
    assert forall r: Record :: RecordKey(true)(r) == r && RecordKey(false)(r) == r.Semantic();
  }

  lemma LeftOverApart(m: Manifest, rs: RecordSet, current: seq<Listed>, le: (Record, Record) -> bool, plan: Manifest)
    requires Apart(m, current) && rs in m.managed && plan.managed == m.managed
    requires SetFacts(plan, rs, current, le)
    ensures var left := LeftOver(plan, rs, current, le);
            forall i, j | 0 <= i < j < |left| :: left[i].record.Semantic() != left[j].record.Semantic()
  {
    hide LeftOver, Missing;
    var left := LeftOver(plan, rs, current, le);
    forall i, j | 0 <= i < j < |left| ensures left[i].record.Semantic() != left[j].record.Semantic() {
      assert left[i] in left && left[j] in left;
    }
  }

  /** Recordset by recordset, what the rollback has to write is what the forward plan took away, in order. */
  lemma MissingSequence(z: Zone, m: Manifest, current: seq<Listed>, newIds: seq<string>, z1: Zone,
                        relisted: seq<Listed>, le: (Record, Record) -> bool, rs: RecordSet)
    requires Between(z, m, current, newIds, z1, relisted, le) && rs in m.managed
    ensures Missing(RollbackManifest(m, current), rs, relisted, le) == RecordsOf(LeftOver(m, rs, current, le))
  {
    hide Sent, LeftOver, Missing, Sorted, SemanticFirst, TotalOrder, Apart, Loadable, RollbackManifest;
    var rb := RollbackManifest(m, current);
    var left, missing := LeftOver(m, rs, current, le), Missing(rb, rs, relisted, le);
    BetweenFacts(z, m, current, newIds, z1, relisted, le, rs);
    PlanSorted(m, rs, current, le);
    PlanSorted(rb, rs, relisted, le);
    LeftOverApart(m, rs, current, le, m);
    SortedEitherWay(left, le);
    RecordsDiffer(left);
    forall d ensures d in RecordsOf(left) <==> d in missing {
      MissingMirrorsLeftOver(z, m, current, newIds, z1, relisted, le, rs, d);
      InRecordsOf(left, d);
    }
    RecordsOfApart(left, missing);
    SameSorted(RecordsOf(left), missing, le, true);
  }

  lemma InRecordsOf(xs: seq<Listed>, d: Record)
    ensures d in RecordsOf(xs) <==> exists x <- xs :: x.record == d
    ensures d in SemanticsOf(xs) <==> exists x <- xs :: x.record.Semantic() == d
  {
    if x :| x in xs && x.record == d {
      var i :| 0 <= i < |xs| && xs[i] == x;
      assert RecordsOf(xs)[i] == d;
    }
    if x :| x in xs && x.record.Semantic() == d {
      var i :| 0 <= i < |xs| && xs[i] == x;
      assert SemanticsOf(xs)[i] == d;
    }
  }

  lemma RecordsDiffer(xs: seq<Listed>)
    requires forall i, j | 0 <= i < j < |xs| :: xs[i].record.Semantic() != xs[j].record.Semantic()
    ensures NoDup(RecordsOf(xs)) && NoDup(SemanticsOf(xs))
  {
  }

  lemma RecordsOfApart(xs: seq<Listed>, ys: seq<Record>)
    requires forall i, j | 0 <= i < j < |xs| :: xs[i].record.Semantic() != xs[j].record.Semantic()
    requires forall d :: d in RecordsOf(xs) <==> d in ys
    ensures forall a <- RecordsOf(xs), b <- ys | a != b :: a.Semantic() != b.Semantic()
  {
    forall a <- RecordsOf(xs), b <- ys | a != b ensures a.Semantic() != b.Semantic() {
      assert b in RecordsOf(xs);
      var i :| 0 <= i < |xs| && RecordsOf(xs)[i] == a;
      var j :| 0 <= j < |xs| && RecordsOf(xs)[j] == b;
      assert i != j;
    }
  }

  lemma BetweenFacts(z: Zone, m: Manifest, current: seq<Listed>, newIds: seq<string>, z1: Zone,
                     relisted: seq<Listed>, le: (Record, Record) -> bool, rs: RecordSet)
    requires Between(z, m, current, newIds, z1, relisted, le) && rs in m.managed
    ensures TotalOrder(le) && SemanticFirst(le) && Apart(m, current) && Apart(m, relisted)
    ensures !m.rollback && RollbackManifest(m, current).rollback && RollbackManifest(m, current).managed == m.managed
    ensures SetFacts(m, rs, current, le) && SetFacts(RollbackManifest(m, current), rs, relisted, le)
    ensures Loadable(m) && Lists(z1, relisted) && Exact(z1, m)
  {
    hide SetFacts, TotalOrder, SemanticFirst;
    BothApart(z, m, current, newIds, z1, relisted, le);
    ListedOnce(z, m, current, le, newIds, z1);
    LoadableDistinct(m);
    LoadableDistinct(RollbackManifest(m, current));
    SetFactsHold(m, rs, current, le);
    SetFactsHold(RollbackManifest(m, current), rs, relisted, le);
  }

  lemma LeftOverSequence(z: Zone, m: Manifest, current: seq<Listed>, newIds: seq<string>, z1: Zone,
                         relisted: seq<Listed>, le: (Record, Record) -> bool, rs: RecordSet)
    requires Between(z, m, current, newIds, z1, relisted, le) && rs in m.managed
    ensures SemanticsOf(LeftOver(RollbackManifest(m, current), rs, relisted, le)) == Missing(m, rs, current, le)
  {
    hide Sent, LeftOver, Missing, Sorted, SemanticFirst, TotalOrder, Apart, RollbackManifest;
    var rb := RollbackManifest(m, current);
    var left, missing := LeftOver(rb, rs, relisted, le), Missing(m, rs, current, le);
    BetweenFacts(z, m, current, newIds, z1, relisted, le, rs);
    PlanSorted(m, rs, current, le);
    PlanSorted(rb, rs, relisted, le);
    LeftOverApart(m, rs, relisted, le, rb);
    SortedEitherWay(left, le);
    RecordsDiffer(left);
    forall d ensures d in SemanticsOf(left) <==> d in missing {
      SemanticMirrors(z, m, current, newIds, z1, relisted, le, rs, d);
      InRecordsOf(left, d);
    }
    SameSemantics(left, missing);
    SameSorted(SemanticsOf(left), missing, le, false);
  }

  lemma SameSemantics(xs: seq<Listed>, ys: seq<Record>)
    requires forall d :: d in SemanticsOf(xs) <==> d in ys
    ensures forall a <- SemanticsOf(xs), b <- ys | a != b :: a.Semantic() != b.Semantic()
  {
    forall b <- ys ensures b.Semantic() == b { assert b in SemanticsOf(xs); }
  }

  lemma SemanticMirrors(z: Zone, m: Manifest, current: seq<Listed>, newIds: seq<string>, z1: Zone,
                        relisted: seq<Listed>, le: (Record, Record) -> bool, rs: RecordSet, d: Record)
    requires Between(z, m, current, newIds, z1, relisted, le) && rs in m.managed
    ensures (exists y <- LeftOver(RollbackManifest(m, current), rs, relisted, le) :: y.record.Semantic() == d) <==>
            d in Missing(m, rs, current, le)
  {
    hide Sent, LeftOver, Missing, SemanticFirst, TotalOrder, Apart, RollbackManifest;
    var rb := RollbackManifest(m, current);
    BetweenFacts(z, m, current, newIds, z1, relisted, le, rs);
    if y :| y in LeftOver(rb, rs, relisted, le) && y.record.Semantic() == d {
      assert z1[y.id] == y.record;
      var e := ManagedIsDesired(z1, m, y.id);
      assert e == e.Semantic() == d;
      LeftOverMirrorsMissing(z, m, current, newIds, z1, relisted, le, rs, y, d);
    }
    if d in Missing(m, rs, current, le) {
      var id :| id in z1 && PlanningKey(z1[id], false) == PlanningKey(d, false);
      var y := Listed(id, z1[id]);
      assert y in relisted && d.Semantic() == d;
      LeftOverMirrorsMissing(z, m, current, newIds, z1, relisted, le, rs, y, d);
    }
  }

  // ---------------------------------------------------------------- the round trip

  lemma {:induction false} InSetPlans(m: Manifest, sets: seq<RecordSet>, current: seq<Listed>,
                                     le: (Record, Record) -> bool, c: Change)
    ensures c in SetPlans(m, sets, current, le) <==> exists rs <- sets :: c in SetPlan(m, rs, current, le)
    decreases |sets|
  {
    hide SetPlan;
    if sets != [] {
      var n := |sets| - 1;
      InSetPlans(m, sets[..n], current, le, c);
      assert sets == sets[..n] + [sets[n]];
    }
  }

  /** The overwrites of the rollback undo the overwrites of the forward plan, record by record. */
  lemma RollbackUndoes(z: Zone, m: Manifest, current: seq<Listed>, newIds: seq<string>, z1: Zone,
                       relisted: seq<Listed>, le: (Record, Record) -> bool, rs: RecordSet, i: nat)
    requires Between(z, m, current, newIds, z1, relisted, le) && rs in m.managed
    requires i < |LeftOver(m, rs, current, le)| && i < |Missing(m, rs, current, le)|
    ensures var rb := RollbackManifest(m, current);
            var left := LeftOver(rb, rs, relisted, le);
            && |left| == |Missing(m, rs, current, le)|
            && |Missing(rb, rs, relisted, le)| == |LeftOver(m, rs, current, le)|
            && left[i].id == LeftOver(m, rs, current, le)[i].id
            && left[i].record.meta == Missing(rb, rs, relisted, le)[i].meta
            && Missing(rb, rs, relisted, le)[i] == LeftOver(m, rs, current, le)[i].record
  {
    hide Sent, LeftOver, Missing, SemanticFirst, TotalOrder, Apart, RollbackManifest, SetFacts, Loadable;
    var rb := RollbackManifest(m, current);
    MissingSequence(z, m, current, newIds, z1, relisted, le, rs);
    LeftOverSequence(z, m, current, newIds, z1, relisted, le, rs);
    BetweenFacts(z, m, current, newIds, z1, relisted, le, rs);
    var x, d := LeftOver(m, rs, current, le)[i], Missing(m, rs, current, le)[i];
    var y := LeftOver(rb, rs, relisted, le)[i];
    assert SemanticsOf(LeftOver(rb, rs, relisted, le))[i] == d;
    Overwritten(z, m, current, newIds, z1, le, rs, i);
    LeftOverIsListed(rb, rs, relisted, le, y);
    assert z1[y.id] == y.record && y.record.Set() == rs;
    assert Managed(m, z1[y.id]);
    assert PlanningKey(z1[y.id], false) == PlanningKey(z1[x.id], false);
  }

  lemma LeftOverIsListed(m: Manifest, rs: RecordSet, current: seq<Listed>, le: (Record, Record) -> bool, x: Listed)
    requires SetFacts(m, rs, current, le) && x in LeftOver(m, rs, current, le)
    ensures x in current && x.record.Set() == rs
  {
    hide LeftOver, Missing;
  }

  lemma PairedIsPlanned(m: Manifest, current: seq<Listed>, le: (Record, Record) -> bool, rs: RecordSet, i: nat)
    requires rs in m.managed
    requires i < |LeftOver(m, rs, current, le)| && i < |Missing(m, rs, current, le)|
    ensures Update(LeftOver(m, rs, current, le)[i], Missing(m, rs, current, le)[i]) in Changes(m, current, le)
  {
    hide LeftOver, Missing;
    var c := Update(LeftOver(m, rs, current, le)[i], Missing(m, rs, current, le)[i]);
    assert SetPlan(m, rs, current, le)[i] == c;
    InSetPlans(m, m.managed, current, le, c);
  }

  lemma Overwritten(z: Zone, m: Manifest, current: seq<Listed>, newIds: seq<string>, z1: Zone,
                    le: (Record, Record) -> bool, rs: RecordSet, i: nat)
    requires Sent(z, m, current, le, newIds, z1) && !m.rollback && rs in m.managed
    requires i < |LeftOver(m, rs, current, le)| && i < |Missing(m, rs, current, le)|
    ensures var x, d := LeftOver(m, rs, current, le)[i], Missing(m, rs, current, le)[i];
            x.id in z1 && z1[x.id].Semantic() == d.Semantic() == d && z1[x.id].meta == x.record.meta
  {
    hide Sent, LeftOver, Missing, Changes;
    var x, d := LeftOver(m, rs, current, le)[i], Missing(m, rs, current, le)[i];
    PairedIsPlanned(m, current, le, rs, i);
    UpdateFacts(z, m, current, le, newIds, z1, Update(x, d));
    WrittenKey(x.record, d, false);
    NoMetadataWanted(z, m, current, le, newIds, z1, d);
    assert x.record.meta + map[] == x.record.meta;
  }

  lemma NoMetadataWanted(z: Zone, m: Manifest, current: seq<Listed>, le: (Record, Record) -> bool,
                         newIds: seq<string>, z1: Zone, d: Record)
    requires Sent(z, m, current, le, newIds, z1) && !m.rollback && d in m.records
    ensures d.meta == map[] && d.Semantic() == d
  {
    hide Written, PlanReady, Lists, ZoneWellFormed, DistinctKeys;
  }

  lemma RollbackCovered(z: Zone, m: Manifest, current: seq<Listed>, newIds: seq<string>, z1: Zone,
                        relisted: seq<Listed>, le: (Record, Record) -> bool, c: Change)
    requires Between(z, m, current, newIds, z1, relisted, le)
    requires c in Changes(RollbackManifest(m, current), relisted, le)
    ensures Covered(c)
  {
    hide Between, LeftOver, Missing;
    var rb := RollbackManifest(m, current);
    InSetPlans(rb, rb.managed, relisted, le, c);
    var rs :| rs in rb.managed && c in SetPlan(rb, rs, relisted, le);
    if c.Update? {
      var left, missing := LeftOver(rb, rs, relisted, le), Missing(rb, rs, relisted, le);
      var i :| 0 <= i < |left| && i < |missing| && c == Update(left[i], missing[i]);
      MissingSequence(z, m, current, newIds, z1, relisted, le, rs);
      LeftOverSequence(z, m, current, newIds, z1, relisted, le, rs);
      RollbackUndoes(z, m, current, newIds, z1, relisted, le, rs, i);
    }
  }

  /** The recorded state forms a loadable manifest, and the provider has ids for what both plans create. */
  ghost predicate RollbackReady(z: Zone, m: Manifest, current: seq<Listed>, newIds: seq<string>,
                                relisted: seq<Listed>, newIds': seq<string>, le: (Record, Record) -> bool)
  {
    && Ready(z, m, current) && !m.rollback && TotalOrder(le) && SemanticFirst(le)
    && FreshFor(z, BatchOf(Changes(m, current, le)), newIds)
    && var rb := RollbackManifest(m, current);
    && Loadable(rb)
    && var z1 := After(z, Changes(m, current, le), newIds);
    && Lists(z1, relisted) && FreshFor(z1, BatchOf(Changes(rb, relisted, le)), newIds')
  }

  lemma ForwardReaches(z: Zone, m: Manifest, current: seq<Listed>, newIds: seq<string>,
                       relisted: seq<Listed>, newIds': seq<string>, le: (Record, Record) -> bool)
    requires RollbackReady(z, m, current, newIds, relisted, newIds', le)
    ensures var z1 := After(z, Changes(m, current, le), newIds);
            && Between(z, m, current, newIds, z1, relisted, le) && SameUnmanaged(z, z1, m)
            && Ready(z1, RollbackManifest(m, current), relisted)
  {
    hide Changes, After, Sent, Exact, SameUnmanaged, Loadable, Lists, ZoneWellFormed, TotalOrder, SemanticFirst;
    var z1 := After(z, Changes(m, current, le), newIds);
    SentHolds(z, m, current, le, newIds);
    PlanConverges(z, m, current, le, newIds);
    ExactIsWellFormed(z1, m);
    SameManagedSets(z1, z1, m, RollbackManifest(m, current));
  }

  /**
   A forward plan, then the changes that the records seen before it call for, sent: the managed records
   are back, fields and metadata, and the unmanaged ones never changed. Whether the planner lets the
   second plan through is another matter, settled in DnsRollbackAcceptance.
   */
  lemma RollbackRestores(z: Zone, m: Manifest, current: seq<Listed>, newIds: seq<string>,
                         relisted: seq<Listed>, newIds': seq<string>, le: (Record, Record) -> bool)
    requires RollbackReady(z, m, current, newIds, relisted, newIds', le)
    ensures var z1 := After(z, Changes(m, current, le), newIds);
            var z2 := After(z1, Changes(RollbackManifest(m, current), relisted, le), newIds');
            SameManaged(z, z2, m) && SameUnmanaged(z, z2, m)
  {
    ForwardReaches(z, m, current, newIds, relisted, newIds', le);
    hide Changes, After, Between, Exact, SameManaged, SameUnmanaged, Loadable, Lists, ZoneWellFormed, TotalOrder, SemanticFirst;
    var rb := RollbackManifest(m, current);
    var z1 := After(z, Changes(m, current, le), newIds);
    var z2 := After(z1, Changes(rb, relisted, le), newIds');
    forall c <- Changes(rb, relisted, le) ensures Covered(c) {
      RollbackCovered(z, m, current, newIds, z1, relisted, le, c);
    }
    PlanConverges(z1, rb, relisted, le, newIds');
    SameManagedSets(z1, z2, m, rb);
    UnmanagedTransitive(z, z1, z2, m);
    RollbackExactMeansSame(z, z2, m, current);
  }
}
