/**
 What follows for the zone: planning again after a write finds nothing to do, and names end up
 free of the conflicts the planner checks for.
 */
module DnsGuarantees {
  import opened DnsModel
  import opened DnsPlanFacts
  import opened DnsConvergence

  // ---------------------------------------------------------------- planning again

  lemma ExactIsWellFormed(z: Zone, m: Manifest)
    requires Loadable(m) && Exact(z, m)
    ensures ZoneWellFormed(z, m)
  {
    forall id <- z | Managed(m, z[id]) ensures z[id].WellFormed() {
      var d :| d in m.records && PlanningKey(d, m.rollback) == PlanningKey(z[id], m.rollback);
      assert d.Semantic() == z[id].Semantic();
    }
  }

  /** Writing a plan keeps the managed records well-formed, converged or not. */
  lemma WrittenIsWellFormed(z: Zone, m: Manifest, current: seq<Listed>, le: (Record, Record) -> bool,
                            newIds: seq<string>)
    requires Ready(z, m, current) && FreshFor(z, BatchOf(Changes(m, current, le)), newIds)
    ensures ZoneWellFormed(After(z, Changes(m, current, le), newIds), m)
  {
    hide Changes, After, Sent;
    SentHolds(z, m, current, le, newIds);
    var z' := After(z, Changes(m, current, le), newIds);
    forall id <- z' | Managed(m, z'[id]) ensures z'[id].WellFormed() {
      WrittenOne(z, m, current, le, newIds, z', id);
    }
  }

  lemma WrittenOne(z: Zone, m: Manifest, current: seq<Listed>, le: (Record, Record) -> bool,
                   newIds: seq<string>, z': Zone, id: string)
    requires Sent(z, m, current, le, newIds, z') && id in z' && Managed(m, z'[id])
    ensures z'[id].WellFormed()
  {
    hide Changes, LeftOver, Missing, SetFacts, Lists;
    var changes := Changes(m, current, le);
    if id in newIds {
      var c :| c in changes && c.Create? && z'[id] == c.after;
      assert Proper(z, m, current, c, le);
    } else if c :| c in changes && !c.Create? && c.before.id == id {
      assert Proper(z, m, current, c, le);
      assert Managed(m, z[id]);
    }
  }

  lemma ConflictsStay(z: Zone, z': Zone, m: Manifest, current: seq<Listed>, current': seq<Listed>)
    requires Lists(z, current) && Lists(z', current') && SameUnmanaged(z, z', m)
    ensures Conflicting(m, current) == Conflicting(m, current')
  {
    ConflictsPersist(z, z', m, current, current');
    ConflictsPersist(z', z, m, current', current);
  }

  lemma ConflictsPersist(z: Zone, z': Zone, m: Manifest, current: seq<Listed>, current': seq<Listed>)
    requires Lists(z, current) && Lists(z', current') && SameUnmanaged(z, z', m)
    ensures Conflicting(m, current) ==> Conflicting(m, current')
  {
    if Conflicting(m, current) {
      var d, x :| d in m.records && x in current && ConflictsAt(m, d, x.record);
      assert z'[x.id] == x.record;
      assert Listed(x.id, z'[x.id]) in current';
    }
  }

  /**
   After a forward plan has been sent, any fresh listing of the zone plans no change, and is accepted
   or refused for conflicts exactly as the first one was.
   */
  lemma ReplanningFindsNothing(z: Zone, m: Manifest, current: seq<Listed>, newIds: seq<string>,
                               relisted: seq<Listed>, le: (Record, Record) -> bool)
    requires Ready(z, m, current) && !m.rollback
    requires FreshFor(z, BatchOf(Changes(m, current, le)), newIds)
    requires Lists(After(z, Changes(m, current, le), newIds), relisted)
    ensures Changes(m, relisted, le) == []
    ensures Conflicting(m, relisted) == Conflicting(m, current)
  {
    hide Changes, After;
    var z' := After(z, Changes(m, current, le), newIds);
    PlanConverges(z, m, current, le, newIds);
    ExactIsWellFormed(z', m);
    NoChangesIff(z', m, relisted, le);
    ConflictsStay(z, z', m, current, relisted);
  }

  // ---------------------------------------------------------------- names

  predicate AtName(z: Zone, id: string, name: string) { id in z && z[id].name == name }

  /** Addresses and aliases, and nothing else, say where a name leads and can be proxied. */
  lemma KindsAre(k: Kind)
    ensures k.Address() <==> k == A || k == AAAA
    ensures k.ProxyCapable() <==> k == A || k == AAAA || k == CNAME
    ensures SupportedKind(k) <==> k != NS && forall name :: k != OtherKind(name)
  {
  }

  /** What the resolver must never see at a desired name. */
  ghost predicate CleanNames(z: Zone, m: Manifest) {
    && (forall d <- m.records | d.kind.CNAME? ::
          exists id <- z :: z[id].Semantic() == d.Semantic() &&
            forall other <- z | AtName(z, other, d.name) && z[other].kind.ProxyCapable() :: other == id)
    && (forall d <- m.records, id <- z | d.kind.Address() && AtName(z, id, d.name) ::
          !z[id].kind.CNAME? && (z[id].kind.Address() ==> z[id].proxied == d.proxied))
    && (forall d <- m.records, id <- z | d.kind.MX? && d.content == "." && AtName(z, id, d.name) && z[id].kind.MX? ::
          z[id].Semantic() == d.Semantic())
    && (forall d <- m.records, id <- z | AtName(z, id, d.name) && z[id].kind.NS? :: Managed(m, z[id]))
  }

  lemma ManagedIsDesired(z: Zone, m: Manifest, id: string) returns (d: Record)
    requires Exact(z, m) && id in z && Managed(m, z[id])
    ensures d in m.records && d.Semantic() == z[id].Semantic()
  {
    d :| d in m.records && PlanningKey(d, m.rollback) == PlanningKey(z[id], m.rollback);
  }

  lemma FirstAddressIs(records: seq<Record>, name: string)
    requires AddressAmong(records, name)
    ensures FirstAddress(records, name) in records
    ensures FirstAddress(records, name).name == name && FirstAddress(records, name).kind.Address()
  {
    if !(records[0].name == name && records[0].kind.Address()) {
      assert records == [records[0]] + records[1..];
      FirstAddressIs(records[1..], name);
    }
  }

  /**
   A zone that is exactly as desired, with the unmanaged records the planner accepted, has one record
   for a desired CNAME, no CNAME and one proxy mode beside desired addresses, and no other MX beside
   a Null MX (section 3 of RFC 7505).
   */
  lemma AcceptedPlanLeavesCleanNames(z: Zone, z': Zone, m: Manifest, current: seq<Listed>)
    requires Loadable(m) && Lists(z, current) && SameUnmanaged(z, z', m) && Exact(z', m)
    requires !Conflicting(m, current)
    ensures CleanNames(z', m)
  {
    hide Loadable, Exact;
    forall d <- m.records | d.kind.CNAME?
      ensures exists id <- z' :: z'[id].Semantic() == d.Semantic() &&
                forall other <- z' | AtName(z', other, d.name) && z'[other].kind.ProxyCapable() :: other == id
    {
      var id := OneForCname(z, z', m, current, d);
    }
    forall d <- m.records, id <- z' | d.kind.Address() && AtName(z', id, d.name)
      ensures !z'[id].kind.CNAME? && (z'[id].kind.Address() ==> z'[id].proxied == d.proxied)
    {
      AddressName(z, z', m, current, d, id);
    }
    forall d <- m.records, id <- z' | d.kind.MX? && d.content == "." && AtName(z', id, d.name) && z'[id].kind.MX?
      ensures z'[id].Semantic() == d.Semantic()
    {
      NullMx(z', m, d, id);
    }
    forall d <- m.records, id <- z' | AtName(z', id, d.name) && z'[id].kind.NS? ensures Managed(m, z'[id]) {
      if !Managed(m, z'[id]) { UnmanagedAccepted(z, z', m, current, d, id); }
    }
  }

  lemma UnmanagedAccepted(z: Zone, z': Zone, m: Manifest, current: seq<Listed>, d: Record, id: string)
    requires Lists(z, current) && SameUnmanaged(z, z', m) && !Conflicting(m, current)
    requires d in m.records && id in z' && z'[id].name == d.name && !Managed(m, z'[id])
    ensures !ConflictsAt(m, d, z'[id])
  {
    assert Listed(id, z[id]) in current;
  }

  /** Two desired records at one name: neither is a CNAME unless they are the same record. */
  lemma CnameIsAlone(m: Manifest, d: Record, e: Record)
    requires Loadable(m) && d in m.records && e in m.records && d.name == e.name && d.kind.CNAME?
    ensures e == d
  {
    var i :| 0 <= i < |m.records| && m.records[i] == d;
    var j :| 0 <= j < |m.records| && m.records[j] == e;
  }

  lemma AddressesAgree(m: Manifest, d: Record, e: Record)
    requires Loadable(m) && d in m.records && e in m.records && d.name == e.name
    requires d.kind.Address() && e.kind.Address()
    ensures d.proxied == e.proxied
  {
    var i :| 0 <= i < |m.records| && m.records[i] == d;
    var j :| 0 <= j < |m.records| && m.records[j] == e;
  }

  lemma OneForCname(z: Zone, z': Zone, m: Manifest, current: seq<Listed>, d: Record) returns (id: string)
    requires Loadable(m) && Lists(z, current) && SameUnmanaged(z, z', m) && Exact(z', m)
    requires !Conflicting(m, current) && d in m.records && d.kind.CNAME?
    ensures id in z' && z'[id].Semantic() == d.Semantic()
    ensures forall other <- z' | AtName(z', other, d.name) && z'[other].kind.ProxyCapable() :: other == id
  {
    id :| id in z' && PlanningKey(z'[id], m.rollback) == PlanningKey(d, m.rollback);
    assert z'[id].Semantic() == d.Semantic() && z'[id].Set() == d.Set();
    forall other <- z' | AtName(z', other, d.name) && z'[other].kind.ProxyCapable() ensures other == id {
      if !Managed(m, z'[other]) {
        UnmanagedAccepted(z, z', m, current, d, other);
      } else {
        var e :| e in m.records && PlanningKey(e, m.rollback) == PlanningKey(z'[other], m.rollback);
        CnameIsAlone(m, d, e);
      }
    }
  }

  lemma AddressName(z: Zone, z': Zone, m: Manifest, current: seq<Listed>, d: Record, id: string)
    requires Loadable(m) && Lists(z, current) && SameUnmanaged(z, z', m) && Exact(z', m)
    requires !Conflicting(m, current) && d in m.records && d.kind.Address() && AtName(z', id, d.name)
    ensures !z'[id].kind.CNAME? && (z'[id].kind.Address() ==> z'[id].proxied == d.proxied)
  {
    if Managed(m, z'[id]) {
      var e := ManagedIsDesired(z', m, id);
      if e.kind.CNAME? { CnameIsAlone(m, e, d); }
      if e.kind.Address() { AddressesAgree(m, d, e); }
    } else {
      UnmanagedAccepted(z, z', m, current, d, id);
      if HasKind(m, d.name, CNAME) {
        var e :| e in m.records && e.name == d.name && e.kind == CNAME;
        CnameIsAlone(m, e, d);
      }
      assert HasAddress(m, d.name);
      FirstAddressIs(m.records, d.name);
      AddressesAgree(m, d, FirstAddress(m.records, d.name));
    }
  }

  lemma NullMx(z: Zone, m: Manifest, d: Record, id: string)
    requires Loadable(m) && Exact(z, m) && d in m.records && d.kind.MX? && d.content == "."
    requires AtName(z, id, d.name) && z[id].kind.MX?
    ensures z[id].Semantic() == d.Semantic()
  {
    assert z[id].Set() == d.Set();
    var e := ManagedIsDesired(z, m, id);
    var i :| 0 <= i < |m.records| && m.records[i] == d;
    var j :| 0 <= j < |m.records| && m.records[j] == e;
  }

  /** A name that is clean gives the planner nothing to object to. */
  lemma CleanNamesAreAccepted(z: Zone, z': Zone, m: Manifest, current: seq<Listed>)
    requires Loadable(m) && Lists(z, current) && SameUnmanaged(z, z', m) && CleanNames(z', m)
    ensures !Conflicting(m, current)
  {
    hide Loadable, CleanNames;
    forall d <- m.records, x <- current ensures !ConflictsAt(m, d, x.record) {
      if x.record.name == d.name && !Managed(m, x.record) {
        assert z'[x.id] == x.record;
        CleanNameAccepts(z', m, d, x.id);
      }
    }
  }

  lemma CleanNameAccepts(z: Zone, m: Manifest, d: Record, id: string)
    requires Loadable(m) && CleanNames(z, m) && d in m.records && AtName(z, id, d.name) && !Managed(m, z[id])
    ensures !ConflictsAt(m, d, z[id])
  {
    if HasKind(m, d.name, CNAME) {
      var e :| e in m.records && e.name == d.name && e.kind == CNAME;
      var only :| only in z && z[only].Semantic() == e.Semantic() &&
        forall other <- z | AtName(z, other, e.name) && z[other].kind.ProxyCapable() :: other == only;
      assert z[only].Set() == e.Set() && Managed(m, e);
    } else if HasAddress(m, d.name) {
      FirstAddressIs(m.records, d.name);
      assert FirstAddress(m.records, d.name) in m.records;
    }
  }

  /**
   The planner objects to names exactly when it has to: the zone as desired, with the unmanaged records
   as they are, has clean names if and only if the listing was accepted.
   */
  lemma AcceptedIffCleanNames(z: Zone, z': Zone, m: Manifest, current: seq<Listed>)
    requires Loadable(m) && Lists(z, current) && SameUnmanaged(z, z', m) && Exact(z', m)
    ensures !Conflicting(m, current) <==> CleanNames(z', m)
  {
    hide Loadable, Exact, CleanNames, Conflicting;
    if CleanNames(z', m) {
      CleanNamesAreAccepted(z, z', m, current);
    } else if !Conflicting(m, current) {
      AcceptedPlanLeavesCleanNames(z, z', m, current);
    }
  }
}
