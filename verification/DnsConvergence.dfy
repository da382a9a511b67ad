/**
 Convergence: sending the plan leaves unmanaged records alone and makes the managed ones exactly the
 desired set; a zone in that state, and no other, plans no changes.
 */
module DnsConvergence {
  import opened DnsModel
  import opened DnsPlanFacts

  // ---------------------------------------------------------------- the batch

  lemma {:induction false} DeletesFacts(changes: seq<Change>)
    ensures forall id :: id in DeletesOf(changes) <==> exists c <- changes :: c.Delete? && c.before.id == id
    decreases |changes|
  {
    if changes != [] {
      DeletesFacts(changes[..|changes| - 1]);
      assert changes == changes[..|changes| - 1] + [changes[|changes| - 1]];
    }
  }

  /** Different changes name different ids. */
  predicate IdsApart(changes: seq<Change>) {
    forall i, j | 0 <= i < j < |changes| && !changes[i].Create? && !changes[j].Create? ::
      changes[i].before.id != changes[j].before.id
  }

  predicate KeysApart(patches: seq<(string, Payload)>) {
    forall i, j | 0 <= i < j < |patches| :: patches[i].0 != patches[j].0
  }

  predicate IsPatch(p: (string, Payload), changes: seq<Change>) {
    exists c <- changes :: c.Update? && p == (c.before.id, PayloadOf(c.after))
  }

  lemma {:induction false} PatchesFacts(changes: seq<Change>)
    ensures forall c <- changes | c.Update? :: (c.before.id, PayloadOf(c.after)) in PatchesOf(changes)
    ensures forall p <- PatchesOf(changes) :: IsPatch(p, changes)
    ensures IdsApart(changes) ==> KeysApart(PatchesOf(changes))
    decreases |changes|
  {
    if changes != [] {
      var n := |changes| - 1;
      var init, c := changes[..n], changes[n];
      PatchesFacts(init);
      assert changes == init + [c];
      forall p <- PatchesOf(changes) ensures IsPatch(p, changes) {
        if p in PatchesOf(init) { assert IsPatch(p, init); } else { assert c in changes; }
      }
      if IdsApart(changes) && c.Update? {
        forall p <- PatchesOf(init) ensures p.0 != c.before.id { assert IsPatch(p, init); }
      }
    }
  }

  lemma {:induction false} PatchAllElsewhere(z: Zone, patches: seq<(string, Payload)>, id: string)
    requires forall p <- patches :: p.0 != id
    ensures id in PatchAll(z, patches) <==> id in z
    ensures id in z ==> PatchAll(z, patches)[id] == z[id]
    decreases |patches|
  {
    hide Patched;
    if patches != [] {
      assert patches[|patches| - 1] in patches;
      PatchAllElsewhere(z, patches[..|patches| - 1], id);
    }
  }

  lemma {:induction false} PatchAllAt(z: Zone, patches: seq<(string, Payload)>, i: nat)
    requires KeysApart(patches) && i < |patches| && patches[i].0 in z
    ensures patches[i].0 in PatchAll(z, patches)
    ensures PatchAll(z, patches)[patches[i].0] == Patched(z[patches[i].0], patches[i].1)
    decreases |patches|
  {
    hide Patched;
    var n := |patches| - 1;
    if i < n {
      assert patches[i].0 != patches[n].0;
      PatchAllAt(z, patches[..n], i);
    } else {
      forall p <- patches[..n] ensures p.0 != patches[n].0 { }
      PatchAllElsewhere(z, patches[..n], patches[n].0);
    }
  }

  lemma {:induction false} PatchAllKeys(z: Zone, patches: seq<(string, Payload)>)
    ensures PatchAll(z, patches).Keys == z.Keys
    decreases |patches|
  {
    hide Patched;
    if patches != [] {
      PatchAllKeys(z, patches[..|patches| - 1]);
    }
  }

  lemma PatchAllFacts(z: Zone, patches: seq<(string, Payload)>)
    requires KeysApart(patches)
    ensures PatchAll(z, patches).Keys == z.Keys
    ensures forall p <- patches | p.0 in z :: PatchAll(z, patches)[p.0] == Patched(z[p.0], p.1)
    ensures forall id <- z | (forall p <- patches :: p.0 != id) :: PatchAll(z, patches)[id] == z[id]
  {
    hide PatchAll, Patched;
    PatchAllKeys(z, patches);
    forall p <- patches | p.0 in z ensures PatchAll(z, patches)[p.0] == Patched(z[p.0], p.1) {
      var i :| 0 <= i < |patches| && patches[i] == p;
      PatchAllAt(z, patches, i);
    }
    forall id <- z | (forall p <- patches :: p.0 != id) ensures PatchAll(z, patches)[id] == z[id] {
      PatchAllElsewhere(z, patches, id);
    }
  }

  lemma {:induction false} PostAllElsewhere(z: Zone, posts: seq<Payload>, newIds: seq<string>, id: string)
    requires |newIds| == |posts| && id !in newIds
    ensures id in PostAll(z, posts, newIds) <==> id in z
    ensures id in z ==> PostAll(z, posts, newIds)[id] == z[id]
    decreases |posts|
  {
    hide Posted;
    if posts != [] {
      var n := |posts| - 1;
      PostAllElsewhere(z, posts[..n], newIds[..n], id);
      assert newIds[n] in newIds;
    }
  }

  lemma {:induction false} PostAllAt(z: Zone, posts: seq<Payload>, newIds: seq<string>, i: nat)
    requires |newIds| == |posts| && NoDup(newIds) && i < |newIds|
    ensures newIds[i] in PostAll(z, posts, newIds) && PostAll(z, posts, newIds)[newIds[i]] == Posted(posts[i])
    decreases |posts|
  {
    hide Posted;
    var n := |posts| - 1;
    if i < n {
      assert newIds[i] != newIds[n];
      PostAllAt(z, posts[..n], newIds[..n], i);
    }
  }

  lemma PostAllFacts(z: Zone, posts: seq<Payload>, newIds: seq<string>)
    requires |newIds| == |posts| && NoDup(newIds)
    requires forall id <- newIds :: id !in z
    ensures PostAll(z, posts, newIds).Keys == z.Keys + (set id <- newIds)
    ensures forall id <- z :: PostAll(z, posts, newIds)[id] == z[id]
    ensures forall i | 0 <= i < |newIds| :: PostAll(z, posts, newIds)[newIds[i]] == Posted(posts[i])
  {
    hide PostAll, Posted;
    var z' := PostAll(z, posts, newIds);
    forall i | 0 <= i < |newIds| ensures newIds[i] in z' && z'[newIds[i]] == Posted(posts[i]) {
      PostAllAt(z, posts, newIds, i);
    }
    forall id | id !in newIds ensures (id in z' <==> id in z) && (id in z ==> z'[id] == z[id]) {
      PostAllElsewhere(z, posts, newIds, id);
    }
    forall id ensures id in z' <==> id in z || id in newIds {
      if id in newIds {
        var i :| 0 <= i < |newIds| && newIds[i] == id;
      }
    }
  }

  /** The records the plan creates, in the order of their posts. */
  function CreatedBy(changes: seq<Change>): seq<Record> {
    if changes == [] then []
    else
      var c := changes[|changes| - 1];
      CreatedBy(changes[..|changes| - 1]) + (if c.Create? then [c.after] else [])
  }

  lemma {:induction false} PostsFacts(changes: seq<Change>)
    ensures |PostsOf(changes)| == |CreatedBy(changes)|
    ensures forall i | 0 <= i < |PostsOf(changes)| :: PostsOf(changes)[i] == PayloadOf(CreatedBy(changes)[i])
    ensures forall r :: r in CreatedBy(changes) <==> FromCreate(r, changes)
    ensures TouchesOnce(changes) ==> NoDup(CreatedBy(changes))
    decreases |changes|
  {
    if changes != [] {
      var n := |changes| - 1;
      var init, c := changes[..n], changes[n];
      PostsFacts(init);
      assert changes == init + [c];
      forall r ensures r in CreatedBy(changes) <==> FromCreate(r, changes) {
        assert r in CreatedBy(init) <==> FromCreate(r, init);
      }
      if TouchesOnce(changes) && c.Create? {
        assert TouchesOnce(init);
        forall r <- CreatedBy(init) ensures r != c.after {
          assert FromCreate(r, init);
          var i :| 0 <= i < n && init[i].Create? && init[i].after == r;
          assert changes[i] == init[i];
        }
        NoDupSnoc(CreatedBy(init), c.after);
      } else if TouchesOnce(changes) {
        assert TouchesOnce(init);
      }
    }
  }

  lemma NoDupSnoc<T>(xs: seq<T>, x: T)
    requires NoDup(xs) && x !in xs
    ensures NoDup(xs + [x])
  {
  }

  predicate FromCreate(r: Record, changes: seq<Change>) {
    exists c <- changes :: c.Create? && r == c.after
  }

  // ---------------------------------------------------------------- what a write leaves behind

  /** In a rollback, the patched record must not keep a metadata field the wanted record lacks. */
  predicate Covered(c: Change) {
    c.Update? ==> c.before.record.meta.Keys <= c.after.meta.Keys
  }

  lemma WrittenKey(was: Record, r: Record, rollback: bool)
    requires was.WellFormed() && r.WellFormed() && was.Set() == r.Set()
    ensures PlanningKey(Patched(was, PayloadOf(r)), rollback).Semantic() == r.Semantic()
    ensures PlanningKey(Patched(was, PayloadOf(r)), rollback) == PlanningKey(r, rollback) <==>
            (rollback ==> was.meta.Keys <= r.meta.Keys)
  {
    if was.meta.Keys <= r.meta.Keys {
      assert was.meta + r.meta == r.meta;
    } else {
      var k :| k in was.meta && k !in r.meta;
      assert k in (was.meta + r.meta).Keys;
    }
  }

  lemma PostedIs(r: Record)
    requires r.WellFormed()
    ensures Posted(PayloadOf(r)) == r
  {
  }

  // ---------------------------------------------------------------- the zone after the plan

  /** What the convergence argument needs of its inputs. */
  ghost predicate Ready(z: Zone, m: Manifest, current: seq<Listed>) {
    Loadable(m) && Lists(z, current) && ZoneWellFormed(z, m)
  }

  ghost predicate PlanReady(z: Zone, m: Manifest, current: seq<Listed>, le: (Record, Record) -> bool) {
    && PlanFacts(m, m.managed, current, Changes(m, current, le), le)
    && (forall rs <- m.managed :: SetFacts(m, rs, current, le))
    && IdsApart(Changes(m, current, le))
  }

  lemma PlanIsReady(z: Zone, m: Manifest, current: seq<Listed>, le: (Record, Record) -> bool)
    requires Ready(z, m, current)
    ensures PlanReady(z, m, current, le)
  {
    LoadableDistinct(m);
    PlanFactsHold(m, m.managed, current, le);
    forall rs <- m.managed ensures SetFacts(m, rs, current, le) { SetFactsHold(m, rs, current, le); }
    IdsFollowRecords(z, m, current, le);
  }

  lemma IdsFollowRecords(z: Zone, m: Manifest, current: seq<Listed>, le: (Record, Record) -> bool)
    requires Lists(z, current) && PlanFacts(m, m.managed, current, Changes(m, current, le), le)
    requires forall rs <- m.managed :: SetFacts(m, rs, current, le)
    ensures IdsApart(Changes(m, current, le))
  {
    hide LeftOver, Missing, Changes;
    var changes := Changes(m, current, le);
    forall i, j | 0 <= i < j < |changes| && !changes[i].Create? && !changes[j].Create?
      ensures changes[i].before.id != changes[j].before.id
    {
      assert changes[i] in changes && changes[j] in changes;
      assert SetFacts(m, SetOf(changes[i]), current, le) && SetFacts(m, SetOf(changes[j]), current, le);
      assert changes[i].before in current && changes[j].before in current;
    }
  }

  function After(z: Zone, changes: seq<Change>, newIds: seq<string>): Zone
    requires |newIds| == |PostsOf(changes)|
  {
    ApplyBatch(z, BatchOf(changes), newIds)
  }

  /** Where each record of the zone after a plan comes from. */
  ghost predicate Written(z: Zone, changes: seq<Change>, newIds: seq<string>, z': Zone) {
    && (forall c <- changes | c.Delete? :: c.before.id !in z')
    && (forall c <- changes | c.Update? ::
          c.before.id in z && c.before.id in z' && z'[c.before.id] == Patched(z[c.before.id], PayloadOf(c.after)))
    && (forall id <- z | (forall c <- changes :: !c.Create? ==> c.before.id != id) ::
          id in z' && z'[id] == z[id])
    && (forall c <- changes | c.Create? ::
          exists id <- newIds :: id in z' && z'[id] == c.after)
    && (forall id <- newIds :: id !in z && id in z' && FromCreate(z'[id], changes))
    && (forall i, j | 0 <= i < j < |newIds| :: z'[newIds[i]] != z'[newIds[j]])
    && (forall id <- z' :: id in z || id in newIds)
  }

  lemma AfterIsWritten(z: Zone, changes: seq<Change>, newIds: seq<string>)
    requires FreshFor(z, BatchOf(changes), newIds)
    requires TouchesOnce(changes) && IdsApart(changes)
    requires forall c <- changes | !c.Create? :: c.before.id in z
    requires forall c <- changes | !c.Delete? :: c.after.WellFormed()
    ensures Written(z, changes, newIds, After(z, changes, newIds))
  {
    var z1 := z - (set id <- DeletesOf(changes));
    var z2 := PatchAll(z1, PatchesOf(changes));
    var z' := After(z, changes, newIds);
    PatchesFacts(changes);
    PatchAllFacts(z1, PatchesOf(changes));
    PostAllFacts(z2, PostsOf(changes), newIds);
    OldRecords(z, changes, z1, z2);
    NewRecords(changes, newIds, z');
  }

  lemma OldRecords(z: Zone, changes: seq<Change>, z1: Zone, z2: Zone)
    requires IdsApart(changes) && z1 == z - (set id <- DeletesOf(changes))
    requires z2 == PatchAll(z1, PatchesOf(changes))
    requires forall c <- changes | !c.Create? :: c.before.id in z
    ensures forall c <- changes | c.Delete? :: c.before.id !in z2
    ensures forall c <- changes | c.Update? ::
              c.before.id in z2 && z2[c.before.id] == Patched(z[c.before.id], PayloadOf(c.after))
    ensures forall id <- z | (forall c <- changes :: !c.Create? ==> c.before.id != id) ::
              id in z2 && z2[id] == z[id]
    ensures z2.Keys <= z.Keys
  {
    DeletesFacts(changes);
    PatchesFacts(changes);
    PatchAllFacts(z1, PatchesOf(changes));
    forall c <- changes | c.Update?
      ensures c.before.id in z2 && z2[c.before.id] == Patched(z[c.before.id], PayloadOf(c.after))
    {
      assert c.before.id in z1;
      assert (c.before.id, PayloadOf(c.after)) in PatchesOf(changes);
    }
    forall id <- z | (forall c <- changes :: !c.Create? ==> c.before.id != id)
      ensures id in z2 && z2[id] == z[id]
    {
      assert id in z1;
      forall p <- PatchesOf(changes) ensures p.0 != id { assert IsPatch(p, changes); }
    }
  }

  lemma NewRecords(changes: seq<Change>, newIds: seq<string>, z': Zone)
    requires TouchesOnce(changes) && |newIds| == |PostsOf(changes)|
    requires forall c <- changes | !c.Delete? :: c.after.WellFormed()
    requires forall i | 0 <= i < |newIds| :: newIds[i] in z' && z'[newIds[i]] == Posted(PostsOf(changes)[i])
    ensures forall id <- newIds :: FromCreate(z'[id], changes)
    ensures forall i, j | 0 <= i < j < |newIds| :: z'[newIds[i]] != z'[newIds[j]]
    ensures forall c <- changes | c.Create? :: exists id <- newIds :: z'[id] == c.after
  {
    PostsFacts(changes);
    var created := CreatedBy(changes);
    forall i | 0 <= i < |newIds| ensures z'[newIds[i]] == created[i] {
      assert FromCreate(created[i], changes);
      PostedIs(created[i]);
    }
    forall c <- changes | c.Create? ensures exists id <- newIds :: z'[id] == c.after {
      assert FromCreate(c.after, changes);
      var i :| 0 <= i < |created| && created[i] == c.after;
      assert newIds[i] in newIds;
    }
  }

  // ---------------------------------------------------------------- convergence

  /** The parts of the convergence argument, put together once for a zone and its plan. */
  ghost predicate Sent(z: Zone, m: Manifest, current: seq<Listed>, le: (Record, Record) -> bool,
                       newIds: seq<string>, z': Zone)
  {
    && Ready(z, m, current) && PlanReady(z, m, current, le) && DistinctKeys(m)
    && Written(z, Changes(m, current, le), newIds, z')
    && (forall c <- Changes(m, current, le) :: Proper(z, m, current, c, le))
  }

  /** A change acts within one managed recordset, from a listed record to a wanted one. */
  predicate Proper(z: Zone, m: Manifest, current: seq<Listed>, c: Change, le: (Record, Record) -> bool) {
    && SetOf(c) in m.managed
    && (!c.Create? ==> (c.before in current && c.before.id in z && z[c.before.id] == c.before.record &&
                        c.before in LeftOver(m, SetOf(c), current, le)))
    && (!c.Delete? ==> (c.after in m.records && c.after.Set() == SetOf(c) &&
                        c.after in Missing(m, SetOf(c), current, le)))
  }

  lemma SentHolds(z: Zone, m: Manifest, current: seq<Listed>, le: (Record, Record) -> bool, newIds: seq<string>)
    requires Ready(z, m, current) && FreshFor(z, BatchOf(Changes(m, current, le)), newIds)
    ensures Sent(z, m, current, le, newIds, After(z, Changes(m, current, le), newIds))
  {
    hide LeftOver, Missing, Changes, After, Written;
    LoadableDistinct(m);
    PlanIsReady(z, m, current, le);
    var changes := Changes(m, current, le);
    forall c <- changes ensures Proper(z, m, current, c, le) {
      assert SetFacts(m, SetOf(c), current, le);
    }
    AfterIsWritten(z, changes, newIds);
  }

  /** A record no change touches: it is where it was, and it was not left over. */
  lemma UntouchedIsKept(z: Zone, m: Manifest, current: seq<Listed>, le: (Record, Record) -> bool,
                        newIds: seq<string>, z': Zone, id: string)
    requires Sent(z, m, current, le, newIds, z') && id in z && Managed(m, z[id])
    ensures Kept(m, Listed(id, z[id]), current, le) <==>
            forall c <- Changes(m, current, le) :: !c.Create? ==> c.before.id != id
  {
    hide LeftOver, Missing, Changes, Written;
    var x := Listed(id, z[id]);
    var changes := Changes(m, current, le);
    if !Kept(m, x, current, le) {
      assert x in LeftOver(m, x.record.Set(), current, le);
      var c :| c in changes && !c.Create? && c.before == x;
    } else {
      forall c <- changes | !c.Create? ensures c.before.id != id { assert Proper(z, m, current, c, le); }
    }
  }

  /** The desired record that the record under `id` stands for after the plan. */
  ghost predicate StandsFor(z: Zone, m: Manifest, current: seq<Listed>, le: (Record, Record) -> bool,
                            newIds: seq<string>, z': Zone, id: string, d: Record)
    requires id in z'
  {
    && d in m.records
    && if d in Missing(m, d.Set(), current, le) then
         exists c <- Changes(m, current, le) ::
           (c.Update? && c.after == d && c.before.id == id) || (c.Create? && c.after == d && id in newIds && z'[id] == d)
       else
         id in z && z'[id] == z[id] && z[id].Set() == d.Set() && Kept(m, Listed(id, z[id]), current, le) &&
         PlanningKey(z[id], m.rollback) == PlanningKey(d, m.rollback)
  }

  lemma EachStandsForOne(z: Zone, m: Manifest, current: seq<Listed>, le: (Record, Record) -> bool,
                         newIds: seq<string>, z': Zone, id: string) returns (d: Record)
    requires Sent(z, m, current, le, newIds, z') && id in z' && Managed(m, z'[id])
    ensures StandsFor(z, m, current, le, newIds, z', id, d)
  {
    hide LeftOver, Missing, Changes;
    var changes := Changes(m, current, le);
    if id in newIds {
      var c :| c in changes && c.Create? && z'[id] == c.after;
      assert Proper(z, m, current, c, le);
      d := c.after;
    } else if c :| c in changes && !c.Create? && c.before.id == id {
      assert Proper(z, m, current, c, le);
      d := c.after;
    } else {
      assert z'[id] == z[id];
      UntouchedIsKept(z, m, current, le, newIds, z', id);
      var x := Listed(id, z[id]);
      assert SetFacts(m, x.record.Set(), current, le);
      d :| d in m.records && d !in Missing(m, x.record.Set(), current, le) &&
           PlanningKey(d, m.rollback) == PlanningKey(x.record, m.rollback);
    }
  }

  lemma OneStandsForEach(z: Zone, m: Manifest, current: seq<Listed>, le: (Record, Record) -> bool,
                         newIds: seq<string>, z': Zone, d: Record) returns (id: string)
    requires Sent(z, m, current, le, newIds, z') && d in m.records
    ensures id in z' && StandsFor(z, m, current, le, newIds, z', id, d)
  {
    hide LeftOver, Missing, Changes;
    var changes := Changes(m, current, le);
    if d in Missing(m, d.Set(), current, le) {
      var c :| c in changes && !c.Delete? && c.after == d;
      if c.Update? {
        id := c.before.id;
      } else {
        id :| id in newIds && id in z' && z'[id] == c.after;
      }
    } else {
      assert SetFacts(m, d.Set(), current, le);
      var x :| x in current && x.record.Set() == d.Set() && x !in LeftOver(m, d.Set(), current, le) &&
               PlanningKey(d, m.rollback) == PlanningKey(x.record, m.rollback);
      id := x.id;
      assert Kept(m, x, current, le);
      UntouchedIsKept(z, m, current, le, newIds, z', id);
    }
  }

  lemma NoTwoStandForOne(z: Zone, m: Manifest, current: seq<Listed>, le: (Record, Record) -> bool,
                         newIds: seq<string>, z': Zone, a: string, b: string, d: Record)
    requires Sent(z, m, current, le, newIds, z') && a in z' && b in z'
    requires StandsFor(z, m, current, le, newIds, z', a, d) && StandsFor(z, m, current, le, newIds, z', b, d)
    ensures a == b
  {
    hide Sent, StandsFor;
    if d in Missing(m, d.Set(), current, le) {
      NoTwoAreWritten(z, m, current, le, newIds, z', a, b, d);
    } else {
      NoTwoAreKept(z, m, current, le, newIds, z', a, b, d);
    }
  }

  lemma NoTwoAreWritten(z: Zone, m: Manifest, current: seq<Listed>, le: (Record, Record) -> bool,
                        newIds: seq<string>, z': Zone, a: string, b: string, d: Record)
    requires Sent(z, m, current, le, newIds, z') && a in z' && b in z'
    requires StandsFor(z, m, current, le, newIds, z', a, d) && StandsFor(z, m, current, le, newIds, z', b, d)
    requires d in Missing(m, d.Set(), current, le)
    ensures a == b
  {
    hide LeftOver, Missing, Changes, Loadable, Lists, ZoneWellFormed, Proper, SetFacts, FromCreate, IdsApart, Sound;
    var changes := Changes(m, current, le);
    var x :| x in changes &&
             ((x.Update? && x.after == d && x.before.id == a) || (x.Create? && x.after == d && a in newIds && z'[a] == d));
    var y :| y in changes &&
             ((y.Update? && y.after == d && y.before.id == b) || (y.Create? && y.after == d && b in newIds && z'[b] == d));
    OneChangeWrites(changes, x, y);
    if x.Create? {
      SameNewId(newIds, z', a, b);
    }
  }

  lemma OneChangeWrites(changes: seq<Change>, x: Change, y: Change)
    requires TouchesOnce(changes) && x in changes && y in changes
    requires !x.Delete? && !y.Delete? && x.after == y.after
    ensures x == y
  {
    var i :| 0 <= i < |changes| && changes[i] == x;
    var j :| 0 <= j < |changes| && changes[j] == y;
  }

  lemma SameNewId(newIds: seq<string>, z: Zone, a: string, b: string)
    requires forall id <- newIds :: id in z
    requires forall i, j | 0 <= i < j < |newIds| :: z[newIds[i]] != z[newIds[j]]
    requires a in newIds && b in newIds && z[a] == z[b]
    ensures a == b
  {
    var i :| 0 <= i < |newIds| && newIds[i] == a;
    var j :| 0 <= j < |newIds| && newIds[j] == b;
  }

  lemma NoTwoAreKept(z: Zone, m: Manifest, current: seq<Listed>, le: (Record, Record) -> bool,
                     newIds: seq<string>, z': Zone, a: string, b: string, d: Record)
    requires Sent(z, m, current, le, newIds, z') && a in z' && b in z'
    requires StandsFor(z, m, current, le, newIds, z', a, d) && StandsFor(z, m, current, le, newIds, z', b, d)
    requires d !in Missing(m, d.Set(), current, le)
    ensures a == b
  {
    hide LeftOver, Missing, Changes, Loadable, Written, Proper;
    assert SetFacts(m, d.Set(), current, le);
  }

  /** The written record has the wanted key, except for metadata that a rollback could not take away. */
  lemma StandInKey(z: Zone, m: Manifest, current: seq<Listed>, le: (Record, Record) -> bool,
                   newIds: seq<string>, z': Zone, id: string, d: Record)
    requires Sent(z, m, current, le, newIds, z') && id in z' && StandsFor(z, m, current, le, newIds, z', id, d)
    requires m.rollback ==> forall c <- Changes(m, current, le) :: Covered(c)
    ensures PlanningKey(z'[id], m.rollback) == PlanningKey(d, m.rollback)
  {
    hide LeftOver, Missing, Changes;
    if d in Missing(m, d.Set(), current, le) {
      var c :| c in Changes(m, current, le) &&
               ((c.Update? && c.after == d && c.before.id == id) || (c.Create? && c.after == d && id in newIds && z'[id] == d));
      assert Proper(z, m, current, c, le);
      if c.Update? { WrittenKey(c.before.record, d, m.rollback); }
    }
  }

  lemma CoveredIsExact(z: Zone, m: Manifest, current: seq<Listed>, le: (Record, Record) -> bool,
                       newIds: seq<string>, z': Zone)
    requires Sent(z, m, current, le, newIds, z')
    requires m.rollback ==> forall c <- Changes(m, current, le) :: Covered(c)
    ensures Exact(z', m)
  {
    hide Sent, StandsFor, Changes;
    forall id <- z' | Managed(m, z'[id])
      ensures PlanningKey(z'[id], m.rollback) in KeySet(m.records, m.rollback)
    {
      var d := EachStandsForOne(z, m, current, le, newIds, z', id);
      StandInKey(z, m, current, le, newIds, z', id, d);
      StandsForWanted(z, m, current, le, newIds, z', id, d);
    }
    forall d <- m.records
      ensures exists id <- z' :: PlanningKey(z'[id], m.rollback) == PlanningKey(d, m.rollback)
    {
      var id := OneStandsForEach(z, m, current, le, newIds, z', d);
      StandInKey(z, m, current, le, newIds, z', id, d);
    }
    forall a, b | a in z' && b in z' && a != b && Managed(m, z'[a])
      ensures PlanningKey(z'[a], m.rollback) != PlanningKey(z'[b], m.rollback)
    {
      if PlanningKey(z'[a], m.rollback) == PlanningKey(z'[b], m.rollback) {
        var d := EachStandsForOne(z, m, current, le, newIds, z', a);
        var e := EachStandsForOne(z, m, current, le, newIds, z', b);
        StandInKey(z, m, current, le, newIds, z', a, d);
        StandInKey(z, m, current, le, newIds, z', b, e);
        StandsForWanted(z, m, current, le, newIds, z', a, d);
        StandsForWanted(z, m, current, le, newIds, z', b, e);
        NoTwoStandForOne(z, m, current, le, newIds, z', a, b, d);
      }
    }
  }

  lemma StandsForWanted(z: Zone, m: Manifest, current: seq<Listed>, le: (Record, Record) -> bool,
                        newIds: seq<string>, z': Zone, id: string, d: Record)
    requires Sent(z, m, current, le, newIds, z') && id in z' && StandsFor(z, m, current, le, newIds, z', id, d)
    ensures d in m.records
    ensures forall e <- m.records :: PlanningKey(e, m.rollback) == PlanningKey(d, m.rollback) ==> e == d
  {
    hide LeftOver, Missing, Changes;
  }

  lemma UncoveredIsNotExact(z: Zone, m: Manifest, current: seq<Listed>, le: (Record, Record) -> bool,
                            newIds: seq<string>, z': Zone, c: Change)
    requires Sent(z, m, current, le, newIds, z')
    requires m.rollback && c in Changes(m, current, le) && !Covered(c)
    ensures !Exact(z', m)
  {
    hide Sent, Changes, Exact;
    UpdateFacts(z, m, current, le, newIds, z', c);
    WrittenKey(c.before.record, c.after, true);
    var r := z'[c.before.id];
    forall d <- m.records ensures d != r {
      if d.Semantic() == c.after.Semantic() { SameSemanticSame(m, d, c.after); }
    }
    UnwantedIsNotExact(z', m, c.before.id);
  }

  /** What an overwrite of the plan has done. */
  lemma UpdateFacts(z: Zone, m: Manifest, current: seq<Listed>, le: (Record, Record) -> bool,
                    newIds: seq<string>, z': Zone, c: Change)
    requires Sent(z, m, current, le, newIds, z') && c in Changes(m, current, le) && c.Update?
    ensures c.before.id in z' && z'[c.before.id] == Patched(c.before.record, PayloadOf(c.after))
    ensures c.before.record.WellFormed() && c.after.WellFormed() && c.before.record.Set() == c.after.Set()
    ensures c.after in m.records && c.after.Set() in m.managed && DistinctSemantics(m.records)
  {
    hide LeftOver, Missing, Changes, SetFacts, Lists;
    assert Proper(z, m, current, c, le);
  }

  lemma UnwantedIsNotExact(z: Zone, m: Manifest, id: string)
    requires m.rollback && id in z && Managed(m, z[id]) && z[id] !in m.records
    ensures !Exact(z, m)
  {
  }

  lemma SameSemanticSame(m: Manifest, d: Record, e: Record)
    requires DistinctSemantics(m.records) && d in m.records && e in m.records && d.Semantic() == e.Semantic()
    ensures d == e
  {
    var i :| 0 <= i < |m.records| && m.records[i] == d;
    var j :| 0 <= j < |m.records| && m.records[j] == e;
  }

  lemma UnmanagedStay(z: Zone, m: Manifest, current: seq<Listed>, le: (Record, Record) -> bool,
                      newIds: seq<string>, z': Zone)
    requires Sent(z, m, current, le, newIds, z')
    ensures SameUnmanaged(z, z', m)
  {
    hide LeftOver, Missing, Changes, SetFacts, Lists, Loadable;
    UnmanagedUntouched(z, m, current, le, newIds, z');
    UnmanagedOld(z, m, current, le, newIds, z');
  }

  lemma UnmanagedUntouched(z: Zone, m: Manifest, current: seq<Listed>, le: (Record, Record) -> bool,
                           newIds: seq<string>, z': Zone)
    requires Sent(z, m, current, le, newIds, z')
    ensures forall id <- z | !Managed(m, z[id]) :: id in z' && z'[id] == z[id]
  {
    hide LeftOver, Missing, Changes, SetFacts, Lists, Loadable, IdsApart, TouchesOnce;
    var changes := Changes(m, current, le);
    forall id <- z | !Managed(m, z[id]) ensures id in z' && z'[id] == z[id] {
      forall c <- changes | !c.Create? ensures c.before.id != id { assert Proper(z, m, current, c, le); }
    }
  }

  lemma UnmanagedOld(z: Zone, m: Manifest, current: seq<Listed>, le: (Record, Record) -> bool,
                     newIds: seq<string>, z': Zone)
    requires Sent(z, m, current, le, newIds, z')
    ensures forall id <- z' | !Managed(m, z'[id]) :: id in z && z[id] == z'[id]
  {
    hide LeftOver, Missing, Changes, SetFacts, Lists, Loadable, IdsApart, TouchesOnce;
    var changes := Changes(m, current, le);
    forall id <- newIds ensures Managed(m, z'[id]) {
      var c :| c in changes && c.Create? && z'[id] == c.after;
      assert Proper(z, m, current, c, le);
    }
    forall id <- z' | !Managed(m, z'[id]) ensures id in z && z[id] == z'[id] {
      forall c <- changes | !c.Create? ensures c.before.id != id { assert Proper(z, m, current, c, le); }
    }
  }

  /**
   Sending a plan leaves everything unmanaged untouched; the managed records become exactly the
   desired ones, always for a forward plan, and for a rollback exactly if no overwritten record
   carries a metadata field that its replacement lacks.
   */
  lemma PlanConverges(z: Zone, m: Manifest, current: seq<Listed>, le: (Record, Record) -> bool, newIds: seq<string>)
    requires Ready(z, m, current) && FreshFor(z, BatchOf(Changes(m, current, le)), newIds)
    ensures var z' := After(z, Changes(m, current, le), newIds);
            && SameUnmanaged(z, z', m)
            && (Exact(z', m) <==> (m.rollback ==> forall c <- Changes(m, current, le) :: Covered(c)))
  {
    hide Sent, Changes, After;
    SentHolds(z, m, current, le, newIds);
    var z' := After(z, Changes(m, current, le), newIds);
    UnmanagedStay(z, m, current, le, newIds, z');
    if m.rollback ==> forall c <- Changes(m, current, le) :: Covered(c) {
      CoveredIsExact(z, m, current, le, newIds, z');
    } else {
      var c :| c in Changes(m, current, le) && !Covered(c);
      UncoveredIsNotExact(z, m, current, le, newIds, z', c);
    }
  }

  // ---------------------------------------------------------------- nothing left to do

  /** A plan is empty exactly when the managed part of the zone is already what is desired. */
  lemma NoChangesIff(z: Zone, m: Manifest, current: seq<Listed>, le: (Record, Record) -> bool)
    requires Ready(z, m, current)
    ensures Changes(m, current, le) == [] <==> Exact(z, m)
  {
    PlanIsReady(z, m, current, le);
    LoadableDistinct(m);
    if Changes(m, current, le) == [] {
      NothingSent(z, m, current, le);
    } else {
      var c := Changes(m, current, le)[0];
      SomethingSent(z, m, current, c, le);
    }
  }

  lemma NothingSent(z: Zone, m: Manifest, current: seq<Listed>, le: (Record, Record) -> bool)
    requires Ready(z, m, current) && Changes(m, current, le) == []
    ensures Exact(z, m)
  {
    SentHolds(z, m, current, le, []);
    CoveredIsExact(z, m, current, le, [], z);
  }

  lemma LeftOverIsWrong(z: Zone, m: Manifest, current: seq<Listed>, x: Listed, le: (Record, Record) -> bool)
    requires Ready(z, m, current) && NoDup(m.records) && NoDup(current)
    requires Managed(m, x.record) && x in LeftOver(m, x.record.Set(), current, le)
    ensures !Exact(z, m)
  {
    var rs := x.record.Set();
    var cur, des := CurrentSet(m, rs, current, le), DesiredSet(m, rs, le);
    SetMembers(m, rs, current, le);
    var keys := KeySet(des, m.rollback);
    UnmatchedFacts(cur, keys, m.rollback);
    var i :| 0 <= i < |cur| && cur[i] == x;
    UnclaimedFacts(cur[..i], keys, m.rollback);
    LeftOverRefutes(z, m, x, cur, i, des);
  }

  /** A leftover has an unwanted key or a twin. */
  lemma LeftOverRefutes(z: Zone, m: Manifest, x: Listed, cur: seq<Listed>, i: nat, des: seq<Record>)
    requires i < |cur| && cur[i] == x && NoDup(cur) && Managed(m, x.record)
    requires forall y <- cur :: y.id in z && z[y.id] == y.record
    requires forall d :: d in des <==> d in m.records && d.Set() == x.record.Set()
    requires var k := PlanningKey(x.record, m.rollback);
             k !in KeySet(des, m.rollback) || exists y <- cur[..i] :: PlanningKey(y.record, m.rollback) == k
    ensures !Exact(z, m)
  {
    var k := PlanningKey(x.record, m.rollback);
    assert x in cur && z[x.id] == x.record;
    if y :| y in cur[..i] && PlanningKey(y.record, m.rollback) == k {
      assert y in cur && z[y.id] == y.record && y != x;
    } else {
      forall d <- m.records ensures PlanningKey(d, m.rollback) != k {
        if d.Set() == x.record.Set() { assert d in des; }
      }
    }
  }

  lemma MissingIsAbsent(z: Zone, m: Manifest, current: seq<Listed>, d: Record, le: (Record, Record) -> bool)
    requires Ready(z, m, current) && NoDup(m.records) && NoDup(current)
    requires d in m.records && d in Missing(m, d.Set(), current, le)
    ensures !Exact(z, m)
  {
    var rs := d.Set();
    var cur, des := CurrentSet(m, rs, current, le), DesiredSet(m, rs, le);
    SetMembers(m, rs, current, le);
    UnclaimedFacts(cur, KeySet(des, m.rollback), m.rollback);
    StillWantedFacts(des, Unclaimed(cur, KeySet(des, m.rollback), m.rollback), m.rollback);
    forall id <- z ensures PlanningKey(z[id], m.rollback) != PlanningKey(d, m.rollback) {
      if z[id].Set() == rs { assert Listed(id, z[id]) in cur; }
    }
  }

  lemma SomethingSent(z: Zone, m: Manifest, current: seq<Listed>, c: Change, le: (Record, Record) -> bool)
    requires Ready(z, m, current) && PlanReady(z, m, current, le) && DistinctKeys(m)
    requires c in Changes(m, current, le)
    ensures !Exact(z, m)
  {
    hide LeftOver, Missing, Changes;
    var rs := SetOf(c);
    assert SetFacts(m, rs, current, le);
    if !c.Create? {
      LeftOverIsWrong(z, m, current, c.before, le);
    } else {
      MissingIsAbsent(z, m, current, c.after, le);
    }
  }
}
