/** When the planner lets a rollback through: exactly when it meets no conflict with unmanaged records. */
module DnsRollbackAcceptance {
  import opened Wrappers
  import opened DnsModel
  import opened DnsPlanFacts
  import opened DnsConvergence
  import opened DnsGuarantees
  import opened DnsMinimality
  import opened DnsRollback
  import opened DnsPlanner
  import opened DnsListingOrder

  // ---------------------------------------------------------------- as long as the forward plan

  lemma PairLength(left: seq<Listed>, missing: seq<Record>)
    ensures |Pair(left, missing)| == |left| + |missing| - Min(|left|, |missing|)
  {
    PairIs(left, missing);
  }

  lemma SameSetPlanLength(z: Zone, m: Manifest, current: seq<Listed>, newIds: seq<string>, z1: Zone,
                          relisted: seq<Listed>, le: (Record, Record) -> bool, rs: RecordSet)
    requires Between(z, m, current, newIds, z1, relisted, le) && rs in m.managed
    ensures |SetPlan(RollbackManifest(m, current), rs, relisted, le)| == |SetPlan(m, rs, current, le)|
  {
    hide Between, LeftOver, Missing, Pair, RollbackManifest;
    var rb := RollbackManifest(m, current);
    MissingSequence(z, m, current, newIds, z1, relisted, le, rs);
    LeftOverSequence(z, m, current, newIds, z1, relisted, le, rs);
    PairLength(LeftOver(m, rs, current, le), Missing(m, rs, current, le));
    PairLength(LeftOver(rb, rs, relisted, le), Missing(rb, rs, relisted, le));
    assert |SemanticsOf(LeftOver(rb, rs, relisted, le))| == |LeftOver(rb, rs, relisted, le)|;
    assert |RecordsOf(LeftOver(m, rs, current, le))| == |LeftOver(m, rs, current, le)|;
  }

  lemma {:induction false} SamePlanLength(z: Zone, m: Manifest, current: seq<Listed>, newIds: seq<string>, z1: Zone,
                                         relisted: seq<Listed>, le: (Record, Record) -> bool, sets: seq<RecordSet>)
    requires Between(z, m, current, newIds, z1, relisted, le) && forall rs <- sets :: rs in m.managed
    ensures |SetPlans(RollbackManifest(m, current), sets, relisted, le)| == |SetPlans(m, sets, current, le)|
    decreases |sets|
  {
    hide Between, SetPlan, RollbackManifest;
    if sets != [] {
      assert sets[|sets| - 1] in sets;
      SameSetPlanLength(z, m, current, newIds, z1, relisted, le, sets[|sets| - 1]);
      SamePlanLength(z, m, current, newIds, z1, relisted, le, sets[..|sets| - 1]);
    }
  }

  // ---------------------------------------------------------------- the condition

  lemma SameConflicts(z: Zone, m: Manifest, current: seq<Listed>, newIds: seq<string>,
                      relisted: seq<Listed>, newIds': seq<string>, le: (Record, Record) -> bool)
    requires RollbackReady(z, m, current, newIds, relisted, newIds', le)
    ensures var rb := RollbackManifest(m, current);
            && Conflicting(rb, relisted) == Conflicting(rb, current)
            && |Changes(rb, relisted, le)| == |Changes(m, current, le)|
  {
    ForwardReaches(z, m, current, newIds, relisted, newIds', le);
    var rb := RollbackManifest(m, current);
    var z1 := After(z, Changes(m, current, le), newIds);
    hide After, Between, SameUnmanaged, Loadable, ZoneWellFormed, TotalOrder, SemanticFirst, Conflicting, SetPlans;
    SameManagedSets(z, z1, m, rb);
    ConflictsStay(z, z1, rb, current, relisted);
    SamePlanLength(z, m, current, newIds, z1, relisted, le, m.managed);
  }

  /**
   After an accepted forward plan, the planner accepts the rollback if and only if the records to be
   restored do not conflict with the unmanaged ones listed before the forward plan, which can be told
   when the rollback manifest is written. A refusal is always for a name conflict.
   */
  lemma RollbackAcceptedIff(z: Zone, m: Manifest, current: seq<Listed>, newIds: seq<string>,
                            relisted: seq<Listed>, newIds': seq<string>, le: (Record, Record) -> bool)
    requires RollbackReady(z, m, current, newIds, relisted, newIds', le) && PlanOf(m, current, le).Ok?
    ensures var rb := RollbackManifest(m, current);
            PlanOf(rb, relisted, le) ==
            if Conflicting(rb, current) then Err(NameConflict) else Ok(Changes(rb, relisted, le))
  {
    hide RollbackReady, Conflicting, Changes, RollbackManifest;
    SameConflicts(z, m, current, newIds, relisted, newIds', le);
  }

  /** A rollback that the planner accepts, sent, puts the managed records back and touches no other. */
  lemma AcceptedRollbackRestores(z: Zone, m: Manifest, current: seq<Listed>, newIds: seq<string>,
                                 relisted: seq<Listed>, newIds': seq<string>, le: (Record, Record) -> bool)
    requires RollbackReady(z, m, current, newIds, relisted, newIds', le) && PlanOf(m, current, le).Ok?
    requires !Conflicting(RollbackManifest(m, current), current)
    ensures var z1 := After(z, PlanOf(m, current, le).value, newIds);
            var plan := PlanOf(RollbackManifest(m, current), relisted, le);
            && plan.Ok? && |newIds'| == |PostsOf(plan.value)|
            && var z2 := After(z1, plan.value, newIds');
               SameManaged(z, z2, m) && SameUnmanaged(z, z2, m)
  {
    RollbackAcceptedIff(z, m, current, newIds, relisted, newIds', le);
    RollbackRestores(z, m, current, newIds, relisted, newIds', le);
    hide SameManaged, SameUnmanaged, Conflicting, Changes, After, RollbackManifest, Loadable, Lists, ZoneWellFormed;
  }

  // ---------------------------------------------------------------- a rollback that is refused

  const OLD := Record(A, "sub.example.org", "192.0.2.7", 1, false, None, map[])
  const DELEGATION := Record(NS, "sub.example.org", "ns.example.net", 300, false, None, map[])
  const X := Listed("id-1", OLD)
  const Y := Listed("id-2", DELEGATION)

  /** No address is wanted at a name that is also delegated: the forward plan takes it away. */
  const NONE := Manifest([OLD.Set()], [], false)
  const BEFORE: Zone := map["id-1" := OLD, "id-2" := DELEGATION]
  const BETWEEN: Zone := map["id-2" := DELEGATION]

  /** Only the address is in the managed recordset. */
  lemma ListedInSet()
    ensures InSet([X, Y], OLD.Set()) == [X] && InSet([Y], OLD.Set()) == []
  {
    assert [X][..0] == [] && [Y][..0] == [];
    assert OLD.Set().kind == A && DELEGATION.Set().kind == NS;
    assert InSet([X], OLD.Set()) == [X];
    InSetJoin([X], [Y], OLD.Set());
    assert [X] + [Y] == [X, Y];
  }

  lemma ForwardDeletes(le: (Record, Record) -> bool)
    ensures Changes(NONE, [X, Y], le) == [Delete(X)]
  {
    hide SortBy, Unmatched, Unclaimed, DesiredSet;
    var rs := OLD.Set();
    ListedInSet();
    SortedStays([X], ListedKey(false), le);
    NothingDesired(NONE, rs, le);
    JustOne(X, {}, false);
    assert LeftOver(NONE, rs, [X, Y], le) == [X] && Missing(NONE, rs, [X, Y], le) == [];
    PairIs([X], []);
    assert SetPlan(NONE, rs, [X, Y], le) == [Delete(X)];
    assert NONE.managed[..0] == [];
    assert SetPlans(NONE, [], [X, Y], le) == [];
  }

  lemma RecordedIs()
    ensures RollbackManifest(NONE, [X, Y]) == Manifest([OLD.Set()], [OLD], true)
  {
    assert [X, Y][..1] == [X] && [X][..0] == [];
    assert DELEGATION.Set() != OLD.Set();
    assert ManagedRecords(NONE, [X]) == [OLD];
  }

  lemma ForwardIsReady()
    ensures Ready(BEFORE, NONE, [X, Y]) && !Conflicting(NONE, [X, Y])
    ensures Loadable(Manifest([OLD.Set()], [OLD], true))
    ensures Conflicting(Manifest([OLD.Set()], [OLD], true), [X, Y])
  {
    var rb := Manifest([OLD.Set()], [OLD], true);
    assert OLD in rb.records && Y in [X, Y] && ConflictsAt(rb, OLD, Y.record);
  }

  lemma AfterForward()
    ensures FreshFor(BEFORE, BatchOf([Delete(X)]), []) && After(BEFORE, [Delete(X)], []) == BETWEEN
  {
    assert [Delete(X)][..0] == [];
    assert DeletesOf([]) == [] && PatchesOf([]) == [] && PostsOf([]) == [];
    assert DeletesOf([Delete(X)]) == ["id-1"];
    assert PatchesOf([Delete(X)]) == [];
    assert PostsOf([Delete(X)]) == [];
  }

  lemma RollbackCreates(le: (Record, Record) -> bool)
    ensures Changes(Manifest([OLD.Set()], [OLD], true), [Y], le) == [Create(OLD)]
  {
    hide Unmatched, Unclaimed, StillWanted, InSet;
    var rb, rs := Manifest([OLD.Set()], [OLD], true), OLD.Set();
    ListedInSet();
    assert CurrentSet(rb, rs, [Y], le) == [];
    assert [OLD][..0] == [];
    assert RecordsInSet([OLD], rs) == [OLD];
    assert SortBy([OLD], RecordKey(true), le) == [OLD];
    assert DesiredSet(rb, rs, le) == [OLD];
    assert PlanningKey(OLD, true) == OLD;
    assert KeySet([OLD], true) == {OLD};
    OneMissing();
    assert LeftOver(rb, rs, [Y], le) == [] && Missing(rb, rs, [Y], le) == [OLD];
    PairIs([], [OLD]);
    assert SetPlan(rb, rs, [Y], le) == [Create(OLD)];
    assert rb.managed[..0] == [];
    assert SetPlans(rb, [], [Y], le) == [];
  }

  lemma OneMissing()
    ensures Unmatched([], {OLD}, true) == [] && Unclaimed([], {OLD}, true) == {OLD}
    ensures StillWanted([OLD], {OLD}, true) == [OLD]
  {
    assert [OLD][..0] == [];
  }

  /** The forward plan is accepted and its rollback manifest loadable, and the rollback is refused. */
  lemma RefusedRollback(le: (Record, Record) -> bool)
    requires TotalOrder(le) && SemanticFirst(le)
    ensures RollbackReady(BEFORE, NONE, [X, Y], [], [Y], ["id-3"], le)
    ensures PlanOf(NONE, [X, Y], le) == Ok([Delete(X)])
    ensures PlanOf(RollbackManifest(NONE, [X, Y]), [Y], le) == Err(NameConflict)
  {
    hide Changes, After, Loadable, ZoneWellFormed, TotalOrder, SemanticFirst, Conflicting, RollbackManifest;
    ForwardIsReady();
    ForwardDeletes(le);
    RecordedIs();
    AfterForward();
    RollbackCreates(le);
    assert FreshFor(BETWEEN, BatchOf([Create(OLD)]), ["id-3"]) by { assert [Create(OLD)][..0] == []; }
    assert Lists(BETWEEN, [Y]);
    RollbackAcceptedIff(BEFORE, NONE, [X, Y], [], [Y], ["id-3"], le);
  }
}
