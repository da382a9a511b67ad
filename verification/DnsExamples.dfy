/** Two manifests that their loader accepts: one whose rollback cannot restore what it asks for, and a mixed one. */
module DnsExamples {
  import opened Wrappers
  import opened DnsModel
  import opened DnsPlanFacts
  import opened DnsConvergence
  import opened DnsMinimality
  import opened DnsListingOrder

  function Address(content: string, meta: Meta): Record { Record(A, "www.example.org", content, 1, false, None, meta) }

  const WANTED := Address("192.0.2.1", map[])
  const COMMENTED := Address("192.0.2.2", map["comment" := "temporary"])
  const CURRENT := Listed("id-1", COMMENTED)

  /** Somebody has since put another address there, with a comment. */
  const ROLLBACK := Manifest([WANTED.Set()], [WANTED], true)
  const ZONE: Zone := map["id-1" := COMMENTED]

  lemma RollbackIsLoadable()
    ensures Ready(ZONE, ROLLBACK, [CURRENT])
  {
  }

  lemma OneOverwrite(le: (Record, Record) -> bool)
    requires TotalOrder(le)
    ensures Changes(ROLLBACK, [CURRENT], le) == [Update(CURRENT, WANTED)]
  {
    hide SortBy, InSet, RecordsInSet, Unmatched, Unclaimed, StillWanted;
    var rs := WANTED.Set();
    InSetAll([CURRENT], rs, rs);
    SortedStays([CURRENT], ListedKey(true), le);
    OneDesired(le);
    assert WANTED.content != COMMENTED.content;
    JustOne(CURRENT, {WANTED}, true);
    assert {WANTED} - {COMMENTED} == {WANTED};
    StillWantedOne();
    assert LeftOver(ROLLBACK, rs, [CURRENT], le) == [CURRENT];
    assert Missing(ROLLBACK, rs, [CURRENT], le) == [WANTED];
    PairIs([CURRENT], [WANTED]);
    assert SetPlan(ROLLBACK, rs, [CURRENT], le) == [Update(CURRENT, WANTED)];
    assert ROLLBACK.managed[..0] == [];
    assert SetPlans(ROLLBACK, [], [CURRENT], le) == [];
  }

  lemma OneDesired(le: (Record, Record) -> bool)
    ensures DesiredSet(ROLLBACK, WANTED.Set(), le) == [WANTED]
    ensures KeySet(DesiredSet(ROLLBACK, WANTED.Set(), le), true) == {WANTED}
  {
    assert [WANTED][..0] == [];
    assert RecordsInSet([WANTED], WANTED.Set()) == [WANTED];
    assert SortBy([WANTED], RecordKey(true), le) == [WANTED];
    assert PlanningKey(WANTED, true) == WANTED;
  }

  lemma StillWantedOne()
    ensures StillWanted([WANTED], {WANTED}, true) == [WANTED]
  {
    assert [WANTED][..0] == [];
  }

  /** The overwrite leaves the comment behind, so the rollback does not end as desired. */
  lemma UncoveredRollbackStaysInexact(le: (Record, Record) -> bool)
    requires TotalOrder(le)
    ensures Ready(ZONE, ROLLBACK, [CURRENT])
    ensures var changes := Changes(ROLLBACK, [CURRENT], le);
            && |changes| == 1 && !Covered(changes[0])
            && FreshFor(ZONE, BatchOf(changes), []) && !Exact(After(ZONE, changes, []), ROLLBACK)
  {
    hide Changes, After, Exact, Ready;
    RollbackIsLoadable();
    OneOverwrite(le);
    var changes := Changes(ROLLBACK, [CURRENT], le);
    NothingPosted();
    assert "comment" in COMMENTED.meta.Keys && "comment" !in WANTED.meta.Keys;
    PlanConverges(ZONE, ROLLBACK, [CURRENT], le, []);
    assert changes[0] in changes;
  }

  lemma NothingPosted()
    ensures PostsOf([Update(CURRENT, WANTED)]) == []
  {
    assert [Update(CURRENT, WANTED)][..0] == [];
  }

  // ---------------------------------------------------------------- what loaders let through

  function Plain(kind: Kind, name: string, content: string, ttl: int): Record {
    Record(kind, name, content, ttl, false, None, map[])
  }

  function Exchange(name: string, content: string, priority: int): Record {
    Record(MX, name, content, 300, false, Some(priority), map[])
  }

  const MIXED := [
    Plain(A, "a", "192.0.2.1", 60), Plain(AAAA, "a", "2001:db8::1", 86400), Plain(TXT, "a", "v=spf1 -all", 1),
    Record(CNAME, "b", "a", 1, true, None, map[]),
    Exchange("c", ".", 0), Exchange("d", "mx1", 65535), Exchange("d", "mx2", 10)]

  const MIXED_SETS := [
    RecordSet(A, "a"), RecordSet(AAAA, "a"), RecordSet(TXT, "a"), RecordSet(CNAME, "b"), RecordSet(MX, "c"),
    RecordSet(MX, "d")]

  lemma MixedAre()
    ensures |MIXED| == 7 && "a" != "b" && "a" != "c" && "a" != "d" && "b" != "c" && "b" != "d" && "c" != "d"
    ensures MIXED[0].kind == A && MIXED[1].kind == AAAA && MIXED[2].kind == TXT && MIXED[3].kind == CNAME
    ensures MIXED[4].kind == MX && MIXED[5].kind == MX && MIXED[6].kind == MX
    ensures MIXED[0].name == "a" && MIXED[1].name == "a" && MIXED[2].name == "a" && MIXED[3].name == "b"
    ensures MIXED[4].name == "c" && MIXED[5].name == "d" && MIXED[6].name == "d"
    ensures !MIXED[0].proxied && !MIXED[1].proxied && MIXED[4].priority == Some(0)
    ensures MIXED[5].content != "." && MIXED[6].content != "." && MIXED[5].content != MIXED[6].content
  {
    assert "a"[0] == 'a' && "b"[0] == 'b' && "c"[0] == 'c' && "d"[0] == 'd';
    assert "mx1"[2] == '1' && "mx2"[2] == '2' && |"."| == 1 && |"mx1"| == 3 && |"mx2"| == 3;
  }

  lemma MixedDiffer()
    ensures DistinctSemantics(MIXED)
  {
    MixedAre();
    hide MIXED;
    forall i, j | 0 <= i < j < |MIXED| ensures MIXED[i].Semantic() != MIXED[j].Semantic() {
      assert MIXED[i].kind != MIXED[j].kind || MIXED[i].name != MIXED[j].name || MIXED[i].content != MIXED[j].content;
    }
  }

  /** Two records share a name only among the first three or the last two. */
  lemma SharedNames(i: nat, j: nat)
    requires i < |MIXED| && j < |MIXED| && MIXED[i].name == MIXED[j].name
    ensures i == j || (i <= 2 && j <= 2) || (5 <= i <= 6 && 5 <= j <= 6)
  {
    MixedAre();
    hide MIXED;
  }

  lemma MixedNames()
    ensures NameRules(MIXED)
  {
    MixedAre();
    hide MIXED;
    forall i: nat, j: nat | i < |MIXED| && j < |MIXED| && MIXED[i].name == MIXED[j].name
      ensures i == j || (i <= 2 && j <= 2) || (5 <= i <= 6 && 5 <= j <= 6)
    {
      SharedNames(i, j);
    }
    assert forall i | 0 <= i < |MIXED| && MIXED[i].kind.MX? :: i >= 4;
  }

  lemma EachIsInOrder(rollback: bool)
    ensures forall r <- MIXED ::
              Managed(Manifest(MIXED_SETS, MIXED, rollback), r) && r.WellFormed() && TtlOk(r) && PriorityOk(r) &&
              r.content != [] && r.meta == map[]
  {
    forall r <- MIXED
      ensures Managed(Manifest(MIXED_SETS, MIXED, rollback), r) && r.WellFormed() && TtlOk(r) && PriorityOk(r) &&
              r.content != [] && r.meta == map[]
    {
      assert MIXED_SETS[0] == MIXED[0].Set() && MIXED_SETS[1] == MIXED[1].Set() && MIXED_SETS[2] == MIXED[2].Set();
      assert MIXED_SETS[3] == MIXED[3].Set() && MIXED_SETS[4] == MIXED[4].Set() && MIXED_SETS[5] == MIXED[5].Set();
      assert MIXED_SETS[5] == MIXED[6].Set();
      var i :| 0 <= i < |MIXED| && MIXED[i] == r;
    }
  }

  /**
   The rules of a manifest leave room for what zones hold: addresses of both kinds and texts at one name, a
   proxied alias, a Null MX, several exchanges, and the ends of the ranges of TTLs and priorities.
   */
  lemma MixedIsLoadable(rollback: bool)
    ensures Loadable(Manifest(MIXED_SETS, MIXED, rollback))
  {
    MixedNames();
    MixedDiffer();
    EachIsInOrder(rollback);
    MixedAre();
    hide MIXED, NameRules, DistinctSemantics;
  }
}
