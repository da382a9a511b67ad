/**
 What the diff of one recordset, and the plan made of all of them, consists of: every leftover
 current record and every missing desired record appears in exactly one change.
 */
module DnsPlanFacts {
  import opened DnsModel

  predicate NoDup<T(==)>(xs: seq<T>) {
    forall i, j | 0 <= i < j < |xs| :: xs[i] != xs[j]
  }

  // ---------------------------------------------------------------- sorting

  lemma {:induction false} InsertKeeps<T>(x: T, sorted: seq<T>, key: T -> Record, le: (Record, Record) -> bool)
    ensures multiset(Insert(x, sorted, key, le)) == multiset(sorted) + multiset{x}
    decreases |sorted|
  {
    if sorted != [] {
      var n := |sorted| - 1;
      assert sorted == sorted[..n] + [sorted[n]];
      InsertKeeps(x, sorted[..n], key, le);
    }
  }

  lemma {:induction false} SortKeeps<T>(xs: seq<T>, key: T -> Record, le: (Record, Record) -> bool)
    ensures multiset(SortBy(xs, key, le)) == multiset(xs)
    decreases |xs|
  {
    if xs != [] {
      var n := |xs| - 1;
      assert xs == xs[..n] + [xs[n]];
      SortKeeps(xs[..n], key, le);
      InsertKeeps(xs[n], SortBy(xs[..n], key, le), key, le);
    }
  }

  lemma {:induction false} NoDupBag<T>(xs: seq<T>)
    ensures NoDup(xs) <==> forall x :: multiset(xs)[x] <= 1
    decreases |xs|
  {
    if xs != [] {
      var n := |xs| - 1;
      assert xs == xs[..n] + [xs[n]];
      NoDupBag(xs[..n]);
      assert NoDup(xs) <==> NoDup(xs[..n]) && xs[n] !in xs[..n];
      assert xs[n] in xs[..n] <==> multiset(xs[..n])[xs[n]] >= 1;
      if NoDup(xs) {
        forall x ensures multiset(xs)[x] <= 1 { assert multiset(xs[..n])[x] <= 1; }
      } else if NoDup(xs[..n]) {
        assert multiset(xs)[xs[n]] >= 2;
      } else {
        var x :| multiset(xs[..n])[x] > 1;
        assert multiset(xs)[x] > 1;
      }
    }
  }

  /** Sorting changes neither membership nor distinctness. */
  lemma SortFacts<T>(xs: seq<T>, key: T -> Record, le: (Record, Record) -> bool)
    ensures forall x :: x in SortBy(xs, key, le) <==> x in xs
    ensures NoDup(xs) ==> NoDup(SortBy(xs, key, le))
    ensures multiset(SortBy(xs, key, le)) == multiset(xs)
  {
    SortKeeps(xs, key, le);
    NoDupBag(xs);
    NoDupBag(SortBy(xs, key, le));
    forall x ensures x in SortBy(xs, key, le) <==> x in xs {
      assert x in multiset(SortBy(xs, key, le)) <==> x in multiset(xs);
    }
  }

  lemma {:induction false} InSetFacts(xs: seq<Listed>, rs: RecordSet)
    ensures forall x :: x in InSet(xs, rs) <==> x in xs && x.record.Set() == rs
    ensures NoDup(xs) ==> NoDup(InSet(xs, rs))
    decreases |xs|
  {
    if xs != [] {
      InSetFacts(xs[..|xs| - 1], rs);
      assert xs == xs[..|xs| - 1] + [xs[|xs| - 1]];
    }
  }

  lemma {:induction false} RecordsInSetFacts(xs: seq<Record>, rs: RecordSet)
    ensures forall x :: x in RecordsInSet(xs, rs) <==> x in xs && x.Set() == rs
    ensures NoDup(xs) ==> NoDup(RecordsInSet(xs, rs))
    decreases |xs|
  {
    if xs != [] {
      RecordsInSetFacts(xs[..|xs| - 1], rs);
      assert xs == xs[..|xs| - 1] + [xs[|xs| - 1]];
    }
  }

  // ---------------------------------------------------------------- matching

  lemma {:induction false} UnclaimedFacts(current: seq<Listed>, keys: set<Record>, rollback: bool)
    ensures forall k :: k in Unclaimed(current, keys, rollback) <==>
              k in keys && forall x <- current :: PlanningKey(x.record, rollback) != k
    decreases |current|
  {
    if current != [] {
      UnclaimedFacts(current[..|current| - 1], keys, rollback);
      assert current == current[..|current| - 1] + [current[|current| - 1]];
    }
  }

  /** A claimed record is the first with a wanted key: claimed keys are wanted and pairwise different. */
  predicate Claims(current: seq<Listed>, i: nat, keys: set<Record>, rollback: bool)
    requires i < |current|
  {
    PlanningKey(current[i].record, rollback) in Unclaimed(current[..i], keys, rollback)
  }

  lemma {:induction false} UnmatchedFacts(current: seq<Listed>, keys: set<Record>, rollback: bool)
    requires NoDup(current)
    ensures NoDup(Unmatched(current, keys, rollback))
    ensures forall x <- Unmatched(current, keys, rollback) :: x in current
    ensures forall i | 0 <= i < |current| ::
              Claims(current, i, keys, rollback) <==> current[i] !in Unmatched(current, keys, rollback)
    decreases |current|
  {
    if current != [] {
      var n := |current| - 1;
      UnmatchedFacts(current[..n], keys, rollback);
      UnmatchedSnoc(current[..n], current[n], keys, rollback);
      assert current == current[..n] + [current[n]];
    }
  }

  lemma UnmatchedSnoc(init: seq<Listed>, x: Listed, keys: set<Record>, rollback: bool)
    requires x !in init && NoDup(Unmatched(init, keys, rollback))
    requires forall y <- Unmatched(init, keys, rollback) :: y in init
    requires forall i | 0 <= i < |init| :: Claims(init, i, keys, rollback) <==> init[i] !in Unmatched(init, keys, rollback)
    ensures NoDup(Unmatched(init + [x], keys, rollback))
    ensures forall y <- Unmatched(init + [x], keys, rollback) :: y in init + [x]
    ensures forall i | 0 <= i < |init + [x]| ::
              Claims(init + [x], i, keys, rollback) <==> (init + [x])[i] !in Unmatched(init + [x], keys, rollback)
  {
    hide PlanningKey, Unclaimed, Unmatched, Claims;
    var current, left := init + [x], Unmatched(init, keys, rollback);
    var all := Unmatched(current, keys, rollback);
    UnmatchedIs(init, x, keys, rollback);
    forall i | 0 <= i < |current| ensures Claims(current, i, keys, rollback) <==> current[i] !in all {
      if i < |init| {
        ClaimsOfPrefix(init, x, i, keys, rollback);
        assert current[i] in init;
      } else {
        assert x !in left;
      }
    }
  }

  lemma UnmatchedIs(init: seq<Listed>, x: Listed, keys: set<Record>, rollback: bool)
    ensures Unmatched(init + [x], keys, rollback) ==
            Unmatched(init, keys, rollback) + (if Claims(init + [x], |init|, keys, rollback) then [] else [x])
  {
    assert (init + [x])[..|init + [x]| - 1] == init && (init + [x])[..|init|] == init;
  }

  lemma ClaimsOfPrefix(init: seq<Listed>, x: Listed, i: nat, keys: set<Record>, rollback: bool)
    requires i < |init|
    ensures Claims(init + [x], i, keys, rollback) <==> Claims(init, i, keys, rollback)
  {
    assert init[..i] == (init + [x])[..i];
  }

  lemma {:induction false} StillWantedFacts(desired: seq<Record>, unclaimed: set<Record>, rollback: bool)
    ensures forall d :: d in StillWanted(desired, unclaimed, rollback) <==>
              d in desired && PlanningKey(d, rollback) in unclaimed
    ensures NoDup(desired) ==> NoDup(StillWanted(desired, unclaimed, rollback))
    decreases |desired|
  {
    if desired != [] {
      StillWantedFacts(desired[..|desired| - 1], unclaimed, rollback);
      assert desired == desired[..|desired| - 1] + [desired[|desired| - 1]];
    }
  }

  // ---------------------------------------------------------------- one recordset

  predicate DistinctKeys(m: Manifest) {
    forall i, j | 0 <= i < j < |m.records| ::
      PlanningKey(m.records[i], m.rollback) != PlanningKey(m.records[j], m.rollback)
  }

  lemma LoadableDistinct(m: Manifest)
    requires DistinctSemantics(m.records)
    ensures DistinctKeys(m) && NoDup(m.records)
  {
    forall i, j | 0 <= i < j < |m.records|
      ensures PlanningKey(m.records[i], m.rollback) != PlanningKey(m.records[j], m.rollback)
    {
      assert m.records[i].Semantic() != m.records[j].Semantic();
    }
  }

  /** A current record that stays as it is. */
  predicate Kept(m: Manifest, x: Listed, current: seq<Listed>, le: (Record, Record) -> bool) {
    x in current && Managed(m, x.record) && x !in LeftOver(m, x.record.Set(), current, le)
  }

  /** Leftovers and missing records of a recordset, and what is true of the records that stay. */
  ghost predicate SetFacts(m: Manifest, rs: RecordSet, current: seq<Listed>, le: (Record, Record) -> bool) {
    var left, missing := LeftOver(m, rs, current, le), Missing(m, rs, current, le);
    && NoDup(left) && NoDup(missing)
    && (forall x <- left :: x in current && x.record.Set() == rs)
    && (forall d <- missing :: d in m.records && d.Set() == rs)
    && (forall x <- current | x.record.Set() == rs && x !in left ::
          exists d <- m.records :: d !in missing && PlanningKey(d, m.rollback) == PlanningKey(x.record, m.rollback))
    && (forall x <- current, y <- current |
          x.record.Set() == rs && y.record.Set() == rs && x !in left && y !in left && x != y ::
          PlanningKey(x.record, m.rollback) != PlanningKey(y.record, m.rollback))
    && (forall d <- m.records | d.Set() == rs && d !in missing ::
          exists x <- current ::
            x.record.Set() == rs && x !in left && PlanningKey(d, m.rollback) == PlanningKey(x.record, m.rollback))
  }

  lemma SetFactsHold(m: Manifest, rs: RecordSet, current: seq<Listed>, le: (Record, Record) -> bool)
    requires DistinctKeys(m) && NoDup(m.records) && NoDup(current)
    ensures SetFacts(m, rs, current, le)
  {
    var cur, des := CurrentSet(m, rs, current, le), DesiredSet(m, rs, le);
    SetMembers(m, rs, current, le);
    var keys := KeySet(des, m.rollback);
    var unclaimed := Unclaimed(cur, keys, m.rollback);
    UnclaimedFacts(cur, keys, m.rollback);
    UnmatchedFacts(cur, keys, m.rollback);
    StillWantedFacts(des, unclaimed, m.rollback);
    KeptAreWanted(m, rs, current, le);
    KeptDiffer(m, rs, current, le);
    WantedAreKept(m, rs, current, le);
  }

  lemma SetMembers(m: Manifest, rs: RecordSet, current: seq<Listed>, le: (Record, Record) -> bool)
    requires NoDup(m.records) && NoDup(current)
    ensures forall x :: x in CurrentSet(m, rs, current, le) <==> x in current && x.record.Set() == rs
    ensures forall d :: d in DesiredSet(m, rs, le) <==> d in m.records && d.Set() == rs
    ensures NoDup(CurrentSet(m, rs, current, le)) && NoDup(DesiredSet(m, rs, le))
  {
    InSetFacts(current, rs);
    RecordsInSetFacts(m.records, rs);
    SortFacts(InSet(current, rs), ListedKey(m.rollback), le);
    SortFacts(RecordsInSet(m.records, rs), RecordKey(m.rollback), le);
  }

  lemma KeptAreWanted(m: Manifest, rs: RecordSet, current: seq<Listed>, le: (Record, Record) -> bool)
    requires DistinctKeys(m) && NoDup(m.records) && NoDup(current)
    ensures forall x <- current | x.record.Set() == rs && x !in LeftOver(m, rs, current, le) ::
              exists d <- m.records ::
                d !in Missing(m, rs, current, le) && PlanningKey(d, m.rollback) == PlanningKey(x.record, m.rollback)
  {
    var cur, des := CurrentSet(m, rs, current, le), DesiredSet(m, rs, le);
    SetMembers(m, rs, current, le);
    var keys := KeySet(des, m.rollback);
    UnmatchedFacts(cur, keys, m.rollback);
    forall x <- current | x.record.Set() == rs && x !in LeftOver(m, rs, current, le)
      ensures exists d <- m.records ::
                d !in Missing(m, rs, current, le) && PlanningKey(d, m.rollback) == PlanningKey(x.record, m.rollback)
    {
      var i :| 0 <= i < |cur| && cur[i] == x;
      assert Claims(cur, i, keys, m.rollback);
      UnclaimedFacts(cur[..i], keys, m.rollback);
      var d :| d in des && PlanningKey(d, m.rollback) == PlanningKey(x.record, m.rollback);
      UnclaimedFacts(cur, keys, m.rollback);
      assert PlanningKey(d, m.rollback) !in Unclaimed(cur, keys, m.rollback);
      StillWantedFacts(des, Unclaimed(cur, keys, m.rollback), m.rollback);
      assert d in m.records;
    }
  }

  lemma KeptDiffer(m: Manifest, rs: RecordSet, current: seq<Listed>, le: (Record, Record) -> bool)
    requires NoDup(m.records) && NoDup(current)
    ensures forall x <- current, y <- current |
              x.record.Set() == rs && y.record.Set() == rs && x != y &&
              x !in LeftOver(m, rs, current, le) && y !in LeftOver(m, rs, current, le) ::
              PlanningKey(x.record, m.rollback) != PlanningKey(y.record, m.rollback)
  {
    var cur := CurrentSet(m, rs, current, le);
    SetMembers(m, rs, current, le);
    var keys := KeySet(DesiredSet(m, rs, le), m.rollback);
    UnmatchedFacts(cur, keys, m.rollback);
    forall i, j | 0 <= i < j < |cur| && Claims(cur, i, keys, m.rollback) && Claims(cur, j, keys, m.rollback)
      ensures PlanningKey(cur[i].record, m.rollback) != PlanningKey(cur[j].record, m.rollback)
    {
      UnclaimedFacts(cur[..j], keys, m.rollback);
      assert cur[i] in cur[..j];
    }
  }

  lemma WantedAreKept(m: Manifest, rs: RecordSet, current: seq<Listed>, le: (Record, Record) -> bool)
    requires NoDup(m.records) && NoDup(current)
    ensures forall d <- m.records | d.Set() == rs && d !in Missing(m, rs, current, le) ::
              exists x <- current ::
                x.record.Set() == rs && x !in LeftOver(m, rs, current, le) &&
                PlanningKey(d, m.rollback) == PlanningKey(x.record, m.rollback)
  {
    var cur, des := CurrentSet(m, rs, current, le), DesiredSet(m, rs, le);
    SetMembers(m, rs, current, le);
    var keys := KeySet(des, m.rollback);
    UnmatchedFacts(cur, keys, m.rollback);
    StillWantedFacts(des, Unclaimed(cur, keys, m.rollback), m.rollback);
    forall d <- m.records | d.Set() == rs && d !in Missing(m, rs, current, le)
      ensures exists x <- current ::
                x.record.Set() == rs && x !in LeftOver(m, rs, current, le) &&
                PlanningKey(d, m.rollback) == PlanningKey(x.record, m.rollback)
    {
      assert d in des && PlanningKey(d, m.rollback) in keys;
      UnclaimedFacts(cur, keys, m.rollback);
      var i := FirstWithKey(cur, PlanningKey(d, m.rollback), m.rollback);
      UnclaimedFacts(cur[..i], keys, m.rollback);
      assert Claims(cur, i, keys, m.rollback);
      assert cur[i] in current;
    }
  }

  lemma FirstWithKey(xs: seq<Listed>, k: Record, rollback: bool) returns (i: nat)
    requires exists x <- xs :: PlanningKey(x.record, rollback) == k
    ensures i < |xs| && PlanningKey(xs[i].record, rollback) == k
    ensures forall x <- xs[..i] :: PlanningKey(x.record, rollback) != k
  {
    i := 0;
    while PlanningKey(xs[i].record, rollback) != k
      invariant i < |xs|
      invariant forall x <- xs[..i] :: PlanningKey(x.record, rollback) != k
      invariant exists x <- xs[i..] :: PlanningKey(x.record, rollback) == k
      decreases |xs| - i
    {
      assert xs[i..] == [xs[i]] + xs[i + 1..];
      i := i + 1;
    }
  }

  // ---------------------------------------------------------------- the whole plan

  /** No two changes act on the same current record, and no desired record is written twice. */
  predicate TouchesOnce(changes: seq<Change>) {
    && (forall i, j | 0 <= i < j < |changes| && !changes[i].Create? && !changes[j].Create? ::
          changes[i].before != changes[j].before)
    && (forall i, j | 0 <= i < j < |changes| && !changes[i].Delete? && !changes[j].Delete? ::
          changes[i].after != changes[j].after)
  }

  /** A change acts on a leftover, a missing record, or one of each, of a single recordset. */
  predicate Sound(m: Manifest, current: seq<Listed>, c: Change, rs: RecordSet, le: (Record, Record) -> bool) {
    && (!c.Create? ==> c.before in LeftOver(m, rs, current, le))
    && (!c.Delete? ==> c.after in Missing(m, rs, current, le))
  }

  function SetOf(c: Change): RecordSet {
    if c.Create? then c.after.Set() else c.before.record.Set()
  }

  ghost predicate PlanFacts(m: Manifest, sets: seq<RecordSet>, current: seq<Listed>, changes: seq<Change>,
                            le: (Record, Record) -> bool)
  {
    && TouchesOnce(changes)
    && (forall c <- changes :: SetOf(c) in sets && Sound(m, current, c, SetOf(c), le))
    && (forall rs <- sets, x <- LeftOver(m, rs, current, le) ::
          exists c <- changes :: !c.Create? && c.before == x)
    && (forall rs <- sets, d <- Missing(m, rs, current, le) ::
          exists c <- changes :: !c.Delete? && c.after == d)
  }

  lemma PairFacts(m: Manifest, rs: RecordSet, current: seq<Listed>, le: (Record, Record) -> bool)
    requires SetFacts(m, rs, current, le)
    ensures PlanFacts(m, [rs], current, SetPlan(m, rs, current, le), le)
  {
    hide LeftOver, Missing, Pair;
    var left, missing := LeftOver(m, rs, current, le), Missing(m, rs, current, le);
    var changes := Pair(left, missing);
    PairIs(left, missing);
    PairCovers(left, missing);
    PairTouches(left, missing);
  }

  lemma PairIs(left: seq<Listed>, missing: seq<Record>)
    ensures var changes, n := Pair(left, missing), Min(|left|, |missing|);
            && |changes| == |left| + |missing| - n
            && (forall i | 0 <= i < n :: changes[i] == Update(left[i], missing[i]))
            && (forall i | n <= i < |missing| :: changes[i] == Create(missing[i]))
            && (forall i | |missing| <= i < |changes| :: changes[i] == Delete(left[i + n - |missing|]))
  {
  }

  /** Each leftover and each missing record has its change. */
  lemma PairCovers(left: seq<Listed>, missing: seq<Record>)
    ensures forall x <- left :: exists c <- Pair(left, missing) :: !c.Create? && c.before == x
    ensures forall d <- missing :: exists c <- Pair(left, missing) :: !c.Delete? && c.after == d
    ensures forall c <- Pair(left, missing) :: (!c.Create? ==> c.before in left) && (!c.Delete? ==> c.after in missing)
  {
    hide Pair;
    PairIs(left, missing);
    var changes, n := Pair(left, missing), Min(|left|, |missing|);
    forall x <- left ensures exists c <- changes :: !c.Create? && c.before == x {
      var i :| 0 <= i < |left| && left[i] == x;
      var at := if i < n then i else i + |missing| - n;
      assert !changes[at].Create? && changes[at].before == x;
    }
    forall d <- missing ensures exists c <- changes :: !c.Delete? && c.after == d {
      var i :| 0 <= i < |missing| && missing[i] == d;
      assert !changes[i].Delete? && changes[i].after == d;
    }
  }

  lemma PairTouches(left: seq<Listed>, missing: seq<Record>)
    requires NoDup(left) && NoDup(missing)
    ensures TouchesOnce(Pair(left, missing))
  {
    hide Pair;
    PairIs(left, missing);
  }

  lemma {:induction false} PlanFactsHold(m: Manifest, sets: seq<RecordSet>, current: seq<Listed>,
                                        le: (Record, Record) -> bool)
    requires DistinctKeys(m) && NoDup(m.records) && NoDup(current) && NoDup(sets)
    ensures PlanFacts(m, sets, current, SetPlans(m, sets, current, le), le)
    decreases |sets|
  {
    hide LeftOver, Missing, SetPlan;
    if sets != [] {
      var n := |sets| - 1;
      var rs := sets[n];
      PlanFactsHold(m, sets[..n], current, le);
      forall s <- sets ensures SetFacts(m, s, current, le) { SetFactsHold(m, s, current, le); }
      PairFacts(m, rs, current, le);
      assert sets == sets[..n] + [rs];
      JoinPlans(m, sets[..n], rs, current, SetPlans(m, sets[..n], current, le), SetPlan(m, rs, current, le), le);
    }
  }

  lemma JoinPlans(m: Manifest, sets: seq<RecordSet>, rs: RecordSet, current: seq<Listed>,
                  a: seq<Change>, b: seq<Change>, le: (Record, Record) -> bool)
    requires rs !in sets && SetFacts(m, rs, current, le)
    requires forall s <- sets :: SetFacts(m, s, current, le)
    requires PlanFacts(m, sets, current, a, le) && PlanFacts(m, [rs], current, b, le)
    ensures PlanFacts(m, sets + [rs], current, a + b, le)
  {
    hide LeftOver, Missing;
    forall c <- a ensures (!c.Delete? ==> c.after.Set() == SetOf(c)) && SetOf(c) != rs {
      assert SetFacts(m, SetOf(c), current, le);
    }
    forall c <- b ensures (!c.Delete? ==> c.after.Set() == SetOf(c)) && SetOf(c) == rs { }
    assert forall i | 0 <= i < |a| :: (a + b)[i] == a[i];
    assert forall i | 0 <= i < |b| :: (a + b)[|a| + i] == b[i];
    assert TouchesOnce(a + b);
  }
}
