/**
 The order in which the provider lists its records: when it matters to the plan, and so to the
 fingerprint that an approval names.
 */
module DnsListingOrder {
  import opened DnsModel
  import opened DnsPlanFacts
  import opened DnsMinimality
  import opened DnsPlanner

  // ---------------------------------------------------------------- the ids a plan touches

  /** The ids of the records that a plan overwrites or deletes, in plan order. */
  function TouchedIds(changes: seq<Change>): seq<string> {
    if changes == [] then []
    else
      var c := changes[|changes| - 1];
      TouchedIds(changes[..|changes| - 1]) + (if c.Create? then [] else [c.before.id])
  }

  function IdsOf(xs: seq<Listed>): seq<string> { seq(|xs|, i requires 0 <= i < |xs| => xs[i].id) }

  lemma {:induction false} TouchedJoin(a: seq<Change>, b: seq<Change>)
    ensures TouchedIds(a + b) == TouchedIds(a) + TouchedIds(b)
    decreases |b|
  {
    if b == [] {
      assert a + b == a;
    } else {
      var n := |b| - 1;
      assert (a + b)[..|a + b| - 1] == a + b[..n];
      TouchedJoin(a, b[..n]);
    }
  }

  function Updates(left: seq<Listed>, missing: seq<Record>, n: nat): seq<Change>
    requires n <= |left| && n <= |missing|
  {
    seq(n, i requires 0 <= i < n => Update(left[i], missing[i]))
  }

  function Creates(missing: seq<Record>, from: nat, n: nat): seq<Change>
    requires from + n <= |missing|
  {
    seq(n, i requires 0 <= i < n => Create(missing[from + i]))
  }

  function Deletes(left: seq<Listed>, from: nat, n: nat): seq<Change>
    requires from + n <= |left|
  {
    seq(n, i requires 0 <= i < n => Delete(left[from + i]))
  }

  lemma {:induction false} TouchedByUpdates(left: seq<Listed>, missing: seq<Record>, n: nat)
    requires n <= |left| && n <= |missing|
    ensures TouchedIds(Updates(left, missing, n)) == IdsOf(left[..n])
  {
    if n > 0 {
      TouchedByUpdates(left, missing, n - 1);
      assert Updates(left, missing, n)[..n - 1] == Updates(left, missing, n - 1);
    }
  }

  lemma {:induction false} TouchedByCreates(missing: seq<Record>, from: nat, n: nat)
    requires from + n <= |missing|
    ensures TouchedIds(Creates(missing, from, n)) == []
  {
    if n > 0 {
      TouchedByCreates(missing, from, n - 1);
      assert Creates(missing, from, n)[..n - 1] == Creates(missing, from, n - 1);
    }
  }

  lemma {:induction false} TouchedByDeletes(left: seq<Listed>, from: nat, n: nat)
    requires from + n <= |left|
    ensures TouchedIds(Deletes(left, from, n)) == IdsOf(left[from..from + n])
  {
    if n > 0 {
      TouchedByDeletes(left, from, n - 1);
      assert Deletes(left, from, n)[..n - 1] == Deletes(left, from, n - 1);
    }
  }

  lemma PairInParts(left: seq<Listed>, missing: seq<Record>)
    ensures var n := Min(|left|, |missing|);
            Pair(left, missing) ==
            Updates(left, missing, n) + Creates(missing, n, |missing| - n) + Deletes(left, n, |left| - n)
  {
  }

  /** A recordset's changes touch its leftovers, in their order. */
  lemma TouchedByPair(left: seq<Listed>, missing: seq<Record>)
    ensures TouchedIds(Pair(left, missing)) == IdsOf(left)
  {
    hide Pair, Updates, Creates, Deletes, TouchedIds;
    var n := Min(|left|, |missing|);
    PairInParts(left, missing);
    TouchedByUpdates(left, missing, n);
    TouchedByCreates(missing, n, |missing| - n);
    TouchedByDeletes(left, n, |left| - n);
    TouchedJoin(Updates(left, missing, n), Creates(missing, n, |missing| - n));
    TouchedJoin(Updates(left, missing, n) + Creates(missing, n, |missing| - n), Deletes(left, n, |left| - n));
    assert left[n..n + (|left| - n)] == left[n..];
    assert IdsOf(left[..n]) + [] + IdsOf(left[n..]) == IdsOf(left);
  }

  lemma {:induction false} TouchedShown(changes: seq<Change>, rollback: bool)
    ensures TouchedIds(Fingerprint(changes, rollback)) == TouchedIds(changes)
    decreases |changes|
  {
    if changes != [] {
      var n := |changes| - 1;
      assert Fingerprint(changes, rollback)[..n] == Fingerprint(changes[..n], rollback);
      TouchedShown(changes[..n], rollback);
    }
  }

  // ---------------------------------------------------------------- two twins change places

  /** The same records, the one at `i` and the one after it in each other's place. */
  function Swapped<T>(xs: seq<T>, i: nat): seq<T>
    requires i + 1 < |xs|
  {
    xs[i := xs[i + 1]][i + 1 := xs[i]]
  }

  lemma {:induction false} UnclaimedJoin(a: seq<Listed>, b: seq<Listed>, keys: set<Record>, rollback: bool)
    ensures Unclaimed(a + b, keys, rollback) == Unclaimed(b, Unclaimed(a, keys, rollback), rollback)
    decreases |b|
  {
    if b == [] {
      assert a + b == a;
    } else {
      assert (a + b)[..|a + b| - 1] == a + b[..|b| - 1];
      UnclaimedJoin(a, b[..|b| - 1], keys, rollback);
    }
  }

  lemma {:induction false} UnmatchedJoin(a: seq<Listed>, b: seq<Listed>, keys: set<Record>, rollback: bool)
    ensures Unmatched(a + b, keys, rollback) ==
            Unmatched(a, keys, rollback) + Unmatched(b, Unclaimed(a, keys, rollback), rollback)
    decreases |b|
  {
    if b == [] {
      assert a + b == a;
    } else {
      assert (a + b)[..|a + b| - 1] == a + b[..|b| - 1];
      UnmatchedJoin(a, b[..|b| - 1], keys, rollback);
      UnclaimedJoin(a, b[..|b| - 1], keys, rollback);
    }
  }

  lemma IdsJoin(a: seq<Listed>, b: seq<Listed>, c: seq<Listed>)
    ensures IdsOf(a + b + c) == IdsOf(a) + IdsOf(b) + IdsOf(c)
  {
  }

  /** Of two twins side by side at most one is matched, and it is the first. */
  lemma TwoTwins(x: Listed, y: Listed, keys: set<Record>, rollback: bool)
    requires PlanningKey(x.record, rollback) == PlanningKey(y.record, rollback) && x.id != y.id
    ensures Unclaimed([x] + [y], keys, rollback) == Unclaimed([y] + [x], keys, rollback)
    ensures IdsOf(Unmatched([x] + [y], keys, rollback)) != IdsOf(Unmatched([y] + [x], keys, rollback))
  {
    hide Unmatched, Unclaimed;
    UnmatchedJoin([x], [y], keys, rollback);
    UnmatchedJoin([y], [x], keys, rollback);
    UnclaimedJoin([x], [y], keys, rollback);
    UnclaimedJoin([y], [x], keys, rollback);
    var k := PlanningKey(x.record, rollback);
    JustOne(x, keys, rollback);
    JustOne(y, keys, rollback);
    JustOne(x, keys - {k}, rollback);
    JustOne(y, keys - {k}, rollback);
    if k in keys {
      assert IdsOf([] + [y])[0] != IdsOf([] + [x])[0];
    } else {
      assert IdsOf([x] + [y])[0] != IdsOf([y] + [x])[0];
    }
  }

  lemma JustOne(x: Listed, keys: set<Record>, rollback: bool)
    ensures Unclaimed([x], keys, rollback) == keys - {PlanningKey(x.record, rollback)}
    ensures Unmatched([x], keys, rollback) == if PlanningKey(x.record, rollback) in keys then [] else [x]
  {
    assert [x][..0] == [];
  }

  /** Swapping neighbouring twins changes which records are left over. */
  lemma SwappingTwinsShows(s: seq<Listed>, i: nat, keys: set<Record>, rollback: bool)
    requires i + 1 < |s| && s[i].id != s[i + 1].id
    requires PlanningKey(s[i].record, rollback) == PlanningKey(s[i + 1].record, rollback)
    ensures IdsOf(Unmatched(Swapped(s, i), keys, rollback)) != IdsOf(Unmatched(s, keys, rollback))
    ensures Unclaimed(Swapped(s, i), keys, rollback) == Unclaimed(s, keys, rollback)
  {
    var a, x, y, b := s[..i], s[i], s[i + 1], s[i + 2..];
    var free := Unclaimed(a, keys, rollback);
    assert s == a + ([x] + [y]) + b && Swapped(s, i) == a + ([y] + [x]) + b;
    TwoTwins(x, y, free, rollback);
    ThreeParts(a, [x] + [y], b, keys, rollback);
    ThreeParts(a, [y] + [x], b, keys, rollback);
    var rest := Unmatched(b, Unclaimed([x] + [y], free, rollback), rollback);
    IdsJoin(Unmatched(a, keys, rollback), Unmatched([x] + [y], free, rollback), rest);
    IdsJoin(Unmatched(a, keys, rollback), Unmatched([y] + [x], free, rollback), rest);
    MiddleDiffers(IdsOf(Unmatched(a, keys, rollback)), IdsOf(Unmatched([x] + [y], free, rollback)),
                  IdsOf(Unmatched([y] + [x], free, rollback)), IdsOf(rest));
  }

  lemma ThreeParts(a: seq<Listed>, b: seq<Listed>, c: seq<Listed>, keys: set<Record>, rollback: bool)
    ensures var free := Unclaimed(a, keys, rollback);
            Unmatched(a + b + c, keys, rollback) ==
            Unmatched(a, keys, rollback) + Unmatched(b, free, rollback) + Unmatched(c, Unclaimed(b, free, rollback), rollback)
    ensures Unclaimed(a + b + c, keys, rollback) ==
            Unclaimed(c, Unclaimed(b, Unclaimed(a, keys, rollback), rollback), rollback)
  {
    UnmatchedJoin(a + b, c, keys, rollback);
    UnmatchedJoin(a, b, keys, rollback);
    UnclaimedJoin(a + b, c, keys, rollback);
    UnclaimedJoin(a, b, keys, rollback);
  }

  lemma MiddleDiffers<T>(a: seq<T>, b: seq<T>, b': seq<T>, c: seq<T>)
    ensures a + b + c == a + b' + c <==> b == b'
  {
    if a + b + c == a + b' + c {
      assert |b| == |b'|;
      assert b == (a + b + c)[|a|..|a| + |b|];
      assert b' == (a + b' + c)[|a|..|a| + |b'|];
    }
  }

  // ---------------------------------------------------------------- another listing

  /** The listed records outside a recordset. */
  function OutOfSet(xs: seq<Listed>, rs: RecordSet): seq<Listed> {
    if xs == [] then []
    else OutOfSet(xs[..|xs| - 1], rs) + (if xs[|xs| - 1].record.Set() == rs then [] else [xs[|xs| - 1]])
  }

  lemma {:induction false} OutOfSetFacts(xs: seq<Listed>, rs: RecordSet)
    ensures forall x :: x in OutOfSet(xs, rs) <==> x in xs && x.record.Set() != rs
    ensures NoDup(xs) ==> NoDup(OutOfSet(xs, rs))
    decreases |xs|
  {
    if xs != [] {
      OutOfSetFacts(xs[..|xs| - 1], rs);
      assert xs == xs[..|xs| - 1] + [xs[|xs| - 1]];
    }
  }

  lemma {:induction false} InSetJoin(a: seq<Listed>, b: seq<Listed>, rs: RecordSet)
    ensures InSet(a + b, rs) == InSet(a, rs) + InSet(b, rs)
    decreases |b|
  {
    if b == [] {
      assert a + b == a;
    } else {
      assert (a + b)[..|a + b| - 1] == a + b[..|b| - 1];
      InSetJoin(a, b[..|b| - 1], rs);
    }
  }

  lemma {:induction false} InSetAll(xs: seq<Listed>, rs: RecordSet, other: RecordSet)
    requires forall x <- xs :: x.record.Set() == rs
    ensures InSet(xs, other) == if other == rs then xs else []
    decreases |xs|
  {
    if xs != [] {
      assert xs[|xs| - 1] in xs;
      InSetAll(xs[..|xs| - 1], rs, other);
    }
  }

  lemma {:induction false} InSetOutOfSet(xs: seq<Listed>, rs: RecordSet, other: RecordSet)
    ensures InSet(OutOfSet(xs, rs), other) == if other == rs then [] else InSet(xs, other)
    decreases |xs|
  {
    if xs != [] {
      var init, last := xs[..|xs| - 1], xs[|xs| - 1];
      InSetOutOfSet(init, rs, other);
      if last.record.Set() != rs {
        InSetJoin(OutOfSet(init, rs), [last], other);
        assert [last][..0] == [];
      } else {
        assert OutOfSet(init, rs) + [] == OutOfSet(init, rs);
      }
    }
  }

  lemma {:induction false} SortedStays<T>(xs: seq<T>, key: T -> Record, le: (Record, Record) -> bool)
    requires Sorted(xs, key, le)
    ensures SortBy(xs, key, le) == xs
    decreases |xs|
  {
    if xs != [] {
      var n := |xs| - 1;
      SortedStays(xs[..n], key, le);
      if n > 0 {
        assert le(key(xs[n - 1]), key(xs[n]));
      }
      assert xs == xs[..n] + [xs[n]];
    }
  }

  /** The recordset first, its sorted records with the twins at `i` swapped; then everything else. */
  function Relisted(m: Manifest, rs: RecordSet, current: seq<Listed>, le: (Record, Record) -> bool, i: nat): seq<Listed>
    requires i + 1 < |CurrentSet(m, rs, current, le)|
  {
    Swapped(CurrentSet(m, rs, current, le), i) + OutOfSet(current, rs)
  }

  lemma SwappedFacts<T>(xs: seq<T>, i: nat)
    requires i + 1 < |xs| && NoDup(xs)
    ensures NoDup(Swapped(xs, i)) && forall x :: x in Swapped(xs, i) <==> x in xs
  {
    var ys := Swapped(xs, i);
    forall x | x in xs ensures x in ys {
      var j :| 0 <= j < |xs| && xs[j] == x;
      var at := if j == i then i + 1 else if j == i + 1 then i else j;
      assert ys[at] == x;
    }
  }

  lemma CurrentSetFacts(m: Manifest, rs: RecordSet, current: seq<Listed>, le: (Record, Record) -> bool)
    requires NoDup(current)
    ensures var s := CurrentSet(m, rs, current, le);
            NoDup(s) && forall x :: x in s <==> x in current && x.record.Set() == rs
  {
    InSetFacts(current, rs);
    SortFacts(InSet(current, rs), ListedKey(m.rollback), le);
  }

  lemma RelistedLists(z: Zone, m: Manifest, rs: RecordSet, current: seq<Listed>, le: (Record, Record) -> bool, i: nat)
    requires Lists(z, current) && i + 1 < |CurrentSet(m, rs, current, le)|
    ensures Lists(z, Relisted(m, rs, current, le, i))
  {
    hide CurrentSet;
    var s := CurrentSet(m, rs, current, le);
    ListedNoDup(z, current);
    CurrentSetFacts(m, rs, current, le);
    SwappedFacts(s, i);
    OutOfSetFacts(current, rs);
    var other := Relisted(m, rs, current, le, i);
    forall x ensures x in other <==> x in current {}
    forall a, b | 0 <= a < b < |other| ensures other[a] != other[b] {
      if a < |s| <= b {
        assert other[a] in Swapped(s, i) && other[b] in OutOfSet(current, rs);
      }
    }
    forall a, b | 0 <= a < b < |other| ensures other[a].id != other[b].id {
      assert other[a] in current && other[b] in current;
    }
  }

  lemma ListedNoDup(z: Zone, current: seq<Listed>)
    requires Lists(z, current)
    ensures NoDup(current)
  {
    forall i, j | 0 <= i < j < |current| ensures current[i] != current[j] {
      assert current[i].id != current[j].id;
    }
  }

  /** Planning sees the twins swapped in that recordset, and every other recordset as before. */
  lemma RelistedSets(m: Manifest, rs: RecordSet, current: seq<Listed>, le: (Record, Record) -> bool, i: nat,
                     other: RecordSet)
    requires TotalOrder(le) && NoDup(current) && i + 1 < |CurrentSet(m, rs, current, le)|
    requires var s := CurrentSet(m, rs, current, le);
             PlanningKey(s[i].record, m.rollback) == PlanningKey(s[i + 1].record, m.rollback)
    ensures CurrentSet(m, other, Relisted(m, rs, current, le, i), le) ==
            if other == rs then Swapped(CurrentSet(m, rs, current, le), i) else CurrentSet(m, other, current, le)
  {
    var s := CurrentSet(m, rs, current, le);
    var key := ListedKey(m.rollback);
    CurrentSetFacts(m, rs, current, le);
    SwappedFacts(s, i);
    SortSorts(InSet(current, rs), key, le);
    InSetAll(Swapped(s, i), rs, other);
    InSetOutOfSet(current, rs, other);
    InSetJoin(Swapped(s, i), OutOfSet(current, rs), other);
    if other == rs {
      SwappedSorted(s, i, key, le);
      SortedStays(Swapped(s, i), key, le);
      assert Swapped(s, i) + [] == Swapped(s, i);
    } else {
      assert [] + InSet(current, other) == InSet(current, other);
    }
  }

  lemma SwappedSorted<T>(xs: seq<T>, i: nat, key: T -> Record, le: (Record, Record) -> bool)
    requires Sorted(xs, key, le) && i + 1 < |xs| && key(xs[i]) == key(xs[i + 1])
    ensures Sorted(Swapped(xs, i), key, le)
  {
    var ys := Swapped(xs, i);
    assert forall j | 0 <= j < |xs| :: key(ys[j]) == key(xs[j]);
  }

  lemma {:induction false} RelistedPlans(m: Manifest, sets: seq<RecordSet>, rs: RecordSet, current: seq<Listed>,
                                        le: (Record, Record) -> bool, i: nat)
    requires TotalOrder(le) && NoDup(current) && NoDup(sets) && i + 1 < |CurrentSet(m, rs, current, le)|
    requires var s := CurrentSet(m, rs, current, le);
             s[i].id != s[i + 1].id && PlanningKey(s[i].record, m.rollback) == PlanningKey(s[i + 1].record, m.rollback)
    ensures var other := Relisted(m, rs, current, le, i);
            && (rs !in sets ==> SetPlans(m, sets, other, le) == SetPlans(m, sets, current, le))
            && (rs in sets ==> TouchedIds(SetPlans(m, sets, other, le)) != TouchedIds(SetPlans(m, sets, current, le)))
    decreases |sets|
  {
    hide CurrentSet, Relisted, SetPlan, TotalOrder;
    if sets != [] {
      var n := |sets| - 1;
      var other := Relisted(m, rs, current, le, i);
      RelistedPlans(m, sets[..n], rs, current, le, i);
      RelistedPlan(m, sets[n], rs, current, le, i);
      assert sets == sets[..n] + [sets[n]];
      TouchedJoin(SetPlans(m, sets[..n], current, le), SetPlan(m, sets[n], current, le));
      TouchedJoin(SetPlans(m, sets[..n], other, le), SetPlan(m, sets[n], other, le));
      PartsDiffer(TouchedIds(SetPlans(m, sets[..n], current, le)), TouchedIds(SetPlans(m, sets[..n], other, le)),
                  TouchedIds(SetPlan(m, sets[n], current, le)), TouchedIds(SetPlan(m, sets[n], other, le)));
    }
  }

  lemma PartsDiffer<T>(a: seq<T>, a': seq<T>, b: seq<T>, b': seq<T>)
    requires a == a' || b == b'
    ensures a + b == a' + b' <==> a == a' && b == b'
  {
    if a + b == a' + b' {
      assert |a| == |a'|;
      assert a == (a + b)[..|a|] && a' == (a' + b')[..|a'|];
      assert b == (a + b)[|a|..] && b' == (a' + b')[|a'|..];
    }
  }

  /** The plan of one recordset: the same, unless it is the one of the twins. */
  lemma RelistedPlan(m: Manifest, set0: RecordSet, rs: RecordSet, current: seq<Listed>,
                     le: (Record, Record) -> bool, i: nat)
    requires TotalOrder(le) && NoDup(current) && i + 1 < |CurrentSet(m, rs, current, le)|
    requires var s := CurrentSet(m, rs, current, le);
             s[i].id != s[i + 1].id && PlanningKey(s[i].record, m.rollback) == PlanningKey(s[i + 1].record, m.rollback)
    ensures var other := Relisted(m, rs, current, le, i);
            && (set0 != rs ==> SetPlan(m, set0, other, le) == SetPlan(m, set0, current, le))
            && (set0 == rs ==> TouchedIds(SetPlan(m, rs, other, le)) != TouchedIds(SetPlan(m, rs, current, le)))
  {
    hide CurrentSet, Relisted, Pair, Unmatched, Unclaimed, DesiredSet, Swapped, IdsOf;
    var other := Relisted(m, rs, current, le, i);
    RelistedSets(m, rs, current, le, i, set0);
    if set0 == rs {
      SwappingTwinsShows(CurrentSet(m, rs, current, le), i, KeySet(DesiredSet(m, rs, le), m.rollback), m.rollback);
      TouchedByPair(LeftOver(m, rs, current, le), Missing(m, rs, current, le));
      TouchedByPair(LeftOver(m, rs, other, le), Missing(m, rs, other, le));
    }
  }

  // ---------------------------------------------------------------- the theorem

  /** Twins of one recordset stand side by side somewhere in its sorted records. */
  lemma NeighbouringTwins(m: Manifest, rs: RecordSet, current: seq<Listed>, le: (Record, Record) -> bool,
                          x: Listed, y: Listed) returns (i: nat)
    requires TotalOrder(le) && NoDup(current) && x in current && y in current && x != y
    requires x.record.Set() == rs && y.record.Set() == rs
    requires PlanningKey(x.record, m.rollback) == PlanningKey(y.record, m.rollback)
    ensures var s := CurrentSet(m, rs, current, le);
            i + 1 < |s| && PlanningKey(s[i].record, m.rollback) == PlanningKey(s[i + 1].record, m.rollback)
  {
    hide CurrentSet;
    var s, key := CurrentSet(m, rs, current, le), ListedKey(m.rollback);
    CurrentSetFacts(m, rs, current, le);
    CurrentSetSorted(m, rs, current, le);
    assert x in s && y in s;
    var a :| 0 <= a < |s| && s[a] == x;
    var b :| 0 <= b < |s| && s[b] == y;
    i := if a < b then a else b;
    Squeezed(s, key, le, i, if a < b then b else a);
  }

  lemma CurrentSetSorted(m: Manifest, rs: RecordSet, current: seq<Listed>, le: (Record, Record) -> bool)
    requires TotalOrder(le)
    ensures Sorted(CurrentSet(m, rs, current, le), ListedKey(m.rollback), le)
  {
    SortSorts(InSet(current, rs), ListedKey(m.rollback), le);
  }

  lemma Squeezed<T>(s: seq<T>, key: T -> Record, le: (Record, Record) -> bool, i: nat, j: nat)
    requires TotalOrder(le) && Sorted(s, key, le) && i < j < |s| && key(s[i]) == key(s[j])
    ensures key(s[i]) == key(s[i + 1])
  {
    if i + 1 < j {
      assert le(key(s[i]), key(s[i + 1])) && le(key(s[i + 1]), key(s[j]));
    }
  }

  /** With two managed records that look alike, some other listing of the same zone touches other ids. */
  lemma TwinsShow(z: Zone, m: Manifest, current: seq<Listed>, le: (Record, Record) -> bool) returns (other: seq<Listed>)
    requires TotalOrder(le) && NoDup(m.managed) && Lists(z, current) && !NoTwins(m, current)
    ensures Lists(z, other) && TouchedIds(Changes(m, other, le)) != TouchedIds(Changes(m, current, le))
  {
    hide CurrentSet, Relisted, SetPlans, TotalOrder;
    ListedNoDup(z, current);
    var x, y :| x in current && y in current && x != y && Managed(m, x.record) &&
                PlanningKey(x.record, m.rollback) == PlanningKey(y.record, m.rollback);
    var rs := x.record.Set();
    var i := NeighbouringTwins(m, rs, current, le, x, y);
    var s := CurrentSet(m, rs, current, le);
    CurrentSetFacts(m, rs, current, le);
    assert s[i] in current && s[i + 1] in current && s[i].id != s[i + 1].id by { DifferentIds(z, current, s[i], s[i + 1]); }
    RelistedLists(z, m, rs, current, le, i);
    RelistedPlans(m, m.managed, rs, current, le, i);
    other := Relisted(m, rs, current, le, i);
  }

  lemma DifferentIds(z: Zone, current: seq<Listed>, x: Listed, y: Listed)
    requires Lists(z, current) && x in current && y in current && x != y
    ensures x.id != y.id
  {
  }

  /** Every listing of a zone gives one plan exactly when no two managed records look alike. */
  lemma ListingOrderMattersIff(z: Zone, m: Manifest, current: seq<Listed>, le: (Record, Record) -> bool)
    requires TotalOrder(le) && NoDup(m.managed) && Lists(z, current)
    ensures NoTwins(m, current) <==> forall other | Lists(z, other) :: Changes(m, other, le) == Changes(m, current, le)
  {
    hide Changes, TotalOrder, Lists;
    if NoTwins(m, current) {
      forall other | Lists(z, other) ensures Changes(m, other, le) == Changes(m, current, le) {
        PlanIgnoresListingOrder(z, m, current, other, le);
      }
    } else {
      var other := TwinsShow(z, m, current, le);
    }
  }

  /**
   The fingerprint names the ids: an approved plan survives every re-listing of an unchanged zone
   exactly when no two managed records look alike. Otherwise some listing alone makes it drift.
   */
  lemma ApprovalSurvivesRelistingIff(z: Zone, m: Manifest, current: seq<Listed>, le: (Record, Record) -> bool)
    requires TotalOrder(le) && NoDup(m.managed) && Lists(z, current)
    ensures NoTwins(m, current) <==>
            forall other | Lists(z, other) ::
              Fingerprint(Changes(m, other, le), m.rollback) == Fingerprint(Changes(m, current, le), m.rollback)
  {
    hide Changes, TotalOrder, Lists, Fingerprint;
    if NoTwins(m, current) {
      forall other | Lists(z, other)
        ensures Fingerprint(Changes(m, other, le), m.rollback) == Fingerprint(Changes(m, current, le), m.rollback)
      {
        PlanIgnoresListingOrder(z, m, current, other, le);
      }
    } else {
      var other := TwinsShow(z, m, current, le);
      TouchedShown(Changes(m, other, le), m.rollback);
      TouchedShown(Changes(m, current, le), m.rollback);
    }
  }

  /** The smallest case: two ids with one record, none of it desired. The plan deletes them as they are listed. */
  lemma TwinDeletesFollowTheListing(m: Manifest, x: Listed, y: Listed, le: (Record, Record) -> bool)
    requires x.record == y.record && x.id != y.id && TotalOrder(le)
    requires m.managed == [x.record.Set()] && m.records == []
    ensures Changes(m, [x, y], le) == [Delete(x), Delete(y)]
    ensures Changes(m, [y, x], le) == [Delete(y), Delete(x)]
  {
    TwinDeletes(m, x, y, le);
    TwinDeletes(m, y, x, le);
  }

  lemma TwinDeletes(m: Manifest, x: Listed, y: Listed, le: (Record, Record) -> bool)
    requires x.record == y.record && TotalOrder(le) && m.managed == [x.record.Set()] && m.records == []
    ensures Changes(m, [x, y], le) == [Delete(x), Delete(y)]
  {
    hide SetPlan, CurrentSet, DesiredSet;
    TwinDeletesInSet(m, x, y, le);
    assert m.managed[..0] == [];
    assert SetPlans(m, [], [x, y], le) == [];
  }

  lemma TwinDeletesInSet(m: Manifest, x: Listed, y: Listed, le: (Record, Record) -> bool)
    requires x.record == y.record && TotalOrder(le) && m.records == []
    ensures SetPlan(m, x.record.Set(), [x, y], le) == [Delete(x), Delete(y)]
  {
    hide Unmatched, Unclaimed, SortBy, InSet;
    var rs, key := x.record.Set(), ListedKey(m.rollback);
    InSetAll([x, y], rs, rs);
    assert Sorted([x, y], key, le);
    SortedStays([x, y], key, le);
    NothingDesired(m, rs, le);
    assert [x, y] == [x] + [y];
    UnmatchedJoin([x], [y], {}, m.rollback);
    UnclaimedNone([x], m.rollback);
    JustOne(x, {}, m.rollback);
    JustOne(y, {}, m.rollback);
    PairIs([x, y], []);
    assert Pair([x, y], []) == [Delete(x), Delete(y)];
  }

  lemma NothingDesired(m: Manifest, rs: RecordSet, le: (Record, Record) -> bool)
    requires m.records == []
    ensures DesiredSet(m, rs, le) == [] && KeySet(DesiredSet(m, rs, le), m.rollback) == {}
  {
  }

  lemma UnclaimedNone(xs: seq<Listed>, rollback: bool)
    ensures Unclaimed(xs, {}, rollback) == {}
  {
    UnclaimedFacts(xs, {}, rollback);
  }
}
