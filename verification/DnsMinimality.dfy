/**
 The plan is as short as any can be, and it does not depend on the order in which the provider
 happened to list the records.
 */
module DnsMinimality {
  import opened DnsModel
  import opened DnsPlanFacts

  // ---------------------------------------------------------------- bags of keys

  function Keys<T>(xs: seq<T>, key: T -> Record): seq<Record> {
    if xs == [] then [] else Keys(xs[..|xs| - 1], key) + [key(xs[|xs| - 1])]
  }

  function KeysOf(xs: seq<Listed>, rollback: bool): seq<Record> { Keys(xs, ListedKey(rollback)) }

  function DesiredKeys(xs: seq<Record>, rollback: bool): seq<Record> { Keys(xs, RecordKey(rollback)) }

  /** The bag of a recordset's keys within a list of keys. */
  function BagIn(keys: seq<Record>, rs: RecordSet): multiset<Record> {
    if keys == [] then multiset{}
    else
      var k := keys[|keys| - 1];
      BagIn(keys[..|keys| - 1], rs) + (if k.Set() == rs then multiset{k} else multiset{})
  }

  lemma {:induction false} BagInJoin(a: seq<Record>, b: seq<Record>, rs: RecordSet)
    ensures BagIn(a + b, rs) == BagIn(a, rs) + BagIn(b, rs)
    decreases |b|
  {
    if b == [] {
      assert a + b == a;
    } else {
      var n := |b| - 1;
      assert (a + b)[..|a + b| - 1] == a + b[..n];
      BagInJoin(a, b[..n], rs);
    }
  }

  lemma TakeOut<T>(xs: seq<T>, i: nat)
    requires i < |xs|
    ensures multiset(xs) == multiset(xs[..i] + xs[i + 1..]) + multiset{xs[i]}
  {
    assert xs == xs[..i] + ([xs[i]] + xs[i + 1..]);
  }

  lemma Cancel<T>(a: multiset<T>, b: multiset<T>, x: T)
    requires a + multiset{x} == b + multiset{x}
    ensures a == b
  {
    assert a == (a + multiset{x}) - multiset{x};
    assert b == (b + multiset{x}) - multiset{x};
  }

  lemma SmallerBag(x: multiset<Record>, y: multiset<Record>)
    requires x <= y
    ensures |x| <= |y|
  {
    assert y == x + (y - x);
  }

  // ---------------------------------------------------------------- edits

  /** One write to the provider, on the list of the keys it holds. */
  datatype Edit = Add(key: Record) | Drop(at: nat) | Overwrite(at: nat, key: Record)

  /** An overwrite keeps a record in its recordset. */
  predicate Applicable(keys: seq<Record>, e: Edit) {
    (e.Drop? || e.Overwrite? ==> e.at < |keys|) && (e.Overwrite? ==> keys[e.at].Set() == e.key.Set())
  }

  function ApplyEdit(keys: seq<Record>, e: Edit): seq<Record>
    requires Applicable(keys, e)
  {
    match e
    case Add(key) => keys + [key]
    case Drop(at) => keys[..at] + keys[at + 1..]
    case Overwrite(at, key) => keys[..at] + [key] + keys[at + 1..]
  }

  predicate AllApplicable(keys: seq<Record>, edits: seq<Edit>)
    decreases |edits|
  {
    edits != [] ==> Applicable(keys, edits[0]) && AllApplicable(ApplyEdit(keys, edits[0]), edits[1..])
  }

  function ApplyEdits(keys: seq<Record>, edits: seq<Edit>): seq<Record>
    requires AllApplicable(keys, edits)
    decreases |edits|
  {
    if edits == [] then keys else ApplyEdits(ApplyEdit(keys, edits[0]), edits[1..])
  }

  function Max(a: nat, b: nat): nat { if a >= b then a else b }

  function Wanted(m: Manifest, rs: RecordSet): multiset<Record> {
    BagIn(DesiredKeys(m.records, m.rollback), rs)
  }

  /** How many writes a recordset needs at least: superfluous or absent keys, whichever are more. */
  function Distance(keys: seq<Record>, m: Manifest, rs: RecordSet): nat {
    Max(|BagIn(keys, rs) - Wanted(m, rs)|, |Wanted(m, rs) - BagIn(keys, rs)|)
  }

  function TotalDistance(keys: seq<Record>, m: Manifest, sets: seq<RecordSet>): nat {
    if sets == [] then 0
    else TotalDistance(keys, m, sets[..|sets| - 1]) + Distance(keys, m, sets[|sets| - 1])
  }

  function EditSet(keys: seq<Record>, e: Edit): RecordSet
    requires Applicable(keys, e)
  {
    if e.Drop? then keys[e.at].Set() else e.key.Set()
  }

  /** `b` is `a` with at most one key taken out and at most one put in. */
  ghost predicate OneApart(a: multiset<Record>, b: multiset<Record>) {
    exists k, k' :: a <= b + multiset{k} && b <= a + multiset{k'}
  }

  lemma BagAround(before: seq<Record>, mid: seq<Record>, after: seq<Record>, rs: RecordSet)
    ensures BagIn(before + mid + after, rs) == BagIn(before, rs) + BagIn(mid, rs) + BagIn(after, rs)
  {
    BagInJoin(before + mid, after, rs);
    BagInJoin(before, mid, rs);
  }

  lemma SingleBag(k: Record, rs: RecordSet)
    ensures BagIn([k], rs) == if k.Set() == rs then multiset{k} else multiset{}
    ensures BagIn([], rs) == multiset{}
  {
    assert BagIn([k][..0], rs) == multiset{};
  }

  lemma EditBag(keys: seq<Record>, e: Edit, rs: RecordSet)
    requires Applicable(keys, e)
    ensures EditSet(keys, e) != rs ==> BagIn(ApplyEdit(keys, e), rs) == BagIn(keys, rs)
    ensures OneApart(BagIn(keys, rs), BagIn(ApplyEdit(keys, e), rs))
  {
    hide BagIn, ApplyEdit, EditSet, OneApart;
    var at := if e.Add? then |keys| else e.at;
    var mid := if e.Add? then [] else [keys[at]];
    var put := if e.Drop? then [] else [e.key];
    var rest := if e.Add? then [] else keys[at + 1..];
    EditParts(keys, e);
    BagAround(keys[..at], mid, rest, rs);
    BagAround(keys[..at], put, rest, rs);
    var k := if e.Add? then e.key else keys[at];
    var k' := if e.Drop? then k else e.key;
    SingleBag(k, rs);
    SingleBag(k', rs);
    BagsAround(BagIn(keys[..at], rs) + BagIn(rest, rs), BagIn(mid, rs), BagIn(put, rs),
               BagIn(keys, rs), BagIn(ApplyEdit(keys, e), rs), k, k');
  }

  /** An edit replaces at most one key by at most one of the same recordset. */
  lemma EditParts(keys: seq<Record>, e: Edit)
    requires Applicable(keys, e)
    ensures var at := if e.Add? then |keys| else e.at;
            var mid := if e.Add? then [] else [keys[at]];
            var put := if e.Drop? then [] else [e.key];
            var rest := if e.Add? then [] else keys[at + 1..];
            && keys == keys[..at] + mid + rest && ApplyEdit(keys, e) == keys[..at] + put + rest
            && (!e.Add? ==> keys[at].Set() == EditSet(keys, e)) && (!e.Drop? ==> e.key.Set() == EditSet(keys, e))
  {
  }

  lemma BagsAround(rest: multiset<Record>, x: multiset<Record>, y: multiset<Record>,
                   a: multiset<Record>, b: multiset<Record>, k: Record, k': Record)
    requires a == rest + x && b == rest + y && x <= multiset{k} && y <= multiset{k'}
    ensures OneApart(a, b)
  {
    assert a <= b + multiset{k} && b <= a + multiset{k'};
  }

  lemma DistanceOneApart(a: multiset<Record>, b: multiset<Record>, w: multiset<Record>)
    requires OneApart(a, b)
    ensures Max(|b - w|, |w - b|) + 1 >= Max(|a - w|, |w - a|)
  {
    var k, k' :| a <= b + multiset{k} && b <= a + multiset{k'};
    SmallerBag(a - w, (b - w) + multiset{k});
    SmallerBag(w - a, (w - b) + multiset{k'});
  }

  lemma EditDistance(keys: seq<Record>, e: Edit, m: Manifest, rs: RecordSet)
    requires Applicable(keys, e)
    ensures EditSet(keys, e) != rs ==> Distance(ApplyEdit(keys, e), m, rs) == Distance(keys, m, rs)
    ensures Distance(ApplyEdit(keys, e), m, rs) + 1 >= Distance(keys, m, rs)
  {
    hide BagIn, ApplyEdit, EditSet, Applicable, OneApart, Wanted;
    EditBag(keys, e, rs);
    DistanceOneApart(BagIn(keys, rs), BagIn(ApplyEdit(keys, e), rs), Wanted(m, rs));
  }

  lemma {:induction false} EditTotal(keys: seq<Record>, e: Edit, m: Manifest, sets: seq<RecordSet>)
    requires Applicable(keys, e) && NoDup(sets)
    ensures EditSet(keys, e) !in sets ==> TotalDistance(ApplyEdit(keys, e), m, sets) == TotalDistance(keys, m, sets)
    ensures TotalDistance(ApplyEdit(keys, e), m, sets) + 1 >= TotalDistance(keys, m, sets)
    decreases |sets|
  {
    hide Distance, ApplyEdit, EditSet, Applicable;
    if sets != [] {
      var n := |sets| - 1;
      EditTotal(keys, e, m, sets[..n]);
      EditDistance(keys, e, m, sets[n]);
      assert sets == sets[..n] + [sets[n]];
    }
  }

  predicate Reached(keys: seq<Record>, m: Manifest, sets: seq<RecordSet>) {
    forall rs <- sets :: BagIn(keys, rs) == Wanted(m, rs)
  }

  lemma {:induction false} ReachedIsNear(keys: seq<Record>, m: Manifest, sets: seq<RecordSet>)
    requires Reached(keys, m, sets)
    ensures TotalDistance(keys, m, sets) == 0
    decreases |sets|
  {
    if sets != [] {
      var n := |sets| - 1;
      ReachedIsNear(keys, m, sets[..n]);
      assert BagIn(keys, sets[n]) - Wanted(m, sets[n]) == multiset{};
    }
  }

  lemma {:induction false} EditsNeeded(keys: seq<Record>, edits: seq<Edit>, m: Manifest)
    requires AllApplicable(keys, edits) && NoDup(m.managed)
    requires Reached(ApplyEdits(keys, edits), m, m.managed)
    ensures |edits| >= TotalDistance(keys, m, m.managed)
    decreases |edits|
  {
    if edits == [] {
      ReachedIsNear(keys, m, m.managed);
    } else {
      EditsNeeded(ApplyEdit(keys, edits[0]), edits[1..], m);
      EditTotal(keys, edits[0], m, m.managed);
    }
  }

  // ---------------------------------------------------------------- the length of the plan

  lemma {:induction false} KeysLength<T>(xs: seq<T>, key: T -> Record)
    ensures |Keys(xs, key)| == |xs|
    decreases |xs|
  {
    if xs != [] { KeysLength(xs[..|xs| - 1], key); }
  }

  lemma KeysSnoc<T>(xs: seq<T>, x: T, key: T -> Record)
    ensures Keys(xs + [x], key) == Keys(xs, key) + [key(x)]
  {
    assert (xs + [x])[..|xs|] == xs;
  }

  lemma BagSnoc(keys: seq<Record>, k: Record, rs: RecordSet)
    ensures BagIn(keys + [k], rs) == BagIn(keys, rs) + (if k.Set() == rs then multiset{k} else multiset{})
  {
    assert (keys + [k])[..|keys|] == keys;
  }

  lemma {:induction false} KeysInSet(xs: seq<Listed>, rs: RecordSet, rollback: bool)
    ensures multiset(KeysOf(InSet(xs, rs), rollback)) == BagIn(KeysOf(xs, rollback), rs)
    decreases |xs|
  {
    if xs != [] {
      var n := |xs| - 1;
      KeysInSet(xs[..n], rs, rollback);
      BagSnoc(KeysOf(xs[..n], rollback), PlanningKey(xs[n].record, rollback), rs);
      KeysSnoc(InSet(xs[..n], rs), xs[n], ListedKey(rollback));
      assert InSet(xs[..n], rs) + [] == InSet(xs[..n], rs);
    }
  }

  lemma {:induction false} DesiredInSet(xs: seq<Record>, rs: RecordSet, rollback: bool)
    ensures multiset(DesiredKeys(RecordsInSet(xs, rs), rollback)) == BagIn(DesiredKeys(xs, rollback), rs)
    decreases |xs|
  {
    if xs != [] {
      var n := |xs| - 1;
      DesiredInSet(xs[..n], rs, rollback);
      BagSnoc(DesiredKeys(xs[..n], rollback), PlanningKey(xs[n], rollback), rs);
      KeysSnoc(RecordsInSet(xs[..n], rs), xs[n], RecordKey(rollback));
      assert RecordsInSet(xs[..n], rs) + [] == RecordsInSet(xs[..n], rs);
    }
  }

  lemma {:induction false} KeysJoin<T>(a: seq<T>, b: seq<T>, key: T -> Record)
    ensures Keys(a + b, key) == Keys(a, key) + Keys(b, key)
    decreases |b|
  {
    if b == [] {
      assert a + b == a;
    } else {
      var n := |b| - 1;
      assert (a + b)[..|a + b| - 1] == a + b[..n];
      KeysJoin(a, b[..n], key);
    }
  }

  /** Sequences with the same elements have the same keys. */
  lemma {:induction false} SameBagSameKeys<T>(xs: seq<T>, ys: seq<T>, key: T -> Record)
    requires multiset(xs) == multiset(ys)
    ensures multiset(Keys(xs, key)) == multiset(Keys(ys, key))
    decreases |xs|
  {
    if xs == [] {
      assert |multiset(ys)| == 0;
    } else {
      var n := |xs| - 1;
      assert xs == xs[..n] + [xs[n]];
      assert xs[n] in multiset(ys);
      var i :| 0 <= i < |ys| && ys[i] == xs[n];
      TakeOut(ys, i);
      Cancel(multiset(xs[..n]), multiset(ys[..i] + ys[i + 1..]), xs[n]);
      SameBagSameKeys(xs[..n], ys[..i] + ys[i + 1..], key);
      KeysAround(ys, i, key);
    }
  }

  lemma KeysAround<T>(ys: seq<T>, i: nat, key: T -> Record)
    requires i < |ys|
    ensures multiset(Keys(ys, key)) == multiset(Keys(ys[..i] + ys[i + 1..], key)) + multiset{key(ys[i])}
  {
    hide Keys;
    KeysJoin(ys[..i], ys[i + 1..], key);
    assert ys == (ys[..i] + [ys[i]]) + ys[i + 1..];
    KeysJoin(ys[..i] + [ys[i]], ys[i + 1..], key);
    KeysSnoc(ys[..i], ys[i], key);
  }

  lemma BagClaims(a: multiset<Record>, keys: set<Record>, k: Record)
    ensures k in keys && a[k] == 0 ==> (a + multiset{k}) - multiset(keys) == a - multiset(keys)
    ensures k !in keys || a[k] > 0 ==> (a + multiset{k}) - multiset(keys) == (a - multiset(keys)) + multiset{k}
  {
  }

  /** The leftovers are the bag difference, and the unclaimed keys are those that no record has. */
  ghost predicate LeftOverIsDifference(cur: seq<Listed>, keys: set<Record>, rollback: bool) {
    && multiset(KeysOf(Unmatched(cur, keys, rollback), rollback)) == multiset(KeysOf(cur, rollback)) - multiset(keys)
    && (forall k :: k in Unclaimed(cur, keys, rollback) <==> k in keys && multiset(KeysOf(cur, rollback))[k] == 0)
  }

  lemma LeftOverSnoc(init: seq<Listed>, x: Listed, keys: set<Record>, rollback: bool)
    requires LeftOverIsDifference(init, keys, rollback)
    ensures LeftOverIsDifference(init + [x], keys, rollback)
  {
    hide Keys, Unmatched, Unclaimed, PlanningKey;
    var k := PlanningKey(x.record, rollback);
    var left := Unmatched(init, keys, rollback);
    UnmatchedOneMore(init, x, keys, rollback);
    BagClaims(multiset(KeysOf(init, rollback)), keys, k);
    KeysSnoc(init, x, ListedKey(rollback));
    KeysSnoc(left, x, ListedKey(rollback));
    assert left + [] == left;
  }

  lemma UnmatchedOneMore(init: seq<Listed>, x: Listed, keys: set<Record>, rollback: bool)
    ensures var k := PlanningKey(x.record, rollback);
            && Unclaimed(init + [x], keys, rollback) == Unclaimed(init, keys, rollback) - {k}
            && Unmatched(init + [x], keys, rollback) ==
               Unmatched(init, keys, rollback) + (if k in Unclaimed(init, keys, rollback) then [] else [x])
  {
    assert (init + [x])[..|init + [x]| - 1] == init;
  }

  lemma {:induction false} LeftOverBag(cur: seq<Listed>, keys: set<Record>, rollback: bool)
    ensures LeftOverIsDifference(cur, keys, rollback)
    decreases |cur|
  {
    hide LeftOverIsDifference;
    if cur == [] {
      NothingLeftOver(keys, rollback);
    } else {
      var n := |cur| - 1;
      LeftOverBag(cur[..n], keys, rollback);
      LeftOverSnoc(cur[..n], cur[n], keys, rollback);
      assert cur == cur[..n] + [cur[n]];
    }
  }

  lemma NothingLeftOver(keys: set<Record>, rollback: bool)
    ensures LeftOverIsDifference([], keys, rollback)
  {
  }

  lemma {:induction false} MissingBag(des: seq<Record>, unclaimed: set<Record>, rollback: bool)
    ensures forall k :: multiset(DesiredKeys(StillWanted(des, unclaimed, rollback), rollback))[k] ==
                        if k in unclaimed then multiset(DesiredKeys(des, rollback))[k] else 0
    decreases |des|
  {
    hide Keys, PlanningKey;
    if des != [] {
      var n := |des| - 1;
      MissingBag(des[..n], unclaimed, rollback);
      MissingSnoc(des[..n], des[n], unclaimed, rollback);
      assert des == des[..n] + [des[n]];
    } else {
      NoKeys(unclaimed, rollback);
    }
  }

  lemma NoKeys(unclaimed: set<Record>, rollback: bool)
    ensures DesiredKeys(StillWanted([], unclaimed, rollback), rollback) == [] && DesiredKeys([], rollback) == []
  {
  }

  lemma MissingSnoc(init: seq<Record>, d: Record, unclaimed: set<Record>, rollback: bool)
    requires forall k :: multiset(DesiredKeys(StillWanted(init, unclaimed, rollback), rollback))[k] ==
                         if k in unclaimed then multiset(DesiredKeys(init, rollback))[k] else 0
    ensures forall k :: multiset(DesiredKeys(StillWanted(init + [d], unclaimed, rollback), rollback))[k] ==
                        if k in unclaimed then multiset(DesiredKeys(init + [d], rollback))[k] else 0
  {
    hide Keys, StillWanted, PlanningKey;
    var kept := StillWanted(init, unclaimed, rollback);
    WantedOneMore(init, d, unclaimed, rollback);
    KeysSnoc(kept, d, RecordKey(rollback));
    KeysSnoc(init, d, RecordKey(rollback));
    assert kept + [] == kept;
  }

  lemma WantedOneMore(init: seq<Record>, d: Record, unclaimed: set<Record>, rollback: bool)
    ensures StillWanted(init + [d], unclaimed, rollback) ==
            StillWanted(init, unclaimed, rollback) + (if PlanningKey(d, rollback) in unclaimed then [d] else [])
  {
    assert (init + [d])[..|init + [d]| - 1] == init;
  }

  lemma SetWithOneMore(s: set<Record>, k: Record)
    requires k !in s
    ensures multiset(s + {k}) == multiset(s) + multiset{k}
  {
  }

  lemma {:induction false} DistinctDesiredBag(des: seq<Record>, rollback: bool)
    requires forall i, j | 0 <= i < j < |des| :: PlanningKey(des[i], rollback) != PlanningKey(des[j], rollback)
    ensures multiset(DesiredKeys(des, rollback)) == multiset(KeySet(des, rollback))
    decreases |des|
  {
    if des != [] {
      var n := |des| - 1;
      DistinctDesiredBag(des[..n], rollback);
      assert des == des[..n] + [des[n]];
      assert KeySet(des, rollback) == KeySet(des[..n], rollback) + {PlanningKey(des[n], rollback)};
      SetWithOneMore(KeySet(des[..n], rollback), PlanningKey(des[n], rollback));
    }
  }

  lemma DesiredApart(m: Manifest, des: seq<Record>)
    requires DistinctKeys(m) && NoDup(des)
    requires forall d <- des :: d in m.records
    ensures forall i, j | 0 <= i < j < |des| :: PlanningKey(des[i], m.rollback) != PlanningKey(des[j], m.rollback)
  {
    forall i, j | 0 <= i < j < |des| ensures PlanningKey(des[i], m.rollback) != PlanningKey(des[j], m.rollback) {
      assert des[i] in m.records && des[j] in m.records;
      var p :| 0 <= p < |m.records| && m.records[p] == des[i];
      var q :| 0 <= q < |m.records| && m.records[q] == des[j];
    }
  }

  /** Sorting and selecting a recordset leaves its bag of keys as it is in the whole listing. */
  lemma SetBags(m: Manifest, rs: RecordSet, current: seq<Listed>, le: (Record, Record) -> bool)
    ensures multiset(KeysOf(CurrentSet(m, rs, current, le), m.rollback)) == BagIn(KeysOf(current, m.rollback), rs)
    ensures multiset(DesiredKeys(DesiredSet(m, rs, le), m.rollback)) == Wanted(m, rs)
  {
    SortKeeps(InSet(current, rs), ListedKey(m.rollback), le);
    SameBagSameKeys(CurrentSet(m, rs, current, le), InSet(current, rs), ListedKey(m.rollback));
    KeysInSet(current, rs, m.rollback);
    SortKeeps(RecordsInSet(m.records, rs), RecordKey(m.rollback), le);
    SameBagSameKeys(DesiredSet(m, rs, le), RecordsInSet(m.records, rs), RecordKey(m.rollback));
    DesiredInSet(m.records, rs, m.rollback);
  }

  /** Leftovers and missing records are the two bag differences. */
  lemma SetDifferences(m: Manifest, rs: RecordSet, current: seq<Listed>, le: (Record, Record) -> bool)
    requires DistinctKeys(m) && NoDup(m.records) && NoDup(current)
    ensures multiset(KeysOf(LeftOver(m, rs, current, le), m.rollback)) ==
            BagIn(KeysOf(current, m.rollback), rs) - Wanted(m, rs)
    ensures multiset(DesiredKeys(Missing(m, rs, current, le), m.rollback)) ==
            Wanted(m, rs) - BagIn(KeysOf(current, m.rollback), rs)
  {
    hide CurrentSet, DesiredSet, KeysOf, DesiredKeys;
    var cur, des := CurrentSet(m, rs, current, le), DesiredSet(m, rs, le);
    SetMembers(m, rs, current, le);
    SetBags(m, rs, current, le);
    DesiredApart(m, des);
    DistinctDesiredBag(des, m.rollback);
    LeftOverBag(cur, KeySet(des, m.rollback), m.rollback);
    MissingBag(des, Unclaimed(cur, KeySet(des, m.rollback), m.rollback), m.rollback);
  }

  lemma SetPlanLength(m: Manifest, rs: RecordSet, current: seq<Listed>, le: (Record, Record) -> bool)
    requires DistinctKeys(m) && NoDup(m.records) && NoDup(current)
    ensures |SetPlan(m, rs, current, le)| == Distance(KeysOf(current, m.rollback), m, rs)
  {
    hide LeftOver, Missing;
    SetDifferences(m, rs, current, le);
    KeysLength(LeftOver(m, rs, current, le), ListedKey(m.rollback));
    KeysLength(Missing(m, rs, current, le), RecordKey(m.rollback));
  }

  lemma {:induction false} PlanLength(m: Manifest, sets: seq<RecordSet>, current: seq<Listed>,
                                     le: (Record, Record) -> bool)
    requires DistinctKeys(m) && NoDup(m.records) && NoDup(current)
    ensures |SetPlans(m, sets, current, le)| == TotalDistance(KeysOf(current, m.rollback), m, sets)
    decreases |sets|
  {
    if sets != [] {
      PlanLength(m, sets[..|sets| - 1], current, le);
      SetPlanLength(m, sets[|sets| - 1], current, le);
    }
  }

  /** No sequence of creates, deletes and in-recordset overwrites gets there in fewer writes. */
  lemma PlanIsMinimal(m: Manifest, current: seq<Listed>, edits: seq<Edit>, le: (Record, Record) -> bool)
    requires Loadable(m) && NoDup(current)
    requires AllApplicable(KeysOf(current, m.rollback), edits)
    requires Reached(ApplyEdits(KeysOf(current, m.rollback), edits), m, m.managed)
    ensures |Changes(m, current, le)| <= |edits|
  {
    hide Loadable;
    LoadableManaged(m);
    PlanLength(m, m.managed, current, le);
    EditsNeeded(KeysOf(current, m.rollback), edits, m);
  }

  lemma LoadableManaged(m: Manifest)
    requires Loadable(m)
    ensures NoDup(m.managed) && DistinctKeys(m) && NoDup(m.records)
  {
    LoadableDistinct(m);
  }

  // ---------------------------------------------------------------- the order of the listing

  ghost predicate Sorted<T>(xs: seq<T>, key: T -> Record, le: (Record, Record) -> bool) {
    forall i, j | 0 <= i < j < |xs| :: le(key(xs[i]), key(xs[j]))
  }

  lemma {:induction false} InsertSorts<T>(x: T, xs: seq<T>, key: T -> Record, le: (Record, Record) -> bool)
    requires TotalOrder(le) && Sorted(xs, key, le)
    ensures Sorted(Insert(x, xs, key, le), key, le)
    decreases |xs|
  {
    hide TotalOrder;
    if xs != [] {
      var n := |xs| - 1;
      if le(key(xs[n]), key(x)) {
        SortedPush(xs, x, key, le);
      } else {
        LeftBelow(le, key(xs[n]), key(x));
        SortedInit(xs, key, le);
        InsertSorts(x, xs[..n], key, le);
        InsertKeeps(x, xs[..n], key, le);
        var ys := Insert(x, xs[..n], key, le);
        forall y <- ys ensures le(key(y), key(xs[n])) {
          assert y in multiset(ys);
          if y != x { var i :| 0 <= i < n && xs[i] == y; }
        }
        PushLast(ys, xs[n], key, le);
      }
    }
  }

  lemma LeftBelow(le: (Record, Record) -> bool, a: Record, b: Record)
    requires TotalOrder(le) && !le(a, b)
    ensures le(b, a)
  {
  }

  lemma PushLast<T>(xs: seq<T>, x: T, key: T -> Record, le: (Record, Record) -> bool)
    requires Sorted(xs, key, le) && forall y <- xs :: le(key(y), key(x))
    ensures Sorted(xs + [x], key, le)
  {
    forall i | 0 <= i < |xs| ensures le(key(xs[i]), key(x)) {
      assert xs[i] in xs;
    }
  }

  /** Behind the last element, everything above it keeps the order. */
  lemma SortedPush<T>(xs: seq<T>, x: T, key: T -> Record, le: (Record, Record) -> bool)
    requires TotalOrder(le) && Sorted(xs, key, le) && xs != [] && le(key(xs[|xs| - 1]), key(x))
    ensures Sorted(xs + [x], key, le)
  {
    forall i | 0 <= i < |xs| ensures le(key(xs[i]), key(x)) {
      assert i < |xs| - 1 ==> le(key(xs[i]), key(xs[|xs| - 1]));
    }
  }

  lemma {:induction false} SortSorts<T>(xs: seq<T>, key: T -> Record, le: (Record, Record) -> bool)
    requires TotalOrder(le)
    ensures Sorted(SortBy(xs, key, le), key, le)
    decreases |xs|
  {
    if xs != [] {
      SortSorts(xs[..|xs| - 1], key, le);
      InsertSorts(xs[|xs| - 1], SortBy(xs[..|xs| - 1], key, le), key, le);
    }
  }

  lemma LastsAgree<T>(xs: seq<T>, ys: seq<T>, key: T -> Record, le: (Record, Record) -> bool)
    requires TotalOrder(le) && Sorted(xs, key, le) && Sorted(ys, key, le)
    requires |xs| == |ys| > 0 && xs[|xs| - 1] in ys && ys[|ys| - 1] in xs
    ensures key(xs[|xs| - 1]) == key(ys[|ys| - 1])
  {
    var n := |xs| - 1;
    var i :| 0 <= i < |ys| && ys[i] == xs[n];
    var j :| 0 <= j < |xs| && xs[j] == ys[n];
    assert le(key(xs[n]), key(ys[n])) && le(key(ys[n]), key(xs[n]));
  }

  lemma SortedInit<T>(xs: seq<T>, key: T -> Record, le: (Record, Record) -> bool)
    requires Sorted(xs, key, le) && xs != []
    ensures Sorted(xs[..|xs| - 1], key, le)
  {
  }

  /** There is one way to sort elements whose keys differ. */
  lemma {:induction false} SortedOnce<T>(xs: seq<T>, ys: seq<T>, key: T -> Record, le: (Record, Record) -> bool)
    requires TotalOrder(le) && Sorted(xs, key, le) && Sorted(ys, key, le) && multiset(xs) == multiset(ys)
    requires forall x <- xs, y <- xs | x != y :: key(x) != key(y)
    ensures xs == ys
    decreases |xs|
  {
    hide Sorted, TotalOrder;
    assert |xs| == |multiset(xs)| == |multiset(ys)| == |ys|;
    if xs != [] {
      var n := |xs| - 1;
      assert xs == xs[..n] + [xs[n]] && ys == ys[..n] + [ys[n]];
      assert xs[n] in multiset(ys) && ys[n] in multiset(xs);
      LastsAgree(xs, ys, key, le);
      Cancel(multiset(xs[..n]), multiset(ys[..n]), xs[n]);
      SortedInit(xs, key, le);
      SortedInit(ys, key, le);
      SortedOnce(xs[..n], ys[..n], key, le);
    }
  }

  lemma SameElementsSameBag<T>(xs: seq<T>, ys: seq<T>)
    requires NoDup(xs) && NoDup(ys) && forall x :: x in xs <==> x in ys
    ensures multiset(xs) == multiset(ys)
  {
    NoDupBag(xs);
    NoDupBag(ys);
    forall x ensures multiset(xs)[x] == multiset(ys)[x] {
      assert x in multiset(xs) <==> x in xs;
      assert x in multiset(ys) <==> x in ys;
    }
  }

  /** No two managed records of the listing look alike to the planner. */
  predicate NoTwins(m: Manifest, current: seq<Listed>) {
    forall x <- current, y <- current | x != y && Managed(m, x.record) ::
      PlanningKey(x.record, m.rollback) != PlanningKey(y.record, m.rollback)
  }

  lemma SetPlanOrderFree(m: Manifest, rs: RecordSet, current: seq<Listed>, other: seq<Listed>,
                         le: (Record, Record) -> bool)
    requires TotalOrder(le) && rs in m.managed && NoTwins(m, current) && NoDup(current) && NoDup(other)
    requires forall x :: x in current <==> x in other
    ensures CurrentSet(m, rs, current, le) == CurrentSet(m, rs, other, le)
  {
    var key := ListedKey(m.rollback);
    var a, b := InSet(current, rs), InSet(other, rs);
    InSetFacts(current, rs);
    InSetFacts(other, rs);
    SameElementsSameBag(a, b);
    SortFacts(a, key, le);
    SortFacts(b, key, le);
    SortSorts(a, key, le);
    SortSorts(b, key, le);
    SortedOnce(SortBy(a, key, le), SortBy(b, key, le), key, le);
  }

  lemma {:induction false} PlansOrderFree(m: Manifest, sets: seq<RecordSet>, current: seq<Listed>,
                                         other: seq<Listed>, le: (Record, Record) -> bool)
    requires TotalOrder(le) && NoTwins(m, current) && NoDup(current) && NoDup(other)
    requires forall rs <- sets :: rs in m.managed
    requires forall x :: x in current <==> x in other
    ensures SetPlans(m, sets, current, le) == SetPlans(m, sets, other, le)
    decreases |sets|
  {
    if sets != [] {
      PlansOrderFree(m, sets[..|sets| - 1], current, other, le);
      SetPlanOrderFree(m, sets[|sets| - 1], current, other, le);
    }
  }

  /** Unless two managed records look alike, the plan is the same for every order of the listing. */
  lemma PlanIgnoresListingOrder(z: Zone, m: Manifest, current: seq<Listed>, other: seq<Listed>,
                                le: (Record, Record) -> bool)
    requires TotalOrder(le) && NoTwins(m, current) && Lists(z, current) && Lists(z, other)
    ensures Changes(m, current, le) == Changes(m, other, le)
  {
    forall x ensures x in current <==> x in other { }
    PlansOrderFree(m, m.managed, current, other, le);
  }
}
