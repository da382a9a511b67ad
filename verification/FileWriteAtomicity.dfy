/** The whole write: all of it or none of it, no file torn, nothing left behind. */
module FileWriteAtomicity {
  import opened Wrappers
  import opened FileWrite
  import opened FileWriteGuarantees

  // ---------------------------------------------------------------- replacing and rolling back

  /** The name belongs to one of the first `n` targets. */
  predicate Among(ts: seq<Target>, n: nat, name: string)
    requires n <= |ts|
  {
    exists i | 0 <= i < n :: ts[i].name == name
  }

  /** Every file has its old content, or it is a target and has its new one. */
  ghost predicate NeverTorn(fs: Fs, fs': Fs, ts: seq<Target>) {
    && (forall name :: At(fs', name) == At(fs, name) || Among(ts, |ts|, name))
    && (forall i | 0 <= i < |ts| :: At(fs', ts[i].name) == At(fs, ts[i].name) || At(fs', ts[i].name) == Some(ts[i].content))
  }

  /** The staged files that are still to be used are in place. */
  predicate UpdatesReady(fs: Fs, ts: seq<Target>, updates: seq<Path>, from: nat)
    requires |updates| == |ts|
  {
    forall i | from <= i < |ts| :: updates[i].Temp? && updates[i].name == ts[i].name && !updates[i].rollback &&
                                   Lookup(fs, updates[i]) == Some(ts[i].content)
  }

  predicate RollbacksReady(original: Fs, fs: Fs, ts: seq<Target>, rollbacks: seq<Option<Path>>, n: nat)
    requires n <= |ts| == |rollbacks|
  {
    forall i | 0 <= i < n ::
      && (rollbacks[i].None? ==> At(original, ts[i].name).None?)
      && (rollbacks[i].Some? ==> var p := rollbacks[i].value;
            p.Temp? && p.name == ts[i].name && p.rollback && Lookup(fs, p).Some? && Lookup(fs, p) == At(original, ts[i].name))
  }

  /** After `n` replacements: the first `n` targets are new, every other name is as it was. */
  ghost predicate Replaced(original: Fs, fs: Fs, ts: seq<Target>, n: nat)
    requires n <= |ts|
  {
    && (forall i | 0 <= i < n :: At(fs, ts[i].name) == Some(ts[i].content))
    && (forall name | !Among(ts, n, name) :: At(fs, name) == At(original, name))
  }

  /** Temporary files only disappear; nothing else happens to them. */
  ghost predicate TempsShrink(fs: Fs, fs': Fs) {
    && fs'.leaked == fs.leaked
    && forall p <- fs'.files :: p.Temp? ==> p in fs.files && fs'.files[p] == fs.files[p]
  }

  /** Temporary files that were there before the write are kept. */
  predicate KeepsOld(original: Fs, fs: Fs) {
    forall p <- original.files :: p.Temp? ==> Lookup(fs, p) == Lookup(original, p)
  }

  lemma ReplaceOne(faults: Faults, original: Fs, fs: Fs, ts: seq<Target>, updates: seq<Path>,
                   rollbacks: seq<Option<Path>>, n: nat)
    requires Distinct(ts) && n < |ts| && |updates| == |ts| == |rollbacks|
    requires UpdatesReady(fs, ts, updates, n) && RollbacksReady(original, fs, ts, rollbacks, |ts|)
    requires Replaced(original, fs, ts, n) && updates[n] !in original.files && KeepsOld(original, fs)
    ensures var moved := Replace(faults, fs, updates[n], Named(ts[n].name));
            && (moved.ok ==> UpdatesReady(moved.fs, ts, updates, n + 1) && Replaced(original, moved.fs, ts, n + 1))
            && (!moved.ok ==> faults(fs.tried) && SameFiles(fs, moved.fs))
            && RollbacksReady(original, moved.fs, ts, rollbacks, |ts|) && TempsShrink(fs, moved.fs)
            && KeepsOld(original, moved.fs) && moved.fs.tried == fs.tried + 1
  {
    var moved := Replace(faults, fs, updates[n], Named(ts[n].name));
    assert Lookup(fs, updates[n]) == Some(ts[n].content);
    if moved.ok {
      forall name | !Among(ts, n + 1, name) ensures At(moved.fs, name) == At(original, name) {
        assert ts[n].name != name;
        assert !Among(ts, n, name);
      }
      forall i | 0 <= i < n ensures At(moved.fs, ts[i].name) == Some(ts[i].content) {
        assert ts[i].name != ts[n].name;
      }
    }
  }

  lemma {:induction false} ReplacingIsSound(faults: Faults, original: Fs, fs: Fs, ts: seq<Target>, updates: seq<Path>,
                                            rollbacks: seq<Option<Path>>, n: nat)
    requires Distinct(ts) && n <= |ts| && |updates| == |ts| == |rollbacks|
    requires UpdatesReady(fs, ts, updates, 0) && RollbacksReady(original, fs, ts, rollbacks, |ts|)
    requires (forall name :: At(fs, name) == At(original, name)) && KeepsOld(original, fs)
    requires forall i | 0 <= i < |ts| :: updates[i] !in original.files
    ensures var r := ReplaceAll(faults, fs, ts, updates, n);
            && r.replaced <= n && (r.ok ==> r.replaced == n && UpdatesReady(r.fs, ts, updates, n))
            && Replaced(original, r.fs, ts, r.replaced) && RollbacksReady(original, r.fs, ts, rollbacks, |ts|)
            && TempsShrink(fs, r.fs) && KeepsOld(original, r.fs)
            && fs.tried <= r.fs.tried && (!r.ok ==> fs.tried < r.fs.tried && faults(r.fs.tried - 1))
  {
    hide Replace, UpdatesReady, RollbacksReady, Replaced, KeepsOld;
    if n == 0 {
      NoneReplaced(original, fs, ts);
    } else {
      ReplacingIsSound(faults, original, fs, ts, updates, rollbacks, n - 1);
      var r := ReplaceAll(faults, fs, ts, updates, n - 1);
      if r.ok {
        ReplaceOne(faults, original, r.fs, ts, updates, rollbacks, n - 1);
        var moved := Replace(faults, r.fs, updates[n - 1], Named(ts[n - 1].name));
        if !moved.ok {
          SameReplaced(original, r.fs, moved.fs, ts, n - 1);
        }
      }
    }
  }

  lemma NoneReplaced(original: Fs, fs: Fs, ts: seq<Target>)
    requires forall name :: At(fs, name) == At(original, name)
    ensures Replaced(original, fs, ts, 0)
  {
  }

  lemma SameReplaced(original: Fs, fs: Fs, fs': Fs, ts: seq<Target>, n: nat)
    requires n <= |ts| && Replaced(original, fs, ts, n) && SameFiles(fs, fs')
    ensures Replaced(original, fs', ts, n)
  {
    forall name ensures At(fs', name) == At(fs, name) {}
  }

  /** Restoring one target: either it has its old content again, or it keeps what it had. */
  lemma RestoreOne(faults: Faults, original: Fs, fs: Fs, ts: seq<Target>, rollbacks: seq<Option<Path>>, n: nat)
    requires Distinct(ts) && 0 < n <= |ts| == |rollbacks|
    requires RollbacksReady(original, fs, ts, rollbacks, n)
    requires rollbacks[n - 1].Some? ==> rollbacks[n - 1].value !in original.files
    requires KeepsOld(original, fs)
    ensures var one := Restore(faults, fs, ts[n - 1], rollbacks[n - 1]);
            && (one.ok ==> At(one.fs, ts[n - 1].name) == At(original, ts[n - 1].name))
            && (!one.ok ==> faults(fs.tried) && At(one.fs, ts[n - 1].name) == At(fs, ts[n - 1].name))
            && (forall name | name != ts[n - 1].name :: At(one.fs, name) == At(fs, name))
            && RollbacksReady(original, one.fs, ts, rollbacks, n - 1) && TempsShrink(fs, one.fs)
            && KeepsOld(original, one.fs) && one.fs.tried == fs.tried + 1
  {
    assert rollbacks[n - 1].None? ==> At(original, ts[n - 1].name).None?;
  }

  lemma {:induction false} RollingBackIsSound(faults: Faults, original: Fs, fs: Fs, ts: seq<Target>,
                                              rollbacks: seq<Option<Path>>, n: nat)
    requires Distinct(ts) && n <= |ts| == |rollbacks|
    requires RollbacksReady(original, fs, ts, rollbacks, n) && KeepsOld(original, fs)
    requires forall i | 0 <= i < n :: rollbacks[i].Some? ==> rollbacks[i].value !in original.files
    requires NeverTorn(original, fs, ts)
    ensures var back := RollBack(faults, fs, ts, rollbacks, n);
            && NeverTorn(original, back.fs, ts)
            && (back.ok ==> forall name ::
                  At(back.fs, name) == if Among(ts, n, name) then At(original, name) else At(fs, name))
            && (!back.ok ==> exists i | fs.tried <= i < back.fs.tried :: faults(i))
            && fs.tried <= back.fs.tried && TempsShrink(fs, back.fs) && KeepsOld(original, back.fs)
    decreases n
  {
    hide Restore, RollbacksReady, KeepsOld, Replaced;
    if n > 0 {
      RestoreOne(faults, original, fs, ts, rollbacks, n);
      var one := Restore(faults, fs, ts[n - 1], rollbacks[n - 1]);
      StillNotTorn(original, fs, one.fs, ts, n - 1);
      RollingBackIsSound(faults, original, one.fs, ts, rollbacks, n - 1);
      var back := RollBack(faults, fs, ts, rollbacks, n);
      if back.ok {
        forall name ensures At(back.fs, name) == if Among(ts, n, name) then At(original, name) else At(fs, name) {
          assert Among(ts, n, name) <==> Among(ts, n - 1, name) || ts[n - 1].name == name;
        }
      } else if !one.ok {
        assert faults(fs.tried);
      }
    }
  }

  lemma StillNotTorn(original: Fs, fs: Fs, fs': Fs, ts: seq<Target>, n: nat)
    requires NeverTorn(original, fs, ts) && n < |ts|
    requires forall name | name != ts[n].name :: At(fs', name) == At(fs, name)
    requires At(fs', ts[n].name) == At(original, ts[n].name) || At(fs', ts[n].name) == At(fs, ts[n].name)
    ensures NeverTorn(original, fs', ts)
  {
    forall name ensures At(fs', name) == At(original, name) || Among(ts, |ts|, name) {
      assert At(fs, name) == At(original, name) || Among(ts, |ts|, name);
    }
    forall i | 0 <= i < |ts|
      ensures At(fs', ts[i].name) == At(original, ts[i].name) || At(fs', ts[i].name) == Some(ts[i].content)
    {
      assert At(fs, ts[i].name) == At(original, ts[i].name) || At(fs, ts[i].name) == Some(ts[i].content);
    }
  }

  lemma ReplacedIsNotTorn(original: Fs, fs: Fs, ts: seq<Target>, n: nat)
    requires Distinct(ts) && n <= |ts| && Replaced(original, fs, ts, n)
    ensures NeverTorn(original, fs, ts)
  {
    forall name ensures At(fs, name) == At(original, name) || Among(ts, |ts|, name) {
      if Among(ts, n, name) {
        assert Among(ts, |ts|, name);
      }
    }
    forall i | 0 <= i < |ts|
      ensures At(fs, ts[i].name) == At(original, ts[i].name) || At(fs, ts[i].name) == Some(ts[i].content)
    {
      if i >= n {
        assert !Among(ts, n, ts[i].name);
      }
    }
  }

  // ---------------------------------------------------------------- the update

  lemma StagedIsReady(original: Fs, s: Staging, ts: seq<Target>)
    requires StagedFrom(original, s, ts) && |s.updates| == |ts| == |s.rollbacks|
    ensures UpdatesReady(s.fs, ts, s.updates, 0) && RollbacksReady(original, s.fs, ts, s.rollbacks, |ts|)
    ensures (forall i | 0 <= i < |ts| :: s.updates[i] !in original.files)
    ensures (forall i | 0 <= i < |ts| :: s.rollbacks[i].Some? ==> s.rollbacks[i].value !in original.files)
  {
    forall i | 0 <= i < |ts|
      ensures GoodUpdate(original, s.fs, ts[i], s.updates[i]) && GoodRollback(original, s.fs, ts[i], s.rollbacks[i])
    {
    }
  }

  lemma StagedLooksTheSame(original: Fs, s: Staging, ts: seq<Target>)
    requires StagedFrom(original, s, ts)
    ensures (forall name :: At(s.fs, name) == At(original, name)) && KeepsOld(original, s.fs)
  {
  }

  /** Every file is as it was. */
  ghost predicate Unchanged(original: Fs, fs: Fs) { forall name :: At(fs, name) == At(original, name) }

  /** What the update does before the clean-up. */
  lemma UpdateIsSound(faults: Faults, original: Fs, ts: seq<Target>, mustExist: bool)
    requires Valid(original) && Distinct(ts)
    ensures var s := StageAll(faults, original, ts, mustExist, |ts|);
            var u := Update(faults, s, ts);
            && NeverTorn(original, u.0, ts) && TempsShrink(s.fs, u.0) && KeepsOld(original, u.0)
            && (u.1.Done? ==> Replaced(original, u.0, ts, |ts|))
            && (u.1.Undone? ==> Unchanged(original, u.0))
            && (u.1.Incomplete? ==>
                  exists i: nat, j: nat | s.fs.tried <= i < j < u.0.tried :: faults(i) && faults(j))
  {
    hide StagedFrom, StageAll, ReplaceAll, RollBack, NeverTorn, Replaced, UpdatesReady, RollbacksReady, KeepsOld, Distinct;
    StagingIsSound(faults, original, ts, mustExist, |ts|);
    var s := StageAll(faults, original, ts, mustExist, |ts|);
    StagedLooksTheSame(original, s, ts);
    NoneReplaced(original, s.fs, ts);
    ReplacedIsNotTorn(original, s.fs, ts, 0);
    if s.ok {
      StagedIsReady(original, s, ts);
      ReplacingIsSound(faults, original, s.fs, ts, s.updates, s.rollbacks, |ts|);
      var r := ReplaceAll(faults, s.fs, ts, s.updates, |ts|);
      ReplacedIsNotTorn(original, r.fs, ts, r.replaced);
      if !r.ok {
        FewerReady(original, r.fs, ts, s.rollbacks, r.replaced);
        RollingBackIsSound(faults, original, r.fs, ts, s.rollbacks, r.replaced);
        var back := RollBack(faults, r.fs, ts, s.rollbacks, r.replaced);
        ReplacedFrame(original, r.fs, ts, r.replaced);
        if !back.ok {
          var j :| r.fs.tried <= j < back.fs.tried && faults(j);
          var i := r.fs.tried - 1;
          assert s.fs.tried <= i < j && faults(i);
        }
      }
    }
  }

  lemma FewerReady(original: Fs, fs: Fs, ts: seq<Target>, rollbacks: seq<Option<Path>>, n: nat)
    requires n <= |ts| == |rollbacks| && RollbacksReady(original, fs, ts, rollbacks, |ts|)
    ensures RollbacksReady(original, fs, ts, rollbacks, n)
  {
  }

  lemma ReplacedFrame(original: Fs, fs: Fs, ts: seq<Target>, n: nat)
    requires n <= |ts| && Replaced(original, fs, ts, n)
    ensures forall name | !Among(ts, n, name) :: At(fs, name) == At(original, name)
  {
  }

  // ---------------------------------------------------------------- the clean-up

  lemma {:induction false} CleaningUp(faults: Faults, fs: Fs, temps: seq<Path>)
    requires forall p <- temps :: p.Temp?
    ensures var c := CleanUp(faults, fs, temps);
            && (forall name :: At(c.fs, name) == At(fs, name))
            && (forall p <- c.fs.files :: p in fs.files && c.fs.files[p] == fs.files[p])
            && (forall p <- fs.files :: p in c.fs.files || p in temps)
            && (c.ok ==> forall p <- temps :: p !in c.fs.files)
            && c.fs.leaked == (fs.leaked || !c.ok)
    decreases |temps|
  {
    if temps != [] {
      var u := UnlinkTemp(faults, fs, temps[0]);
      assert temps[0] in temps;
      forall name ensures At(u.fs, name) == At(fs, name) {}
      if u.ok {
        CleaningUp(faults, u.fs, temps[1..]);
      }
    }
  }

  lemma {:induction false} PresentAre(rollbacks: seq<Option<Path>>, p: Path)
    ensures p in Present(rollbacks) <==> Some(p) in rollbacks
  {
    if rollbacks != [] {
      PresentAre(rollbacks[..|rollbacks| - 1], p);
      assert rollbacks == rollbacks[..|rollbacks| - 1] + [rollbacks[|rollbacks| - 1]];
    }
  }

  lemma ToRemove(original: Fs, s: Staging, ts: seq<Target>)
    requires StagedFrom(original, s, ts)
    ensures forall p <- s.updates + Present(s.rollbacks) :: p.Temp? && p !in original.files && Listed(s, p)
    ensures forall p | Listed(s, p) :: p in s.updates + Present(s.rollbacks)
  {
    forall p ensures p in Present(s.rollbacks) <==> Some(p) in s.rollbacks {
      PresentAre(s.rollbacks, p);
    }
    forall p <- s.updates + Present(s.rollbacks) ensures p.Temp? && p !in original.files && Listed(s, p) {
      if p in s.updates {
        var i :| 0 <= i < |s.updates| && s.updates[i] == p;
        assert GoodUpdate(original, s.fs, ts[i], s.updates[i]);
      } else {
        var i :| 0 <= i < |s.rollbacks| && s.rollbacks[i] == Some(p);
        assert GoodRollback(original, s.fs, ts[i], s.rollbacks[i]);
      }
    }
  }

  // ---------------------------------------------------------------- guarantees

  /**
   Whatever fails, the write is done, or it is undone, or both a replacement and its undoing have
   failed; and no file is ever torn, nor any file touched that is not a target.
   */
  lemma AllOrNothing(faults: Faults, fs: Fs, ts: seq<Target>, mustExist: bool)
    requires Valid(fs) && Distinct(ts)
    ensures var w := Write(faults, fs, ts, mustExist);
            && NeverTorn(fs, w.fs, ts)
            && (w.outcome.Done? ==> forall i | 0 <= i < |ts| :: At(w.fs, ts[i].name) == Some(ts[i].content))
            && (w.outcome.Undone? ==> Unchanged(fs, w.fs))
            && (w.outcome.Incomplete? ==> exists i: nat, j: nat | i < j :: faults(i) && faults(j))
  {
    hide StagedFrom, StageAll, Update, CleanUp, NeverTorn, KeepsOld, Distinct, TempsShrink;
    StagingIsSound(faults, fs, ts, mustExist, |ts|);
    UpdateIsSound(faults, fs, ts, mustExist);
    var s := StageAll(faults, fs, ts, mustExist, |ts|);
    var u := Update(faults, s, ts);
    ToRemove(fs, s, ts);
    CleaningUp(faults, u.0, s.updates + Present(s.rollbacks));
    NotTornBy(fs, u.0, Write(faults, fs, ts, mustExist).fs, ts);
    if u.1.Incomplete? {
      var i: nat, j: nat :| s.fs.tried <= i < j < u.0.tried && faults(i) && faults(j);
    }
  }

  lemma NotTornBy(original: Fs, fs: Fs, fs': Fs, ts: seq<Target>)
    requires NeverTorn(original, fs, ts) && forall name :: At(fs', name) == At(fs, name)
    ensures NeverTorn(original, fs', ts)
  {
    forall i | 0 <= i < |ts|
      ensures At(fs', ts[i].name) == At(original, ts[i].name) || At(fs', ts[i].name) == Some(ts[i].content)
    {
      assert At(fs, ts[i].name) == At(original, ts[i].name) || At(fs, ts[i].name) == Some(ts[i].content);
    }
  }

  /** If no removal of a temporary file failed, the temporary files are those from before, unchanged. */
  lemma NothingLeftBehind(faults: Faults, fs: Fs, ts: seq<Target>, mustExist: bool, p: Path)
    requires Valid(fs) && Distinct(ts) && !Write(faults, fs, ts, mustExist).fs.leaked && p.Temp?
    ensures Lookup(Write(faults, fs, ts, mustExist).fs, p) == Lookup(fs, p)
  {
    hide StagedFrom, StageAll, Update, CleanUp, NeverTorn, Distinct, Replaced;
    StagingIsSound(faults, fs, ts, mustExist, |ts|);
    UpdateIsSound(faults, fs, ts, mustExist);
    var s := StageAll(faults, fs, ts, mustExist, |ts|);
    var u := Update(faults, s, ts);
    ToRemove(fs, s, ts);
    CleaningUp(faults, u.0, s.updates + Present(s.rollbacks));
    OnlyListed(fs, s, ts);
  }

  lemma OnlyListed(fs: Fs, s: Staging, ts: seq<Target>)
    requires StagedFrom(fs, s, ts) && !s.fs.leaked
    ensures forall p <- s.fs.files :: p in fs.files || Listed(s, p)
  {
  }

  predicate FaultWithin(faults: Faults, from: nat, to: nat) { exists j: nat | from <= j < to :: faults(j) }

  /** The temporary files that the clean-up goes through. */
  function Temps(s: Staging): seq<Path> { s.updates + Present(s.rollbacks) }

  /** The clean-up fails exactly when one of as many operations as there are temporary files does. */
  lemma {:induction false} CleanUpFailsIff(faults: Faults, fs: Fs, temps: seq<Path>)
    ensures !CleanUp(faults, fs, temps).ok <==> FaultWithin(faults, fs.tried, fs.tried + |temps|)
    decreases |temps|
  {
    if temps != [] {
      var u := UnlinkTemp(faults, fs, temps[0]);
      if u.ok {
        CleanUpFailsIff(faults, u.fs, temps[1..]);
        FaultLater(faults, fs.tried, fs.tried + |temps|);
      } else {
        assert faults(fs.tried);
      }
    }
  }

  lemma FaultLater(faults: Faults, from: nat, to: nat)
    requires from < to && !faults(from)
    ensures FaultWithin(faults, from, to) <==> FaultWithin(faults, from + 1, to)
  {
  }

  /**
   A normal return means every target is new; a write error means nothing changed. A clean-up exception
   comes exactly from a fault among the removals, and tells nothing of how the update went; any other
   report tells it exactly.
   */
  lemma ReportsAreTrue(faults: Faults, fs: Fs, ts: seq<Target>, mustExist: bool)
    requires Valid(fs) && Distinct(ts)
    ensures var w := Write(faults, fs, ts, mustExist);
            var s := StageAll(faults, fs, ts, mustExist, |ts|);
            var u := Update(faults, s, ts);
            && (Reported(w).Returned? ==> forall i | 0 <= i < |ts| :: At(w.fs, ts[i].name) == Some(ts[i].content))
            && (Reported(w).WriteError? ==> Unchanged(fs, w.fs))
            && (Reported(w).CleanupError? <==> FaultWithin(faults, u.0.tried, u.0.tried + |Temps(s)|))
            && (!w.fs.leaked ==> (Reported(w).Returned? <==> w.outcome.Done?) && (Reported(w).WriteError? <==> w.outcome.Undone?))
  {
    hide StageAll, Update, CleanUp, NeverTorn, Unchanged, FaultWithin;
    AllOrNothing(faults, fs, ts, mustExist);
    FailedCleanUpLeaks(faults, fs, ts, mustExist);
    var s := StageAll(faults, fs, ts, mustExist, |ts|);
    CleanUpFailsIff(faults, Update(faults, s, ts).0, Temps(s));
  }

  lemma CleanUpKeepsNamed(faults: Faults, fs: Fs, ts: seq<Target>, mustExist: bool)
    requires Valid(fs) && Distinct(ts)
    ensures var u := Update(faults, StageAll(faults, fs, ts, mustExist, |ts|), ts);
            Unchanged(fs, Write(faults, fs, ts, mustExist).fs) <==> Unchanged(fs, u.0)
  {
    hide StagedFrom, StageAll, Update, CleanUp;
    StagingIsSound(faults, fs, ts, mustExist, |ts|);
    var s := StageAll(faults, fs, ts, mustExist, |ts|);
    ToRemove(fs, s, ts);
    CleaningUp(faults, Update(faults, s, ts).0, Temps(s));
  }

  /**
   Exactly when an exception other than the one for an incomplete rollback leaves something changed:
   the update, done or half undone, has changed a file, and then a removal fails and hides it.
   */
  lemma ExceptionHidesChangeIff(faults: Faults, fs: Fs, ts: seq<Target>, mustExist: bool)
    requires Valid(fs) && Distinct(ts)
    ensures var w := Write(faults, fs, ts, mustExist);
            var s := StageAll(faults, fs, ts, mustExist, |ts|);
            var u := Update(faults, s, ts);
            (Reported(w).WriteError? || Reported(w).CleanupError?) && !Unchanged(fs, w.fs) <==>
            FaultWithin(faults, u.0.tried, u.0.tried + |Temps(s)|) && !Unchanged(fs, u.0)
  {
    hide StageAll, Update, Write, Unchanged, FaultWithin;
    ReportsAreTrue(faults, fs, ts, mustExist);
    CleanUpKeepsNamed(faults, fs, ts, mustExist);
  }

  /** When an update changes something: it is done and some target was not so already, or it is incomplete. */
  lemma UpdateChanges(faults: Faults, fs: Fs, ts: seq<Target>, mustExist: bool)
    requires Valid(fs) && Distinct(ts)
    ensures var u := Update(faults, StageAll(faults, fs, ts, mustExist, |ts|), ts);
            && (u.1.Undone? ==> Unchanged(fs, u.0))
            && (u.1.Done? ==>
                  (Unchanged(fs, u.0) <==> forall i | 0 <= i < |ts| :: At(fs, ts[i].name) == Some(ts[i].content)))
  {
    hide StageAll, Update, TempsShrink, KeepsOld;
    UpdateIsSound(faults, fs, ts, mustExist);
    var u := Update(faults, StageAll(faults, fs, ts, mustExist, |ts|), ts);
    if u.1.Done? && forall i | 0 <= i < |ts| :: At(fs, ts[i].name) == Some(ts[i].content) {
      forall name ensures At(u.0, name) == At(fs, name) {
        if Among(ts, |ts|, name) {
          var i :| 0 <= i < |ts| && ts[i].name == name;
        }
      }
    }
  }

  lemma FailedCleanUpLeaks(faults: Faults, fs: Fs, ts: seq<Target>, mustExist: bool)
    requires Valid(fs)
    ensures var w := Write(faults, fs, ts, mustExist); !w.cleaned ==> w.fs.leaked
  {
    hide StagedFrom, StageAll, Update, CleanUp;
    StagingIsSound(faults, fs, ts, mustExist, |ts|);
    var s := StageAll(faults, fs, ts, mustExist, |ts|);
    ToRemove(fs, s, ts);
    CleaningUp(faults, Update(faults, s, ts).0, s.updates + Present(s.rollbacks));
  }

  /** One failing operation, wherever it strikes, cannot leave the update half done. */
  lemma OneFaultIsHarmless(faults: Faults, fs: Fs, ts: seq<Target>, mustExist: bool)
    requires Valid(fs) && Distinct(ts)
    requires forall i: nat, j: nat | i < j :: !faults(i) || !faults(j)
    ensures var w := Write(faults, fs, ts, mustExist);
            Unchanged(fs, w.fs) || forall i | 0 <= i < |ts| :: At(w.fs, ts[i].name) == Some(ts[i].content)
  {
    hide Write, NeverTorn, Unchanged;
    AllOrNothing(faults, fs, ts, mustExist);
  }

  // ---------------------------------------------------------------- when nothing fails

  lemma {:induction false} FaultFreeStaging(faults: Faults, fs: Fs, ts: seq<Target>, mustExist: bool, n: nat)
    requires Valid(fs) && n <= |ts| && (forall i: nat :: !faults(i))
    requires mustExist ==> forall i | 0 <= i < |ts| :: At(fs, ts[i].name).Some?
    ensures StageAll(faults, fs, ts, mustExist, n).ok && StageAll(faults, fs, ts, mustExist, n).fs.leaked == fs.leaked
  {
    hide StagedFrom, StageOne, KeepsOld;
    if n > 0 {
      FaultFreeStaging(faults, fs, ts, mustExist, n - 1);
      StagingIsSound(faults, fs, ts, mustExist, n - 1);
      var s := StageAll(faults, fs, ts, mustExist, n - 1);
      StagedLooksTheSame(fs, s, ts);
      StagedIsValid(fs, s, ts);
      OneMoreStaged(faults, s, ts[n - 1], mustExist);
    }
  }

  lemma StagedIsValid(fs: Fs, s: Staging, ts: seq<Target>)
    requires StagedFrom(fs, s, ts)
    ensures Valid(s.fs)
  {
  }

  lemma OneMoreStaged(faults: Faults, s: Staging, t: Target, mustExist: bool)
    requires s.ok && forall i: nat :: !faults(i)
    requires mustExist ==> At(s.fs, t.name).Some?
    ensures StageOne(faults, s, t, mustExist).ok && StageOne(faults, s, t, mustExist).fs.leaked == s.fs.leaked
  {
  }

  lemma {:induction false} FaultFreeCleaning(faults: Faults, fs: Fs, temps: seq<Path>)
    requires forall i: nat :: !faults(i)
    ensures CleanUp(faults, fs, temps).ok && CleanUp(faults, fs, temps).fs.leaked == fs.leaked
    decreases |temps|
  {
    if temps != [] {
      FaultFreeCleaning(faults, UnlinkTemp(faults, fs, temps[0]).fs, temps[1..]);
    }
  }

  /** If nothing fails, and every file is there that has to be, the write is done and returns normally. */
  lemma FaultFreeWriteSucceeds(faults: Faults, fs: Fs, ts: seq<Target>, mustExist: bool)
    requires Valid(fs) && Distinct(ts) && (forall i: nat :: !faults(i)) && !fs.leaked
    requires mustExist ==> forall i | 0 <= i < |ts| :: At(fs, ts[i].name).Some?
    ensures var w := Write(faults, fs, ts, mustExist); Reported(w).Returned? && !w.fs.leaked
  {
    hide StagedFrom, StageAll, ReplaceAll, RollBack, CleanUp, UpdatesReady, RollbacksReady, Replaced, KeepsOld;
    FaultFreeStaging(faults, fs, ts, mustExist, |ts|);
    StagingIsSound(faults, fs, ts, mustExist, |ts|);
    var s := StageAll(faults, fs, ts, mustExist, |ts|);
    StagedLooksTheSame(fs, s, ts);
    StagedIsReady(fs, s, ts);
    ReplacingIsSound(faults, fs, s.fs, ts, s.updates, s.rollbacks, |ts|);
    FaultFreeCleaning(faults, Update(faults, s, ts).0, s.updates + Present(s.rollbacks));
  }

  // ---------------------------------------------------------------- when a removal fails

  lemma {:induction false} AbsentStaged(faults: Faults, s: Staging, t: Target)
    requires s.ok && At(s.fs, t.name).None? && forall i | s.fs.tried <= i < s.fs.tried + 4 :: !faults(i)
    ensures var p := Temp(t.name, false, s.fs.nonce);
            StageOne(faults, s, t, false) ==
            Staging(s.fs.(tried := s.fs.tried + 4, nonce := s.fs.nonce + 1, files := s.fs.files[p := t.content]),
                    s.updates + [p], s.rollbacks + [None], true)
  {
    var p := Temp(t.name, false, s.fs.nonce);
    assert s.fs.files[p := ""][p := t.content] == s.fs.files[p := t.content];
  }

  lemma {:induction false} BothReplaced(faults: Faults, fs: Fs, ts: seq<Target>, updates: seq<Path>)
    requires |ts| == |updates| == 2 && updates[0] != updates[1] && updates[0].Temp? && updates[1].Temp?
    requires updates[0] in fs.files && updates[1] in fs.files && !faults(fs.tried) && !faults(fs.tried + 1)
    ensures var r := ReplaceAll(faults, fs, ts, updates, 2); r.ok && r.fs.tried == fs.tried + 2
  {
    var moved := Replace(faults, fs, updates[0], Named(ts[0].name));
    assert ReplaceAll(faults, fs, ts, updates, 0) == Replacing(fs, 0, true);
    assert ReplaceAll(faults, fs, ts, updates, 1) == Replacing(moved.fs, 1, true);
    assert updates[1] in moved.fs.files;
  }

  /**
   When the first removal of a temporary file fails, a write that is done ends in an exception all the
   same: an exception alone does not tell the caller that nothing changed.
   */
  lemma DoneYetRaises(fs: Fs, a: Target, b: Target)
    requires Valid(fs) && a.name != b.name && At(fs, a.name).None? && At(fs, b.name).None? && fs.tried == 0
    ensures var w := Write((i: nat) => i == 10, fs, [a, b], false);
            && Reported(w).CleanupError? && w.outcome.Done?
            && At(w.fs, a.name) == Some(a.content) && At(w.fs, b.name) == Some(b.content)
  {
    hide StageOne, CleanUp, ReplaceAll, RollBack, NeverTorn;
    var faults: Faults := (i: nat) => i == 10;
    var ts := [a, b];
    var s0 := Staging(fs, [], [], true);
    AbsentStaged(faults, s0, a);
    var s1 := StageOne(faults, s0, a, false);
    assert At(s1.fs, b.name).None?;
    AbsentStaged(faults, s1, b);
    var s := StageOne(faults, s1, b, false);
    assert StageAll(faults, fs, ts, false, 1) == s1;
    assert StageAll(faults, fs, ts, false, 2) == s;
    BothReplaced(faults, s.fs, ts, s.updates);
    var r := ReplaceAll(faults, s.fs, ts, s.updates, 2);
    FirstRemovalFails(faults, r.fs, s.updates + Present(s.rollbacks));
    AllOrNothing(faults, fs, ts, false);
    assert ts[0] == a && ts[1] == b;
  }

  lemma {:induction false} OnlyFirstReplaced(faults: Faults, fs: Fs, ts: seq<Target>, updates: seq<Path>)
    requires |ts| == |updates| == 2 && updates[0].Temp? && updates[0] in fs.files
    requires !faults(fs.tried) && faults(fs.tried + 1)
    ensures var r := ReplaceAll(faults, fs, ts, updates, 2);
            && !r.ok && r.replaced == 1 && r.fs.tried == fs.tried + 2 && r.fs.leaked == fs.leaked
            && r.fs.files == (fs.files - {updates[0]})[Named(ts[0].name) := fs.files[updates[0]]]
  {
    var moved := Replace(faults, fs, updates[0], Named(ts[0].name));
    assert ReplaceAll(faults, fs, ts, updates, 0) == Replacing(fs, 0, true);
    assert ReplaceAll(faults, fs, ts, updates, 1) == Replacing(moved.fs, 1, true);
  }

  lemma {:induction false} RemovalNotUndone(faults: Faults, fs: Fs, ts: seq<Target>, rollbacks: seq<Option<Path>>)
    requires |ts| == |rollbacks| == 2 && rollbacks[0] == None && faults(fs.tried)
    ensures var back := RollBack(faults, fs, ts, rollbacks, 1);
            !back.ok && back.fs == fs.(tried := fs.tried + 1)
  {
    assert RollBack(faults, fs.(tried := fs.tried + 1), ts, rollbacks, 0) == Tried(fs.(tried := fs.tried + 1), true);
  }

  /**
   A worse one: the second replacement fails, undoing the first fails too, and then the first removal.
   The caller sees the clean-up exception only; one file is new and the other is missing.
   */
  lemma HalfWrittenYetHidden(fs: Fs, a: Target, b: Target)
    requires Valid(fs) && a.name != b.name && At(fs, a.name).None? && At(fs, b.name).None? && fs.tried == 0
    ensures var w := Write((i: nat) => i == 9 || i == 10 || i == 11, fs, [a, b], false);
            && Reported(w).CleanupError? && w.outcome.Incomplete?
            && At(w.fs, a.name) == Some(a.content) && At(w.fs, b.name).None?
  {
    hide StageOne, CleanUp, ReplaceAll, RollBack, NeverTorn;
    var faults: Faults := (i: nat) => i == 9 || i == 10 || i == 11;
    var ts := [a, b];
    var s0 := Staging(fs, [], [], true);
    AbsentStaged(faults, s0, a);
    var s1 := StageOne(faults, s0, a, false);
    assert At(s1.fs, b.name).None?;
    AbsentStaged(faults, s1, b);
    var s := StageOne(faults, s1, b, false);
    assert StageAll(faults, fs, ts, false, 1) == s1;
    assert StageAll(faults, fs, ts, false, 2) == s;
    OnlyFirstReplaced(faults, s.fs, ts, s.updates);
    var r := ReplaceAll(faults, s.fs, ts, s.updates, 2);
    RemovalNotUndone(faults, r.fs, ts, s.rollbacks);
    var after := RollBack(faults, r.fs, ts, s.rollbacks, 1).fs;
    FirstRemovalFails(faults, after, Temps(s));
    assert Temps(s)[0].Temp?;
    StagingIsSound(faults, fs, ts, false, 2);
    ToRemove(fs, s, ts);
    CleaningUp(faults, after, Temps(s));
    assert At(after, a.name) == Some(a.content) && At(after, b.name).None?;
  }

  lemma FirstRemovalFails(faults: Faults, fs: Fs, temps: seq<Path>)
    requires temps != [] && faults(fs.tried)
    ensures !CleanUp(faults, fs, temps).ok
  {
  }
}
