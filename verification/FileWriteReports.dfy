/** No failing operation is passed over: a write returns normally exactly when every operation it tried has worked. */
module FileWriteReports {
  import opened Wrappers
  import opened FileWrite
  import opened FileWriteGuarantees
  import opened FileWriteAtomicity

  /** Every operation tried from `from` up to `to` has worked. */
  predicate AllWorked(faults: Faults, from: nat, to: nat) { from <= to && forall j: nat | from <= j < to :: !faults(j) }

  lemma StageTries(faults: Faults, fs: Fs, name: string, rollback: bool, content: string)
    ensures var s := Stage(faults, fs, name, rollback, content);
            fs.tried <= s.fs.tried && (s.path.Some? <==> AllWorked(faults, fs.tried, s.fs.tried))
  {
  }

  lemma Joined(faults: Faults, a: nat, b: nat, c: nat)
    requires a <= b <= c
    ensures AllWorked(faults, a, c) <==> AllWorked(faults, a, b) && AllWorked(faults, b, c)
  {
  }

  lemma StageRollbackTries(faults: Faults, s: Staging, t: Target, mustExist: bool)
    requires s.ok
    ensures var r := StageRollback(faults, s, t, mustExist);
            && s.fs.tried <= r.fs.tried
            && (r.ok <==> AllWorked(faults, s.fs.tried, r.fs.tried) && (mustExist ==> At(s.fs, t.name).Some?))
  {
    hide Stage;
    var looked := if mustExist then Tried(s.fs, true) else Attempt(faults, s.fs);
    var read := Attempt(faults, looked.fs);
    if At(looked.fs, t.name).Some? {
      StageTries(faults, read.fs, t.name, true, At(read.fs, t.name).value);
    }
  }

  lemma StageOneTries(faults: Faults, s: Staging, t: Target, mustExist: bool)
    requires s.ok
    ensures var r := StageOne(faults, s, t, mustExist);
            && s.fs.tried <= r.fs.tried
            && (r.ok <==> AllWorked(faults, s.fs.tried, r.fs.tried) && (mustExist ==> At(s.fs, t.name).Some?))
  {
    hide Stage, StageRollback;
    var ready := if mustExist then Tried(s.fs, true) else Attempt(faults, s.fs);
    StageTries(faults, ready.fs, t.name, false, t.content);
    var staged := Stage(faults, ready.fs, t.name, false, t.content);
    StageKeepsNamed(faults, ready.fs, t.name, false, t.content, t.name);
    if ready.ok && staged.path.Some? {
      StageRollbackTries(faults, s.(fs := staged.fs, updates := s.updates + [staged.path.value]), t, mustExist);
    }
  }

  lemma StageKeepsNamed(faults: Faults, fs: Fs, name: string, rollback: bool, content: string, other: string)
    ensures At(Stage(faults, fs, name, rollback, content).fs, other) == At(fs, other)
  {
  }

  predicate AllThere(fs: Fs, ts: seq<Target>, n: nat)
    requires n <= |ts|
  {
    forall i | 0 <= i < n :: At(fs, ts[i].name).Some?
  }

  lemma {:induction false} StageAllTries(faults: Faults, fs: Fs, ts: seq<Target>, mustExist: bool, n: nat)
    requires Valid(fs) && n <= |ts|
    ensures var s := StageAll(faults, fs, ts, mustExist, n);
            && fs.tried <= s.fs.tried
            && (s.ok ==> AllWorked(faults, fs.tried, s.fs.tried) && (mustExist ==> AllThere(fs, ts, n)))
            && (!s.ok ==> !AllWorked(faults, fs.tried, s.fs.tried) || (mustExist && !AllThere(fs, ts, n)))
  {
    hide StageOne, StagedFrom, KeepsOld;
    if n > 0 {
      StageAllTries(faults, fs, ts, mustExist, n - 1);
      var s := StageAll(faults, fs, ts, mustExist, n - 1);
      StagingIsSound(faults, fs, ts, mustExist, n - 1);
      StagedLooksTheSame(fs, s, ts);
      if s.ok {
        StageOneTries(faults, s, ts[n - 1], mustExist);
        Joined(faults, fs.tried, s.fs.tried, StageOne(faults, s, ts[n - 1], mustExist).fs.tried);
      }
    }
  }

  lemma {:induction false} ReplaceAllTries(faults: Faults, fs: Fs, ts: seq<Target>, updates: seq<Path>, n: nat)
    requires n <= |ts| && |updates| == |ts|
    ensures var r := ReplaceAll(faults, fs, ts, updates, n);
            fs.tried <= r.fs.tried && (r.ok ==> AllWorked(faults, fs.tried, r.fs.tried))
  {
    if n > 0 {
      ReplaceAllTries(faults, fs, ts, updates, n - 1);
    }
  }

  lemma {:induction false} CleanUpTries(faults: Faults, fs: Fs, temps: seq<Path>)
    ensures var c := CleanUp(faults, fs, temps);
            fs.tried <= c.fs.tried && (c.ok <==> AllWorked(faults, fs.tried, c.fs.tried))
    decreases |temps|
  {
    if temps != [] {
      CleanUpTries(faults, UnlinkTemp(faults, fs, temps[0]).fs, temps[1..]);
    }
  }

  lemma {:induction false} RollBackTries(faults: Faults, fs: Fs, ts: seq<Target>, rollbacks: seq<Option<Path>>, n: nat)
    requires n <= |ts| && n <= |rollbacks|
    ensures fs.tried <= RollBack(faults, fs, ts, rollbacks, n).fs.tried
    decreases n
  {
    if n > 0 {
      RollBackTries(faults, Restore(faults, fs, ts[n - 1], rollbacks[n - 1]).fs, ts, rollbacks, n - 1);
    }
  }

  lemma UpdateTries(faults: Faults, fs: Fs, ts: seq<Target>, mustExist: bool)
    requires Valid(fs) && Distinct(ts)
    ensures var s := StageAll(faults, fs, ts, mustExist, |ts|);
            var u := Update(faults, s, ts);
            && fs.tried <= u.0.tried
            && (u.1.Done? ==> AllWorked(faults, fs.tried, u.0.tried) && (mustExist ==> AllThere(fs, ts, |ts|)))
            && (!u.1.Done? ==> !AllWorked(faults, fs.tried, u.0.tried) || (mustExist && !AllThere(fs, ts, |ts|)))
  {
    hide StageAll, ReplaceAll, RollBack, StagedFrom, UpdatesReady, RollbacksReady, Replaced, KeepsOld, AllThere;
    StageAllTries(faults, fs, ts, mustExist, |ts|);
    StagingIsSound(faults, fs, ts, mustExist, |ts|);
    var s := StageAll(faults, fs, ts, mustExist, |ts|);
    if s.ok {
      StagedLooksTheSame(fs, s, ts);
      StagedIsReady(fs, s, ts);
      ReplaceAllTries(faults, s.fs, ts, s.updates, |ts|);
      ReplacingIsSound(faults, fs, s.fs, ts, s.updates, s.rollbacks, |ts|);
      var r := ReplaceAll(faults, s.fs, ts, s.updates, |ts|);
      Joined(faults, fs.tried, s.fs.tried, r.fs.tried);
      if !r.ok {
        RollBackTries(faults, r.fs, ts, s.rollbacks, r.replaced);
      }
    }
  }

  /**
   A write returns normally if and only if every operation it tried has worked, and every target that has
   to be there was: one failing operation, wherever it is, is always reported.
   */
  lemma ReturnsIff(faults: Faults, fs: Fs, ts: seq<Target>, mustExist: bool)
    requires Valid(fs) && Distinct(ts)
    ensures var w := Write(faults, fs, ts, mustExist);
            Reported(w).Returned? <==>
            AllWorked(faults, fs.tried, w.fs.tried) && (mustExist ==> forall i | 0 <= i < |ts| :: At(fs, ts[i].name).Some?)
  {
    hide StageAll, Update, CleanUp;
    UpdateTries(faults, fs, ts, mustExist);
    var s := StageAll(faults, fs, ts, mustExist, |ts|);
    var u := Update(faults, s, ts);
    CleanUpTries(faults, u.0, Temps(s));
    Joined(faults, fs.tried, u.0.tried, CleanUp(faults, u.0, Temps(s)).fs.tried);
  }
}
