/** All or nothing, never torn, nothing left behind. */
module FileWriteGuarantees {
  import opened Wrappers
  import opened FileWrite

  function Lookup(fs: Fs, p: Path): Option<string> { if p in fs.files then Some(fs.files[p]) else None }

  // ---------------------------------------------------------------- staging

  /** New temporary files have appeared, and nothing else has changed. */
  ghost predicate Grown(fs: Fs, fs': Fs) {
    && Valid(fs') && fs.nonce <= fs'.nonce && (fs.leaked ==> fs'.leaked)
    && (forall p <- fs.files :: p in fs'.files && fs'.files[p] == fs.files[p])
    && (forall p <- fs'.files :: p.Named? ==> p in fs.files)
  }

  lemma StageGrows(faults: Faults, fs: Fs, name: string, rollback: bool, content: string)
    requires Valid(fs)
    ensures var s := Stage(faults, fs, name, rollback, content);
            && Grown(fs, s.fs)
            && (s.path.Some? ==> var p := s.path.value;
                  && p.Temp? && p.name == name && p.rollback == rollback && p !in fs.files
                  && s.fs.files == fs.files[p := content] && s.fs.leaked == fs.leaked)
            && (s.path.None? ==> s.fs.leaked || s.fs.files == fs.files)
  {
  }

  /** The file under `p` is one of those on the list to be removed. */
  predicate Listed(s: Staging, p: Path) { p in s.updates || Some(p) in s.rollbacks }

  /** An update is staged for the `i`-th target. */
  predicate GoodUpdate(fs: Fs, fs': Fs, t: Target, p: Path) {
    p.Temp? && p.name == t.name && !p.rollback && p !in fs.files && Lookup(fs', p) == Some(t.content)
  }

  /** Its old content is staged too, if it had any. */
  predicate GoodRollback(fs: Fs, fs': Fs, t: Target, r: Option<Path>) {
    match r
    case None => At(fs, t.name).None?
    case Some(p) => p.Temp? && p.name == t.name && p.rollback && p !in fs.files && At(fs, t.name).Some? &&
                    Lookup(fs', p) == At(fs, t.name)
  }

  /** What staging has made of `fs`. */
  ghost predicate StagedFrom(fs: Fs, s: Staging, ts: seq<Target>) {
    && Grown(fs, s.fs)
    && |s.rollbacks| <= |s.updates| <= |ts|
    && (forall i | 0 <= i < |s.updates| :: GoodUpdate(fs, s.fs, ts[i], s.updates[i]))
    && (forall i | 0 <= i < |s.rollbacks| :: GoodRollback(fs, s.fs, ts[i], s.rollbacks[i]))
    && (!s.fs.leaked ==> forall p <- s.fs.files :: p in fs.files || Listed(s, p))
  }

  lemma StagedLater(fs: Fs, s: Staging, s': Staging, ts: seq<Target>)
    requires StagedFrom(fs, s, ts) && Grown(s.fs, s'.fs)
    requires s.updates <= s'.updates && s.rollbacks <= s'.rollbacks
    ensures Grown(fs, s'.fs)
    ensures forall i | 0 <= i < |s.updates| :: GoodUpdate(fs, s'.fs, ts[i], s'.updates[i])
    ensures forall i | 0 <= i < |s.rollbacks| :: GoodRollback(fs, s'.fs, ts[i], s'.rollbacks[i])
    ensures !s'.fs.leaked && s'.fs.files == s.fs.files ==> forall p <- s'.fs.files :: p in fs.files || Listed(s', p)
  {
    forall i | 0 <= i < |s.updates| ensures GoodUpdate(fs, s'.fs, ts[i], s'.updates[i]) {
      assert GoodUpdate(fs, s.fs, ts[i], s.updates[i]);
    }
    forall i | 0 <= i < |s.rollbacks| ensures GoodRollback(fs, s'.fs, ts[i], s'.rollbacks[i]) {
      assert GoodRollback(fs, s.fs, ts[i], s.rollbacks[i]);
    }
    forall p | p in s.fs.files && Listed(s, p) ensures Listed(s', p) {
      if p in s.updates {
        var i :| 0 <= i < |s.updates| && s.updates[i] == p;
        assert s'.updates[i] == p;
      } else {
        var i :| 0 <= i < |s.rollbacks| && s.rollbacks[i] == Some(p);
        assert s'.rollbacks[i] == Some(p);
      }
    }
  }

  /** Nothing but the count of operations has changed. */
  predicate SameFiles(fs: Fs, fs': Fs) { fs' == fs.(tried := fs'.tried) }

  lemma StillStaged(fs: Fs, s: Staging, fs': Fs, ok: bool, ts: seq<Target>)
    requires StagedFrom(fs, s, ts) && SameFiles(s.fs, fs')
    ensures StagedFrom(fs, s.(fs := fs', ok := ok), ts)
  {
    StagedLater(fs, s, s.(fs := fs', ok := ok), ts);
  }

  /** A failed attempt to stage one more leaves what was staged as it was. */
  lemma StageFailed(faults: Faults, fs: Fs, s: Staging, ts: seq<Target>, name: string, rollback: bool, content: string)
    requires StagedFrom(fs, s, ts)
    ensures var staged := Stage(faults, s.fs, name, rollback, content);
            staged.path.None? ==> StagedFrom(fs, s.(fs := staged.fs, ok := false), ts)
  {
    hide Stage;
    StageGrows(faults, s.fs, name, rollback, content);
    var staged := Stage(faults, s.fs, name, rollback, content);
    if staged.path.None? {
      StagedLater(fs, s, s.(fs := staged.fs, ok := false), ts);
    }
  }

  lemma UpdateStaged(faults: Faults, fs: Fs, s: Staging, ts: seq<Target>)
    requires StagedFrom(fs, s, ts) && |s.rollbacks| == |s.updates| < |ts|
    ensures var t := ts[|s.updates|];
            var staged := Stage(faults, s.fs, t.name, false, t.content);
            staged.path.Some? ==> StagedFrom(fs, s.(fs := staged.fs, updates := s.updates + [staged.path.value]), ts)
  {
    hide Stage;
    var n := |s.updates|;
    var t := ts[n];
    StageGrows(faults, s.fs, t.name, false, t.content);
    var staged := Stage(faults, s.fs, t.name, false, t.content);
    if staged.path.Some? {
      var s' := s.(fs := staged.fs, updates := s.updates + [staged.path.value]);
      StagedLater(fs, s, s', ts);
      assert GoodUpdate(fs, s'.fs, t, s'.updates[n]);
      ListedWithOneMore(fs, s, s', staged.path.value);
    }
  }

  lemma RollbackStaged(faults: Faults, fs: Fs, s: Staging, ts: seq<Target>)
    requires StagedFrom(fs, s, ts) && |s.rollbacks| < |s.updates|
    requires At(s.fs, ts[|s.rollbacks|].name).Some?
    ensures var t := ts[|s.rollbacks|];
            var staged := Stage(faults, s.fs, t.name, true, At(s.fs, t.name).value);
            staged.path.Some? ==> StagedFrom(fs, s.(fs := staged.fs, rollbacks := s.rollbacks + [staged.path]), ts)
  {
    hide Stage;
    var n := |s.rollbacks|;
    var t := ts[n];
    StageGrows(faults, s.fs, t.name, true, At(s.fs, t.name).value);
    var staged := Stage(faults, s.fs, t.name, true, At(s.fs, t.name).value);
    if staged.path.Some? {
      var s' := s.(fs := staged.fs, rollbacks := s.rollbacks + [staged.path]);
      StagedLater(fs, s, s', ts);
      assert GoodRollback(fs, s'.fs, t, s'.rollbacks[n]);
      ListedWithOneMore(fs, s, s', staged.path.value);
    }
  }

  lemma AbsenceStaged(fs: Fs, s: Staging, fs': Fs, ts: seq<Target>)
    requires StagedFrom(fs, s, ts) && |s.rollbacks| < |s.updates| && SameFiles(s.fs, fs')
    requires At(s.fs, ts[|s.rollbacks|].name).None?
    ensures StagedFrom(fs, s.(fs := fs', rollbacks := s.rollbacks + [None]), ts)
  {
    var n := |s.rollbacks|;
    var s' := s.(fs := fs', rollbacks := s.rollbacks + [None]);
    StagedLater(fs, s, s', ts);
    assert At(fs, ts[n].name).None?;
    assert GoodRollback(fs, s'.fs, ts[n], s'.rollbacks[n]);
  }

  lemma ListedWithOneMore(fs: Fs, s: Staging, s': Staging, p: Path)
    requires !s.fs.leaked ==> forall q <- s.fs.files :: q in fs.files || Listed(s, q)
    requires s.fs.leaked == s'.fs.leaked && s'.fs.files.Keys == s.fs.files.Keys + {p}
    requires s.updates <= s'.updates && s.rollbacks <= s'.rollbacks
    requires (s'.updates == s.updates + [p]) || (s'.rollbacks == s.rollbacks + [Some(p)])
    ensures !s'.fs.leaked ==> forall q <- s'.fs.files :: q in fs.files || Listed(s', q)
  {
    if !s'.fs.leaked {
      forall q <- s'.fs.files ensures q in fs.files || Listed(s', q) {
        if q == p {
          if s'.updates == s.updates + [p] {
            assert s'.updates[|s.updates|] == p;
          } else {
            assert s'.rollbacks[|s.rollbacks|] == Some(p);
          }
        } else if q !in fs.files {
          assert Listed(s, q);
          if q in s.updates {
            var i :| 0 <= i < |s.updates| && s.updates[i] == q;
            assert s'.updates[i] == q;
          } else {
            var i :| 0 <= i < |s.rollbacks| && s.rollbacks[i] == Some(q);
            assert s'.rollbacks[i] == Some(q);
          }
        }
      }
    }
  }

  lemma StageRollbackKeeps(faults: Faults, fs: Fs, s: Staging, ts: seq<Target>, mustExist: bool)
    requires StagedFrom(fs, s, ts) && |s.rollbacks| < |s.updates| && s.ok
    ensures StagedFrom(fs, StageRollback(faults, s, ts[|s.rollbacks|], mustExist), ts)
  {
    hide Stage, StagedFrom;
    assert |s.rollbacks| < |ts| by { StagedBounds(fs, s, ts); }
    var t := ts[|s.rollbacks|];
    var looked := if mustExist then Tried(s.fs, true) else Attempt(faults, s.fs);
    StillStaged(fs, s, looked.fs, false, ts);
    StillStaged(fs, s, Attempt(faults, looked.fs).fs, false, ts);
    if At(s.fs, t.name).None? {
      AbsenceStaged(fs, s, looked.fs, ts);
    } else {
      var read := s.(fs := Attempt(faults, looked.fs).fs);
      StillStaged(fs, s, read.fs, s.ok, ts);
      StageFailed(faults, fs, read, ts, t.name, true, At(read.fs, t.name).value);
      RollbackStaged(faults, fs, read, ts);
    }
  }

  lemma StagedBounds(fs: Fs, s: Staging, ts: seq<Target>)
    requires StagedFrom(fs, s, ts)
    ensures |s.rollbacks| <= |s.updates| <= |ts|
  {
  }

  lemma StageOneKeeps(faults: Faults, fs: Fs, s: Staging, ts: seq<Target>, mustExist: bool)
    requires StagedFrom(fs, s, ts) && |s.rollbacks| == |s.updates| < |ts| && s.ok
    ensures StagedFrom(fs, StageOne(faults, s, ts[|s.updates|], mustExist), ts)
  {
    hide Stage, StageRollback, StagedFrom;
    var t := ts[|s.updates|];
    var ready := if mustExist then Tried(s.fs, true) else Attempt(faults, s.fs);
    StillStaged(fs, s, ready.fs, false, ts);
    StillStaged(fs, s, ready.fs, s.ok, ts);
    var s1 := s.(fs := ready.fs);
    StageFailed(faults, fs, s1, ts, t.name, false, t.content);
    UpdateStaged(faults, fs, s1, ts);
    var staged := Stage(faults, ready.fs, t.name, false, t.content);
    if staged.path.Some? {
      StageRollbackKeeps(faults, fs, s1.(fs := staged.fs, updates := s.updates + [staged.path.value]), ts, mustExist);
    }
  }

  lemma {:induction false} StagingIsSound(faults: Faults, fs: Fs, ts: seq<Target>, mustExist: bool, n: nat)
    requires Valid(fs) && n <= |ts|
    ensures StagedFrom(fs, StageAll(faults, fs, ts, mustExist, n), ts)
  {
    hide StageOne, StagedFrom;
    if n == 0 {
      NothingStaged(fs, ts);
    } else {
      StagingIsSound(faults, fs, ts, mustExist, n - 1);
      var s := StageAll(faults, fs, ts, mustExist, n - 1);
      if s.ok {
        StageOneKeeps(faults, fs, s, ts, mustExist);
      }
    }
  }

  lemma NothingStaged(fs: Fs, ts: seq<Target>)
    requires Valid(fs)
    ensures StagedFrom(fs, Staging(fs, [], [], true), ts)
  {
  }
}
