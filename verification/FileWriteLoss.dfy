/** What an incomplete rollback costs: the clean-up deletes the copy that could not be put back. */
module FileWriteLoss {
  import opened Wrappers
  import opened FileWrite
  import opened FileWriteGuarantees
  import opened FileWriteAtomicity

  /** Neither the named file nor any temporary one beside it has changed. */
  ghost predicate Untouched(fs: Fs, fs': Fs, name: string) {
    forall p: Path | p.name == name :: Lookup(fs', p) == Lookup(fs, p)
  }

  /** The staged rollbacks are beside their targets. */
  predicate Beside(ts: seq<Target>, rollbacks: seq<Option<Path>>)
    requires |ts| == |rollbacks|
  {
    forall i | 0 <= i < |ts| :: rollbacks[i].Some? ==> rollbacks[i].value.name == ts[i].name
  }

  lemma RestoreTouches(faults: Faults, fs: Fs, t: Target, rollback: Option<Path>, name: string)
    requires rollback.Some? ==> rollback.value.name == t.name
    ensures var one := Restore(faults, fs, t, rollback); name != t.name || !one.ok ==> Untouched(fs, one.fs, name)
  {
  }

  lemma UntouchedLater(fs: Fs, mid: Fs, fs': Fs, name: string)
    requires Untouched(fs, mid, name) && Untouched(mid, fs', name)
    ensures Untouched(fs, fs', name)
  {
    forall p: Path | p.name == name ensures Lookup(fs', p) == Lookup(fs, p) {
      assert Lookup(mid, p) == Lookup(fs, p);
    }
  }

  lemma {:induction false} RollBackTouches(faults: Faults, fs: Fs, ts: seq<Target>, rollbacks: seq<Option<Path>>, n: nat,
                                           name: string)
    requires n <= |ts| == |rollbacks| && Beside(ts, rollbacks) && !Among(ts, n, name)
    ensures Untouched(fs, RollBack(faults, fs, ts, rollbacks, n).fs, name)
    decreases n
  {
    hide Restore, Untouched;
    if n == 0 {
      UntouchedByNothing(fs, name);
    } else {
      var one := Restore(faults, fs, ts[n - 1], rollbacks[n - 1]);
      RestoreTouches(faults, fs, ts[n - 1], rollbacks[n - 1], name);
      RollBackTouches(faults, one.fs, ts, rollbacks, n - 1, name);
      UntouchedLater(fs, one.fs, RollBack(faults, one.fs, ts, rollbacks, n - 1).fs, name);
    }
  }

  lemma UntouchedByNothing(fs: Fs, name: string)
    ensures Untouched(fs, fs, name)
  {
  }

  /** When undoing is incomplete, some target has not been touched by it, and neither has its staged rollback. */
  lemma {:induction false} SomeTargetIsStuck(faults: Faults, fs: Fs, ts: seq<Target>, rollbacks: seq<Option<Path>>, n: nat)
    returns (i: nat)
    requires Distinct(ts) && n <= |ts| == |rollbacks| && Beside(ts, rollbacks)
    requires !RollBack(faults, fs, ts, rollbacks, n).ok
    ensures i < n && Untouched(fs, RollBack(faults, fs, ts, rollbacks, n).fs, ts[i].name)
    decreases n
  {
    hide Restore, Untouched;
    var one := Restore(faults, fs, ts[n - 1], rollbacks[n - 1]);
    var rest := RollBack(faults, one.fs, ts, rollbacks, n - 1);
    if !one.ok {
      i := n - 1;
      RollBackTouches(faults, one.fs, ts, rollbacks, n - 1, ts[i].name);
    } else {
      i := SomeTargetIsStuck(faults, one.fs, ts, rollbacks, n - 1);
    }
    RestoreTouches(faults, fs, ts[n - 1], rollbacks[n - 1], ts[i].name);
    UntouchedLater(fs, one.fs, rest.fs, ts[i].name);
  }

  lemma StagedBeside(original: Fs, s: Staging, ts: seq<Target>)
    requires StagedFrom(original, s, ts) && |s.updates| == |ts| == |s.rollbacks|
    ensures Beside(ts, s.rollbacks)
  {
    forall i | 0 <= i < |ts| ensures s.rollbacks[i].Some? ==> s.rollbacks[i].value.name == ts[i].name {
      assert GoodRollback(original, s.fs, ts[i], s.rollbacks[i]);
    }
  }

  /** Before the clean-up this target is new, and its old content, if it had any, is staged as `rollback`. */
  predicate Stuck(original: Fs, fs: Fs, t: Target, rollback: Option<Path>) {
    && At(fs, t.name) == Some(t.content)
    && (At(original, t.name).Some? ==> rollback.Some? && rollback.value.Temp? && Lookup(fs, rollback.value) == At(original, t.name))
  }

  lemma StuckBefore(original: Fs, fs: Fs, fs': Fs, ts: seq<Target>, rollbacks: seq<Option<Path>>, n: nat, i: nat)
    requires i < n <= |ts| == |rollbacks| && Replaced(original, fs, ts, n)
    requires RollbacksReady(original, fs, ts, rollbacks, |ts|) && Untouched(fs, fs', ts[i].name)
    ensures Stuck(original, fs', ts[i], rollbacks[i])
  {
    assert Lookup(fs', Named(ts[i].name)) == Lookup(fs, Named(ts[i].name));
  }

  lemma IncompleteIsStuck(faults: Faults, original: Fs, ts: seq<Target>, mustExist: bool) returns (i: nat)
    requires Valid(original) && Distinct(ts)
    requires Update(faults, StageAll(faults, original, ts, mustExist, |ts|), ts).1.Incomplete?
    ensures var s := StageAll(faults, original, ts, mustExist, |ts|);
            && s.ok && i < |ts| == |s.rollbacks|
            && Stuck(original, Update(faults, s, ts).0, ts[i], s.rollbacks[i])
  {
    hide StagedFrom, StageAll, ReplaceAll, RollBack, Replaced, UpdatesReady, RollbacksReady, KeepsOld, Stuck, Untouched, Beside;
    StagingIsSound(faults, original, ts, mustExist, |ts|);
    var s := StageAll(faults, original, ts, mustExist, |ts|);
    StagedLooksTheSame(original, s, ts);
    StagedIsReady(original, s, ts);
    StagedBeside(original, s, ts);
    ReplacingIsSound(faults, original, s.fs, ts, s.updates, s.rollbacks, |ts|);
    var r := ReplaceAll(faults, s.fs, ts, s.updates, |ts|);
    i := SomeTargetIsStuck(faults, r.fs, ts, s.rollbacks, r.replaced);
    StuckBefore(original, r.fs, Update(faults, s, ts).0, ts, s.rollbacks, r.replaced, i);
  }

  /**
   After an incomplete rollback that is cleaned up, some target is left new. Its old content was still
   staged when the clean-up began, and the clean-up has deleted it; no other temporary file is left that
   was not there before, unless a removal while staging failed.
   */
  lemma LastCopyIsDeleted(faults: Faults, fs: Fs, ts: seq<Target>, mustExist: bool)
    requires Valid(fs) && Distinct(ts)
    requires var w := Write(faults, fs, ts, mustExist); w.outcome.Incomplete? && w.cleaned
    ensures var w := Write(faults, fs, ts, mustExist);
            var s := StageAll(faults, fs, ts, mustExist, |ts|);
            && |s.rollbacks| == |ts|
            && (exists i | 0 <= i < |ts| ::
                  && Stuck(fs, Update(faults, s, ts).0, ts[i], s.rollbacks[i])
                  && At(w.fs, ts[i].name) == Some(ts[i].content)
                  && (s.rollbacks[i].Some? ==> s.rollbacks[i].value !in w.fs.files))
            && (!w.fs.leaked ==> forall p: Path | p.Temp? :: Lookup(w.fs, p) == Lookup(fs, p))
  {
    hide StagedFrom, StageAll, Update, CleanUp, Distinct;
    var i := IncompleteIsStuck(faults, fs, ts, mustExist);
    StagingIsSound(faults, fs, ts, mustExist, |ts|);
    var s := StageAll(faults, fs, ts, mustExist, |ts|);
    var w := Write(faults, fs, ts, mustExist);
    ToRemove(fs, s, ts);
    CleaningUp(faults, Update(faults, s, ts).0, s.updates + Present(s.rollbacks));
    assert s.rollbacks[i].Some? ==> Listed(s, s.rollbacks[i].value);
    assert At(w.fs, ts[i].name) == Some(ts[i].content);
    if !w.fs.leaked {
      forall p: Path | p.Temp? ensures Lookup(w.fs, p) == Lookup(fs, p) {
        NothingLeftBehind(faults, fs, ts, mustExist, p);
      }
    }
  }

  // ---------------------------------------------------------------- it happens

  lemma PresentStaged(faults: Faults, s: Staging, t: Target)
    requires s.ok && At(s.fs, t.name).Some? && forall i | s.fs.tried <= i < s.fs.tried + 7 :: !faults(i)
    ensures var p, q := Temp(t.name, false, s.fs.nonce), Temp(t.name, true, s.fs.nonce + 1);
            var files := s.fs.files[p := t.content][q := s.fs.files[Named(t.name)]];
            StageOne(faults, s, t, false) ==
            Staging(s.fs.(tried := s.fs.tried + 7, nonce := s.fs.nonce + 2, files := files),
                    s.updates + [p], s.rollbacks + [Some(q)], true)
  {
    var p, q := Temp(t.name, false, s.fs.nonce), Temp(t.name, true, s.fs.nonce + 1);
    var staged := Stage(faults, s.fs.(tried := s.fs.tried + 1), t.name, false, t.content);
    assert staged.fs.files == s.fs.files[p := t.content];
    assert At(staged.fs, t.name) == At(s.fs, t.name);
    var files := s.fs.files[p := t.content];
    assert files[q := ""][q := s.fs.files[Named(t.name)]] == files[q := s.fs.files[Named(t.name)]];
  }

  lemma {:induction false} RestoreFails(faults: Faults, fs: Fs, ts: seq<Target>, rollbacks: seq<Option<Path>>)
    requires |ts| == |rollbacks| == 2 && faults(fs.tried)
    ensures RollBack(faults, fs, ts, rollbacks, 1) == Tried(fs.(tried := fs.tried + 1), false)
  {
    var after := fs.(tried := fs.tried + 1);
    assert RollBack(faults, after, ts, rollbacks, 0) == Tried(after, true);
  }

  /**
   The second replacement fails and so does putting the first file back: the caller is told of an
   incomplete rollback, one file is new, the other still missing, and the old content is gone.
   */
  lemma OldContentIsGone(fs: Fs, a: Target, b: Target)
    requires Valid(fs) && !fs.leaked && fs.tried == 0
    requires a.name != b.name && At(fs, a.name).Some? && At(fs, b.name).None?
    ensures var w := Write((i: nat) => i == 12 || i == 13, fs, [a, b], false);
            && Reported(w).RollbackIncomplete?
            && At(w.fs, a.name) == Some(a.content) && At(w.fs, b.name).None?
            && forall p: Path | p.Temp? :: Lookup(w.fs, p) == Lookup(fs, p)
  {
    hide StageOne, CleanUp, ReplaceAll, RollBack, NeverTorn, StagedFrom, Listed;
    var faults: Faults := (i: nat) => i == 12 || i == 13;
    var ts := [a, b];
    var s0 := Staging(fs, [], [], true);
    PresentStaged(faults, s0, a);
    var s1 := StageOne(faults, s0, a, false);
    assert At(s1.fs, b.name).None?;
    AbsentStaged(faults, s1, b);
    var s := StageOne(faults, s1, b, false);
    assert StageAll(faults, fs, ts, false, 1) == s1;
    assert StageAll(faults, fs, ts, false, 2) == s;
    OnlyFirstReplaced(faults, s.fs, ts, s.updates);
    var r := ReplaceAll(faults, s.fs, ts, s.updates, 2);
    RestoreFails(faults, r.fs, ts, s.rollbacks);
    var after := RollBack(faults, r.fs, ts, s.rollbacks, 1).fs;
    assert after.tried == 14 && !FaultWithin(faults, 14, 14 + |Temps(s)|);
    CleanUpFailsIff(faults, after, Temps(s));
    StagingIsSound(faults, fs, ts, false, 2);
    ToRemove(fs, s, ts);
    CleaningUp(faults, after, Temps(s));
    assert At(after, a.name) == Some(a.content) && At(after, b.name).None?;
    forall p: Path | p.Temp?
      ensures Lookup(Write(faults, fs, ts, false).fs, p) == Lookup(fs, p)
    {
      NothingLeftBehind(faults, fs, ts, false, p);
    }
  }
}
