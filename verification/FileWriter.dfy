/** The update plan's `write` as loops over files on a disk, refining the write on values. */
module FileWriter {
  import opened Wrappers
  import opened FileWrite

  class Disk {
    const faults: Faults
    var files: map<Path, string>
    var tried: nat
    var nonce: nat
    ghost var leaked: bool

    constructor (faults: Faults, files: map<Path, string>, nonce: nat)
      requires forall p <- files :: p.Temp? ==> p.nonce < nonce
      ensures this.faults == faults && Value() == Fs(files, 0, nonce, false) && Valid(Value())
    {
      this.faults, this.files, this.tried, this.nonce, this.leaked := faults, files, 0, nonce, false;
    }

    ghost function Value(): Fs
      reads this
    {
      Fs(files, tried, nonce, leaked)
    }

    method TryOne() returns (ok: bool)
      modifies this`tried
      ensures Tried(Value(), ok) == Attempt(faults, old(Value()))
    {
      ok := !faults(tried);
      tried := tried + 1;
    }

    method UnlinkFile(p: Path) returns (ok: bool)
      modifies this`tried, this`files
      ensures Tried(Value(), ok) == Unlink(faults, old(Value()), p)
    {
      ok := TryOne();
      if ok {
        files := files - {p};
      }
    }

    method RemoveTemp(p: Path) returns (ok: bool)
      modifies this
      ensures Tried(Value(), ok) == UnlinkTemp(faults, old(Value()), p)
    {
      ok := UnlinkFile(p);
      leaked := leaked || !ok;
    }

    method ReplaceFile(source: Path, to: Path) returns (ok: bool)
      modifies this`tried, this`files
      ensures Tried(Value(), ok) == Replace(faults, old(Value()), source, to)
    {
      ok := TryOne();
      if ok && source in files {
        files := (files - {source})[to := files[source]];
      } else {
        ok := false;
      }
    }

    /** A temporary file beside the target, removed again if it cannot be written. */
    method StageBytes(name: string, content: string, rollback: bool) returns (path: Option<Path>)
      modifies this
      ensures Staged(Value(), path) == Stage(faults, old(Value()), name, rollback, content)
    {
      var ok := TryOne();
      if !ok {
        return None;
      }
      var p := Temp(name, rollback, nonce);
      nonce := nonce + 1;
      ghost var before := files;
      files := files[p := ""];
      ok := TryOne();
      if !ok {
        var _ := RemoveTemp(p);
        return None;
      }
      files := files[p := content];
      assert files == before[p := content];
      path := Some(p);
    }
  }

  /** Stage one target's update, and the rollback of the file it will replace. */
  method StageTarget(disk: Disk, t: Target, mustExist: bool, updates: seq<Path>, rollbacks: seq<Option<Path>>)
    returns (updates': seq<Path>, rollbacks': seq<Option<Path>>, ok: bool)
    modifies disk
    ensures Staging(disk.Value(), updates', rollbacks', ok) ==
            StageOne(disk.faults, Staging(old(disk.Value()), updates, rollbacks, true), t, mustExist)
  {
    hide Stage;
    updates', rollbacks', ok := updates, rollbacks, true;
    if !mustExist {
      ok := disk.TryOne();
      if !ok {
        return;
      }
    }
    var update := disk.StageBytes(t.name, t.content, false);
    if update.None? {
      ok := false;
      return;
    }
    updates' := updates + [update.value];
    if !mustExist {
      ok := disk.TryOne();
      if !ok {
        return;
      }
      if Named(t.name) !in disk.files {
        rollbacks' := rollbacks + [None];
        return;
      }
    }
    ok := disk.TryOne();
    if !ok || Named(t.name) !in disk.files {
      ok := false;
      return;
    }
    var rollback := disk.StageBytes(t.name, disk.files[Named(t.name)], true);
    if rollback.None? {
      ok := false;
      return;
    }
    rollbacks' := rollbacks + [rollback];
  }

  method StageTargets(disk: Disk, ts: seq<Target>, mustExist: bool)
    returns (updates: seq<Path>, rollbacks: seq<Option<Path>>, ok: bool)
    modifies disk
    ensures Staging(disk.Value(), updates, rollbacks, ok) == StageAll(disk.faults, old(disk.Value()), ts, mustExist, |ts|)
  {
    hide StageOne;
    updates, rollbacks, ok := [], [], true;
    var i := 0;
    while i < |ts| && ok
      invariant i <= |ts|
      invariant Staging(disk.Value(), updates, rollbacks, ok) == StageAll(disk.faults, old(disk.Value()), ts, mustExist, i)
      decreases |ts| - i
    {
      updates, rollbacks, ok := StageTarget(disk, ts[i], mustExist, updates, rollbacks);
      i := i + 1;
    }
    StagingStops(disk.faults, old(disk.Value()), ts, mustExist, i, |ts|);
  }

  lemma {:induction false} StagingStops(faults: Faults, fs: Fs, ts: seq<Target>, mustExist: bool, i: nat, n: nat)
    requires i <= n <= |ts| && (i < n ==> !StageAll(faults, fs, ts, mustExist, i).ok)
    ensures StageAll(faults, fs, ts, mustExist, n) == StageAll(faults, fs, ts, mustExist, i)
    decreases n
  {
    hide StageOne;
    if i < n {
      StagingStops(faults, fs, ts, mustExist, i, n - 1);
    }
  }

  method ReplaceTargets(disk: Disk, ts: seq<Target>, updates: seq<Path>) returns (replaced: nat, ok: bool)
    requires |updates| == |ts|
    modifies disk
    ensures Replacing(disk.Value(), replaced, ok) == ReplaceAll(disk.faults, old(disk.Value()), ts, updates, |ts|)
  {
    hide Replace;
    replaced, ok := 0, true;
    var i := 0;
    while i < |ts| && ok
      invariant i <= |ts|
      invariant Replacing(disk.Value(), replaced, ok) == ReplaceAll(disk.faults, old(disk.Value()), ts, updates, i)
      decreases |ts| - i
    {
      ok := disk.ReplaceFile(updates[i], Named(ts[i].name));
      if ok {
        replaced := replaced + 1;
      }
      i := i + 1;
    }
    ReplacingStops(disk.faults, old(disk.Value()), ts, updates, i, |ts|);
  }

  lemma {:induction false} ReplacingStops(faults: Faults, fs: Fs, ts: seq<Target>, updates: seq<Path>, i: nat, n: nat)
    requires i <= n <= |ts| == |updates| && (i < n ==> !ReplaceAll(faults, fs, ts, updates, i).ok)
    ensures ReplaceAll(faults, fs, ts, updates, n) == ReplaceAll(faults, fs, ts, updates, i)
    decreases n
  {
    hide Replace;
    if i < n {
      ReplacingStops(faults, fs, ts, updates, i, n - 1);
    }
  }

  method RollTargetsBack(disk: Disk, ts: seq<Target>, rollbacks: seq<Option<Path>>, replaced: nat) returns (ok: bool)
    requires replaced <= |ts| == |rollbacks|
    modifies disk
    ensures Tried(disk.Value(), ok) == RollBack(disk.faults, old(disk.Value()), ts, rollbacks, replaced)
  {
    hide Replace, Unlink;
    ghost var end := RollBack(disk.faults, disk.Value(), ts, rollbacks, replaced);
    ok := true;
    for k := replaced downto 0
      invariant end == RollBack(disk.faults, disk.Value(), ts, rollbacks, k).(
                         ok := ok && RollBack(disk.faults, disk.Value(), ts, rollbacks, k).ok)
    {
      var restored;
      if rollbacks[k].None? {
        restored := disk.UnlinkFile(Named(ts[k].name));
      } else {
        restored := disk.ReplaceFile(rollbacks[k].value, Named(ts[k].name));
      }
      ok := ok && restored;
    }
  }

  method RemoveTemps(disk: Disk, temps: seq<Path>) returns (ok: bool)
    modifies disk
    ensures Tried(disk.Value(), ok) == CleanUp(disk.faults, old(disk.Value()), temps)
  {
    hide UnlinkTemp;
    ghost var end := CleanUp(disk.faults, disk.Value(), temps);
    for i := 0 to |temps|
      invariant end == CleanUp(disk.faults, disk.Value(), temps[i..])
    {
      assert temps[i..][0] == temps[i] && temps[i..][1..] == temps[i + 1..];
      ok := disk.RemoveTemp(temps[i]);
      if !ok {
        return;
      }
    }
    ok := true;
  }

  /** Write every target, or leave every target as it was. */
  method WritePlan(disk: Disk, ts: seq<Target>, mustExist: bool) returns (report: Report)
    modifies disk
    ensures var w := Write(disk.faults, old(disk.Value()), ts, mustExist);
            disk.Value() == w.fs && report == Reported(w)
  {
    hide StageAll, ReplaceAll, RollBack, CleanUp;
    var updates, rollbacks, ok := StageTargets(disk, ts, mustExist);
    ghost var s := Staging(disk.Value(), updates, rollbacks, ok);
    assert s == StageAll(disk.faults, old(disk.Value()), ts, mustExist, |ts|);
    var outcome := Undone;
    if ok {
      var replaced, done := ReplaceTargets(disk, ts, updates);
      if done {
        outcome := Done;
      } else {
        var undone := RollTargetsBack(disk, ts, rollbacks, replaced);
        outcome := if undone then Undone else Incomplete;
      }
    }
    assert (disk.Value(), outcome) == Update(disk.faults, s, ts);
    var cleaned := RemoveTemps(disk, updates + Present(rollbacks));
    if !cleaned {
      return CleanupError;
    }
    report := match outcome case Done => Returned case Undone => WriteError case Incomplete => RollbackIncomplete;
  }
}
