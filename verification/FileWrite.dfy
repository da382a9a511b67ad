/**
 Writing several files as one update: stage everything, replace file by file, roll back on failure,
 and remove what was staged. Any single file operation may fail.
 */
module FileWrite {
  import opened Wrappers

  // ---------------------------------------------------------------- files

  /** A named file, or a temporary one staged beside it, whose name tells them apart. */
  datatype Path = Named(name: string) | Temp(name: string, rollback: bool, nonce: nat)

  /**
   The files, how many operations were tried so far, the next unused temporary name, and whether the
   removal of some temporary file has failed.
   */
  datatype Fs = Fs(files: map<Path, string>, tried: nat, nonce: nat, leaked: bool)

  /** Whether the n-th operation fails. */
  type Faults = nat -> bool

  datatype Target = Target(name: string, content: string)

  /** Temporary names are drawn in order. */
  predicate Valid(fs: Fs) { forall p <- fs.files :: p.Temp? ==> p.nonce < fs.nonce }

  predicate Distinct(ts: seq<Target>) { forall i, j | 0 <= i < j < |ts| :: ts[i].name != ts[j].name }

  function At(fs: Fs, name: string): Option<string> {
    if Named(name) in fs.files then Some(fs.files[Named(name)]) else None
  }

  // ---------------------------------------------------------------- single operations

  datatype Tried = Tried(fs: Fs, ok: bool)

  function Attempt(faults: Faults, fs: Fs): Tried { Tried(fs.(tried := fs.tried + 1), !faults(fs.tried)) }

  /** Remove a file; one that is not there is no error. */
  function Unlink(faults: Faults, fs: Fs, p: Path): Tried {
    var a := Attempt(faults, fs);
    if a.ok then Tried(a.fs.(files := fs.files - {p}), true) else a
  }

  function UnlinkTemp(faults: Faults, fs: Fs, p: Path): Tried {
    var u := Unlink(faults, fs, p);
    u.(fs := u.fs.(leaked := fs.leaked || !u.ok))
  }

  /** Move a file onto another in one atomic step. */
  function Replace(faults: Faults, fs: Fs, source: Path, to: Path): Tried {
    var a := Attempt(faults, fs);
    if a.ok && source in fs.files then Tried(a.fs.(files := (fs.files - {source})[to := fs.files[source]]), true)
    else Tried(a.fs, false)
  }

  datatype Staged = Staged(fs: Fs, path: Option<Path>)

  /** A temporary file with this content: creating it may fail, and writing it too. */
  function Stage(faults: Faults, fs: Fs, name: string, rollback: bool, content: string): Staged {
    var p := Temp(name, rollback, fs.nonce);
    var created := Attempt(faults, fs);
    if !created.ok then Staged(created.fs, None)
    else
      var written := Attempt(faults, created.fs.(nonce := fs.nonce + 1, files := fs.files[p := ""]));
      if written.ok then Staged(written.fs.(files := fs.files[p := content]), Some(p))
      else Staged(UnlinkTemp(faults, written.fs, p).fs, None)
  }

  // ---------------------------------------------------------------- the loops

  /** What has been staged: for each target its update, and its rollback if there was a file. */
  datatype Staging = Staging(fs: Fs, updates: seq<Path>, rollbacks: seq<Option<Path>>, ok: bool)

  /** Stage the rollback of an existing file, or none for an absent one. */
  function StageRollback(faults: Faults, s: Staging, t: Target, mustExist: bool): (r: Staging)
    requires s.ok
    ensures r.updates == s.updates && |r.rollbacks| == |s.rollbacks| + if r.ok then 1 else 0
  {
    var looked := if mustExist then Tried(s.fs, true) else Attempt(faults, s.fs);
    if !looked.ok then s.(fs := looked.fs, ok := false)
    else if At(looked.fs, t.name).None? then
      if mustExist then s.(fs := Attempt(faults, looked.fs).fs, ok := false)
      else s.(fs := looked.fs, rollbacks := s.rollbacks + [None])
    else
      var read := Attempt(faults, looked.fs);
      if !read.ok then s.(fs := read.fs, ok := false)
      else
        var staged := Stage(faults, read.fs, t.name, true, At(read.fs, t.name).value);
        if staged.path.None? then s.(fs := staged.fs, ok := false)
        else s.(fs := staged.fs, rollbacks := s.rollbacks + [staged.path])
  }

  function StageOne(faults: Faults, s: Staging, t: Target, mustExist: bool): (r: Staging)
    requires s.ok
    ensures |r.updates| <= |s.updates| + 1 && |r.rollbacks| <= |s.rollbacks| + 1
    ensures |s.updates| >= |s.rollbacks| ==> |r.updates| >= |r.rollbacks|
    ensures r.ok ==> |r.updates| == |s.updates| + 1 && |r.rollbacks| == |s.rollbacks| + 1
  {
    var ready := if mustExist then Tried(s.fs, true) else Attempt(faults, s.fs);
    if !ready.ok then s.(fs := ready.fs, ok := false)
    else
      var staged := Stage(faults, ready.fs, t.name, false, t.content);
      if staged.path.None? then s.(fs := staged.fs, ok := false)
      else StageRollback(faults, s.(fs := staged.fs, updates := s.updates + [staged.path.value]), t, mustExist)
  }

  /** The staging of the first `n` targets, up to the first failure. */
  function StageAll(faults: Faults, fs: Fs, ts: seq<Target>, mustExist: bool, n: nat): (s: Staging)
    requires n <= |ts|
    ensures |s.rollbacks| <= |s.updates| <= n && (s.ok ==> |s.updates| == n && |s.rollbacks| == n)
  {
    if n == 0 then Staging(fs, [], [], true)
    else
      var s := StageAll(faults, fs, ts, mustExist, n - 1);
      if s.ok then StageOne(faults, s, ts[n - 1], mustExist) else s
  }

  /** The number of targets replaced, and whether that is all of them. */
  datatype Replacing = Replacing(fs: Fs, replaced: nat, ok: bool)

  function ReplaceAll(faults: Faults, fs: Fs, ts: seq<Target>, updates: seq<Path>, n: nat): (r: Replacing)
    requires n <= |ts| && |updates| == |ts|
    ensures r.replaced <= n && (r.ok ==> r.replaced == n)
  {
    if n == 0 then Replacing(fs, 0, true)
    else
      var r := ReplaceAll(faults, fs, ts, updates, n - 1);
      if !r.ok then r
      else
        var moved := Replace(faults, r.fs, updates[n - 1], Named(ts[n - 1].name));
        Replacing(moved.fs, if moved.ok then n else n - 1, moved.ok)
  }

  function Restore(faults: Faults, fs: Fs, t: Target, rollback: Option<Path>): Tried {
    match rollback
    case None => Unlink(faults, fs, Named(t.name))
    case Some(p) => Replace(faults, fs, p, Named(t.name))
  }

  /** Undo the first `n` replacements, the last one first, going on past failures. */
  function RollBack(faults: Faults, fs: Fs, ts: seq<Target>, rollbacks: seq<Option<Path>>, n: nat): Tried
    requires n <= |ts| && n <= |rollbacks|
    decreases n
  {
    if n == 0 then Tried(fs, true)
    else
      var one := Restore(faults, fs, ts[n - 1], rollbacks[n - 1]);
      var rest := RollBack(faults, one.fs, ts, rollbacks, n - 1);
      rest.(ok := one.ok && rest.ok)
  }

  /** Remove temporary files, up to the first removal that fails. */
  function CleanUp(faults: Faults, fs: Fs, temps: seq<Path>): Tried
    decreases |temps|
  {
    if temps == [] then Tried(fs, true)
    else
      var u := UnlinkTemp(faults, fs, temps[0]);
      if u.ok then CleanUp(faults, u.fs, temps[1..]) else u
  }

  function Present(rollbacks: seq<Option<Path>>): seq<Path> {
    if rollbacks == [] then []
    else
      var last := rollbacks[|rollbacks| - 1];
      Present(rollbacks[..|rollbacks| - 1]) + (if last.Some? then [last.value] else [])
  }

  // ---------------------------------------------------------------- the whole write

  /** How the update itself went. */
  datatype Outcome = Done | Undone | Incomplete

  /** `cleaned`: the removal of the temporary files raised nothing. */
  datatype Written = Written(fs: Fs, outcome: Outcome, cleaned: bool)

  /** What the caller sees. A failed clean-up hides any other exception. */
  datatype Report = Returned | WriteError | RollbackIncomplete | CleanupError

  function Reported(w: Written): Report {
    if !w.cleaned then CleanupError
    else match w.outcome
      case Done => Returned
      case Undone => WriteError
      case Incomplete => RollbackIncomplete
  }

  /** The update without the clean-up. */
  function Update(faults: Faults, s: Staging, ts: seq<Target>): (r: (Fs, Outcome))
    requires s.ok ==> |s.updates| == |ts| && |s.rollbacks| == |ts|
  {
    if !s.ok then (s.fs, Undone)
    else
      var r := ReplaceAll(faults, s.fs, ts, s.updates, |ts|);
      if r.ok then (r.fs, Done)
      else
        var back := RollBack(faults, r.fs, ts, s.rollbacks, r.replaced);
        (back.fs, if back.ok then Undone else Incomplete)
  }

  function Write(faults: Faults, fs: Fs, ts: seq<Target>, mustExist: bool): Written {
    var s := StageAll(faults, fs, ts, mustExist, |ts|);
    var (after, outcome) := Update(faults, s, ts);
    var c := CleanUp(faults, after, s.updates + Present(s.rollbacks));
    Written(c.fs, outcome, c.ok)
  }
}
