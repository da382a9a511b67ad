/**
 What holds of every stored run, over any steps, one after the other, of any engines sharing the store:
 the row is the fold of the run's events, its counters respect the mission, and its end is justified.
 */
module LongRunInvariants {
  import opened Wrappers
  import opened LongRunModel

  // ---------------------------------------------------------------- the fold

  /** The row after a step that counts, as the event alone tells it. */
  function CountedBy(row: RunState, fingerprint: string, at: real): RunState {
    row.(step := row.step + 1, lastFingerprint := Some(fingerprint),
         duplicates := if row.lastFingerprint == Some(fingerprint) then row.duplicates + 1 else 0,
         updatedAt := at)
  }

  function Best(score: real, evaluation: Option<Evaluation>): real {
    if evaluation.Some? && evaluation.value.score > score then evaluation.value.score else score
  }

  function Apply(row: RunState, e: Event): RunState {
    match e.payload
    case RunStarted(_) => row
    case WatchdogStop(_) => row.(status := Stopped, updatedAt := e.at)
    case WatchdogReplan => row.(failures := 0, duplicates := 0, lastFingerprint := None, updatedAt := e.at)
    case PlannerException(status) =>
      row.(status := status, step := row.step + 1, failures := row.failures + 1, updatedAt := e.at)
    case StepBlocked(_, _) => row.(status := Blocked, updatedAt := e.at)
    case EvaluatorMissing(_) => row.(status := Blocked, updatedAt := e.at)
    case StepException(f, _) => CountedBy(row, f, e.at).(failures := row.failures + 1)
    case PersistenceFailure(f, _) => CountedBy(row, f, e.at).(failures := row.failures + 1)
    case EvaluationException(f, _) => CountedBy(row, f, e.at).(failures := row.failures + 1)
    case EvidenceMissing(f, _) => CountedBy(row, f, e.at).(status := Blocked)
    case EvaluationInvalid(f, _) => CountedBy(row, f, e.at).(status := Blocked)
    case StepResult(f, success, _, _, _, status, evaluation) =>
      CountedBy(row, f, e.at).(failures := if success then 0 else row.failures + 1,
                               score := Best(row.score, evaluation), status := status)
  }

  /** An event carries the step number and the time of the row it was saved with. */
  predicate Fits(row: RunState, e: Event) {
    !e.payload.RunStarted? && Apply(row, e).step == e.step && Apply(row, e).updatedAt == e.at
  }

  /** The row that a run's events, in order, amount to; none when some event does not fit. */
  function Replay(events: seq<Event>, runId: string): Option<RunState> {
    if events == [] then None
    else
      var last := events[|events| - 1];
      var before := Replay(events[..|events| - 1], runId);
      if last.runId != runId then before
      else if before.Some? then (if Fits(before.value, last) then Some(Apply(before.value, last)) else None)
      else if last.payload.RunStarted? && last.step == 0 then
        Some(RunState(runId, last.payload.digest, Live, 0, 0, None, 0, 0.0, last.at, last.at))
      else None
  }

  function LastEvent(events: seq<Event>, runId: string): Option<Event> {
    if events == [] then None
    else if events[|events| - 1].runId == runId then Some(events[|events| - 1])
    else LastEvent(events[..|events| - 1], runId)
  }

  function Executions(events: seq<Event>, runId: string): nat {
    if events == [] then 0
    else
      var last := events[|events| - 1];
      Executions(events[..|events| - 1], runId) +
      (if last.runId == runId && last.payload.ReportsExecution() then 1 else 0)
  }

  function Dispatches(executed: seq<(string, Proposal)>, runId: string): nat {
    if executed == [] then 0
    else Dispatches(executed[..|executed| - 1], runId) + (if executed[|executed| - 1].0 == runId then 1 else 0)
  }

  function LostOf(lost: seq<string>, runId: string): nat {
    if lost == [] then 0
    else LostOf(lost[..|lost| - 1], runId) + (if lost[|lost| - 1] == runId then 1 else 0)
  }

  // ---------------------------------------------------------------- the invariant

  predicate WithinLimits(m: Manifest, row: RunState) {
    row.failures <= m.maxFailures && row.duplicates <= m.maxDuplicates && 0.0 <= row.score <= 1.0
  }

  /** The last event and the clock justify the status of the row. */
  predicate Justified(m: Manifest, row: RunState, last: Option<Event>) {
    match row.status
    case Live => last.Some?
    case Stopped => row.updatedAt - row.startedAt >= m.maximumWall as real
    case Blocked =>
      last.Some? && (last.value.payload.StepBlocked? || last.value.payload.EvaluatorMissing? ||
                     last.value.payload.EvidenceMissing? || last.value.payload.EvaluationInvalid?)
    case Completed =>
      && m.minimumWall as real <= row.updatedAt - row.startedAt < m.maximumWall as real
      && last.Some? && last.value.payload.StepResult?
      && var r := last.value.payload;
      && r.success && r.evaluation.Some?
      && r.evaluation.value.verdict.Pass? && r.evaluation.value.score >= m.threshold
      && r.evidence == Digest(r.text) && r.evaluation.value.digest == r.evidence
  }

  predicate Sound(m: Manifest, row: RunState, events: seq<Event>) {
    && Replay(events, row.runId) == Some(row)
    && WithinLimits(m, row)
    && Justified(m, row, LastEvent(events, row.runId))
  }

  predicate OwnedBy(m: Manifest, row: RunState) { m.runId == row.runId && m.digest == row.digest }

  predicate MayExecute(m: Manifest, p: Proposal) { Refusal(m, p).None? }

  /** Every run belongs to one of the missions in `ms`, and is sound for it. */
  ghost predicate Inv(w: World, ms: set<Manifest>) {
    && (forall id <- w.store.runs :: w.store.runs[id].runId == id &&
          exists m <- ms :: OwnedBy(m, w.store.runs[id]) && Sound(m, w.store.runs[id], w.store.events))
    && (forall id | id !in w.store.runs ::
          Replay(w.store.events, id).None? && LastEvent(w.store.events, id).None? &&
          Executions(w.store.events, id) == 0 && Dispatches(w.executed, id) == 0 && LostOf(w.lost, id) == 0)
    && (forall x <- w.executed :: x.0 in w.store.runs &&
          exists m <- ms :: OwnedBy(m, w.store.runs[x.0]) && MayExecute(m, x.1))
    && (forall id :: Dispatches(w.executed, id) == Executions(w.store.events, id) + LostOf(w.lost, id))
  }

  /** Missions are told apart by their digests; each is valid. */
  predicate Missions(ms: set<Manifest>) {
    (forall m <- ms :: m.Valid()) && (forall a, b | a in ms && b in ms && a.digest == b.digest :: a == b)
  }

  // ---------------------------------------------------------------- one step

  /** The events of one step belong to its run, fit it, and take its row to the new one. */
  predicate Folds(row: RunState, events: seq<Event>, row': RunState)
  {
    match |events|
    case 1 => events[0].runId == row.runId && Fits(row, events[0]) && Apply(row, events[0]) == row'
    case 2 => events[0].runId == row.runId && events[1].runId == row.runId &&
              events[0].payload.WatchdogReplan? && Fits(row, events[0]) && Fits(Apply(row, events[0]), events[1]) &&
              Apply(Apply(row, events[0]), events[1]) == row'
    case _ => false
  }

  /** What one step guarantees of its result. */
  predicate StepGood(m: Manifest, row: RunState, s: Stepped) {
    && s.events != [] && Folds(row, s.events, s.row)
    && s.row.runId == row.runId && s.row.digest == row.digest && s.row.startedAt == row.startedAt
    && WithinLimits(m, s.row)
    && Justified(m, s.row, Some(s.events[|s.events| - 1]))
    && (s.executed.Some? <==> s.events[|s.events| - 1].payload.ReportsExecution())
    && (s.executed.Some? ==> MayExecute(m, s.executed.value))
  }

  /** A row that may go on: live, and with room for one more failure and one more duplicate. */
  predicate Ready(m: Manifest, row: RunState) {
    row.status.Live? && row.failures < m.maxFailures && row.duplicates < m.maxDuplicates && 0.0 <= row.score <= 1.0
  }

  lemma ConcludeGood(m: Manifest, row: RunState, p: Proposal, success: bool, text: string,
                     evaluation: Option<Evaluation>, encodable: bool, now: real, ticks: nat)
    requires m.Valid() && Ready(m, row) && MayExecute(m, p)
    requires evaluation.Some? ==> evaluation.value.Valid(Digest(text))
    ensures StepGood(m, row, Conclude(m, row, p, success, text, evaluation, encodable, now, ticks))
    ensures |Conclude(m, row, p, success, text, evaluation, encodable, now, ticks).events| == 1
  {
  }

  lemma EvaluateGood(m: Manifest, evaluates: bool, row: RunState, p: Proposal, success: bool, text: string,
                     cb: Callbacks, clock: Clock, t: nat)
    requires m.Valid() && Ready(m, row) && MayExecute(m, p)
    ensures StepGood(m, row, Evaluate(m, evaluates, row, p, success, text, cb, clock, t))
    ensures |Evaluate(m, evaluates, row, p, success, text, cb, clock, t).events| == 1
  {
    hide Conclude;
    if !evaluates {
      ConcludeGood(m, row, p, success, text, None, cb.encodable, clock(t), t + 1);
    } else if cb.evaluator.Evaluated? && cb.evaluator.evaluation.Valid(Digest(text)) {
      ConcludeGood(m, row, p, success, text, Some(cb.evaluator.evaluation), cb.encodable, clock(t), t + 1);
    }
  }

  lemma ExecuteGood(m: Manifest, evaluates: bool, row: RunState, p: Proposal, cb: Callbacks, clock: Clock, t: nat)
    requires m.Valid() && Ready(m, row) && MayExecute(m, p)
    ensures StepGood(m, row, Execute(m, evaluates, row, p, cb, clock, t))
    ensures |Execute(m, evaluates, row, p, cb, clock, t).events| == 1
  {
    hide Evaluate;
    if cb.executor.Executed? && cb.executor.evidence.Json? {
      EvaluateGood(m, evaluates, row, p, cb.executor.success, cb.executor.evidence.text, cb, clock, t + 1);
    }
  }

  lemma PlanGood(m: Manifest, evaluates: bool, row: RunState, cb: Callbacks, clock: Clock, t: nat)
    requires m.Valid() && Ready(m, row)
    ensures StepGood(m, row, Plan(m, evaluates, row, cb, clock, t))
    ensures |Plan(m, evaluates, row, cb, clock, t).events| == 1
  {
    hide Execute;
    if cb.planner.Planned? && Refusal(m, cb.planner.proposal).None? {
      ExecuteGood(m, evaluates, row, cb.planner.proposal, cb, clock, t + 1);
    }
  }

  lemma StepKeeps(m: Manifest, evaluates: bool, row: RunState, cb: Callbacks, clock: Clock, t: nat)
    requires m.Valid() && row.status.Live? && WithinLimits(m, row)
    ensures StepGood(m, row, Step(m, evaluates, row, cb, clock, t))
  {
    hide Plan;
    var now := clock(t);
    match Watchdog(m, now - row.startedAt, row.failures, row.duplicates)
    case Stop =>
    case Continue => PlanGood(m, evaluates, row, cb, clock, t + 1);
    case Replan =>
      var reset := row.(failures := 0, duplicates := 0, lastFingerprint := None, updatedAt := now);
      var s := Plan(m, evaluates, reset, cb, clock, t + 1);
      PlanGood(m, evaluates, reset, cb, clock, t + 1);
      assert ([Log(reset, WatchdogReplan)] + s.events)[1] == s.events[0];
  }

  // ---------------------------------------------------------------- the store

  lemma AppendOne(events: seq<Event>, e: Event, id: string)
    ensures e.runId != id ==>
              && Replay(events + [e], id) == Replay(events, id)
              && LastEvent(events + [e], id) == LastEvent(events, id)
              && Executions(events + [e], id) == Executions(events, id)
    ensures e.runId == id ==>
              && LastEvent(events + [e], id) == Some(e)
              && Executions(events + [e], id) == Executions(events, id) + (if e.payload.ReportsExecution() then 1 else 0)
              && (Replay(events, id).Some? && Fits(Replay(events, id).value, e) ==>
                    Replay(events + [e], id) == Some(Apply(Replay(events, id).value, e)))
  {
    assert (events + [e])[..|events|] == events;
  }

  lemma AppendStep(events: seq<Event>, more: seq<Event>, row: RunState, row': RunState, id: string)
    requires Folds(row, more, row') && Replay(events, row.runId) == Some(row)
    ensures id != row.runId ==>
              && Replay(events + more, id) == Replay(events, id)
              && LastEvent(events + more, id) == LastEvent(events, id)
              && Executions(events + more, id) == Executions(events, id)
    ensures id == row.runId ==>
              && Replay(events + more, id) == Some(row')
              && LastEvent(events + more, id) == Some(more[|more| - 1])
              && Executions(events + more, id) ==
                   Executions(events, id) + (if more[|more| - 1].payload.ReportsExecution() then 1 else 0)
  {
    hide Apply;
    AppendOne(events, more[0], id);
    if |more| == 1 {
      assert events + more == events + [more[0]];
    } else {
      AppendOne(events + [more[0]], more[1], id);
      assert events + more == events + [more[0]] + [more[1]];
    }
  }

  lemma OneMission(w: World, ms: set<Manifest>, m: Manifest)
    requires Inv(w, ms) && Missions(ms) && m in ms
    requires m.runId in w.store.runs && w.store.runs[m.runId].digest == m.digest
    ensures Sound(m, w.store.runs[m.runId], w.store.events)
  {
    var row := w.store.runs[m.runId];
    var owner :| owner in ms && OwnedBy(owner, row) && Sound(owner, row, w.store.events);
    assert owner == m;
  }

  /** The store after a step of one run: every other run is as sound as before. */
  lemma StepOnStore(w: World, ms: set<Manifest>, m: Manifest, s: Stepped)
    requires Inv(w, ms) && Missions(ms) && m in ms
    requires m.runId in w.store.runs && OwnedBy(m, w.store.runs[m.runId])
    requires StepGood(m, w.store.runs[m.runId], s) && Sound(m, w.store.runs[m.runId], w.store.events)
    ensures Inv(Advance(w, m.runId, s), ms)
  {
    hide Apply, Replay, LastEvent, Executions, Justified, WithinLimits, Folds;
    var row := w.store.runs[m.runId];
    var w' := Advance(w, m.runId, s);
    forall id {:trigger Replay(w'.store.events, id)}
      ensures id != m.runId ==>
                && Replay(w'.store.events, id) == Replay(w.store.events, id)
                && LastEvent(w'.store.events, id) == LastEvent(w.store.events, id)
      ensures id == m.runId ==>
                && Replay(w'.store.events, id) == Some(s.row)
                && LastEvent(w'.store.events, id) == Some(s.events[|s.events| - 1])
    {
      AppendStep(w.store.events, s.events, row, s.row, id);
    }
    OthersStaySound(w, w', ms, m, s);
    CountsAgree(w, w', m, row, s);
    ExecutedStay(w, ms, m, s);
  }

  lemma ExecutedStay(w: World, ms: set<Manifest>, m: Manifest, s: Stepped)
    requires Inv(w, ms) && m in ms && m.runId in w.store.runs && OwnedBy(m, w.store.runs[m.runId])
    requires StepGood(m, w.store.runs[m.runId], s)
    ensures var w' := Advance(w, m.runId, s);
            forall x <- w'.executed :: x.0 in w'.store.runs &&
              exists o <- ms :: OwnedBy(o, w'.store.runs[x.0]) && MayExecute(o, x.1)
  {
    hide Sound, Replay, LastEvent, Executions, Dispatches, LostOf, Justified, WithinLimits, Folds, MayExecute;
    var w' := Advance(w, m.runId, s);
    forall x <- w'.executed
      ensures x.0 in w'.store.runs && exists o <- ms :: OwnedBy(o, w'.store.runs[x.0]) && MayExecute(o, x.1)
    {
      if x in w.executed {
        var o :| o in ms && OwnedBy(o, w.store.runs[x.0]) && MayExecute(o, x.1);
        assert OwnedBy(o, w'.store.runs[x.0]);
      } else {
        assert OwnedBy(m, w'.store.runs[x.0]) && MayExecute(m, x.1);
      }
    }
  }

  lemma OthersStaySound(w: World, w': World, ms: set<Manifest>, m: Manifest, s: Stepped)
    requires Inv(w, ms) && m in ms && m.runId in w.store.runs
    requires w'.store.runs == w.store.runs[m.runId := s.row] && OwnedBy(m, s.row)
    requires WithinLimits(m, s.row) && s.events != [] && Justified(m, s.row, Some(s.events[|s.events| - 1]))
    requires forall id | id != m.runId ::
               Replay(w'.store.events, id) == Replay(w.store.events, id) &&
               LastEvent(w'.store.events, id) == LastEvent(w.store.events, id)
    requires Replay(w'.store.events, m.runId) == Some(s.row)
    requires LastEvent(w'.store.events, m.runId) == Some(s.events[|s.events| - 1])
    ensures forall id <- w'.store.runs :: w'.store.runs[id].runId == id &&
              exists o <- ms :: OwnedBy(o, w'.store.runs[id]) && Sound(o, w'.store.runs[id], w'.store.events)
  {
    hide Replay, LastEvent, Executions, Justified, WithinLimits;
    forall id <- w'.store.runs
      ensures w'.store.runs[id].runId == id &&
              exists o <- ms :: OwnedBy(o, w'.store.runs[id]) && Sound(o, w'.store.runs[id], w'.store.events)
    {
      if id == m.runId {
        assert Sound(m, s.row, w'.store.events);
      } else {
        var o :| o in ms && OwnedBy(o, w.store.runs[id]) && Sound(o, w.store.runs[id], w.store.events);
        assert Sound(o, w'.store.runs[id], w'.store.events);
      }
    }
  }

  lemma CountsAgree(w: World, w': World, m: Manifest, row: RunState, s: Stepped)
    requires forall id :: Dispatches(w.executed, id) == Executions(w.store.events, id) + LostOf(w.lost, id)
    requires w'.lost == w.lost
    requires Folds(row, s.events, s.row) && Replay(w.store.events, row.runId) == Some(row) && row.runId == m.runId
    requires s.executed.Some? <==> s.events[|s.events| - 1].payload.ReportsExecution()
    requires w'.store.events == w.store.events + s.events
    requires w'.executed == w.executed + (if s.executed.Some? then [(m.runId, s.executed.value)] else [])
    ensures forall id :: Dispatches(w'.executed, id) == Executions(w'.store.events, id) + LostOf(w'.lost, id)
    ensures forall id | id != m.runId :: Executions(w'.store.events, id) == Executions(w.store.events, id)
  {
    hide Replay, LastEvent, Folds;
    forall id
      ensures Dispatches(w'.executed, id) == Executions(w'.store.events, id) + LostOf(w'.lost, id)
      ensures id != m.runId ==> Executions(w'.store.events, id) == Executions(w.store.events, id)
    {
      AppendStep(w.store.events, s.events, row, s.row, id);
      if s.executed.Some? {
        assert w'.executed[..|w.executed|] == w.executed;
      } else {
        assert w'.executed == w.executed;
      }
    }
  }

  lemma LoadKeeps(w: World, ms: set<Manifest>, m: Manifest, clock: Clock)
    requires Inv(w, ms) && Missions(ms) && m in ms
    ensures Inv(LoadOrCreate(w, m, clock).world, ms)
    ensures var l := LoadOrCreate(w, m, clock);
            l.result.Returned? ==> m.runId in l.world.store.runs && l.world.store.runs[m.runId] == l.result.state &&
                                   OwnedBy(m, l.result.state) && Sound(m, l.result.state, l.world.store.events)
  {
    if m.runId !in w.store.runs {
      var w' := LoadOrCreate(w, m, clock).world;
      var row := Initial(m, clock(w.ticks));
      var e := Event(m.runId, 0, RunStarted(m.digest), row.startedAt);
      CreateKeeps(w, w', ms, m, row, e);
    } else if w.store.runs[m.runId].digest == m.digest {
      OneMission(w, ms, m);
    }
  }

  lemma CreateKeeps(w: World, w': World, ms: set<Manifest>, m: Manifest, row: RunState, e: Event)
    requires Inv(w, ms) && Missions(ms) && m in ms && m.runId !in w.store.runs
    requires row == Initial(m, row.startedAt) && e == Event(m.runId, 0, RunStarted(m.digest), row.startedAt)
    requires w'.store == Store(w.store.runs[m.runId := row], w.store.events + [e]) && w'.executed == w.executed && w'.lost == w.lost
    ensures Inv(w', ms) && Sound(m, row, w'.store.events)
  {
    hide Replay, LastEvent, Executions, Dispatches, LostOf, Justified, WithinLimits;
    forall id {:trigger Replay(w'.store.events, id)}
      ensures id != m.runId ==>
                && Replay(w'.store.events, id) == Replay(w.store.events, id)
                && LastEvent(w'.store.events, id) == LastEvent(w.store.events, id)
      ensures Executions(w'.store.events, id) == Executions(w.store.events, id)
    {
      AppendOne(w.store.events, e, id);
    }
    CreatedReplay(w.store.events, m, row, e);
    InitialIsSound(m, row, e);
    forall id <- w'.store.runs
      ensures w'.store.runs[id].runId == id &&
              exists o <- ms :: OwnedBy(o, w'.store.runs[id]) && Sound(o, w'.store.runs[id], w'.store.events)
    {
      if id != m.runId {
        var o :| o in ms && OwnedBy(o, w.store.runs[id]) && Sound(o, w.store.runs[id], w.store.events);
        assert Sound(o, w'.store.runs[id], w'.store.events);
      } else {
        assert OwnedBy(m, row) && Sound(m, row, w'.store.events);
      }
    }
    forall x <- w'.executed
      ensures x.0 in w'.store.runs && exists o <- ms :: OwnedBy(o, w'.store.runs[x.0]) && MayExecute(o, x.1)
    {
      assert x.0 in w.store.runs;
    }
  }

  lemma CreatedReplay(events: seq<Event>, m: Manifest, row: RunState, e: Event)
    requires Replay(events, m.runId).None?
    requires row == Initial(m, row.startedAt) && e == Event(m.runId, 0, RunStarted(m.digest), row.startedAt)
    ensures Replay(events + [e], m.runId) == Some(row) && LastEvent(events + [e], m.runId) == Some(e)
  {
    AppendOne(events, e, m.runId);
    assert (events + [e])[..|events|] == events;
  }

  lemma InitialIsSound(m: Manifest, row: RunState, e: Event)
    requires row == Initial(m, row.startedAt)
    ensures WithinLimits(m, row) && Justified(m, row, Some(e))
  {
  }

  lemma RunStepKeeps(w: World, ms: set<Manifest>, c: Call, clock: Clock)
    requires Inv(w, ms) && Missions(ms) && c.m in ms
    ensures Inv(RunStep(w, c.m, c.evaluates, c.cb, clock).world, ms)
  {
    hide Inv, Step, LoadOrCreate;
    LoadKeeps(w, ms, c.m, clock);
    var l := LoadOrCreate(w, c.m, clock);
    if l.result.Returned? && l.result.state.status.Live? {
      StepKeeps(c.m, c.evaluates, l.result.state, c.cb, clock, l.world.ticks);
      StepOnStore(l.world, ms, c.m, Step(c.m, c.evaluates, l.result.state, c.cb, clock, l.world.ticks));
    }
  }

  // ---------------------------------------------------------------- steps that are cut off

  lemma ReplannedGood(m: Manifest, row: RunState, now: real, ticks: nat)
    requires m.Valid() && row.status.Live? && WithinLimits(m, row)
    ensures StepGood(m, row, Replanned(row, now, ticks))
  {
  }

  lemma TicksKeep(w: World, ms: set<Manifest>, ticks: nat)
    requires Inv(w, ms)
    ensures Inv(w.(ticks := ticks), ms)
  {
  }

  lemma LostCallKeeps(w: World, ms: set<Manifest>, m: Manifest, p: Proposal, ticks: nat)
    requires Inv(w, ms) && m in ms && m.runId in w.store.runs && OwnedBy(m, w.store.runs[m.runId]) && MayExecute(m, p)
    ensures Inv(w.(ticks := ticks, executed := w.executed + [(m.runId, p)], lost := w.lost + [m.runId]), ms)
  {
    hide Replay, LastEvent, Sound, MayExecute, Executions;
    var w' := w.(ticks := ticks, executed := w.executed + [(m.runId, p)], lost := w.lost + [m.runId]);
    assert w'.executed[..|w.executed|] == w.executed && w'.lost[..|w.lost|] == w.lost;
    forall x <- w'.executed
      ensures x.0 in w'.store.runs && exists o <- ms :: OwnedBy(o, w'.store.runs[x.0]) && MayExecute(o, x.1)
    {
      if x in w.executed {
        var o :| o in ms && OwnedBy(o, w.store.runs[x.0]) && MayExecute(o, x.1);
      } else {
        assert OwnedBy(m, w'.store.runs[x.0]) && MayExecute(m, x.1);
      }
    }
  }

  lemma CutLaterKeeps(w: World, ms: set<Manifest>, m: Manifest, evaluates: bool, row: RunState, cb: Callbacks,
                      clock: Clock, cut: Cut)
    requires Inv(w, ms) && m in ms && m.runId in w.store.runs && OwnedBy(m, w.store.runs[m.runId])
    ensures Inv(CutLater(w, m, evaluates, row, cb, clock, cut), ms)
  {
    hide Inv;
    var p := HandedOver(m, evaluates, row, cb, clock(w.ticks));
    if p.Some? {
      LostCallKeeps(w, ms, m, p.value, w.ticks + 1);
    }
  }

  lemma RunCutKeeps(w: World, ms: set<Manifest>, c: Call, clock: Clock, cut: Cut)
    requires Inv(w, ms) && Missions(ms) && c.m in ms
    ensures Inv(RunCut(w, c.m, c.evaluates, c.cb, clock, cut), ms)
  {
    hide Inv, LoadOrCreate, CutLater, StepGood, Sound, Replanned, Advance;
    LoadKeeps(w, ms, c.m, clock);
    var l := LoadOrCreate(w, c.m, clock);
    if l.result.Returned? && l.result.state.status.Live? {
      var row, t := l.result.state, l.world.ticks;
      TicksKeep(l.world, ms, t + 1);
      CutLaterKeeps(l.world.(ticks := t + 1), ms, c.m, c.evaluates, row, c.cb, clock, cut);
      ReplanCutKeeps(l.world, ms, c, row, clock, t, cut);
    }
  }

  lemma ReplanCutKeeps(w: World, ms: set<Manifest>, c: Call, row: RunState, clock: Clock, t: nat, cut: Cut)
    requires Inv(w, ms) && Missions(ms) && c.m in ms && c.m.runId in w.store.runs && w.store.runs[c.m.runId] == row
    requires row.status.Live? && OwnedBy(c.m, row) && Sound(c.m, row, w.store.events)
    ensures var s := Replanned(row, clock(t), t + 1);
            Inv(CutLater(Advance(w, c.m.runId, s), c.m, c.evaluates, s.row, c.cb, clock, cut), ms)
  {
    hide Inv, CutLater, StepGood, Sound, Replanned;
    var s := Replanned(row, clock(t), t + 1);
    SoundIsWithinLimits(c.m, row, w.store.events);
    ReplannedGood(c.m, row, clock(t), t + 1);
    StepOnStore(w, ms, c.m, s);
    ReplannedOwned(c.m, row, clock(t), t + 1);
    CutLaterKeeps(Advance(w, c.m.runId, s), ms, c.m, c.evaluates, s.row, c.cb, clock, cut);
  }

  lemma SoundIsWithinLimits(m: Manifest, row: RunState, events: seq<Event>)
    requires Sound(m, row, events)
    ensures WithinLimits(m, row)
  {
  }

  lemma ReplannedOwned(m: Manifest, row: RunState, now: real, ticks: nat)
    requires OwnedBy(m, row)
    ensures OwnedBy(m, Replanned(row, now, ticks).row)
  {
  }

  /** A whole step hands over exactly what a step cut off after the executor's call does. */
  lemma HandsOverTheSame(m: Manifest, evaluates: bool, row: RunState, cb: Callbacks, clock: Clock, t: nat)
    requires row.status.Live?
    ensures Plan(m, evaluates, row, cb, clock, t).executed == HandedOver(m, evaluates, row, cb, clock(t))
  {
    hide Concluded, Refusal, Failed, Counted;
  }

  // ---------------------------------------------------------------- all calls

  lemma AfterCallKeeps(w: World, ms: set<Manifest>, c: Call, clock: Clock)
    requires Inv(w, ms) && Missions(ms) && c.m in ms
    ensures Inv(AfterCall(w, c, clock), ms)
  {
    hide Inv, RunStep, RunCut;
    if c.cut.Some? {
      RunCutKeeps(w, ms, c, clock, c.cut.value);
    } else {
      RunStepKeeps(w, ms, c, clock);
    }
  }

  lemma {:induction false} RunAllKeeps(w: World, ms: set<Manifest>, calls: seq<Call>, clock: Clock)
    requires Inv(w, ms) && Missions(ms) && forall c <- calls :: c.m in ms
    ensures Inv(RunAll(w, calls, clock), ms)
    decreases |calls|
  {
    hide Inv, AfterCall;
    if calls != [] {
      AfterCallKeeps(w, ms, calls[0], clock);
      RunAllKeeps(AfterCall(w, calls[0], clock), ms, calls[1..], clock);
    }
  }
}
