/** The store and the engine as objects, each operation refining its function on values. */
module LongRunEngine {
  import opened Wrappers
  import opened LongRunModel
  import opened LongRunTermination

  /** The table of runs and the log of events; every method is one transaction. */
  class LongRunStateStore {
    var runs: map<string, RunState>
    var events: seq<Event>

    constructor ()
      ensures Value() == Store(map[], [])
    {
      runs, events := map[], [];
    }

    ghost function Value(): Store
      reads this
    {
      Store(runs, events)
    }

    /** Rows are filed under their own ids. */
    ghost predicate Keyed()
      reads this
    {
      forall id <- runs :: runs[id].runId == id
    }

    /** An insert and an event; nothing when the run exists already. */
    method CreateWithEvent(state: RunState, payload: Payload, at: real) returns (ok: bool)
      requires Keyed()
      modifies this
      ensures Keyed()
      ensures ok <==> state.runId !in old(runs)
      ensures Value() == if ok then Store(old(runs)[state.runId := state],
                                          old(events) + [Event(state.runId, state.step, payload, at)])
                         else old(Value())
    {
      ok := state.runId !in runs;
      if ok {
        runs := runs[state.runId := state];
        events := events + [Event(state.runId, state.step, payload, at)];
      }
    }

    /** An update and an event. A payload that cannot be encoded fails before anything is written. */
    method SaveWithEvent(state: RunState, payload: Payload, at: real, encodable: bool) returns (ok: bool)
      requires Keyed()
      modifies this
      ensures Keyed()
      ensures ok == encodable
      ensures runs == if ok && state.runId in old(runs) then old(runs)[state.runId := state] else old(runs)
      ensures events == if ok then old(events) + [Event(state.runId, state.step, payload, at)] else old(events)
    {
      ok := encodable;
      if ok {
        if state.runId in runs {
          runs := runs[state.runId := state];
        }
        events := events + [Event(state.runId, state.step, payload, at)];
      }
    }

    method Load(runId: string) returns (state: Option<RunState>)
      ensures state == if runId in runs then Some(runs[runId]) else None
    {
      state := if runId in runs then Some(runs[runId]) else None;
    }
  }

  lemma ConcludeTicks(m: Manifest, row: RunState, p: Proposal, success: bool, text: string,
                      evaluation: Option<Evaluation>, encodable: bool, now: real, ticks: nat)
    ensures Conclude(m, row, p, success, text, evaluation, encodable, now, ticks).ticks == ticks
  {
  }

  lemma EvaluateExecutes(m: Manifest, evaluates: bool, row: RunState, p: Proposal, cb: Callbacks, clock: Clock, t: nat)
    ensures cb.executor.Executed? && cb.executor.evidence.Json? ==>
              Evaluate(m, evaluates, row, p, cb.executor.success, cb.executor.evidence.text, cb, clock, t).executed == Some(p)
  {
  }

  class LongRunEngine {
    const manifest: Manifest
    const store: LongRunStateStore
    /** Whether an independent evaluator is configured. */
    const evaluates: bool
    const clock: Clock
    var ticks: nat
    ghost var executed: seq<(string, Proposal)>

    constructor (manifest: Manifest, store: LongRunStateStore, evaluates: bool, clock: Clock)
      requires manifest.Valid() && store.Keyed()
      ensures this.manifest == manifest && this.store == store && this.evaluates == evaluates && this.clock == clock
      ensures Valid() && Value() == World(store.Value(), 0, [], [])
    {
      this.manifest, this.store, this.evaluates, this.clock := manifest, store, evaluates, clock;
      ticks, executed := 0, [];
    }

    ghost predicate Valid()
      reads store
    {
      manifest.Valid() && store.Keyed()
    }

    ghost function Value(): World
      reads this, store
    {
      World(store.Value(), ticks, executed, [])
    }

    method Now() returns (now: real)
      modifies this`ticks
      ensures now == clock(old(ticks)) && ticks == old(ticks) + 1
    {
      now := clock(ticks);
      ticks := ticks + 1;
    }

    method LoadOrCreate() returns (result: CallResult)
      requires Valid()
      modifies this, store
      ensures Valid()
      ensures Called(Value(), result) == LongRunModel.LoadOrCreate(old(Value()), manifest, clock)
    {
      var existing := store.Load(manifest.runId);
      if existing.None? {
        var now := Now();
        var state := RunState(manifest.runId, manifest.digest, Live, 0, 0, None, 0, 0.0, now, now);
        var _ := store.CreateWithEvent(state, RunStarted(state.digest), state.startedAt);
        return Returned(state);
      }
      if existing.value.digest != manifest.digest {
        return MissionChanged;
      }
      result := Returned(existing.value);
    }

    /** Save a row of this run with the event that explains it. */
    method PersistTransition(state: RunState, payload: Payload)
      requires Valid() && state.runId == manifest.runId && state.runId in store.runs
      modifies store
      ensures Valid()
      ensures store.Value() == Store(old(store.runs)[state.runId := state], old(store.events) + [Log(state, payload)])
    {
      var _ := store.SaveWithEvent(state, payload, state.updatedAt, true);
    }

    method RunStep(cb: Callbacks) returns (result: CallResult)
      requires Valid()
      modifies this, store
      ensures Valid()
      ensures Called(Value(), result) == LongRunModel.RunStep(old(Value()), manifest, evaluates, cb, clock)
    {
      hide Plan;
      result := LoadOrCreate();
      if !result.Returned? || !result.state.status.Live? {
        return;
      }
      var state := result.state;
      ghost var loaded := Value();
      var now := Now();
      match Watchdog(manifest, now - state.startedAt, state.failures, state.duplicates)
      case Stop =>
        var stopped := state.(status := Stopped, updatedAt := now);
        PersistTransition(stopped, WatchdogStop(false));
        result := Returned(stopped);
      case Continue =>
        result := PlanStep(state, cb);
      case Replan =>
        state := state.(failures := 0, duplicates := 0, lastFingerprint := None, updatedAt := now);
        PersistTransition(state, WatchdogReplan);
        result := PlanStep(state, cb);
        ghost var s := Plan(manifest, evaluates, state, cb, clock, loaded.ticks + 1);
        assert loaded.store.events + [Log(state, WatchdogReplan)] + s.events ==
               loaded.store.events + ([Log(state, WatchdogReplan)] + s.events);
        assert loaded.store.runs[manifest.runId := state][manifest.runId := s.row] ==
               loaded.store.runs[manifest.runId := s.row];
    }

    /** From the call of the planner on. */
    method PlanStep(state: RunState, cb: Callbacks) returns (result: CallResult)
      requires Valid() && state.runId == manifest.runId && state.runId in store.runs
      modifies this, store
      ensures Valid()
      ensures var s := Plan(manifest, evaluates, state, cb, clock, old(ticks));
              Value() == Advance(old(Value()), manifest.runId, s) &&
              result == if s.raised then CallbackRaised else Returned(s.row)
    {
      hide Execute;
      if cb.planner.PlannerRaised? {
        var now := Now();
        var status := if now - state.startedAt >= manifest.maximumWall as real then Stopped else state.status;
        var failed := state.(status := status, step := state.step + 1, failures := state.failures + 1, updatedAt := now);
        PersistTransition(failed, PlannerException(failed.status));
        return CallbackRaised;
      }
      var proposal := cb.planner.proposal;
      var now := Now();
      if Watchdog(manifest, now - state.startedAt, state.failures, state.duplicates).Stop? {
        var stopped := state.(status := Stopped, updatedAt := now);
        PersistTransition(stopped, WatchdogStop(true));
        return Returned(stopped);
      }
      var refusal := Refusal(manifest, proposal);
      if refusal.Some? {
        now := Now();
        var blocked := state.(status := Blocked, updatedAt := now);
        PersistTransition(blocked, StepBlocked(proposal.fingerprint, refusal.value));
        return Returned(blocked);
      }
      if manifest.independentEvaluation && !evaluates {
        now := Now();
        var blocked := state.(status := Blocked, updatedAt := now);
        PersistTransition(blocked, EvaluatorMissing(proposal.fingerprint));
        return Returned(blocked);
      }
      result := ExecuteStep(state, proposal, cb);
    }

    /** From the call of the executor on: the proposal is authorized. */
    method ExecuteStep(state: RunState, proposal: Proposal, cb: Callbacks) returns (result: CallResult)
      requires Valid() && state.runId == manifest.runId && state.runId in store.runs
      modifies this, store
      ensures Valid()
      ensures var s := Execute(manifest, evaluates, state, proposal, cb, clock, old(ticks));
              Value() == Advance(old(Value()), manifest.runId, s) &&
              result == if s.raised then CallbackRaised else Returned(s.row)
    {
      hide Evaluate;
      EvaluateExecutes(manifest, evaluates, state, proposal, cb, clock, ticks + 1);
      var fingerprint := proposal.fingerprint;
      var duplicates := if state.lastFingerprint == Some(fingerprint) then state.duplicates + 1 else 0;
      var counted := state.(step := state.step + 1, lastFingerprint := Some(fingerprint), duplicates := duplicates);
      executed := executed + [(manifest.runId, proposal)];
      var now := Now();
      if cb.executor.ExecutorRaised? {
        PersistTransition(counted.(failures := state.failures + 1, updatedAt := now),
                          StepException(fingerprint, proposal.Value()));
        return CallbackRaised;
      }
      if cb.executor.evidence.NotJson? {
        PersistTransition(counted.(failures := state.failures + 1, updatedAt := now),
                          PersistenceFailure(fingerprint, proposal.Value()));
        return CallbackRaised;
      }
      var success, text := cb.executor.success, cb.executor.evidence.text;
      var digest := Digest(text);
      if manifest.evidenceRequired && text == EMPTY_OBJECT {
        var blocked := counted.(status := Blocked, updatedAt := now);
        PersistTransition(blocked, EvidenceMissing(fingerprint, digest));
        return Returned(blocked);
      }
      result := EvaluateStep(state, counted, proposal, success, text, cb);
    }

    /** From the call of the evaluator on: the evidence has a canonical text. */
    method EvaluateStep(state: RunState, counted: RunState, proposal: Proposal, success: bool, text: string, cb: Callbacks)
      returns (result: CallResult)
      requires Valid() && state.runId == manifest.runId && state.runId in store.runs
      requires counted == Counted(state, proposal, state.updatedAt)
      modifies this`ticks, store
      ensures Valid()
      ensures var s := Evaluate(manifest, evaluates, state, proposal, success, text, cb, clock, old(ticks));
              && ticks == s.ticks
              && store.Value() == Store(old(store.runs)[manifest.runId := s.row], old(store.events) + s.events)
              && result == if s.raised then CallbackRaised else Returned(s.row)
    {
      hide Conclude;
      var fingerprint, digest := proposal.fingerprint, Digest(text);
      var evaluation := None;
      var now := Now();
      if evaluates {
        if cb.evaluator.EvaluatorRaised? {
          PersistTransition(counted.(failures := state.failures + 1, updatedAt := now),
                            EvaluationException(fingerprint, digest));
          return CallbackRaised;
        }
        if !cb.evaluator.Evaluated? || !cb.evaluator.evaluation.Valid(digest) {
          var blocked := counted.(status := Blocked, updatedAt := now);
          PersistTransition(blocked, EvaluationInvalid(fingerprint, digest));
          return Returned(blocked);
        }
        evaluation := Some(cb.evaluator.evaluation);
      }
      ConcludeTicks(manifest, state, proposal, success, text, evaluation, cb.encodable, now, ticks);
      result := RecordResult(state, counted, proposal, success, text, evaluation, cb.encodable, now);
    }

    /** The result of a step whose evaluation, if any, is valid. */
    method RecordResult(state: RunState, counted: RunState, proposal: Proposal, success: bool, text: string,
                        evaluation: Option<Evaluation>, encodable: bool, now: real) returns (result: CallResult)
      requires Valid() && state.runId == manifest.runId && state.runId in store.runs
      requires counted == Counted(state, proposal, state.updatedAt)
      modifies store
      ensures Valid()
      ensures var s := Conclude(manifest, state, proposal, success, text, evaluation, encodable, now, ticks);
              && store.Value() == Store(old(store.runs)[manifest.runId := s.row], old(store.events) + s.events)
              && result == if s.raised then CallbackRaised else Returned(s.row)
    {
      var score := if evaluation.Some? then evaluation.value.score else 0.0;
      var recorded := counted.(failures := if success then 0 else state.failures + 1,
                               score := if score > state.score then score else state.score, updatedAt := now);
      var elapsed := now - recorded.startedAt;
      if elapsed >= manifest.maximumWall as real {
        recorded := recorded.(status := Stopped);
      } else if success && evaluation.Some? && evaluation.value.verdict.Pass? &&
                evaluation.value.score >= manifest.threshold && elapsed >= manifest.minimumWall as real {
        recorded := recorded.(status := Completed);
      }
      var ok := store.SaveWithEvent(recorded,
        StepResult(proposal.fingerprint, success, proposal.Value(), text, Digest(text), recorded.status, evaluation),
        recorded.updatedAt, encodable);
      if !ok {
        PersistTransition(counted.(failures := state.failures + 1, updatedAt := now),
                          PersistenceFailure(proposal.fingerprint, proposal.Value()));
        return CallbackRaised;
      }
      result := Returned(recorded);
    }

    /**
     Steps until the run ends, a callback's exception escapes, or `maxSteps` are done. Without
     `maxSteps` it ends because the clock advances; `delta` and `n` say how fast and how far.
     */
    method RunUntilTerminal(script: nat -> Callbacks, maxSteps: Option<nat>, ghost delta: real, ghost n: nat)
      returns (result: CallResult, steps: nat)
      requires Valid()
      requires maxSteps.None? ==> Advancing(clock, delta) && Enough(manifest, delta, n)
      requires maxSteps.None? && manifest.runId in store.runs ==>
                 store.runs[manifest.runId].startedAt + delta <= clock(ticks)
      modifies this, store
      ensures Valid()
      ensures var limit := if maxSteps.Some? then maxSteps.value else n;
              Finished(Called(Value(), result), steps) ==
              LongRunTermination.RunUntilTerminal(old(Value()), manifest, evaluates, script, clock, limit)
      ensures maxSteps.None? && result.Returned? ==> !result.state.status.Live?
    {
      hide LongRunModel.RunStep, LongRunModel.LoadOrCreate;
      ghost var limit := if maxSteps.Some? then maxSteps.value else n;
      ghost var end := LongRunTermination.RunUntilTerminal(Value(), manifest, evaluates, script, clock, limit);
      if maxSteps.None? {
        EndsWithinBudget(Value(), manifest, evaluates, script, clock, delta, n, n);
      }
      steps := 0;
      result := LoadOrCreate();
      while result.Returned? && result.state.status.Live?
        invariant Valid() && steps <= limit
        invariant end == Loop(Called(Value(), result), manifest, evaluates, script, clock, steps, limit)
        decreases limit - steps
      {
        if maxSteps.Some? && steps >= maxSteps.value {
          return;
        }
        assert steps < limit;
        result := RunStep(script(steps));
        steps := steps + 1;
      }
    }
  }
}
