/** `run_until_terminal`: how many steps it takes, for any callbacks, when the clock keeps moving. */
module LongRunTermination {
  import opened Wrappers
  import opened LongRunModel

  /** Each clock reading is at least `delta` later than the one before. */
  ghost predicate Advancing(clock: Clock, delta: real) {
    0.0 < delta && forall i: nat :: clock(i + 1) >= clock(i) + delta
  }

  /** The outcome of running until a terminal state, and the number of steps it took. */
  datatype Finished = Finished(called: Called, steps: nat)

  /** Whether the loop takes another step. */
  predicate GoesOn(c: Called) { c.result.Returned? && c.result.state.status.Live? }

  /** At most `limit` steps; the outcome of the callbacks in each step is given by `script`. */
  function Loop(c: Called, m: Manifest, evaluates: bool, script: nat -> Callbacks, clock: Clock,
                steps: nat, limit: nat): Finished
    decreases limit - steps
  {
    if !GoesOn(c) || steps >= limit then Finished(c, steps)
    else Loop(RunStep(c.world, m, evaluates, script(steps), clock), m, evaluates, script, clock, steps + 1, limit)
  }

  function RunUntilTerminal(w: World, m: Manifest, evaluates: bool, script: nat -> Callbacks, clock: Clock,
                            limit: nat): Finished
  {
    Loop(LoadOrCreate(w, m, clock), m, evaluates, script, clock, 0, limit)
  }

  /** The row of the run is stored, and it is the state the last call returned. */
  predicate Current(c: Called, m: Manifest) {
    c.result.Returned? ==>
      m.runId in c.world.store.runs && c.world.store.runs[m.runId] == c.result.state && c.result.state.digest == m.digest
  }

  // ---------------------------------------------------------------- one step on the clock

  lemma ExecuteReadings(m: Manifest, evaluates: bool, row: RunState, p: Proposal, cb: Callbacks, clock: Clock, t: nat)
    requires row.status.Live?
    ensures var s := Execute(m, evaluates, row, p, cb, clock, t);
            && s.row.startedAt == row.startedAt && s.row.digest == row.digest
            && (!s.raised && s.row.status.Live? ==>
                  s.ticks == t + 2 && clock(t + 1) - row.startedAt < m.maximumWall as real)
  {
  }

  lemma PlanReadings(m: Manifest, evaluates: bool, row: RunState, cb: Callbacks, clock: Clock, t: nat)
    requires row.status.Live?
    ensures var s := Plan(m, evaluates, row, cb, clock, t);
            && s.row.startedAt == row.startedAt && s.row.digest == row.digest
            && (!s.raised && s.row.status.Live? ==>
                  s.ticks == t + 3 && clock(t + 2) - row.startedAt < m.maximumWall as real)
  {
    hide Execute;
    if cb.planner.Planned? {
      ExecuteReadings(m, evaluates, row, cb.planner.proposal, cb, clock, t + 1);
    }
  }

  /** A step that leaves the run going has read the clock four times, the last time within the budget. */
  lemma GoingOnTakesFourReadings(m: Manifest, evaluates: bool, row: RunState, cb: Callbacks, clock: Clock, t: nat)
    requires row.status.Live?
    ensures var s := Step(m, evaluates, row, cb, clock, t);
            && s.row.startedAt == row.startedAt && s.row.digest == row.digest
            && (!s.raised && s.row.status.Live? ==>
                  s.ticks == t + 4 && clock(t + 3) - row.startedAt < m.maximumWall as real)
  {
    hide Plan;
    var reset := row.(failures := 0, duplicates := 0, lastFingerprint := None, updatedAt := clock(t));
    PlanReadings(m, evaluates, row, cb, clock, t + 1);
    PlanReadings(m, evaluates, reset, cb, clock, t + 1);
  }

  lemma StepOnClock(c: Called, m: Manifest, evaluates: bool, cb: Callbacks, clock: Clock)
    requires GoesOn(c) && Current(c, m)
    ensures var c' := RunStep(c.world, m, evaluates, cb, clock);
            && Current(c', m)
            && (GoesOn(c') ==> c'.result.state.startedAt == c.result.state.startedAt && c'.world.ticks == c.world.ticks + 4 &&
                               clock(c.world.ticks + 3) - c.result.state.startedAt < m.maximumWall as real)
  {
    hide Step;
    GoingOnTakesFourReadings(m, evaluates, c.result.state, cb, clock, c.world.ticks);
  }

  lemma {:induction false} ReadingsAdvance(clock: Clock, delta: real, i: nat, n: nat)
    requires Advancing(clock, delta)
    ensures clock(i + n) >= clock(i) + n as real * delta
  {
    if n > 0 {
      ReadingsAdvance(clock, delta, i, n - 1);
      assert clock(i + (n - 1) + 1) >= clock(i + (n - 1)) + delta;
      assert n as real * delta == (n - 1) as real * delta + delta;
    }
  }

  // ---------------------------------------------------------------- the bound

  /** `n` steps, at four readings each, exhaust the wall-clock budget. */
  predicate Enough(m: Manifest, delta: real, n: nat) { (4 * n) as real * delta >= m.maximumWall as real }

  lemma BudgetIsSpent(m: Manifest, clock: Clock, delta: real, n: nat, start: nat, startedAt: real)
    requires m.Valid() && Advancing(clock, delta) && Enough(m, delta, n) && startedAt + delta <= clock(start)
    ensures 0 < n && clock(start + 4 * n - 1) - startedAt >= m.maximumWall as real
  {
    if n > 0 {
      ReadingsAdvance(clock, delta, start, 4 * n - 1);
      assert (4 * n - 1) as real * delta + delta == (4 * n) as real * delta;
    }
  }

  /** Having read the clock from `start` on, four times a step, the loop is over by step `n`. */
  lemma {:induction false} LoopStops(c: Called, m: Manifest, evaluates: bool, script: nat -> Callbacks, clock: Clock,
                                     steps: nat, limit: nat, delta: real, n: nat, start: nat)
    requires m.Valid() && Advancing(clock, delta) && Enough(m, delta, n) && n <= limit
    requires Current(c, m) && steps <= n
    requires GoesOn(c) ==> c.world.ticks == start + 4 * steps && c.result.state.startedAt + delta <= clock(start)
    requires GoesOn(c) && steps > 0 ==> clock(c.world.ticks - 1) - c.result.state.startedAt < m.maximumWall as real
    ensures var f := Loop(c, m, evaluates, script, clock, steps, limit);
            f.steps <= n && !GoesOn(f.called) && f == Loop(c, m, evaluates, script, clock, steps, n)
    decreases n - steps
  {
    hide RunStep, LoadOrCreate, Current;
    if GoesOn(c) {
      if steps == n {
        BudgetIsSpent(m, clock, delta, n, start, c.result.state.startedAt);
        assert false;
      } else {
        StepOnClock(c, m, evaluates, script(steps), clock);
        var c' := RunStep(c.world, m, evaluates, script(steps), clock);
        LoopStops(c', m, evaluates, script, clock, steps + 1, limit, delta, n, start);
      }
    }
  }

  /**
   Whatever the callbacks do, the loop ends by itself within `n` steps: in a terminal state or with
   the exception of a callback. No larger `limit` on the steps makes a difference.
   */
  lemma EndsWithinBudget(w: World, m: Manifest, evaluates: bool, script: nat -> Callbacks, clock: Clock,
                         delta: real, n: nat, limit: nat)
    requires m.Valid() && Advancing(clock, delta) && Enough(m, delta, n) && n <= limit
    requires m.runId in w.store.runs ==> w.store.runs[m.runId].startedAt + delta <= clock(w.ticks)
    ensures var f := RunUntilTerminal(w, m, evaluates, script, clock, limit);
            && f == RunUntilTerminal(w, m, evaluates, script, clock, n)
            && f.steps <= n
            && (f.called.result.Returned? ==> !f.called.result.state.status.Live?)
  {
    hide RunStep;
    var c := LoadOrCreate(w, m, clock);
    if m.runId !in w.store.runs {
      ReadingsAdvance(clock, delta, w.ticks, 1);
    }
    LoopStops(c, m, evaluates, script, clock, 0, limit, delta, n, c.world.ticks);
  }

  /** With a limit on the steps, and any clock at all, the loop never takes more. */
  lemma {:induction false} NeverMoreThanLimit(c: Called, m: Manifest, evaluates: bool, script: nat -> Callbacks,
                                              clock: Clock, steps: nat, limit: nat)
    requires steps <= limit
    ensures var f := Loop(c, m, evaluates, script, clock, steps, limit);
            steps <= f.steps <= limit && (f.steps < limit ==> !GoesOn(f.called))
    decreases limit - steps
  {
    hide RunStep;
    if GoesOn(c) && steps < limit {
      NeverMoreThanLimit(RunStep(c.world, m, evaluates, script(steps), clock), m, evaluates, script, clock, steps + 1, limit);
    }
  }

  // ---------------------------------------------------------------- the bound is met

  /** Callbacks that always succeed but whose evaluator never passes the step. */
  function NeverPassing(p: Proposal): Callbacks {
    Callbacks(Planned(p), Executed(true, Json("{\"n\":1}")),
              Evaluated(Evaluation("e", "1", 0.0, Fail, ["no"], Digest("{\"n\":1}"), true)), true)
  }

  /** The clock that advances by exactly `delta` at each reading. */
  function Steady(delta: real): Clock { (i: nat) => i as real * delta }

  /** Such a step goes on unless its last reading is past the budget. */
  lemma NeverPassingGoesOn(m: Manifest, row: RunState, p: Proposal, clock: Clock, t: nat)
    requires row.status.Live? && Refusal(m, p).None?
    requires clock(t) <= clock(t + 1) <= clock(t + 2) <= clock(t + 3)
    requires clock(t + 3) - row.startedAt < m.maximumWall as real
    ensures var s := Step(m, true, row, NeverPassing(p), clock, t);
            !s.raised && s.row.status.Live?
  {
    ValidVerdict();
  }

  lemma ValidVerdict()
    ensures Evaluation("e", "1", 0.0, Fail, ["no"], Digest("{\"n\":1}"), true).Valid(Digest("{\"n\":1}"))
  {
    assert 'e' in "e" && '1' in "1" && 'n' in "no";
  }

  lemma {:induction false} NeverPassingLoop(c: Called, m: Manifest, p: Proposal, delta: real, n: nat, steps: nat,
                                            start: nat, limit: nat)
    requires m.Valid() && Refusal(m, p).None? && 0.0 < delta
    requires n > 0 && !Enough(m, delta, n - 1) && n <= limit
    requires Current(c, m) && GoesOn(c) && steps < n
    requires c.world.ticks == start + 1 + 4 * steps && c.result.state.startedAt == start as real * delta
    ensures Loop(c, m, true, (_: nat) => NeverPassing(p), Steady(delta), steps, limit).steps >= n
    decreases n - steps
  {
    hide RunStep;
    var clock := Steady(delta);
    var script: nat -> Callbacks := (_: nat) => NeverPassing(p);
    var c' := RunStep(c.world, m, true, script(steps), clock);
    StepOnClock(c, m, true, script(steps), clock);
    if steps + 1 < n {
      SteadyWithinBudget(m, delta, n, steps, start);
      NeverPassingStep(c, m, p, clock);
      NeverPassingLoop(c', m, p, delta, n, steps + 1, start, limit);
    } else {
      NeverMoreThanLimit(c', m, true, script, clock, steps + 1, limit);
    }
  }

  lemma NeverPassingStep(c: Called, m: Manifest, p: Proposal, clock: Clock)
    requires GoesOn(c) && Current(c, m) && Refusal(m, p).None?
    requires var t := c.world.ticks; clock(t) <= clock(t + 1) <= clock(t + 2) <= clock(t + 3)
    requires clock(c.world.ticks + 3) - c.result.state.startedAt < m.maximumWall as real
    ensures GoesOn(RunStep(c.world, m, true, NeverPassing(p), clock))
  {
    hide Step;
    NeverPassingGoesOn(m, c.result.state, p, clock, c.world.ticks);
  }

  lemma SteadyWithinBudget(m: Manifest, delta: real, n: nat, steps: nat, start: nat)
    requires 0.0 < delta && steps + 1 < n && !Enough(m, delta, n - 1)
    ensures var t := start + 1 + 4 * steps;
            && Steady(delta)(t) <= Steady(delta)(t + 1) <= Steady(delta)(t + 2) <= Steady(delta)(t + 3)
            && Steady(delta)(t + 3) - start as real * delta < m.maximumWall as real
  {
    var t := start + 1 + 4 * steps;
    assert (t + 3) as real * delta == start as real * delta + (4 * (steps + 1)) as real * delta;
    assert (4 * (steps + 1)) as real * delta <= (4 * (n - 1)) as real * delta;
  }

  /** The bound of `EndsWithinBudget` is the best there is: some callbacks and some clock need every step of it. */
  lemma BoundIsMet(w: World, m: Manifest, p: Proposal, delta: real, n: nat, limit: nat)
    requires m.Valid() && Refusal(m, p).None? && 0.0 < delta && m.runId !in w.store.runs
    requires Enough(m, delta, n) && (n > 0 ==> !Enough(m, delta, n - 1)) && n <= limit
    ensures RunUntilTerminal(w, m, true, (_: nat) => NeverPassing(p), Steady(delta), limit).steps == n
  {
    hide RunStep, Refusal;
    var clock := Steady(delta);
    var c := LoadOrCreate(w, m, clock);
    SteadyAdvances(delta);
    SteadyStart(m, delta, n, w.ticks);
    EndsWithinBudget(w, m, true, (_: nat) => NeverPassing(p), clock, delta, n, limit);
    NeverPassingLoop(c, m, p, delta, n, 0, w.ticks, limit);
  }

  lemma SteadyAdvances(delta: real)
    requires 0.0 < delta
    ensures Advancing(Steady(delta), delta)
  {
    forall i: nat ensures Steady(delta)(i + 1) >= Steady(delta)(i) + delta {
      assert (i + 1) as real * delta == i as real * delta + delta;
    }
  }

  lemma SteadyStart(m: Manifest, delta: real, n: nat, start: nat)
    requires m.Valid() && 0.0 < delta && Enough(m, delta, n)
    ensures 0 < n
  {
    SteadyAdvances(delta);
    assert (start + 1) as real * delta == start as real * delta + delta;
    BudgetIsSpent(m, Steady(delta), delta, n, start + 1, start as real * delta);
  }
}
