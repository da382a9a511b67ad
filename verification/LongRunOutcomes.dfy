/** What one step comes to, by its readings and its callbacks: each end exactly when the mission calls for it. */
module LongRunOutcomes {
  import opened Wrappers
  import opened Texts
  import opened LongRunModel
  import opened LongRunInvariants
  import opened LongRunRuns

  /** A mission is invalid for a budget out of order, a threshold off the scale, no room to fail, or a contradiction. */
  lemma MissionIsInvalidIff(m: Manifest)
    ensures !m.Valid() <==>
            || m.minimumWall < 0 || m.maximumWall <= 0 || m.minimumWall > m.maximumWall
            || m.threshold < 0.0 || m.threshold > 1.0
            || m.maxFailures < 1 || m.maxDuplicates < 1
            || exists effect :: effect in m.allowed && effect in m.prohibited
  {
  }

  predicate InBudget(m: Manifest, row: RunState, now: real) { now < row.startedAt + m.maximumWall as real }

  /** Too many failures or duplicates in a row. */
  predicate Stuck(m: Manifest, row: RunState) { row.failures >= m.maxFailures || row.duplicates >= m.maxDuplicates }

  /** The planner's proposal is allowed, and there is an evaluator if there has to be one. */
  predicate Cleared(m: Manifest, evaluates: bool, cb: Callbacks) {
    cb.planner.Planned? && Allows(m, cb.planner.proposal) && (m.independentEvaluation ==> evaluates)
  }

  /** The executor has left evidence that is JSON, and some of it if the mission wants any. */
  predicate Evidenced(m: Manifest, cb: Callbacks) {
    cb.executor.Executed? && cb.executor.evidence.Json? && (m.evidenceRequired ==> cb.executor.evidence.text != "{}")
  }

  /** Somebody says who they are, gives reasons, and judges this very evidence on the scale. */
  predicate Trusted(e: Evaluation, text: string) {
    && (exists c <- e.evaluatorId :: !IsSpace(c)) && (exists c <- e.evaluatorVersion :: !IsSpace(c))
    && 0.0 <= e.score <= 1.0 && (e.verdict.Pass? || e.verdict.Fail?)
    && |e.reasons| > 0 && (forall r <- e.reasons :: exists c <- r :: !IsSpace(c))
    && e.digest.of == text && e.metadataIsJson
  }

  predicate Judged(evaluates: bool, cb: Callbacks, text: string) {
    evaluates ==> cb.evaluator.Evaluated? && Trusted(cb.evaluator.evaluation, text)
  }

  /** Evidence and evaluation, if there is one, are in order. */
  predicate Conclusive(m: Manifest, evaluates: bool, cb: Callbacks) {
    Evidenced(m, cb) && Judged(evaluates, cb, cb.executor.evidence.text)
  }

  predicate Passing(m: Manifest, evaluates: bool, cb: Callbacks) {
    && Conclusive(m, evaluates, cb) && cb.executor.success && evaluates
    && cb.evaluator.evaluation.verdict.Pass? && cb.evaluator.evaluation.score >= m.threshold
  }

  lemma TrustedMeans(e: Evaluation, text: string)
    ensures e.Valid(Digest(text)) <==> Trusted(e, text)
  {
    hide IsSpace;
    assert Blank(e.evaluatorId) <==> !exists c <- e.evaluatorId :: !IsSpace(c);
    assert Blank(e.evaluatorVersion) <==> !exists c <- e.evaluatorVersion :: !IsSpace(c);
    forall r <- e.reasons ensures Blank(r) <==> !exists c <- r :: !IsSpace(c) {
    }
  }

  // ---------------------------------------------------------------- from the executor on

  /** What the event says of the step it reports, whose result is read at `now`. */
  predicate Tells(m: Manifest, evaluates: bool, row: RunState, p: Proposal, cb: Callbacks, payload: Payload, now: real) {
    var worth := p.qualityGain + p.informationGain - (p.cost + p.risk + p.duplication);
    match payload
    case StepException(f, v) => f == p.fingerprint && v == worth && cb.executor.ExecutorRaised?
    case PersistenceFailure(f, v) =>
      && f == p.fingerprint && v == worth && cb.executor.Executed?
      && (cb.executor.evidence.NotJson? || (Conclusive(m, evaluates, cb) && !cb.encodable))
    case EvidenceMissing(f, d) =>
      && f == p.fingerprint && cb.executor.Executed? && cb.executor.evidence == Json("{}") && m.evidenceRequired
      && d == Digest("{}")
    case EvaluationException(f, d) =>
      && f == p.fingerprint && Evidenced(m, cb) && evaluates && cb.evaluator.EvaluatorRaised?
      && d == Digest(cb.executor.evidence.text)
    case EvaluationInvalid(f, d) =>
      && f == p.fingerprint && Evidenced(m, cb) && evaluates && !cb.evaluator.EvaluatorRaised?
      && !Judged(evaluates, cb, cb.executor.evidence.text) && d == Digest(cb.executor.evidence.text)
    case StepResult(f, success, v, text, d, status, evaluation) =>
      && f == p.fingerprint && v == worth && Conclusive(m, evaluates, cb) && cb.encodable
      && success == cb.executor.success && text == cb.executor.evidence.text && d == Digest(text)
      && evaluation == (if evaluates then Some(cb.evaluator.evaluation) else None)
      && status == (if !InBudget(m, row, now) then Stopped
                    else if Passing(m, evaluates, cb) && now >= row.startedAt + m.minimumWall as real then Completed
                    else Live)
    case _ => false
  }

  lemma ExecuteTells(m: Manifest, evaluates: bool, row: RunState, p: Proposal, cb: Callbacks, clock: Clock, t: nat)
    requires row.status.Live?
    ensures var s := Execute(m, evaluates, row, p, cb, clock, t);
            && s.executed == Some(p) && |s.events| == 1 && Tells(m, evaluates, row, p, cb, s.events[0].payload, clock(t + 1))
            && s.events[0].payload.ReportsExecution()
            && (s.raised <==> s.events[0].payload.StepException? || s.events[0].payload.PersistenceFailure? ||
                              s.events[0].payload.EvaluationException?)
  {
    hide Evaluate, Trusted, Evaluation.Valid;
    if Evidenced(m, cb) {
      EvaluateTells(m, evaluates, row, p, cb, clock, t + 1);
    }
  }

  lemma EvaluateTells(m: Manifest, evaluates: bool, row: RunState, p: Proposal, cb: Callbacks, clock: Clock, t: nat)
    requires row.status.Live? && Evidenced(m, cb)
    ensures var s := Evaluate(m, evaluates, row, p, cb.executor.success, cb.executor.evidence.text, cb, clock, t);
            && s.executed == Some(p) && |s.events| == 1 && Tells(m, evaluates, row, p, cb, s.events[0].payload, clock(t))
            && (s.raised <==> s.events[0].payload.PersistenceFailure? || s.events[0].payload.EvaluationException?)
  {
    hide Trusted, Evaluation.Valid;
    if cb.evaluator.Evaluated? {
      TrustedMeans(cb.evaluator.evaluation, cb.executor.evidence.text);
    }
  }

  // ---------------------------------------------------------------- a whole step

  /** The row that the planner is given: a stuck run starts over. */
  function Given(m: Manifest, row: RunState, now: real): RunState {
    if Stuck(m, row) then row.(failures := 0, duplicates := 0, lastFingerprint := None, updatedAt := now) else row
  }

  /** What the last event says of a step that begins at reading `t`. */
  predicate LastTells(m: Manifest, evaluates: bool, row: RunState, cb: Callbacks, clock: Clock, t: nat, payload: Payload) {
    match payload
    case WatchdogStop(afterPlanning) =>
      if afterPlanning then InBudget(m, row, clock(t)) && cb.planner.Planned? && !InBudget(m, row, clock(t + 1))
      else !InBudget(m, row, clock(t))
    case PlannerException(status) =>
      && InBudget(m, row, clock(t)) && cb.planner.PlannerRaised?
      && status == (if InBudget(m, row, clock(t + 1)) then Live else Stopped)
    case StepBlocked(f, reason) =>
      && InBudget(m, row, clock(t)) && InBudget(m, row, clock(t + 1))
      && cb.planner.Planned? && f == cb.planner.proposal.fingerprint && !Allows(m, cb.planner.proposal)
      && Refusal(m, cb.planner.proposal) == Some(reason)
    case EvaluatorMissing(f) =>
      && InBudget(m, row, clock(t)) && InBudget(m, row, clock(t + 1))
      && cb.planner.Planned? && f == cb.planner.proposal.fingerprint && Allows(m, cb.planner.proposal)
      && m.independentEvaluation && !evaluates
    case _ =>
      && InBudget(m, row, clock(t)) && InBudget(m, row, clock(t + 1)) && Cleared(m, evaluates, cb)
      && Tells(m, evaluates, row, cb.planner.proposal, cb, payload, clock(t + 3))
  }

  lemma PlanTells(m: Manifest, evaluates: bool, row: RunState, cb: Callbacks, clock: Clock, t: nat)
    requires row.status.Live? && InBudget(m, row, clock(t))
    ensures var s := Plan(m, evaluates, row, cb, clock, t + 1);
            && |s.events| == 1 && LastTells(m, evaluates, row, cb, clock, t, s.events[0].payload)
            && s.executed == (if InBudget(m, row, clock(t + 1)) && Cleared(m, evaluates, cb)
                              then Some(cb.planner.proposal) else None)
            && (s.raised <==> s.events[0].payload.PlannerException? || s.events[0].payload.StepException? ||
                              s.events[0].payload.PersistenceFailure? || s.events[0].payload.EvaluationException?)
  {
    hide Execute, Refusal, Allows, Tells;
    if cb.planner.Planned? {
      var p := cb.planner.proposal;
      GovernorMeans(m, p);
      ExecuteTells(m, evaluates, row, p, cb, clock, t + 2);
    }
  }

  /** Neither the time spent nor what an event may say of a step depends on the counters that are reset. */
  lemma SameToTell(m: Manifest, evaluates: bool, row: RunState, cb: Callbacks, clock: Clock, t: nat, payload: Payload)
    ensures var given := Given(m, row, clock(t));
            && (forall now :: InBudget(m, given, now) <==> InBudget(m, row, now))
            && LastTells(m, evaluates, given, cb, clock, t, payload) == LastTells(m, evaluates, row, cb, clock, t, payload)
  {
    hide Stuck, Refusal, Allows, Conclusive, Passing;
  }

  /**
   The last event of a step says truly how it went: there is just one event that fits. A replan comes
   before it exactly when the run is stuck and has time left; the executor is called exactly when both
   readings before it are within the budget and the proposal is cleared.
   */
  lemma StepTells(m: Manifest, evaluates: bool, row: RunState, cb: Callbacks, clock: Clock, t: nat)
    requires row.status.Live?
    ensures var s := Step(m, evaluates, row, cb, clock, t);
            && s.events != [] && LastTells(m, evaluates, row, cb, clock, t, s.events[|s.events| - 1].payload)
            && (|s.events| == 2 <==> InBudget(m, row, clock(t)) && Stuck(m, row))
            && s.executed == (if InBudget(m, row, clock(t)) && InBudget(m, row, clock(t + 1)) && Cleared(m, evaluates, cb)
                              then Some(cb.planner.proposal) else None)
            && (s.raised <==> var last := s.events[|s.events| - 1].payload;
                              last.PlannerException? || last.StepException? || last.PersistenceFailure? ||
                              last.EvaluationException?)
  {
    hide Plan, LastTells, Cleared;
    var given := Given(m, row, clock(t));
    if InBudget(m, row, clock(t)) {
      PlanTells(m, evaluates, given, cb, clock, t);
      SameToTell(m, evaluates, row, cb, clock, t, Plan(m, evaluates, given, cb, clock, t + 1).events[0].payload);
    } else {
      OutOfTime(m, evaluates, row, cb, clock, t);
    }
  }

  lemma OutOfTime(m: Manifest, evaluates: bool, row: RunState, cb: Callbacks, clock: Clock, t: nat)
    requires !InBudget(m, row, clock(t))
    ensures LastTells(m, evaluates, row, cb, clock, t, WatchdogStop(false))
  {
  }

  /** How many times the clock has been read when the step ends so. */
  function Readings(payload: Payload, cb: Callbacks): nat {
    match payload
    case WatchdogStop(afterPlanning) => if afterPlanning then 2 else 1
    case PlannerException(_) => 2
    case StepBlocked(_, _) => 3
    case EvaluatorMissing(_) => 3
    case StepException(_, _) => 3
    case EvidenceMissing(_, _) => 3
    case PersistenceFailure(_, _) => if cb.executor.Executed? && cb.executor.evidence.NotJson? then 3 else 4
    case _ => 4
  }

  predicate ReadsSo(s: Stepped, cb: Callbacks, clock: Clock, t: nat) {
    && s.events != [] && s.ticks == t + Readings(s.events[|s.events| - 1].payload, cb)
    && s.row.updatedAt == clock(s.ticks - 1)
  }

  lemma ExecuteReads(m: Manifest, evaluates: bool, row: RunState, p: Proposal, cb: Callbacks, clock: Clock, t: nat)
    ensures ReadsSo(Execute(m, evaluates, row, p, cb, clock, t + 2), cb, clock, t)
  {
    hide Evaluation.Valid;
  }

  lemma PlanReads(m: Manifest, evaluates: bool, row: RunState, cb: Callbacks, clock: Clock, t: nat)
    ensures ReadsSo(Plan(m, evaluates, row, cb, clock, t + 1), cb, clock, t)
  {
    hide Execute, Refusal;
    if cb.planner.Planned? {
      ExecuteReads(m, evaluates, row, cb.planner.proposal, cb, clock, t);
    }
  }

  /** The clock is read one to four times, by the way the step ends, and the row carries the last reading. */
  lemma StepReads(m: Manifest, evaluates: bool, row: RunState, cb: Callbacks, clock: Clock, t: nat)
    ensures ReadsSo(Step(m, evaluates, row, cb, clock, t), cb, clock, t)
  {
    hide Plan;
    PlanReads(m, evaluates, row, cb, clock, t);
    var reset := row.(failures := 0, duplicates := 0, lastFingerprint := None, updatedAt := clock(t));
    PlanReads(m, evaluates, reset, cb, clock, t);
  }

  /** A step completes its run exactly when everything the mission asks for has come together in time. */
  lemma CompletesIff(m: Manifest, evaluates: bool, row: RunState, cb: Callbacks, clock: Clock, t: nat)
    requires m.Valid() && row.status.Live? && WithinLimits(m, row)
    ensures Step(m, evaluates, row, cb, clock, t).row.status.Completed? <==>
            && InBudget(m, row, clock(t)) && InBudget(m, row, clock(t + 1)) && InBudget(m, row, clock(t + 3))
            && Cleared(m, evaluates, cb) && Passing(m, evaluates, cb) && cb.encodable
            && clock(t + 3) >= row.startedAt + m.minimumWall as real
  {
    hide Step, Allows, Refusal, Justified, Trusted;
    StepTells(m, evaluates, row, cb, clock, t);
    StepKeeps(m, evaluates, row, cb, clock, t);
  }

  /** A step stops its run exactly when one of the readings that count is past the budget. */
  lemma StopsIff(m: Manifest, evaluates: bool, row: RunState, cb: Callbacks, clock: Clock, t: nat)
    requires m.Valid() && row.status.Live? && WithinLimits(m, row)
    ensures Step(m, evaluates, row, cb, clock, t).row.status.Stopped? <==>
            || !InBudget(m, row, clock(t)) || !InBudget(m, row, clock(t + 1))
            || (Cleared(m, evaluates, cb) && Conclusive(m, evaluates, cb) && cb.encodable && !InBudget(m, row, clock(t + 3)))
  {
    hide Step, Allows, Refusal, Justified, Trusted;
    StepTells(m, evaluates, row, cb, clock, t);
    StepKeeps(m, evaluates, row, cb, clock, t);
  }

  // ---------------------------------------------------------------- a step that stops half-way

  /** Whether a step gets as far as the executor. */
  predicate ReachesExecutor(m: Manifest, evaluates: bool, row: RunState, cb: Callbacks, clock: Clock, t: nat) {
    InBudget(m, row, clock(t)) && InBudget(m, row, clock(t + 1)) && Cleared(m, evaluates, cb)
  }

  /**
   What a process that stops leaves of the step of a live run: a replan that was due, unless it stops before
   saving anything; and, when it stops after the executor's call, that call and no event for it.
   */
  lemma CutLeaves(w: World, m: Manifest, evaluates: bool, cb: Callbacks, clock: Clock, cut: Cut)
    requires m.runId in w.store.runs && w.store.runs[m.runId].digest == m.digest && w.store.runs[m.runId].status.Live?
    ensures var row, w' := w.store.runs[m.runId], RunCut(w, m, evaluates, cb, clock, cut);
            && w'.store == (if cut != BeforeSaving && InBudget(m, row, clock(w.ticks)) && Stuck(m, row)
                            then Advance(w, m.runId, Replanned(row, clock(w.ticks), w.ticks + 1)).store else w.store)
            && (if cut == AfterExecutor && ReachesExecutor(m, evaluates, row, cb, clock, w.ticks) then
                  w'.executed == w.executed + [(m.runId, cb.planner.proposal)] && w'.lost == w.lost + [m.runId]
                else w'.executed == w.executed && w'.lost == w.lost)
  {
    hide Refusal, Allows;
    if cb.planner.Planned? {
      GovernorMeans(m, cb.planner.proposal);
    }
  }
}
