/**
 The LongRun engine as functions on values: one call of `run_step` on a stored run, with the
 callbacks' outcomes and the clock readings as inputs, and the store it leaves behind.
 */
module LongRunModel {
  import opened Wrappers
  import opened Texts

  // ---------------------------------------------------------------- data

  datatype Status = Live | Completed | Stopped | Blocked

  /** A SHA-256 digest, taken to be injective: it stands for the text it was made from. */
  datatype Digest = Digest(of: string)

  datatype Manifest = Manifest(
    runId: string, digest: Digest, minimumWall: int, maximumWall: int, threshold: real,
    maxFailures: nat, maxDuplicates: nat, evidenceRequired: bool, independentEvaluation: bool,
    allowed: set<string>, prohibited: set<string>)
  {
    predicate Valid() {
      && 0 <= minimumWall <= maximumWall && 0 < maximumWall
      && 0.0 <= threshold <= 1.0
      && 1 <= maxFailures && 1 <= maxDuplicates
      && allowed !! prohibited
    }
  }

  datatype RunState = RunState(
    runId: string, digest: Digest, status: Status, step: nat, failures: nat,
    lastFingerprint: Option<string>, duplicates: nat, score: real, startedAt: real, updatedAt: real)

  datatype Proposal = Proposal(
    fingerprint: string, qualityGain: real, informationGain: real, cost: real, risk: real,
    duplication: real, effect: string)
  {
    function Value(): real { qualityGain + informationGain - cost - risk - duplication }
  }

  /** Step evidence: an object with a canonical JSON text, or something that has none. */
  datatype Evidence = Json(text: string) | NotJson

  const EMPTY_OBJECT := "{}"

  datatype Verdict = Pass | Fail | OtherVerdict

  datatype Evaluation = Evaluation(
    evaluatorId: string, evaluatorVersion: string, score: real, verdict: Verdict,
    reasons: seq<string>, digest: Digest, metadataIsJson: bool)
  {
    predicate Valid(expected: Digest) {
      && !Blank(evaluatorId) && !Blank(evaluatorVersion)
      && 0.0 <= score <= 1.0
      && !verdict.OtherVerdict?
      && reasons != [] && (forall r <- reasons :: !Blank(r))
      && digest == expected
      && metadataIsJson
    }
  }

  datatype Payload =
    | RunStarted(digest: Digest)
    | WatchdogStop(afterPlanning: bool)
    | WatchdogReplan
    | PlannerException(status: Status)
    | StepBlocked(fingerprint: string, reason: string)
    | EvaluatorMissing(fingerprint: string)
    | StepException(fingerprint: string, value: real)
    | PersistenceFailure(fingerprint: string, value: real)
    | EvidenceMissing(fingerprint: string, evidence: Digest)
    | EvaluationException(fingerprint: string, evidence: Digest)
    | EvaluationInvalid(fingerprint: string, evidence: Digest)
    | StepResult(fingerprint: string, success: bool, value: real, text: string, evidence: Digest,
                 status: Status, evaluation: Option<Evaluation>)
  {
    /** Whether the event reports on a step that the executor was called for. */
    predicate ReportsExecution() {
      StepException? || PersistenceFailure? || EvidenceMissing? || EvaluationException? ||
      EvaluationInvalid? || StepResult?
    }
  }

  datatype Event = Event(runId: string, step: nat, payload: Payload, at: real)

  datatype Store = Store(runs: map<string, RunState>, events: seq<Event>)

  // ---------------------------------------------------------------- callbacks and clock

  datatype PlannerOutcome = Planned(proposal: Proposal) | PlannerRaised
  datatype ExecutorOutcome = Executed(success: bool, evidence: Evidence) | ExecutorRaised
  datatype EvaluatorOutcome = Evaluated(evaluation: Evaluation) | EvaluatorRaised | EvidenceMutated | WrongType

  /** What the callbacks do in one step, and whether its result can be stored as JSON. */
  datatype Callbacks = Callbacks(
    planner: PlannerOutcome, executor: ExecutorOutcome, evaluator: EvaluatorOutcome, encodable: bool)

  type Clock = nat -> real

  // ---------------------------------------------------------------- watchdog and governor

  datatype WatchdogAction = Stop | Replan | Continue

  function Watchdog(m: Manifest, elapsed: real, failures: nat, duplicates: nat): WatchdogAction {
    if elapsed >= m.maximumWall as real then Stop
    else if failures >= m.maxFailures then Replan
    else if duplicates >= m.maxDuplicates then Replan
    else Continue
  }

  /** The reason a proposal is refused, if it is. */
  function Refusal(m: Manifest, p: Proposal): Option<string> {
    if p.effect in m.prohibited then Some("effect explicitly prohibited")
    else if p.effect !in m.allowed then Some("effect not allowlisted")
    else if p.Value() <= 0.0 then Some("non-positive expected value")
    else None
  }

  // ---------------------------------------------------------------- one step

  /** The row and the new events, how many clock readings were taken, the result, and what was executed. */
  datatype Stepped = Stepped(row: RunState, events: seq<Event>, ticks: nat, raised: bool, executed: Option<Proposal>)

  function Log(row: RunState, payload: Payload): Event { Event(row.runId, row.step, payload, row.updatedAt) }

  function Ending(row: RunState, payload: Payload, ticks: nat, raised: bool, executed: Option<Proposal>): Stepped {
    Stepped(row, [Log(row, payload)], ticks, raised, executed)
  }

  function Step(m: Manifest, evaluates: bool, row: RunState, cb: Callbacks, clock: Clock, t: nat): Stepped {
    var now := clock(t);
    match Watchdog(m, now - row.startedAt, row.failures, row.duplicates)
    case Stop => Ending(row.(status := Stopped, updatedAt := now), WatchdogStop(false), t + 1, false, None)
    case Replan =>
      var reset := row.(failures := 0, duplicates := 0, lastFingerprint := None, updatedAt := now);
      var s := Plan(m, evaluates, reset, cb, clock, t + 1);
      s.(events := [Log(reset, WatchdogReplan)] + s.events)
    case Continue => Plan(m, evaluates, row, cb, clock, t + 1)
  }

  function Plan(m: Manifest, evaluates: bool, row: RunState, cb: Callbacks, clock: Clock, t: nat): Stepped
  {
    var now := clock(t);
    var spent := now - row.startedAt >= m.maximumWall as real;
    match cb.planner
    case PlannerRaised =>
      var status := if spent then Stopped else row.status;
      Ending(row.(status := status, step := row.step + 1, failures := row.failures + 1, updatedAt := now),
             PlannerException(status), t + 1, true, None)
    case Planned(p) =>
      if spent then
        Ending(row.(status := Stopped, updatedAt := now), WatchdogStop(true), t + 1, false, None)
      else if Refusal(m, p).Some? then
        Ending(row.(status := Blocked, updatedAt := clock(t + 1)),
               StepBlocked(p.fingerprint, Refusal(m, p).value), t + 2, false, None)
      else if m.independentEvaluation && !evaluates then
        Ending(row.(status := Blocked, updatedAt := clock(t + 1)),
               EvaluatorMissing(p.fingerprint), t + 2, false, None)
      else
        Execute(m, evaluates, row, p, cb, clock, t + 1)
  }

  /** The row once the step counts, whatever comes of it. */
  function Counted(row: RunState, p: Proposal, now: real): RunState {
    row.(step := row.step + 1, lastFingerprint := Some(p.fingerprint),
         duplicates := if row.lastFingerprint == Some(p.fingerprint) then row.duplicates + 1 else 0,
         updatedAt := now)
  }

  function Failed(row: RunState, p: Proposal, now: real): RunState {
    Counted(row, p, now).(failures := row.failures + 1)
  }

  function Execute(m: Manifest, evaluates: bool, row: RunState, p: Proposal,
                   cb: Callbacks, clock: Clock, t: nat): Stepped
  {
    var now := clock(t);
    match cb.executor
    case ExecutorRaised =>
      Ending(Failed(row, p, now), StepException(p.fingerprint, p.Value()), t + 1, true, Some(p))
    case Executed(_, NotJson) =>
      Ending(Failed(row, p, now), PersistenceFailure(p.fingerprint, p.Value()), t + 1, true, Some(p))
    case Executed(success, Json(text)) =>
      if m.evidenceRequired && text == EMPTY_OBJECT then
        Ending(Counted(row, p, now).(status := Blocked), EvidenceMissing(p.fingerprint, Digest(text)),
               t + 1, false, Some(p))
      else
        Evaluate(m, evaluates, row, p, success, text, cb, clock, t + 1)
  }

  function Evaluate(m: Manifest, evaluates: bool, row: RunState, p: Proposal,
                    success: bool, text: string, cb: Callbacks, clock: Clock, t: nat): Stepped
  {
    var now := clock(t);
    var digest := Digest(text);
    if evaluates && cb.evaluator.EvaluatorRaised? then
      Ending(Failed(row, p, now), EvaluationException(p.fingerprint, digest), t + 1, true, Some(p))
    else if evaluates && !(cb.evaluator.Evaluated? && cb.evaluator.evaluation.Valid(digest)) then
      Ending(Counted(row, p, now).(status := Blocked), EvaluationInvalid(p.fingerprint, digest), t + 1,
             false, Some(p))
    else
      Conclude(m, row, p, success, text,
               if evaluates then Some(cb.evaluator.evaluation) else None, cb.encodable, now, t + 1)
  }

  function Concluded(m: Manifest, row: RunState, p: Proposal, success: bool, evaluation: Option<Evaluation>,
                     now: real): RunState
  {
    var elapsed := now - row.startedAt;
    var score := if evaluation.Some? then evaluation.value.score else 0.0;
    Counted(row, p, now).(
      failures := if success then 0 else row.failures + 1,
      score := if score > row.score then score else row.score,
      status :=
        if elapsed >= m.maximumWall as real then Stopped
        else if success && evaluation.Some? && evaluation.value.verdict.Pass? &&
                evaluation.value.score >= m.threshold && elapsed >= m.minimumWall as real then Completed
        else row.status)
  }

  function Conclude(m: Manifest, row: RunState, p: Proposal, success: bool, text: string,
                    evaluation: Option<Evaluation>, encodable: bool, now: real, ticks: nat): Stepped
  {
    var done := Concluded(m, row, p, success, evaluation, now);
    if encodable then
      Ending(done, StepResult(p.fingerprint, success, p.Value(), text, Digest(text), done.status, evaluation), ticks, false, Some(p))
    else
      Ending(Failed(row, p, now), PersistenceFailure(p.fingerprint, p.Value()), ticks, true, Some(p))
  }

  // ---------------------------------------------------------------- calls on the store

  function Initial(m: Manifest, now: real): RunState {
    RunState(m.runId, m.digest, Live, 0, 0, None, 0, 0.0, now, now)
  }

  /** The result of a call: the status it returns, or an exception. */
  datatype CallResult = Returned(state: RunState) | MissionChanged | CallbackRaised

  /**
   The store, the number of clock readings so far, every proposal handed to the executor, and the runs
   whose process stopped after such a call, before its event was saved: one entry for each.
   */
  datatype World = World(store: Store, ticks: nat, executed: seq<(string, Proposal)>, lost: seq<string>)

  datatype Called = Called(world: World, result: CallResult)

  function LoadOrCreate(w: World, m: Manifest, clock: Clock): Called {
    if m.runId !in w.store.runs then
      var row := Initial(m, clock(w.ticks));
      Called(w.(store := Store(w.store.runs[m.runId := row],
                               w.store.events + [Event(m.runId, 0, RunStarted(m.digest), row.startedAt)]),
                ticks := w.ticks + 1),
             Returned(row))
    else if w.store.runs[m.runId].digest != m.digest then Called(w, MissionChanged)
    else Called(w, Returned(w.store.runs[m.runId]))
  }

  /** The world after a step of the run `id`. */
  function Advance(w: World, id: string, s: Stepped): World {
    w.(store := Store(w.store.runs[id := s.row], w.store.events + s.events), ticks := s.ticks,
       executed := w.executed + (if s.executed.Some? then [(id, s.executed.value)] else []))
  }

  function RunStep(w: World, m: Manifest, evaluates: bool, cb: Callbacks, clock: Clock): Called {
    var loaded := LoadOrCreate(w, m, clock);
    if !loaded.result.Returned? || !loaded.result.state.status.Live? then loaded
    else
      var s := Step(m, evaluates, loaded.result.state, cb, clock, loaded.world.ticks);
      Called(Advance(loaded.world, m.runId, s),
             if s.raised then CallbackRaised else Returned(s.row))
  }

  // ---------------------------------------------------------------- a process that stops

  /** Where a process stops inside a step: before it saves anything, after a replan, or after the executor's call. */
  datatype Cut = BeforeSaving | AfterReplan | AfterExecutor

  /** The proposal that the executor is called with, if the step gets that far. */
  function HandedOver(m: Manifest, evaluates: bool, row: RunState, cb: Callbacks, now: real): Option<Proposal> {
    if cb.planner.Planned? && now - row.startedAt < m.maximumWall as real && Refusal(m, cb.planner.proposal).None? &&
       (m.independentEvaluation ==> evaluates) then Some(cb.planner.proposal)
    else None
  }

  function Replanned(row: RunState, now: real, ticks: nat): Stepped {
    var reset := row.(failures := 0, duplicates := 0, lastFingerprint := None, updatedAt := now);
    Ending(reset, WatchdogReplan, ticks, false, None)
  }

  /** What is left of a step that stops there: the rest of it never happens. */
  function RunCut(w: World, m: Manifest, evaluates: bool, cb: Callbacks, clock: Clock, cut: Cut): World {
    var loaded := LoadOrCreate(w, m, clock);
    if !loaded.result.Returned? || !loaded.result.state.status.Live? then loaded.world
    else
      var row, t := loaded.result.state, loaded.world.ticks;
      var now := clock(t);
      var read := loaded.world.(ticks := t + 1);
      match Watchdog(m, now - row.startedAt, row.failures, row.duplicates)
      case Stop => read
      case Continue => CutLater(read, m, evaluates, row, cb, clock, cut)
      case Replan =>
        if cut.BeforeSaving? then read
        else
          var s := Replanned(row, now, t + 1);
          CutLater(Advance(loaded.world, m.runId, s), m, evaluates, s.row, cb, clock, cut)
  }

  function CutLater(w: World, m: Manifest, evaluates: bool, row: RunState, cb: Callbacks, clock: Clock, cut: Cut): World {
    var p := HandedOver(m, evaluates, row, cb, clock(w.ticks));
    if cut.AfterExecutor? && p.Some? then
      w.(ticks := w.ticks + 1, executed := w.executed + [(m.runId, p.value)], lost := w.lost + [m.runId])
    else w
  }

  /** One `run_step` of some engine on the shared store, whole or cut off. */
  datatype Call = Call(m: Manifest, evaluates: bool, cb: Callbacks, cut: Option<Cut>)

  function AfterCall(w: World, c: Call, clock: Clock): World {
    if c.cut.Some? then RunCut(w, c.m, c.evaluates, c.cb, clock, c.cut.value)
    else RunStep(w, c.m, c.evaluates, c.cb, clock).world
  }

  function RunAll(w: World, calls: seq<Call>, clock: Clock): World
    decreases |calls|
  {
    if calls == [] then w else RunAll(AfterCall(w, calls[0], clock), calls[1..], clock)
  }
}
