/**
 Steps of several engines that overlap on one store. The store takes no lock and an update checks no
 version, so a step may save over a row that has changed since the step loaded it. While every save
 finds its row unchanged, all is as if the steps came one after the other; one save that does not can
 bring a completed run back to life.
 */
module LongRunOverlaps {
  import opened Wrappers
  import opened LongRunModel
  import opened LongRunInvariants
  import opened LongRunRuns

  // ---------------------------------------------------------------- loads and saves

  /** What an engine inside a step holds: that its run was not stored, or the row it goes on from. */
  datatype Held =
    | Absent(m: Manifest, evaluates: bool)
    | Holding(m: Manifest, evaluates: bool, row: RunState, replanned: bool)

  /** The store, and the engines that are inside a step. */
  datatype Overlap = Overlap(world: World, engines: map<nat, Held>)

  /** An executor's call is recorded with the save, or the stop, that comes after it. */
  datatype Action =
    | Load(engine: nat, m: Manifest, evaluates: bool)
    | Save(engine: nat, cb: Callbacks, clock: Clock)
    | Quit(engine: nat)
    | QuitAfterExecutor(engine: nat, cb: Callbacks, clock: Clock)

  function Act(o: Overlap, a: Action): Overlap {
    match a
    case Load(i, m, evaluates) => if i in o.engines then o else Loaded(o, i, m, evaluates)
    case Save(i, cb, clock) => if i in o.engines then Saved(o, i, cb, clock) else o
    case Quit(i) => Left(o, i)
    case QuitAfterExecutor(i, cb, clock) =>
      if i in o.engines && o.engines[i].Holding? then
        Left(o.(world := LostStep(o.world, o.engines[i], cb, clock)), i)
      else o
  }

  function Left(o: Overlap, i: nat): Overlap { o.(engines := o.engines - {i}) }

  /** A changed mission raises and an ended run is returned: neither begins a step. */
  function Loaded(o: Overlap, i: nat, m: Manifest, evaluates: bool): Overlap {
    var runs := o.world.store.runs;
    if m.runId !in runs then o.(engines := o.engines[i := Absent(m, evaluates)])
    else if runs[m.runId].digest != m.digest || !runs[m.runId].status.Live? then o
    else o.(engines := o.engines[i := Holding(m, evaluates, runs[m.runId], false)])
  }

  /** The next write of a step. An insert fails when another engine has created the run meanwhile. */
  function Saved(o: Overlap, i: nat, cb: Callbacks, clock: Clock): Overlap
    requires i in o.engines
  {
    var h := o.engines[i];
    if h.Absent? then
      if h.m.runId in o.world.store.runs then Left(o, i)
      else
        var l := LoadOrCreate(o.world, h.m, clock);
        Overlap(l.world, o.engines[i := Holding(h.m, h.evaluates, Initial(h.m, clock(o.world.ticks)), false)])
    else
      var s := Write(h, cb, clock, o.world.ticks);
      var world := Advance(o.world, h.m.runId, s);
      if Replans(h, clock(o.world.ticks)) then
        Overlap(world, o.engines[i := h.(row := s.row, replanned := true)])
      else
        Left(o.(world := world), i)
  }

  predicate Replans(h: Held, now: real)
    requires h.Holding?
  {
    !h.replanned && Watchdog(h.m, now - h.row.startedAt, h.row.failures, h.row.duplicates).Replan?
  }

  function Write(h: Held, cb: Callbacks, clock: Clock, t: nat): Stepped
    requires h.Holding?
  {
    if h.replanned then Plan(h.m, h.evaluates, h.row, cb, clock, t)
    else if Replans(h, clock(t)) then Replanned(h.row, clock(t), t + 1)
    else Step(h.m, h.evaluates, h.row, cb, clock, t)
  }

  function LostStep(w: World, h: Held, cb: Callbacks, clock: Clock): World
    requires h.Holding?
  {
    if h.replanned then CutLater(w, h.m, h.evaluates, h.row, cb, clock, AfterExecutor)
    else if Watchdog(h.m, clock(w.ticks) - h.row.startedAt, h.row.failures, h.row.duplicates).Continue? then
      CutLater(w.(ticks := w.ticks + 1), h.m, h.evaluates, h.row, cb, clock, AfterExecutor)
    else w
  }

  function ActAll(o: Overlap, actions: seq<Action>): Overlap
    decreases |actions|
  {
    if actions == [] then o else ActAll(Act(o, actions[0]), actions[1..])
  }

  // ---------------------------------------------------------------- a step that nothing overlaps

  /** A load and its writes with nothing in between are a whole step of the engine. */
  lemma AloneIsRunStep(o: Overlap, i: nat, m: Manifest, evaluates: bool, cb: Callbacks, clock: Clock)
    requires i !in o.engines
    ensures var save := Save(i, cb, clock);
            ActAll(o, [Load(i, m, evaluates), save, save, save]) ==
            Overlap(RunStep(o.world, m, evaluates, cb, clock).world, o.engines)
  {
    hide Step, Plan, Watchdog, Act;
    var save := Save(i, cb, clock);
    FourActions(o, Load(i, m, evaluates), save);
    LoadedAlone(o, i, m, evaluates);
    var o1 := Act(o, Load(i, m, evaluates));
    if m.runId !in o.world.store.runs {
      CreatedAlone(o, o1, i, m, evaluates, cb, clock);
      var o2 := Act(o1, save);
      WritesAlone(o2, i, cb, clock, o.engines);
    } else if i in o1.engines {
      WritesAlone(o1, i, cb, clock, o.engines);
      Idle(Act(Act(o1, save), save), i, cb, clock);
    } else {
      Idle(o1, i, cb, clock);
    }
  }

  lemma FourActions(o: Overlap, a: Action, b: Action)
    ensures ActAll(o, [a, b, b, b]) == Act(Act(Act(Act(o, a), b), b), b)
  {
    hide Act;
    assert [a, b, b, b][1..] == [b, b, b] && [b, b, b][1..] == [b, b] && [b, b][1..] == [b] && [b][1..] == [];
    assert ActAll(o, [a, b, b, b]) == ActAll(Act(o, a), [b, b, b]);
    assert ActAll(Act(o, a), [b, b, b]) == ActAll(Act(Act(o, a), b), [b, b]);
    assert ActAll(Act(Act(o, a), b), [b, b]) == ActAll(Act(Act(Act(o, a), b), b), [b]);
  }

  lemma LoadedAlone(o: Overlap, i: nat, m: Manifest, evaluates: bool)
    requires i !in o.engines
    ensures Act(o, Load(i, m, evaluates)) == Loaded(o, i, m, evaluates)
  {
  }

  lemma Idle(o: Overlap, i: nat, cb: Callbacks, clock: Clock)
    requires i !in o.engines
    ensures Act(o, Save(i, cb, clock)) == o
  {
  }

  lemma CreatedAlone(o: Overlap, o1: Overlap, i: nat, m: Manifest, evaluates: bool, cb: Callbacks, clock: Clock)
    requires i !in o.engines && m.runId !in o.world.store.runs && o1 == Loaded(o, i, m, evaluates)
    ensures var l := LoadOrCreate(o.world, m, clock);
            && l.result.Returned? && l.result.state.status.Live?
            && Act(o1, Save(i, cb, clock)) ==
                 Overlap(l.world, o.engines[i := Holding(m, evaluates, l.result.state, false)])
  {
  }

  /** Two writes end any step, however many it has. */
  lemma WritesAlone(o: Overlap, i: nat, cb: Callbacks, clock: Clock, others: map<nat, Held>)
    requires i !in others && i in o.engines && o.engines[i].Holding? && !o.engines[i].replanned
    requires o.engines == others[i := o.engines[i]]
    ensures var h := o.engines[i];
            var s := Step(h.m, h.evaluates, h.row, cb, clock, o.world.ticks);
            var o' := Act(Act(o, Save(i, cb, clock)), Save(i, cb, clock));
            o' == Overlap(Advance(o.world, h.m.runId, s), others)
  {
    hide Plan, Watchdog, Replanned;
    var h := o.engines[i];
    var o1 := Act(o, Save(i, cb, clock));
    if Replans(h, clock(o.world.ticks)) {
      TwoWrites(o.world, h, cb, clock);
      var first := Replanned(h.row, clock(o.world.ticks), o.world.ticks + 1);
      assert o1 == Overlap(Advance(o.world, h.m.runId, first), o.engines[i := h.(row := first.row, replanned := true)]);
      assert o1.engines - {i} == others;
    } else {
      Idle(o1, i, cb, clock);
    }
  }

  lemma TwoWrites(w: World, h: Held, cb: Callbacks, clock: Clock)
    requires h.Holding? && Replans(h, clock(w.ticks))
    ensures var first := Replanned(h.row, clock(w.ticks), w.ticks + 1);
            var second := Plan(h.m, h.evaluates, first.row, cb, clock, w.ticks + 1);
            && first.ticks == w.ticks + 1
            && Advance(Advance(w, h.m.runId, first), h.m.runId, second) ==
                 Advance(w, h.m.runId, Step(h.m, h.evaluates, h.row, cb, clock, w.ticks))
  {
  }

  // ---------------------------------------------------------------- saves that find their row

  /** Nothing but its time has changed since the row was loaded. */
  predicate SameButTime(found: RunState, loaded: RunState) { found.(updatedAt := loaded.updatedAt) == loaded }

  /** A save is fresh when the row it replaces is, but for its time, the one its step goes on from. */
  predicate Fresh(o: Overlap, a: Action) {
    a.Save? && a.engine in o.engines && o.engines[a.engine].Holding? ==>
      var h := o.engines[a.engine];
      h.m.runId in o.world.store.runs && SameButTime(o.world.store.runs[h.m.runId], h.row)
  }

  predicate AllFresh(o: Overlap, actions: seq<Action>)
    decreases |actions|
  {
    actions == [] || (Fresh(o, actions[0]) && AllFresh(Act(o, actions[0]), actions[1..]))
  }

  /** What an engine holds is a row its mission could go on from, of a run that is stored. */
  predicate HeldGood(w: World, ms: set<Manifest>, h: Held) {
    && h.m in ms
    && (h.Holding? ==>
          && OwnedBy(h.m, h.row) && h.row.status.Live? && WithinLimits(h.m, h.row)
          && (h.replanned ==> h.row.failures == 0 && h.row.duplicates == 0)
          && h.m.runId in w.store.runs && w.store.runs[h.m.runId].digest == h.m.digest)
  }

  ghost predicate OverlapInv(o: Overlap, ms: set<Manifest>) {
    Inv(o.world, ms) && forall i <- o.engines :: HeldGood(o.world, ms, o.engines[i])
  }

  predicate Of(a: Action, ms: set<Manifest>) { a.Load? ==> a.m in ms }

  lemma WriteGood(h: Held, cb: Callbacks, clock: Clock, t: nat)
    requires h.Holding? && h.m.Valid() && h.row.status.Live? && WithinLimits(h.m, h.row)
    requires h.replanned ==> h.row.failures == 0 && h.row.duplicates == 0
    ensures StepGood(h.m, h.row, Write(h, cb, clock, t))
  {
    hide StepGood, Step, Plan, Replanned;
    if h.replanned {
      PlanGood(h.m, h.evaluates, h.row, cb, clock, t);
    } else {
      ReplannedGood(h.m, h.row, clock(t), t + 1);
      StepKeeps(h.m, h.evaluates, h.row, cb, clock, t);
    }
  }

  /** The time of a row is of no account to the events that follow it. */
  lemma TimeIsOfNoAccount(m: Manifest, found: RunState, loaded: RunState, s: Stepped)
    requires StepGood(m, loaded, s) && SameButTime(found, loaded)
    ensures StepGood(m, found, s)
  {
    hide Justified, WithinLimits;
    FoldsAlike(found, loaded, s.events, s.row);
  }

  lemma FoldsAlike(found: RunState, loaded: RunState, events: seq<Event>, row: RunState)
    requires Folds(loaded, events, row) && SameButTime(found, loaded)
    ensures Folds(found, events, row)
  {
    hide Apply;
    AppliesAlike(found, loaded, events[0]);
  }

  lemma AppliesAlike(found: RunState, loaded: RunState, e: Event)
    requires SameButTime(found, loaded) && !e.payload.RunStarted?
    ensures Apply(found, e) == Apply(loaded, e)
  {
  }

  // ---------------------------------------------------------------- the invariant

  /** No run is ever removed, and none changes its mission. */
  predicate Keeps(w: World, w': World) {
    forall id <- w.store.runs :: id in w'.store.runs && w'.store.runs[id].digest == w.store.runs[id].digest
  }

  lemma HeldStays(w: World, w': World, ms: set<Manifest>, engines: map<nat, Held>)
    requires Keeps(w, w') && forall i <- engines :: HeldGood(w, ms, engines[i])
    ensures forall i <- engines :: HeldGood(w', ms, engines[i])
  {
    hide WithinLimits;
    forall i <- engines
      ensures HeldGood(w', ms, engines[i])
    {
      assert HeldGood(w, ms, engines[i]);
    }
  }

  lemma LoadedKeeps(o: Overlap, ms: set<Manifest>, i: nat, m: Manifest, evaluates: bool)
    requires OverlapInv(o, ms) && Missions(ms) && m in ms
    ensures OverlapInv(Loaded(o, i, m, evaluates), ms)
  {
    hide Inv;
    var runs := o.world.store.runs;
    if m.runId in runs && runs[m.runId].digest == m.digest {
      OneMission(o.world, ms, m);
      RowsAreNamed(o.world, ms, m.runId);
    }
  }

  lemma RowsAreNamed(w: World, ms: set<Manifest>, id: string)
    requires Inv(w, ms) && id in w.store.runs
    ensures w.store.runs[id].runId == id
  {
  }

  lemma CreatedKeeps(o: Overlap, ms: set<Manifest>, i: nat, clock: Clock, cb: Callbacks)
    requires OverlapInv(o, ms) && Missions(ms) && i in o.engines && o.engines[i].Absent?
    ensures OverlapInv(Saved(o, i, cb, clock), ms)
  {
    hide Inv, Replay, LastEvent, Justified;
    var h := o.engines[i];
    assert HeldGood(o.world, ms, h);
    if h.m.runId !in o.world.store.runs {
      LoadKeeps(o.world, ms, h.m, clock);
      var w' := LoadOrCreate(o.world, h.m, clock).world;
      assert Keeps(o.world, w');
      HeldStays(o.world, w', ms, o.engines);
      SoundIsWithinLimits(h.m, w'.store.runs[h.m.runId], w'.store.events);
    }
  }

  lemma WrittenKeeps(o: Overlap, ms: set<Manifest>, i: nat, clock: Clock, cb: Callbacks)
    requires OverlapInv(o, ms) && Missions(ms) && i in o.engines && o.engines[i].Holding?
    requires Fresh(o, Save(i, cb, clock))
    ensures OverlapInv(Saved(o, i, cb, clock), ms)
  {
    hide Inv, StepGood, Sound, Write, Watchdog;
    var h := o.engines[i];
    assert HeldGood(o.world, ms, h);
    ValidMission(ms, h.m);
    var s := Write(h, cb, clock, o.world.ticks);
    WriteGood(h, cb, clock, o.world.ticks);
    var found := o.world.store.runs[h.m.runId];
    TimeIsOfNoAccount(h.m, found, h.row, s);
    OneMission(o.world, ms, h.m);
    StepOnStore(o.world, ms, h.m, s);
    WriteStays(h.m, h.row, s);
    var w' := Advance(o.world, h.m.runId, s);
    assert Keeps(o.world, w');
    HeldStays(o.world, w', ms, o.engines);
    if Replans(h, clock(o.world.ticks)) {
      ReplanIsGood(h, cb, clock, o.world.ticks);
    }
  }

  lemma WriteStays(m: Manifest, row: RunState, s: Stepped)
    requires StepGood(m, row, s)
    ensures s.row.runId == row.runId && s.row.digest == row.digest && WithinLimits(m, s.row)
  {
  }

  lemma ReplanIsGood(h: Held, cb: Callbacks, clock: Clock, t: nat)
    requires h.Holding? && Replans(h, clock(t))
    ensures var s := Write(h, cb, clock, t);
            s.row.failures == 0 && s.row.duplicates == 0 && s.row.status == h.row.status
  {
  }

  lemma LostKeeps(o: Overlap, ms: set<Manifest>, i: nat, clock: Clock, cb: Callbacks)
    requires OverlapInv(o, ms) && i in o.engines && o.engines[i].Holding?
    ensures OverlapInv(Left(o.(world := LostStep(o.world, o.engines[i], cb, clock)), i), ms)
  {
    hide Inv, Watchdog;
    var h, w := o.engines[i], o.world;
    assert HeldGood(w, ms, h);
    RowsAreNamed(w, ms, h.m.runId);
    TicksKeep(w, ms, w.ticks + 1);
    CutLaterKeeps(w, ms, h.m, h.evaluates, h.row, cb, clock, AfterExecutor);
    CutLaterKeeps(w.(ticks := w.ticks + 1), ms, h.m, h.evaluates, h.row, cb, clock, AfterExecutor);
    HeldStays(w, LostStep(w, h, cb, clock), ms, o.engines);
  }

  lemma ActKeeps(o: Overlap, ms: set<Manifest>, a: Action)
    requires OverlapInv(o, ms) && Missions(ms) && Of(a, ms) && Fresh(o, a)
    ensures OverlapInv(Act(o, a), ms)
  {
    hide Inv, Loaded, Saved, LostStep, HeldGood, Missions;
    match a
    case Load(i, m, evaluates) => LoadedKeeps(o, ms, i, m, evaluates);
    case Save(i, cb, clock) =>
      if i in o.engines {
        if o.engines[i].Absent? {
          CreatedKeeps(o, ms, i, clock, cb);
        } else {
          WrittenKeeps(o, ms, i, clock, cb);
        }
      }
    case Quit(i) =>
    case QuitAfterExecutor(i, cb, clock) =>
      if i in o.engines && o.engines[i].Holding? {
        LostKeeps(o, ms, i, clock, cb);
      }
  }

  /** However the steps overlap, the store stays sound while every save is fresh. */
  lemma {:induction false} FreshSavesKeep(o: Overlap, ms: set<Manifest>, actions: seq<Action>)
    requires OverlapInv(o, ms) && Missions(ms) && (forall a <- actions :: Of(a, ms)) && AllFresh(o, actions)
    ensures OverlapInv(ActAll(o, actions), ms)
    decreases |actions|
  {
    hide OverlapInv, Missions, Act, Of, Fresh;
    if actions != [] {
      ActKeeps(o, ms, actions[0]);
      FreshSavesKeep(Act(o, actions[0]), ms, actions[1..]);
    }
  }

  const START := Overlap(EMPTY, map[])

  lemma StartIsGood(ms: set<Manifest>)
    ensures OverlapInv(START, ms)
  {
  }

  /** From an empty store: what is stored is what the log replays to, within limits and ended for cause. */
  lemma FreshRunIsItsLog(ms: set<Manifest>, actions: seq<Action>, id: string)
    requires Missions(ms) && (forall a <- actions :: Of(a, ms)) && AllFresh(START, actions)
    ensures var store := ActAll(START, actions).world.store;
            if id !in store.runs then Replay(store.events, id).None?
            else exists m <- ms :: OwnedBy(m, store.runs[id]) && store.runs[id].runId == id && Sound(m, store.runs[id], store.events)
  {
    hide Act, Replay, Sound, AllFresh, Of;
    StartIsGood(ms);
    FreshSavesKeep(START, ms, actions);
    var w := ActAll(START, actions).world;
    if id in w.store.runs {
      var m := MissionOf(w, ms, id);
    }
  }

  // ---------------------------------------------------------------- a run that has ended

  lemma ActLeavesEnded(o: Overlap, ms: set<Manifest>, a: Action, id: string)
    requires OverlapInv(o, ms) && Missions(ms) && Of(a, ms) && Fresh(o, a)
    requires id in o.world.store.runs && !o.world.store.runs[id].status.Live?
    ensures var w' := Act(o, a).world;
            id in w'.store.runs && w'.store.runs[id] == o.world.store.runs[id] &&
            EventsOf(w'.store.events, id) == EventsOf(o.world.store.events, id)
  {
    hide Inv, EventsOf, Watchdog, Write, HandedOver;
    if a.Save? && a.engine in o.engines {
      var h := o.engines[a.engine];
      assert HeldGood(o.world, ms, h);
      if h.Holding? {
        hide StepGood;
        ValidMission(ms, h.m);
        RowsAreNamed(o.world, ms, h.m.runId);
        WriteGood(h, a.cb, a.clock, o.world.ticks);
        AdvanceLeavesAlone(o.world, h.m, h.row, Write(h, a.cb, a.clock, o.world.ticks), id);
      } else if h.m.runId !in o.world.store.runs {
        LoadLeavesAlone(o.world, h.m, a.clock, id);
      }
    }
  }

  /** Among fresh saves a run that has ended keeps its row and its log for ever. */
  lemma {:induction false} FreshEndedForEver(o: Overlap, ms: set<Manifest>, actions: seq<Action>, id: string)
    requires OverlapInv(o, ms) && Missions(ms) && (forall a <- actions :: Of(a, ms)) && AllFresh(o, actions)
    requires id in o.world.store.runs && !o.world.store.runs[id].status.Live?
    ensures var w' := ActAll(o, actions).world;
            id in w'.store.runs && w'.store.runs[id] == o.world.store.runs[id] &&
            EventsOf(w'.store.events, id) == EventsOf(o.world.store.events, id)
    decreases |actions|
  {
    hide OverlapInv, Missions, Act, Of, Fresh, EventsOf;
    if actions != [] {
      ActLeavesEnded(o, ms, actions[0], id);
      ActKeeps(o, ms, actions[0]);
      FreshEndedForEver(Act(o, actions[0]), ms, actions[1..], id);
    }
  }

  // ---------------------------------------------------------------- a save that does not find its row

  /** The run equals the replay of its log. */
  predicate IsItsLog(w: World, id: string) {
    id in w.store.runs && Replay(w.store.events, id) == Some(w.store.runs[id])
  }

  /** A step that the watchdog and the mission let get as far as the executor. */
  predicate MayGoFar(h: Held) {
    h.Holding? && Ready(h.m, h.row) && h.m.allowed != {} && (h.m.independentEvaluation ==> h.evaluates)
  }

  const PLANNER_RAISES := Callbacks(PlannerRaised, ExecutorRaised, EvaluatorRaised, true)

  function ExecutorRaises(effect: string): Callbacks {
    Callbacks(Planned(Proposal("step", 1.0, 0.0, 0.0, 0.0, 0.0, effect)), ExecutorRaised, EvaluatorRaised, true)
  }

  /** The clock stands still at the time the run started. */
  function AtStart(h: Held): Clock
    requires h.Holding?
  {
    _ => h.row.startedAt
  }

  /** The step gets to its planning, at once or with its second reading. */
  lemma WithinBudget(h: Held, cb: Callbacks, t: nat) returns (later: nat)
    requires MayGoFar(h) && h.m.Valid()
    ensures Write(h, cb, AtStart(h), t) == Plan(h.m, h.evaluates, h.row, cb, AtStart(h), later)
  {
    hide Plan;
    later := if h.replanned then t else t + 1;
  }

  lemma WhatRaisingWrites(h: Held, effect: string, t: nat)
    requires MayGoFar(h) && h.m.Valid() && effect in h.m.allowed
    ensures var s, row := Plan(h.m, h.evaluates, h.row, PLANNER_RAISES, AtStart(h), t), h.row;
            && s.row == row.(step := row.step + 1, failures := row.failures + 1, updatedAt := row.startedAt)
            && s.events == [Log(s.row, PlannerException(Live))]
    ensures var s := Plan(h.m, h.evaluates, h.row, ExecutorRaises(effect), AtStart(h), t);
            && s.row == Failed(h.row, ExecutorRaises(effect).planner.proposal, h.row.startedAt)
            && s.events == [Log(s.row, StepException("step", 1.0))]
  {
    hide Evaluate, Counted;
  }

  /** Told apart by the event of a raising planner, or by that of a raising executor. */
  lemma ToldApart(found: RunState, h: Held, effect: string)
    requires h.Holding? && h.row.status.Live? && found.runId == h.row.runId && found.digest == h.row.digest
    requires !SameButTime(found, h.row)
    ensures var row := h.row.(step := h.row.step + 1, failures := h.row.failures + 1, updatedAt := h.row.startedAt);
            var row' := Failed(h.row, ExecutorRaises(effect).planner.proposal, h.row.startedAt);
            || Apply(found, Log(row, PlannerException(Live))) != row
            || Apply(found, Log(row', StepException("step", 1.0))) != row'
  {
  }

  lemma SavedOneEvent(o: Overlap, ms: set<Manifest>, i: nat, cb: Callbacks, clock: Clock, e: Event)
    requires OverlapInv(o, ms) && i in o.engines && o.engines[i].Holding?
    requires Write(o.engines[i], cb, clock, o.world.ticks).events == [e] && e.runId == o.engines[i].m.runId
    ensures var h := o.engines[i];
            var row := Write(h, cb, clock, o.world.ticks).row;
            IsItsLog(Act(o, Save(i, cb, clock)).world, h.m.runId) ==>
              h.m.runId in o.world.store.runs && Apply(o.world.store.runs[h.m.runId], e) == row
  {
    hide Write, Apply, Sound, Replans;
    var h := o.engines[i];
    assert HeldGood(o.world, ms, h);
    StoredIsItsLog(o.world, ms, h.m.runId);
    assert (o.world.store.events + [e])[..|o.world.store.events|] == o.world.store.events;
  }

  lemma StoredIsItsLog(w: World, ms: set<Manifest>, id: string)
    requires Inv(w, ms) && id in w.store.runs
    ensures IsItsLog(w, id)
  {
    var m := MissionOf(w, ms, id);
    assert w.store.runs[id].runId == id;
  }

  lemma TellTale(o: Overlap, ms: set<Manifest>, i: nat)
    requires OverlapInv(o, ms) && Missions(ms) && i in o.engines && MayGoFar(o.engines[i])
    requires o.engines[i].m.runId in o.world.store.runs
    requires !SameButTime(o.world.store.runs[o.engines[i].m.runId], o.engines[i].row)
    ensures var h := o.engines[i];
            exists cb, clock :: !IsItsLog(Act(o, Save(i, cb, clock)).world, h.m.runId)
  {
    hide Inv, Missions, Act, IsItsLog, Write, Apply, Plan, Sound;
    var h := o.engines[i];
    assert HeldGood(o.world, ms, h);
    ValidMission(ms, h.m);
    RowsAreNamed(o.world, ms, h.m.runId);
    var effect :| effect in h.m.allowed;
    var t := WithinBudget(h, PLANNER_RAISES, o.world.ticks);
    var t' := WithinBudget(h, ExecutorRaises(effect), o.world.ticks);
    WhatRaisingWrites(h, effect, t);
    WhatRaisingWrites(h, effect, t');
    ToldApart(o.world.store.runs[h.m.runId], h, effect);
    SavedOneEvent(o, ms, i, PLANNER_RAISES, AtStart(h),
                  Plan(h.m, h.evaluates, h.row, PLANNER_RAISES, AtStart(h), t).events[0]);
    SavedOneEvent(o, ms, i, ExecutorRaises(effect), AtStart(h),
                  Plan(h.m, h.evaluates, h.row, ExecutorRaises(effect), AtStart(h), t').events[0]);
  }

  lemma FreshSaveIsItsLog(o: Overlap, ms: set<Manifest>, i: nat, cb: Callbacks, clock: Clock)
    requires OverlapInv(o, ms) && Missions(ms) && i in o.engines && o.engines[i].Holding?
    requires Fresh(o, Save(i, cb, clock))
    ensures IsItsLog(Act(o, Save(i, cb, clock)).world, o.engines[i].m.runId)
  {
    hide Missions, IsItsLog, Write, Replans, Inv, HeldGood;
    ActKeeps(o, ms, Save(i, cb, clock));
    StoredIsItsLog(Act(o, Save(i, cb, clock)).world, ms, o.engines[i].m.runId);
  }

  /**
   Such a step, saved, leaves the run equal to its log whatever its callbacks do and its clock reads, if
   and only if nothing but the time of the row has changed since it was loaded.
   */
  lemma StaleSaveIff(o: Overlap, ms: set<Manifest>, i: nat)
    requires OverlapInv(o, ms) && Missions(ms) && i in o.engines && MayGoFar(o.engines[i])
    ensures var h := o.engines[i];
            h.m.runId in o.world.store.runs &&
            ((forall cb, clock :: IsItsLog(Act(o, Save(i, cb, clock)).world, h.m.runId)) <==>
            SameButTime(o.world.store.runs[h.m.runId], h.row))
  {
    hide Inv, Missions, Act, IsItsLog, Ready;
    var h := o.engines[i];
    assert HeldGood(o.world, ms, h);
    if SameButTime(o.world.store.runs[h.m.runId], h.row) {
      forall cb, clock
        ensures IsItsLog(Act(o, Save(i, cb, clock)).world, h.m.runId)
      {
        FreshSaveIsItsLog(o, ms, i, cb, clock);
      }
    } else {
      TellTale(o, ms, i);
    }
  }

  // ---------------------------------------------------------------- a completed run taken back

  const ZERO: Clock := _ => 0.0

  function AtMinimum(m: Manifest): Clock { _ => m.minimumWall as real }

  function Passes(effect: string): Callbacks {
    var evaluation := Evaluation("judge", "1", 1.0, Pass, ["done"], Digest("evidence"), true);
    Callbacks(ExecutorRaises(effect).planner, Executed(true, Json("evidence")), Evaluated(evaluation), true)
  }

  /** Two engines load one new run; the first completes it. */
  function Completing(m: Manifest, effect: string): seq<Action> {
    [Load(0, m, true), Save(0, Passes(effect), ZERO), Load(1, m, true), Save(0, Passes(effect), AtMinimum(m))]
  }

  /** Both engines hold the row that the first one created. */
  function BothHold(m: Manifest): Overlap {
    var row := Initial(m, 0.0);
    Overlap(World(Store(map[m.runId := row], [Event(m.runId, 0, RunStarted(m.digest), 0.0)]), 1, [], []),
            map[0 := Holding(m, true, row, false), 1 := Holding(m, true, row, false)])
  }

  lemma BothHoldThat(m: Manifest)
    ensures var row := Initial(m, 0.0);
            && BothHold(m).engines == map[0 := Holding(m, true, row, false), 1 := Holding(m, true, row, false)]
            && BothHold(m).world.ticks == 1 && BothHold(m).world.store.runs == map[m.runId := row]
  {
  }

  lemma BothLoad(m: Manifest, effect: string)
    ensures ActAll(START, Completing(m, effect)) == Act(BothHold(m), Save(0, Passes(effect), AtMinimum(m)))
    ensures AllFresh(START, Completing(m, effect))
  {
    hide Write, Advance, Replans;
    var a := Completing(m, effect);
    assert a[1..][1..][1..][1..] == [];
    var o1 := Act(START, a[0]);
    assert o1 == Overlap(EMPTY, map[0 := Absent(m, true)]);
    var o2 := Act(o1, a[1]);
    assert o2.engines == map[0 := Holding(m, true, Initial(m, 0.0), false)];
    assert o2.world == BothHold(m).world;
    assert Act(o2, a[2]) == BothHold(m);
    assert Fresh(START, a[0]) && Fresh(o1, a[1]) && Fresh(o2, a[2]) && Fresh(BothHold(m), a[3]);
    hide Act, Fresh;
    assert AllFresh(BothHold(m), a[1..][1..][1..]);
    assert AllFresh(o2, a[1..][1..]);
    assert AllFresh(o1, a[1..]);
    assert ActAll(START, a) == ActAll(o1, a[1..]);
    assert ActAll(o1, a[1..]) == ActAll(o2, a[1..][1..]);
    assert ActAll(o2, a[1..][1..]) == ActAll(BothHold(m), a[1..][1..][1..]);
  }

  lemma PassingCompletes(m: Manifest, effect: string, t: nat)
    requires m.Valid() && effect in m.allowed && m.minimumWall < m.maximumWall
    ensures var s := Write(BothHold(m).engines[0], Passes(effect), AtMinimum(m), t);
            && s.row.status == Completed && s.row.step == 1
            && !Replans(BothHold(m).engines[0], m.minimumWall as real)
  {
    assert 'j' in "judge" && '1' in "1" && 'd' in "done";
    var p, evaluation := ExecutorRaises(effect).planner.proposal, Passes(effect).evaluator.evaluation;
    assert evaluation.Valid(Digest("evidence"));
    assert Refusal(m, p).None?;
  }

  lemma RaisingGoesOn(m: Manifest, effect: string, t: nat)
    requires m.Valid() && effect in m.allowed && m.minimumWall < m.maximumWall
    ensures var s := Write(BothHold(m).engines[1], ExecutorRaises(effect), AtMinimum(m), t);
            && s.row.status == Live && s.row.step == 1 && s.events == [Log(s.row, StepException("step", 1.0))]
            && s.row.runId == m.runId && !Replans(BothHold(m).engines[1], m.minimumWall as real)
  {
    assert Refusal(m, ExecutorRaises(effect).planner.proposal).None?;
  }

  /**
   Any mission that can complete at all: two engines load one row, the first completes the run, and the
   second, whose executor fails, saves over that. The run is live again, at the step it had completed
   with, and no longer what its log says.
   */
  lemma CompletedIsTakenBack(m: Manifest, effect: string)
    requires m.Valid() && effect in m.allowed && m.minimumWall < m.maximumWall
    ensures var completed := ActAll(START, Completing(m, effect));
            var after := Act(completed, Save(1, ExecutorRaises(effect), AtMinimum(m)));
            && AllFresh(START, Completing(m, effect))
            && m.runId in completed.world.store.runs && m.runId in after.world.store.runs
            && completed.world.store.runs[m.runId].status == Completed
            && after.world.store.runs[m.runId].status == Live
            && after.world.store.runs[m.runId].step == completed.world.store.runs[m.runId].step
            && !IsItsLog(after.world, m.runId)
  {
    hide Write, AllFresh, OverlapInv, IsItsLog, Replans, BothHold;
    BothLoad(m, effect);
    BothHoldThat(m);
    PassingCompletes(m, effect, 1);
    var t := Write(BothHold(m).engines[0], Passes(effect), AtMinimum(m), 1).ticks;
    RaisingGoesOn(m, effect, t);
    var completed := ActAll(START, Completing(m, effect));
    assert OverlapInv(completed, {m}) by {
      StartIsGood({m});
      FreshSavesKeep(START, {m}, Completing(m, effect));
    }
    var e := Log(Write(BothHold(m).engines[1], ExecutorRaises(effect), AtMinimum(m), t).row, StepException("step", 1.0));
    SavedOneEvent(completed, {m}, 1, ExecutorRaises(effect), AtMinimum(m), e);
    assert Apply(completed.world.store.runs[m.runId], e).step == 2;
  }
}
