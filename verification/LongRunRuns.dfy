/**
 The engine's promises over whole histories: any number of `run_step` calls, one after the other, by any
 engines on any missions sharing the store, with any callback outcomes and any clock, starting from an
 empty store.
 */
module LongRunRuns {
  import opened Wrappers
  import opened LongRunModel
  import opened LongRunInvariants

  const EMPTY := World(Store(map[], []), 0, [], [])

  lemma ReachableInv(ms: set<Manifest>, calls: seq<Call>, clock: Clock)
    requires Missions(ms) && forall c <- calls :: c.m in ms
    ensures Inv(RunAll(EMPTY, calls, clock), ms)
  {
    RunAllKeeps(EMPTY, ms, calls, clock);
  }

  lemma MissionOf(w: World, ms: set<Manifest>, id: string) returns (m: Manifest)
    requires Inv(w, ms) && id in w.store.runs
    ensures m in ms && m.runId == id && OwnedBy(m, w.store.runs[id]) && Sound(m, w.store.runs[id], w.store.events)
  {
    m :| m in ms && OwnedBy(m, w.store.runs[id]) && Sound(m, w.store.runs[id], w.store.events);
  }

  // ---------------------------------------------------------------- what is stored

  /** A stored run is exactly what its event log replays to; a run that is not stored has no log. */
  lemma StoredRunIsItsLog(ms: set<Manifest>, calls: seq<Call>, clock: Clock, id: string)
    requires Missions(ms) && forall c <- calls :: c.m in ms
    ensures var store := RunAll(EMPTY, calls, clock).store;
            Replay(store.events, id) == if id in store.runs then Some(store.runs[id]) else None
  {
    ReachableInv(ms, calls, clock);
    var w := RunAll(EMPTY, calls, clock);
    if id in w.store.runs {
      var m := MissionOf(w, ms, id);
    }
  }

  /** The counters never pass the limits of the mission the run belongs to. */
  lemma CountersWithinLimits(ms: set<Manifest>, calls: seq<Call>, clock: Clock, m: Manifest)
    requires Missions(ms) && (forall c <- calls :: c.m in ms) && m in ms
    ensures var store := RunAll(EMPTY, calls, clock).store;
            m.runId in store.runs && store.runs[m.runId].digest == m.digest ==>
              && store.runs[m.runId].failures <= m.maxFailures
              && store.runs[m.runId].duplicates <= m.maxDuplicates
  {
    ReachableInv(ms, calls, clock);
    var w := RunAll(EMPTY, calls, clock);
    if m.runId in w.store.runs && w.store.runs[m.runId].digest == m.digest {
      OneMission(w, ms, m);
    }
  }

  /** A run ends only for cause, and the cause is on record. */
  lemma EndsAreJustified(ms: set<Manifest>, calls: seq<Call>, clock: Clock, m: Manifest)
    requires Missions(ms) && (forall c <- calls :: c.m in ms) && m in ms
    ensures var store := RunAll(EMPTY, calls, clock).store;
            m.runId in store.runs && store.runs[m.runId].digest == m.digest ==>
              Justified(m, store.runs[m.runId], LastEvent(store.events, m.runId))
  {
    ReachableInv(ms, calls, clock);
    var w := RunAll(EMPTY, calls, clock);
    if m.runId in w.store.runs && w.store.runs[m.runId].digest == m.digest {
      OneMission(w, ms, m);
    }
  }

  /** The gains outweigh what the step costs, risks and repeats. */
  predicate Worthwhile(p: Proposal) { p.qualityGain + p.informationGain > p.cost + p.risk + p.duplication }

  predicate Allows(m: Manifest, p: Proposal) {
    p.effect in m.allowed && p.effect !in m.prohibited && Worthwhile(p)
  }

  /** The governor lets through exactly what the mission allows; a refusal gives the first ground there is. */
  lemma GovernorMeans(m: Manifest, p: Proposal)
    ensures Refusal(m, p).None? <==> Allows(m, p)
    ensures Refusal(m, p) == Some("effect explicitly prohibited") <==> p.effect in m.prohibited
    ensures Refusal(m, p) == Some("effect not allowlisted") <==> p.effect !in m.prohibited && p.effect !in m.allowed
    ensures Refusal(m, p) == Some("non-positive expected value") <==>
            p.effect !in m.prohibited && p.effect in m.allowed && !Worthwhile(p)
  {
    assert "effect explicitly prohibited"[7] == 'e' && "effect not allowlisted"[7] == 'n';
    assert "non-positive expected value"[0] == 'n' && "effect not allowlisted"[0] == 'e';
  }

  /**
   The executor sees only proposals that the run's own mission allows, the one that it was started with.
   Each call of it is on record as one event, except the calls during which the process stopped.
   */
  lemma OnlyAuthorizedStepsExecute(ms: set<Manifest>, calls: seq<Call>, clock: Clock, id: string)
    requires Missions(ms) && forall c <- calls :: c.m in ms
    ensures var w := RunAll(EMPTY, calls, clock);
            && Dispatches(w.executed, id) == Executions(w.store.events, id) + LostOf(w.lost, id)
            && (forall p | (id, p) in w.executed ::
                  id in w.store.runs && exists m <- ms :: OwnedBy(m, w.store.runs[id]) && Allows(m, p))
  {
    ReachableInv(ms, calls, clock);
    var w := RunAll(EMPTY, calls, clock);
    forall p | (id, p) in w.executed
      ensures id in w.store.runs && exists m <- ms :: OwnedBy(m, w.store.runs[id]) && Allows(m, p)
    {
      var x := (id, p);
      var m :| m in ms && OwnedBy(m, w.store.runs[x.0]) && MayExecute(m, x.1);
      assert Allows(m, p);
    }
  }

  /** How many of these calls of the run stop between the executor's call and its event. */
  function StopsOf(calls: seq<Call>, id: string): nat {
    if calls == [] then 0
    else StopsOf(calls[1..], id) + (if calls[0].m.runId == id && calls[0].cut == Some(AfterExecutor) then 1 else 0)
  }

  lemma LostBy(w: World, c: Call, clock: Clock, id: string)
    ensures LostOf(AfterCall(w, c, clock).lost, id) <= LostOf(w.lost, id) + StopsOf([c], id)
    ensures LostOf(AfterCall(w, c, clock).lost, id) >= LostOf(w.lost, id)
  {
    hide Step, HandedOver, Watchdog;
    assert (w.lost + [c.m.runId])[..|w.lost|] == w.lost;
  }

  lemma {:induction false} LostAtMostStops(w: World, calls: seq<Call>, clock: Clock, id: string)
    ensures LostOf(RunAll(w, calls, clock).lost, id) <= LostOf(w.lost, id) + StopsOf(calls, id)
    decreases |calls|
  {
    hide AfterCall, LostOf;
    if calls != [] {
      LostBy(w, calls[0], clock, id);
      LostAtMostStops(AfterCall(w, calls[0], clock), calls[1..], clock, id);
      assert [calls[0]][1..] == [];
    }
  }

  /** The executor has been called for a run as often as its log says, and at most once more for each such stop. */
  lemma AtMostOneMoreForEachStop(ms: set<Manifest>, calls: seq<Call>, clock: Clock, id: string)
    requires Missions(ms) && forall c <- calls :: c.m in ms
    ensures var w := RunAll(EMPTY, calls, clock);
            Executions(w.store.events, id) <= Dispatches(w.executed, id) <= Executions(w.store.events, id) + StopsOf(calls, id)
  {
    OnlyAuthorizedStepsExecute(ms, calls, clock, id);
    LostAtMostStops(EMPTY, calls, clock, id);
  }

  /** The one more does occur: a first step that stops there has executed, and no event says so. */
  lemma StopIsOffTheRecord(m: Manifest, cb: Callbacks, clock: Clock)
    requires m.Valid() && cb.planner.Planned? && Refusal(m, cb.planner.proposal).None?
    requires clock(1) - clock(0) < m.maximumWall as real && clock(2) - clock(0) < m.maximumWall as real
    ensures var w := RunAll(EMPTY, [Call(m, true, cb, Some(AfterExecutor))], clock);
            Dispatches(w.executed, m.runId) == 1 && Executions(w.store.events, m.runId) == 0
  {
    hide Refusal, Dispatches, Executions;
    var c := Call(m, true, cb, Some(AfterExecutor));
    var w := AfterCall(EMPTY, c, clock);
    assert RunAll(EMPTY, [c], clock) == w by { assert [c][1..] == []; }
    var started := Event(m.runId, 0, RunStarted(m.digest), clock(0));
    assert w.store.events == [started] && w.executed == [(m.runId, cb.planner.proposal)];
    OneOfEach(started, m.runId, cb.planner.proposal);
  }

  lemma OneOfEach(started: Event, id: string, p: Proposal)
    requires started.runId == id && started.payload.RunStarted?
    ensures Dispatches([(id, p)], id) == 1 && Executions([started], id) == 0
  {
    assert [(id, p)][..0] == [];
    assert [started][..0] == [];
  }

  // ---------------------------------------------------------------- what a call leaves alone

  function EventsOf(events: seq<Event>, id: string): seq<Event> {
    if events == [] then []
    else EventsOf(events[..|events| - 1], id) +
         (if events[|events| - 1].runId == id then [events[|events| - 1]] else [])
  }

  lemma {:induction false} EventsOfOthers(events: seq<Event>, more: seq<Event>, id: string)
    requires forall e <- more :: e.runId != id
    ensures EventsOf(events + more, id) == EventsOf(events, id)
    decreases |more|
  {
    if more == [] {
      assert events + more == events;
    } else {
      var all := events + more;
      assert all[..|all| - 1] == events + more[..|more| - 1];
      EventsOfOthers(events, more[..|more| - 1], id);
    }
  }

  /** The part of the world that belongs to one run. */
  datatype Share = Share(row: Option<RunState>, events: seq<Event>, dispatches: nat)

  function ShareOf(w: World, id: string): Share {
    Share(if id in w.store.runs then Some(w.store.runs[id]) else None, EventsOf(w.store.events, id),
          Dispatches(w.executed, id))
  }

  /** A whole step touches its own run only, and nothing at all once that run has ended or has another mission. */
  lemma StepLeavesAlone(w: World, ms: set<Manifest>, c: Call, clock: Clock, id: string)
    requires Inv(w, ms) && Missions(ms) && c.m in ms
    requires Foreign(w, c, id)
    ensures var called := RunStep(w, c.m, c.evaluates, c.cb, clock);
            && ShareOf(called.world, id) == ShareOf(w, id)
            && (id == c.m.runId ==> called.world == w)
            && (id == c.m.runId ==>
                  called.result == if w.store.runs[id].digest != c.m.digest then MissionChanged
                                   else Returned(w.store.runs[id]))
  {
    hide Inv, Step, EventsOf, Dispatches;
    if id != c.m.runId {
      LoadKeeps(w, ms, c.m, clock);
      LoadLeavesAlone(w, c.m, clock, id);
      var l := LoadOrCreate(w, c.m, clock);
      if l.result.Returned? && l.result.state.status.Live? {
        var s := Step(c.m, c.evaluates, l.result.state, c.cb, clock, l.world.ticks);
        StepKeeps(c.m, c.evaluates, l.result.state, c.cb, clock, l.world.ticks);
        AdvanceLeavesAlone(l.world, c.m, l.result.state, s, id);
      }
    }
  }

  /** The call is of another run, or of this one when it has ended or belongs to another mission. */
  predicate Foreign(w: World, c: Call, id: string) {
    id != c.m.runId || (id in w.store.runs && (!w.store.runs[id].status.Live? || w.store.runs[id].digest != c.m.digest))
  }

  /** The same holds of a step that is cut off, wherever it is. */
  lemma CutLeavesAlone(w: World, ms: set<Manifest>, c: Call, clock: Clock, cut: Cut, id: string)
    requires Inv(w, ms) && Missions(ms) && c.m in ms && Foreign(w, c, id)
    ensures ShareOf(RunCut(w, c.m, c.evaluates, c.cb, clock, cut), id) == ShareOf(w, id)
  {
    hide Inv, CutLater, EventsOf, Dispatches, Replanned, StepGood;
    if id != c.m.runId {
      LoadKeeps(w, ms, c.m, clock);
      LoadLeavesAlone(w, c.m, clock, id);
      var l := LoadOrCreate(w, c.m, clock);
      if l.result.Returned? && l.result.state.status.Live? {
        var row, t := l.result.state, l.world.ticks;
        SoundIsWithinLimits(c.m, row, l.world.store.events);
        ValidMission(ms, c.m);
        var s := Replanned(row, clock(t), t + 1);
        ReplannedGood(c.m, row, clock(t), t + 1);
        AdvanceLeavesAlone(l.world, c.m, row, s, id);
        LaterLeavesAlone(l.world.(ticks := t + 1), c, row, clock, cut, id);
        LaterLeavesAlone(Advance(l.world, c.m.runId, s), c, s.row, clock, cut, id);
      }
    }
  }

  lemma ValidMission(ms: set<Manifest>, m: Manifest)
    requires Missions(ms) && m in ms
    ensures m.Valid()
  {
  }

  lemma LaterLeavesAlone(w: World, c: Call, row: RunState, clock: Clock, cut: Cut, id: string)
    requires id != c.m.runId
    ensures ShareOf(CutLater(w, c.m, c.evaluates, row, c.cb, clock, cut), id) == ShareOf(w, id)
  {
    hide HandedOver;
    var p := HandedOver(c.m, c.evaluates, row, c.cb, clock(w.ticks));
    if p.Some? {
      assert (w.executed + [(c.m.runId, p.value)])[..|w.executed|] == w.executed;
    }
  }

  lemma CallLeavesAlone(w: World, ms: set<Manifest>, c: Call, clock: Clock, id: string)
    requires Inv(w, ms) && Missions(ms) && c.m in ms && Foreign(w, c, id)
    ensures ShareOf(AfterCall(w, c, clock), id) == ShareOf(w, id)
  {
    hide Inv, RunStep, RunCut;
    if c.cut.Some? {
      CutLeavesAlone(w, ms, c, clock, c.cut.value, id);
    } else {
      StepLeavesAlone(w, ms, c, clock, id);
    }
  }

  lemma AdvanceLeavesAlone(w: World, m: Manifest, row: RunState, s: Stepped, id: string)
    requires StepGood(m, row, s) && row.runId == m.runId && id != m.runId
    ensures ShareOf(Advance(w, m.runId, s), id) == ShareOf(w, id)
  {
    hide StepGood;
    GoodEventsAreOwn(m, row, s);
    EventsOfOthers(w.store.events, s.events, id);
    if s.executed.Some? {
      assert (w.executed + [(m.runId, s.executed.value)])[..|w.executed|] == w.executed;
    } else {
      assert w.executed + [] == w.executed;
    }
  }

  lemma LoadLeavesAlone(w: World, m: Manifest, clock: Clock, id: string)
    requires id != m.runId
    ensures ShareOf(LoadOrCreate(w, m, clock).world, id) == ShareOf(w, id)
  {
    EventsOfOthers(w.store.events, [Event(m.runId, 0, RunStarted(m.digest), clock(w.ticks))], id);
  }

  lemma GoodEventsAreOwn(m: Manifest, row: RunState, s: Stepped)
    requires StepGood(m, row, s)
    ensures forall e <- s.events :: e.runId == row.runId
  {
    hide Apply, Fits, Justified;
  }

  /** Once a run has ended it stays as it is for ever: its row, its log, and no executor call. */
  lemma {:induction false} EndedForEver(w: World, ms: set<Manifest>, calls: seq<Call>, clock: Clock, id: string)
    requires Inv(w, ms) && Missions(ms) && forall c <- calls :: c.m in ms
    requires id in w.store.runs && !w.store.runs[id].status.Live?
    ensures ShareOf(RunAll(w, calls, clock), id) == ShareOf(w, id)
    decreases |calls|
  {
    hide Inv, AfterCall, EventsOf, Dispatches;
    if calls != [] {
      CallLeavesAlone(w, ms, calls[0], clock, id);
      AfterCallKeeps(w, ms, calls[0], clock);
      var w' := AfterCall(w, calls[0], clock);
      assert ShareOf(w', id).row == ShareOf(w, id).row;
      EndedForEver(w', ms, calls[1..], clock, id);
    }
  }

  /** A mission whose text changed can never advance the run that an earlier text started. */
  lemma {:induction false} MissionIsImmutable(w: World, ms: set<Manifest>, calls: seq<Call>, clock: Clock, id: string)
    requires Inv(w, ms) && Missions(ms) && forall c <- calls :: c.m in ms
    requires id in w.store.runs
    requires forall c <- calls :: c.m.runId == id ==> c.m.digest != w.store.runs[id].digest
    ensures ShareOf(RunAll(w, calls, clock), id) == ShareOf(w, id)
    decreases |calls|
  {
    hide Inv, AfterCall, EventsOf, Dispatches;
    if calls != [] {
      CallLeavesAlone(w, ms, calls[0], clock, id);
      AfterCallKeeps(w, ms, calls[0], clock);
      var w' := AfterCall(w, calls[0], clock);
      assert ShareOf(w', id).row == ShareOf(w, id).row;
      MissionIsImmutable(w', ms, calls[1..], clock, id);
    }
  }
}
