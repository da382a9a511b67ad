/**
 Bridge calls that run side by side: each takes its atomic steps, the claim of the process guard, the
 claim of the durable guard, the dispatch and the judgement of its result, in any order relative to
 the others. The durable guard is its set of claims; a claim may fail before or after it is stored.
 */
module HiveInterleavings {
  import opened Wrappers
  import opened ClaimTable
  import opened ReplayGuards
  import opened HiveBridge

  datatype Pc =
    | Arrived
    | Claimed
    | Granted
    | Sent
    | Done(verdict: Verdict, dispatched: bool)

  /** A call, the length of its key in UTF-8, and where it stands. */
  datatype Thread = Thread(call: Call, bytes: nat, pc: Pc)

  /** How the durable store behaves in a step. */
  datatype Fault = Works | FailsBefore | FailsAfter

  datatype Bridge = Bridge(table: Table, claims: set<string>, threads: seq<Thread>)

  datatype Action = Arrive(call: Call, bytes: nat) | Go(i: nat, fault: Fault)

  /** The thread after its step, and the two guards. */
  datatype Turned = Turned(table: Table, claims: set<string>, pc: Pc)

  function Turn(limits: Limits, table: Table, claims: set<string>, t: Thread, fault: Fault): Turned {
    var c := t.call;
    match t.pc
    case Arrived =>
      if Barrier(c).Some? then Turned(table, claims, Done(Barrier(c).value, false))
      else
        var d := ClaimOnce(table, limits, c.Claiming());
        Turned(d.table, claims,
               match d.outcome
               case Accepted => Claimed
               case Consumed => Done(AlreadyConsumed, false)
               case Full => Done(CapacityExhausted, false)
               case ActorFull => Done(CapacityExhausted, false))
    case Claimed =>
      if fault.FailsBefore? then Turned(table, claims, Done(GuardUnavailable, false))
      else
        var d := ClaimDurably(claims, c.Key(), t.bytes);
        Turned(table, d.claims,
               match d.outcome
               case InvalidKey => Done(GuardUnavailable, false)
               case Lost => if fault.FailsAfter? then Done(GuardUnavailable, false) else Done(AlreadyConsumed, false)
               case Won => if fault.FailsAfter? then Done(GuardUnavailable, false) else Granted)
    case Granted =>
      Turned(table, claims,
             if InTime(c.task.expiresAt, c.env.readings, c.env.readings.utcDispatch, c.env.readings.monoDispatch)
             then Sent else Done(Expired, false))
    case Sent => Turned(table, claims, Done(Judge(c), true))
    case Done(_, _) => Turned(table, claims, t.pc)
  }

  function Step(limits: Limits, b: Bridge, a: Action): Bridge {
    match a
    case Arrive(call, bytes) => b.(threads := b.threads + [Thread(call, bytes, Arrived)])
    case Go(i, fault) =>
      if i >= |b.threads| then b
      else
        var s := Turn(limits, b.table, b.claims, b.threads[i], fault);
        Bridge(s.table, s.claims, b.threads[i := b.threads[i].(pc := s.pc)])
  }

  const EMPTY := Bridge(map[], {}, [])

  function RunAll(limits: Limits, actions: seq<Action>): Bridge {
    if actions == [] then EMPTY
    else Step(limits, RunAll(limits, actions[..|actions| - 1]), actions[|actions| - 1])
  }

  // ---------------------------------------------------------------- what every interleaving keeps

  /** The call has won its durable claim and may dispatch, or has. */
  predicate Holds(t: Thread) { t.pc.Granted? || t.pc.Sent? || (t.pc.Done? && t.pc.dispatched) }

  predicate Dispatched(t: Thread) { t.pc.Sent? || (t.pc.Done? && t.pc.dispatched) }

  ghost predicate Inv(b: Bridge) {
    && (forall i | 0 <= i < |b.threads| && Holds(b.threads[i]) :: b.threads[i].call.Key() in b.claims)
    && (forall i, j | 0 <= i < j < |b.threads| && Holds(b.threads[i]) && Holds(b.threads[j]) ::
          b.threads[i].call.Key() != b.threads[j].call.Key())
  }

  /** A call comes to hold its key only by adding it to the durable claims, and no claim is ever removed. */
  lemma TurnHolds(limits: Limits, table: Table, claims: set<string>, t: Thread, fault: Fault)
    ensures var s := Turn(limits, table, claims, t, fault);
            && claims <= s.claims
            && (Holds(t.(pc := s.pc)) && !Holds(t) ==> t.call.Key() !in claims && t.call.Key() in s.claims)
  {
    hide ClaimOnce, Barrier, Judge, InTime, Call.Key;
  }

  lemma StepKeeps(limits: Limits, b: Bridge, a: Action)
    requires Inv(b)
    ensures Inv(Step(limits, b, a))
  {
    hide Turn, Call.Key;
    if a.Go? && a.i < |b.threads| {
      TurnHolds(limits, b.table, b.claims, b.threads[a.i], a.fault);
      var b' := Step(limits, b, a);
      forall i, j | 0 <= i < j < |b'.threads| && Holds(b'.threads[i]) && Holds(b'.threads[j])
        ensures b'.threads[i].call.Key() != b'.threads[j].call.Key()
      {
        assert b'.threads[i].call == b.threads[i].call && b'.threads[j].call == b.threads[j].call;
      }
    }
  }

  lemma {:induction false} RunAllKeeps(limits: Limits, actions: seq<Action>)
    ensures Inv(RunAll(limits, actions))
  {
    hide Inv, Step;
    if actions == [] {
      EmptyInv();
    } else {
      RunAllKeeps(limits, actions[..|actions| - 1]);
      StepKeeps(limits, RunAll(limits, actions[..|actions| - 1]), actions[|actions| - 1]);
    }
  }

  lemma EmptyInv()
    ensures Inv(EMPTY)
  {
  }

  /**
   However calls interleave, and whatever the clocks and the process guard say, one key is dispatched at
   most once behind the durable guard.
   */
  lemma OneDispatchPerKey(limits: Limits, actions: seq<Action>, i: nat, j: nat)
    requires var b := RunAll(limits, actions); i < |b.threads| && j < |b.threads|
    requires var b := RunAll(limits, actions); Dispatched(b.threads[i]) && Dispatched(b.threads[j])
    requires var b := RunAll(limits, actions); b.threads[i].call.Key() == b.threads[j].call.Key()
    ensures i == j
  {
    hide RunAll, Call.Key;
    RunAllKeeps(limits, actions);
  }

  // ---------------------------------------------------------------- a call by itself

  /** What the durable guard answers to a claim. */
  function Answer(claims: set<string>, t: Thread, fault: Fault): DurableAnswer {
    if fault.FailsBefore? || fault.FailsAfter? then Raises
    else match ClaimDurably(claims, t.call.Key(), t.bytes).outcome
      case InvalidKey => Raises
      case Lost => No
      case Won => Yes
  }

  /** The four steps of a call without any other in between. */
  function Alone(limits: Limits, table: Table, claims: set<string>, t: Thread, fault: Fault): Turned {
    var a := Turn(limits, table, claims, t, fault);
    var b := Turn(limits, a.table, a.claims, t.(pc := a.pc), fault);
    var c := Turn(limits, b.table, b.claims, t.(pc := b.pc), fault);
    Turn(limits, c.table, c.claims, t.(pc := c.pc), fault)
  }

  /** Uninterrupted, they are one run of the bridge with the durable guard's own answer. */
  lemma AloneIsRun(limits: Limits, table: Table, claims: set<string>, t: Thread, fault: Fault)
    requires t.pc.Arrived?
    ensures var c := t.call.(env := t.call.env.(durable := Answer(claims, t, fault)));
            var ran, end := Run(table, limits, c), Alone(limits, table, claims, t, fault);
            end.table == ran.table && end.pc == Done(ran.result, ran.dispatched)
  {
    hide ClaimOnce, InTime;
  }
}
