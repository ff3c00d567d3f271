/**
The database wake gate: concurrent first acquisitions share one cold wake.

Callers, settlements, promise handlers and resumptions interleave freely. Each caller wraps one
operation; an operation is opaque and does not come back through the gate itself.
 */
module WakeGate {
  import opened Wrappers

  datatype Outcome = Value(v: int) | Error(e: int)

  /** What calling an operation gives at once: a promise, or a value or exception right away. */
  datatype Start = Promise | Now(o: Outcome)

  datatype Role = Leader | Warm | Follower(leader: nat)

  /** Parked on the leader's shared promise, running, settled with the handler still due, done. */
  datatype Phase = Parked | Running | Settled(o: Outcome) | Done(o: Outcome)

  /** runs counts how often the caller's own operation was started. */
  datatype Call = Call(role: Role, phase: Phase, runs: nat)

  /** inflight is the caller whose wake is published. */
  datatype State = State(woken: bool, inflight: Option<nat>, calls: seq<Call>)

  datatype Event =
    | Arrive(start: Start)
    | Settle(who: nat, o: Outcome)
    | Handle(who: nat)
    | Resume(who: nat, start: Start)

  function Begun(start: Start): Phase {
    match start
    case Promise => Running
    case Now(o) => Done(o)
  }

  function Arrived(s: State, start: Start): State {
    if s.woken then s.(calls := s.calls + [Call(Warm, Begun(start), 1)])
    else if s.inflight.Some? then s.(calls := s.calls + [Call(Follower(s.inflight.value), Parked, 0)])
    else
      var calls := s.calls + [Call(Leader, Begun(start), 1)];
      match start
      case Promise => State(false, Some(|s.calls|), calls)
      case Now(Value(_)) => State(true, None, calls)
      case Now(Error(_)) => State(false, None, calls)
  }

  predicate Enabled(s: State, e: Event) {
    match e
    case Arrive(_) => true
    case Settle(who, _) => who < |s.calls| && s.calls[who].phase == Running
    case Handle(who) => who < |s.calls| && s.calls[who].phase.Settled?
    case Resume(who, _) =>
      who < |s.calls| && s.calls[who].phase == Parked && s.calls[who].role.Follower?
      && s.calls[who].role.leader < |s.calls| && s.calls[s.calls[who].role.leader].phase.Done?
  }

  function Next(s: State, e: Event): State
    requires Enabled(s, e)
  {
    match e
    case Arrive(start) => Arrived(s, start)
    case Settle(who, o) =>
      var c := s.calls[who];
      s.(calls := s.calls[who := c.(phase := if c.role == Leader then Settled(o) else Done(o))])
    case Handle(who) =>
      var c := s.calls[who];
      State(s.woken || c.phase.o.Value?, None, s.calls[who := c.(phase := Done(c.phase.o))])
    case Resume(who, start) =>
      var c := s.calls[who];
      s.(calls := s.calls[who := c.(phase := Begun(start), runs := c.runs + 1)])
  }

  /** One scheduler step; an event that cannot happen now does not. */
  function Step(s: State, e: Event): State {
    if Enabled(s, e) then Next(s, e) else s
  }

  function Run(s: State, events: seq<Event>): State {
    if |events| == 0 then s else Step(Run(s, events[..|events| - 1]), events[|events| - 1])
  }

  function Fresh(): State { State(false, None, []) }

  // ----- The invariant -------------------------------------------------------------------------------

  predicate Unhandled(c: Call) { c.role == Leader && (c.phase == Running || c.phase.Settled?) }

  predicate Woke(c: Call) { c.role == Leader && c.phase.Done? && c.phase.o.Value? }

  predicate FailedWake(c: Call) { c.role == Leader && c.phase.Done? && c.phase.o.Error? }

  predicate Sound(s: State, c: Call) {
    match c.role
    case Leader => c.phase != Parked && c.runs == 1 && (Woke(c) ==> s.woken)
    case Warm => s.woken && c.phase != Parked && !c.phase.Settled? && c.runs == 1
    case Follower(l) =>
      && l < |s.calls| && s.calls[l].role == Leader && !c.phase.Settled?
      && c.runs == (if c.phase == Parked then 0 else 1)
      && (c.phase != Parked ==> s.calls[l].phase.Done?)
  }

  ghost predicate Inv(s: State) {
    && (s.inflight.Some? ==> s.inflight.value < |s.calls| && Unhandled(s.calls[s.inflight.value]) && !s.woken)
    && (forall i :: 0 <= i < |s.calls| && Unhandled(s.calls[i]) ==> s.inflight == Some(i))
    && (forall i :: 0 <= i < |s.calls| ==> Sound(s, s.calls[i]))
    && (s.woken ==> exists i :: 0 <= i < |s.calls| && Woke(s.calls[i]))
  }

  lemma {:induction false} ArriveKeeps(s: State, start: Start)
    requires Inv(s)
    ensures Inv(Arrived(s, start))
  {
    var t := Arrived(s, start);
    assert forall i :: 0 <= i < |s.calls| ==> t.calls[i] == s.calls[i];
    if s.woken {
      var i :| 0 <= i < |s.calls| && Woke(s.calls[i]);
      assert Woke(t.calls[i]);
    } else if t.woken {
      assert Woke(t.calls[|s.calls|]);
    }
  }

  lemma {:induction false} SettleKeeps(s: State, who: nat, o: Outcome)
    requires Inv(s) && Enabled(s, Settle(who, o))
    ensures Inv(Next(s, Settle(who, o)))
  {
    var t := Next(s, Settle(who, o));
    assert Sound(s, s.calls[who]);
    if s.woken {
      var i :| 0 <= i < |s.calls| && Woke(s.calls[i]);
      assert Woke(t.calls[i]);
    }
  }

  lemma {:induction false} HandleKeeps(s: State, who: nat)
    requires Inv(s) && Enabled(s, Handle(who))
    ensures Inv(Next(s, Handle(who))) && s.inflight == Some(who)
  {
    var t := Next(s, Handle(who));
    assert Sound(s, s.calls[who]);
    if t.woken { assert Woke(t.calls[who]); }
  }

  lemma {:induction false} ResumeKeeps(s: State, who: nat, start: Start)
    requires Inv(s) && Enabled(s, Resume(who, start))
    ensures Inv(Next(s, Resume(who, start)))
  {
    var t := Next(s, Resume(who, start));
    assert Sound(s, s.calls[who]);
    if s.woken {
      var i :| 0 <= i < |s.calls| && Woke(s.calls[i]);
      assert Woke(t.calls[i]);
    }
  }

  /** A published wake is withdrawn by its own handler only, and woken is set by a success and never unset. */
  lemma {:induction false} StepKeeps(s: State, e: Event)
    requires Inv(s)
    ensures Inv(Step(s, e))
    ensures s.woken ==> Step(s, e).woken
    ensures s.inflight.Some? && Step(s, e).inflight != s.inflight ==>
              e == Handle(s.inflight.value) && Step(s, e).inflight == None
    ensures !s.woken && Step(s, e).woken ==>
              (e.Arrive? && e.start.Now? && e.start.o.Value?)
              || (e.Handle? && e.who < |s.calls| && s.calls[e.who].phase.Settled? && s.calls[e.who].phase.o.Value?)
  {
    hide Inv;
    if Enabled(s, e) {
      match e
      case Arrive(start) => ArriveKeeps(s, start);
      case Settle(who, o) => SettleKeeps(s, who, o);
      case Handle(who) => HandleKeeps(s, who);
      case Resume(who, start) => ResumeKeeps(s, who, start);
    }
  }

  lemma {:induction false} RunKeeps(events: seq<Event>)
    ensures Inv(Run(Fresh(), events))
  {
    hide Step;
    if |events| > 0 {
      RunKeeps(events[..|events| - 1]);
      StepKeeps(Run(Fresh(), events[..|events| - 1]), events[|events| - 1]);
    }
  }

  // ----- Single flight -----------------------------------------------------------------------------------

  predicate Started(c: Call) { c.runs > 0 }

  /**
  Single flight, over every interleaving: at most one wake is unhandled at a time and it is the
  published one; while nothing has woken the database and no wake has failed, the published leader's
  operation is the only one that was ever started; and no operation is started more than once.
   */
  lemma {:induction false} SingleFlight(events: seq<Event>)
    ensures var s := Run(Fresh(), events);
            && (forall i :: 0 <= i < |s.calls| && Unhandled(s.calls[i]) ==> s.inflight == Some(i))
            && (s.woken <==> exists i :: 0 <= i < |s.calls| && Woke(s.calls[i]))
            && (!s.woken && (forall i :: 0 <= i < |s.calls| ==> !FailedWake(s.calls[i])) ==>
                  forall i :: 0 <= i < |s.calls| && Started(s.calls[i]) ==> s.inflight == Some(i))
            && (forall i :: 0 <= i < |s.calls| ==> s.calls[i].runs <= 1)
  {
    RunKeeps(events);
    var s := Run(Fresh(), events);
    forall i | 0 <= i < |s.calls|
      ensures s.calls[i].runs <= 1 && (Woke(s.calls[i]) ==> s.woken)
      ensures !s.woken && (forall j :: 0 <= j < |s.calls| ==> !FailedWake(s.calls[j])) && Started(s.calls[i]) ==>
                s.inflight == Some(i)
    {
      assert Sound(s, s.calls[i]);
      if s.calls[i].role.Follower? {
        var l := s.calls[i].role.leader;
        assert Sound(s, s.calls[l]);
        assert s.calls[l].phase.Done? ==> Woke(s.calls[l]) || FailedWake(s.calls[l]);
      } else {
        assert s.calls[i].phase.Done? && s.calls[i].role == Leader ==> Woke(s.calls[i]) || FailedWake(s.calls[i]);
      }
    }
  }

  // ----- Everybody gets the result of their own operation ---------------------------------------------------

  datatype Completion = Completion(who: nat, o: Outcome)

  /** The operation this event completes, if it does, and with what. */
  function Completes(s: State, e: Event): seq<Completion> {
    if !Enabled(s, e) then []
    else
      match e
      case Arrive(Now(o)) => if !s.woken && s.inflight.Some? then [] else [Completion(|s.calls|, o)]
      case Settle(who, o) => [Completion(who, o)]
      case Resume(who, Now(o)) => [Completion(who, o)]
      case _ => []
  }

  function Completions(s: State, events: seq<Event>): seq<Completion> {
    if |events| == 0 then []
    else
      var front := events[..|events| - 1];
      Completions(s, front) + Completes(Run(s, front), events[|events| - 1])
  }

  predicate Reported(c: Call, o: Outcome) { c.phase == Settled(o) || c.phase == Done(o) }

  predicate Tallies(s: State, log: seq<Completion>) {
    && (forall k :: 0 <= k < |log| ==> log[k].who < |s.calls| && Reported(s.calls[log[k].who], log[k].o))
    && (forall j, k :: 0 <= j < k < |log| ==> log[j].who != log[k].who)
    && (forall i :: 0 <= i < |s.calls| && Answered(s.calls[i]) ==>
          Completion(i, s.calls[i].phase.o) in log)
  }

  predicate Answered(c: Call) { c.phase.Settled? || c.phase.Done? }

  /** One call moves on: it completes now, or it was answered before and keeps its answer, or neither. */
  lemma {:induction false} UpdateTallies(s: State, t: State, i: nat, c: Call, log: seq<Completion>, more: seq<Completion>)
    requires Tallies(s, log) && i < |s.calls| && t.calls == s.calls[i := c]
    requires Answered(s.calls[i]) ==> more == [] && Reported(c, s.calls[i].phase.o)
    requires !Answered(s.calls[i]) ==> more == if Answered(c) then [Completion(i, c.phase.o)] else []
    ensures Tallies(t, log + more)
  {
    forall k | 0 <= k < |t.calls| && Answered(t.calls[k])
      ensures Completion(k, t.calls[k].phase.o) in log + more
    {
      if Answered(s.calls[k]) { assert Completion(k, s.calls[k].phase.o) in log; }
    }
  }

  lemma {:induction false} AppendTallies(s: State, t: State, c: Call, log: seq<Completion>, more: seq<Completion>)
    requires Tallies(s, log) && t.calls == s.calls + [c]
    requires more == if Answered(c) then [Completion(|s.calls|, c.phase.o)] else []
    ensures Tallies(t, log + more)
  {
    forall k | 0 <= k < |t.calls| && Answered(t.calls[k])
      ensures Completion(k, t.calls[k].phase.o) in log + more
    {
      if k < |s.calls| { assert Completion(k, s.calls[k].phase.o) in log; }
    }
  }

  lemma {:induction false} StepTallies(s: State, e: Event, log: seq<Completion>)
    requires Tallies(s, log)
    ensures Tallies(Step(s, e), log + Completes(s, e))
  {
    hide Tallies;
    var t := Step(s, e);
    if !Enabled(s, e) {
      assert log + [] == log;
    } else if e.Arrive? {
      AppendTallies(s, t, t.calls[|s.calls|], log, Completes(s, e));
    } else {
      UpdateTallies(s, t, e.who, t.calls[e.who], log, Completes(s, e));
    }
  }

  /**
  Every caller is answered by its own operation: what a caller is told is what its operation
  completed with, and no operation completes twice.
   */
  lemma {:induction false} OwnResult(events: seq<Event>)
    ensures Tallies(Run(Fresh(), events), Completions(Fresh(), events))
  {
    hide Step, Completes, Tallies;
    if |events| == 0 {
      NothingTallied();
    } else {
      var front := events[..|events| - 1];
      OwnResult(front);
      StepTallies(Run(Fresh(), front), events[|events| - 1], Completions(Fresh(), front));
    }
  }

  lemma {:induction false} NothingTallied()
    ensures Tallies(Fresh(), [])
  {
  }

  // ----- Progress --------------------------------------------------------------------------------------------

  function Work(c: Call): nat {
    match c.phase
    case Parked => 3
    case Running => 2
    case Settled(_) => 1
    case Done(_) => 0
  }

  function Remaining(calls: seq<Call>): nat {
    if |calls| == 0 then 0 else Remaining(calls[..|calls| - 1]) + Work(calls[|calls| - 1])
  }

  lemma {:induction false} RemainingUpdate(calls: seq<Call>, i: nat, c: Call)
    requires i < |calls|
    ensures Remaining(calls[i := c]) == Remaining(calls) - Work(calls[i]) + Work(c)
  {
    var n := |calls| - 1;
    if i < n {
      assert calls[i := c][..n] == calls[..n][i := c];
      RemainingUpdate(calls[..n], i, c);
    } else {
      assert calls[i := c][..n] == calls[..n];
    }
  }

  predicate AllDone(s: State) { forall i :: 0 <= i < |s.calls| ==> s.calls[i].phase.Done? }

  predicate Moves(s: State, e: Event) { Enabled(s, e) && !e.Arrive? }

  /** Nobody waits for ever: every event but an arrival leaves less work, and one is possible exactly while work is left. */
  lemma {:induction false} Progress(events: seq<Event>)
    ensures var s := Run(Fresh(), events);
            && (forall e :: Moves(s, e) ==> Remaining(Step(s, e).calls) < Remaining(s.calls))
            && (AllDone(s) <==> !exists e :: Moves(s, e))
  {
    hide Inv, Step, Remaining;
    var s := Run(Fresh(), events);
    RunKeeps(events);
    forall e | Moves(s, e)
      ensures Remaining(Step(s, e).calls) < Remaining(s.calls)
    {
      Shrinks(s, e);
    }
    if i: nat :| i < |s.calls| && !s.calls[i].phase.Done? {
      var e := Advance(s, i);
      assert Moves(s, e);
    }
  }

  lemma {:induction false} Advance(s: State, i: nat) returns (e: Event)
    requires Inv(s) && i < |s.calls| && !s.calls[i].phase.Done?
    ensures Moves(s, e)
  {
    assert Sound(s, s.calls[i]);
    var who := if s.calls[i].phase == Parked then s.calls[i].role.leader else i;
    assert Sound(s, s.calls[who]);
    e := if s.calls[who].phase == Running then Settle(who, Value(0))
         else if s.calls[who].phase.Settled? then Handle(who)
         else Resume(i, Promise);
  }

  /** A schedule without arrivals whose every event can happen when its turn comes. */
  predicate Moving(s: State, events: seq<Event>) {
    forall k :: 0 <= k < |events| ==> Moves(Run(s, events[..k]), events[k])
  }

  lemma {:induction false} RunJoin(s: State, a: seq<Event>, b: seq<Event>)
    ensures Run(s, a + b) == Run(Run(s, a), b)
  {
    hide Step;
    if |b| == 0 {
      assert a + b == a;
    } else {
      assert (a + b)[..|a + b| - 1] == a + b[..|b| - 1];
      RunJoin(s, a, b[..|b| - 1]);
    }
  }

  /**
  Once callers stop arriving the gate empties, whatever the order of the rest: a schedule without
  arrivals has at most as many events as there was work, and one that cannot go on has answered everybody.
   */
  lemma {:induction false} Drains(events: seq<Event>, more: seq<Event>)
    requires Moving(Run(Fresh(), events), more)
    ensures var s := Run(Fresh(), events + more);
            && |more| + Remaining(s.calls) <= Remaining(Run(Fresh(), events).calls)
            && (AllDone(s) <==> !exists e :: Moves(s, e))
  {
    hide Step, Remaining, AllDone, Moves;
    Progress(events + more);
    RunJoin(Fresh(), events, more);
    if |more| > 0 {
      var n := |more| - 1;
      var front := more[..n];
      assert forall k :: 0 <= k < n ==> front[..k] == more[..k];
      Drains(events, front);
      RunJoin(Fresh(), events, front);
      Progress(events + front);
    } else {
      assert events + more == events;
    }
  }

  lemma {:induction false} RunOne(s: State, e: Event)
    ensures Run(s, [e]) == Step(s, e)
  {
    hide Step;
    assert [e][..0] == [];
  }

  lemma {:induction false} MovesThen(s: State, e: Event, rest: seq<Event>)
    requires Moves(s, e) && Moving(Step(s, e), rest)
    ensures Moving(s, [e] + rest)
  {
    hide Step, Moves, Run;
    var all := [e] + rest;
    RunOne(s, e);
    forall k | 0 <= k < |all|
      ensures Moves(Run(s, all[..k]), all[k])
    {
      if k == 0 {
        NothingRun(s);
      } else {
        assert all[..k] == [e] + rest[..k - 1];
        RunJoin(s, [e], rest[..k - 1]);
      }
    }
  }

  lemma {:induction false} NothingRun(s: State)
    ensures Run(s, []) == s
  {
  }

  /** Such a schedule that answers everybody always exists. */
  lemma {:induction false} Drained(events: seq<Event>) returns (more: seq<Event>)
    ensures Moving(Run(Fresh(), events), more)
    ensures AllDone(Run(Fresh(), events + more))
    decreases Remaining(Run(Fresh(), events).calls)
  {
    hide Step, Remaining, AllDone, Moves, Run;
    var s := Run(Fresh(), events);
    Progress(events);
    if AllDone(s) {
      more := [];
      assert events + more == events;
    } else {
      var e :| Moves(s, e);
      RunJoin(Fresh(), events, [e]);
      RunOne(s, e);
      var rest := Drained(events + [e]);
      more := [e] + rest;
      assert events + more == events + [e] + rest;
      MovesThen(s, e, rest);
    }
  }

  lemma {:induction false} Shrinks(s: State, e: Event)
    requires Moves(s, e)
    ensures Remaining(Step(s, e).calls) < Remaining(s.calls)
  {
    hide Remaining;
    RemainingUpdate(s.calls, e.who, Next(s, e).calls[e.who]);
  }

  // ----- The shared cell ---------------------------------------------------------------------------------------

  /** The process-wide cell and the calls that went through it. */
  class Singleflight {
    var woken: bool
    var inflight: Option<nat>
    var calls: seq<Call>
    ghost var history: seq<Event>

    /** What has happened so far leads here. */
    ghost predicate Valid()
      reads this
    {
      Abs() == Run(Fresh(), history)
    }

    constructor ()
      ensures Abs() == Fresh() && Valid() && history == []
    {
      woken, inflight, calls := false, None, [];
      history := [];
    }

    function Abs(): State
      reads this
    {
      State(woken, inflight, calls)
    }

    /** A caller reaches the gate; start is what its operation gives if the gate runs it now. */
    method Enter(start: Start)
      requires Valid()
      modifies this
      ensures Valid() && history == old(history) + [Arrive(start)]
      ensures Abs() == Arrived(old(Abs()), start) && (old(woken) ==> woken)
    {
      Extend(history, Arrive(start));
      history := history + [Arrive(start)];
      var me := |calls|;
      if woken {
        calls := calls + [Call(Warm, Begun(start), 1)];
        return;
      }
      if inflight.Some? {
        calls := calls + [Call(Follower(inflight.value), Parked, 0)];
        return;
      }
      calls := calls + [Call(Leader, Begun(start), 1)];
      if start.Now? && start.o.Error? {
        inflight := None;
        return;
      }
      if start.Promise? {
        inflight := Some(me);
        return;
      }
      woken := true;
      inflight := None;
    }

    /** The handler the leader attached to its promise. */
    method RunHandler(who: nat)
      requires Valid() && Enabled(Abs(), Handle(who))
      modifies this
      ensures Valid() && history == old(history) + [Handle(who)]
      ensures Abs() == Next(old(Abs()), Handle(who)) && old(inflight) == Some(who) && inflight == None
    {
      Extend(history, Handle(who));
      RunKeeps(history);
      HandleKeeps(Abs(), who);
      history := history + [Handle(who)];
      var o := calls[who].phase.o;
      if o.Value? {
        woken := true;
        inflight := None;
      } else {
        inflight := None;
      }
      calls := calls[who := calls[who].(phase := Done(o))];
    }

    /** A follower's continuation: the shared wake has been handled, so its own operation runs. */
    method Continue(who: nat, start: Start)
      requires Valid() && Enabled(Abs(), Resume(who, start))
      modifies this
      ensures Valid() && history == old(history) + [Resume(who, start)]
      ensures Abs() == Next(old(Abs()), Resume(who, start)) && woken == old(woken) && inflight == old(inflight)
    {
      Extend(history, Resume(who, start));
      history := history + [Resume(who, start)];
      calls := calls[who := calls[who].(phase := Begun(start), runs := calls[who].runs + 1)];
    }

    /** The promise of who's operation settles, which is not the gate's doing; a leader's handler is still to run. */
    method Settles(who: nat, o: Outcome)
      requires Valid() && Enabled(Abs(), Settle(who, o))
      modifies this
      ensures Valid() && history == old(history) + [Settle(who, o)]
      ensures Abs() == Next(old(Abs()), Settle(who, o)) && woken == old(woken) && inflight == old(inflight)
    {
      Extend(history, Settle(who, o));
      history := history + [Settle(who, o)];
      calls := calls[who := calls[who].(phase := if calls[who].role == Leader then Settled(o) else Done(o))];
    }

    /**
    What the cell says of itself at any moment: a published wake is the one wake not handled yet, woken
    means some wake has succeeded, and every answer is its caller's own operation's one completion.
     */
    lemma {:induction false} CellSound()
      requires Valid()
      ensures forall i :: 0 <= i < |calls| && Unhandled(calls[i]) ==> inflight == Some(i)
      ensures inflight.Some? ==> inflight.value < |calls| && Unhandled(calls[inflight.value]) && !woken
      ensures woken <==> exists i :: 0 <= i < |calls| && Woke(calls[i])
      ensures forall i :: 0 <= i < |calls| ==> calls[i].runs <= 1
      ensures Tallies(Abs(), Completions(Fresh(), history))
    {
      hide Run, Completions, Tallies;
      RunKeeps(history);
      SingleFlight(history);
      OwnResult(history);
    }
  }

  lemma {:induction false} Extend(events: seq<Event>, e: Event)
    ensures Run(Fresh(), events + [e]) == Step(Run(Fresh(), events), e)
  {
    hide Step;
    assert (events + [e])[..|events|] == events;
  }
}
