/**
The rollout cap as the cluster feels it: how often, over whole runs, passes change the Service of an
app whose own spec has not moved.
 */
module PlatformRates {
  import opened Wrappers
  import opened StatusVerdict
  import opened PlatformRun
  import L = RolloutLimiter
  import P = RolloutPasses

  // ----- A run as the limiter sees it --------------------------------------------------------------------

  /** The calls one pass makes on the limiter. */
  function PassCalls(key: L.App, app: AppState, snap: Snapshot, limiter: L.State, now: Time): seq<L.Call> {
    if Rejected(app, snap) then []
    else if EffectiveGate(app.spec, snap, EffectiveOf(app, snap)).hold != NoHold then [L.Release(key)]
    else
      var d := DecideRollout(key, app, snap, limiter, now);
      (if d.reserved.Some? then [L.Reserve(key, now, PerMinute(snap))] else [])
      + (if d.gate.hold == HoldPending then [] else [L.Release(key)])
  }

  function StepCalls(w: World, s: Step): seq<L.Call> {
    match s
    case DeleteApp(key) => [L.Release(key)]
    case Reconcile(key, _) =>
      if key in w.apps then PassCalls(key, w.apps[key], Snap(w), w.limiter, w.now) else [L.Release(key)]
    case BrokenPass(key, _) => if key in w.apps then PassCalls(key, w.apps[key], Snap(w), w.limiter, w.now) else []
    case _ => []
  }

  /** The calls of a run since the operator last started; a restart forgets the limiter's state. */
  function Calls(w: World, steps: seq<Step>): seq<L.Call> {
    if |steps| == 0 || steps[|steps| - 1].Restart? then []
    else
      var front := steps[..|steps| - 1];
      Calls(w, front) + StepCalls(Run(w, front), steps[|steps| - 1])
  }

  /** What the limiter was when the operator last started. */
  function Origin(w: World, steps: seq<Step>): L.State {
    if |steps| == 0 then w.limiter
    else if steps[|steps| - 1].Restart? then L.Fresh()
    else Origin(w, steps[..|steps| - 1])
  }

  lemma {:induction false} FreshOrigin(w: World, steps: seq<Step>)
    requires w.limiter == L.Fresh()
    ensures Origin(w, steps) == L.Fresh()
  {
    hide L.Fresh;
    if |steps| > 0 { FreshOrigin(w, steps[..|steps| - 1]); }
  }

  lemma {:induction false} RunTwo(st: L.State, a: seq<L.Call>, b: seq<L.Call>)
    requires |b| <= 2
    ensures L.Run(st, a + b) == L.Run(L.Run(st, a), b)
    ensures P.Passes(st, a + b) == P.Passes(st, a) + P.Passes(L.Run(st, a), b)
  {
    hide L.After, P.PassOf;
    if |b| == 0 {
      assert a + b == a;
    } else {
      var front, last := b[..|b| - 1], b[|b| - 1];
      assert (a + b)[..|a + b| - 1] == a + front && (a + b)[|a + b| - 1] == last;
      RunTwo(st, a, front);
    }
  }

  lemma {:induction false} PassMoves(key: L.App, app: AppState, snap: Snapshot, limiter: L.State, now: Time)
    requires !Rejected(app, snap)
    ensures L.Run(limiter, PassCalls(key, app, snap, limiter, now)) == GatePass(key, app, snap, limiter, now).limiter
    ensures |PassCalls(key, app, snap, limiter, now)| <= 2
  {
    hide Rejected, EffectiveGate, L.Reserved, L.Released, Triggered, EffectiveOf, AppliedValues, PerMinute;
    OneCall(limiter, L.Release(key));
    OneCall(limiter, L.Reserve(key, now, PerMinute(snap)));
    TwoCalls(limiter, L.Reserve(key, now, PerMinute(snap)), L.Release(key));
  }

  lemma {:induction false} OneCall(st: L.State, c: L.Call)
    ensures L.Run(st, [c]) == L.After(st, c) && P.Passes(st, [c]) == P.PassOf(st, c)
  {
    hide L.After, P.PassOf;
    assert [c][..0] == [];
    assert [] + P.PassOf(st, c) == P.PassOf(st, c);
  }

  lemma {:induction false} TwoCalls(st: L.State, c: L.Call, d: L.Call)
    ensures L.Run(st, [c] + [d]) == L.After(L.After(st, c), d)
    ensures P.Passes(st, [c] + [d]) == P.PassOf(st, c) + P.PassOf(L.After(st, c), d)
  {
    hide L.After, P.PassOf, L.Run, P.Passes;
    OneCall(st, c);
    OneCall(L.After(st, c), d);
    RunTwo(st, [c], [d]);
  }

  lemma {:induction false} StepMoves(w: World, s: Step)
    requires !s.Restart?
    ensures Next(w, s).limiter == L.Run(w.limiter, StepCalls(w, s)) && |StepCalls(w, s)| <= 2
  {
    hide Rejected, GatePass, PassCalls, L.Run, VerdictOf, Applied, MirrorOf, Rendered, RejectedConditions;
    NoCalls(w.limiter);
    match s
    case DeleteApp(key) => OneCall(w.limiter, L.Release(key));
    case Reconcile(key, seen) =>
      OneCall(w.limiter, L.Release(key));
      if key in w.apps {
        if Rejected(w.apps[key], Snap(w)) { RejectedCalls(key, w.apps[key], Snap(w), w.limiter, w.now); }
        else { PassMoves(key, w.apps[key], Snap(w), w.limiter, w.now); }
      }
    case BrokenPass(key, written) =>
      if key in w.apps {
        if Rejected(w.apps[key], Snap(w)) { RejectedCalls(key, w.apps[key], Snap(w), w.limiter, w.now); }
        else { PassMoves(key, w.apps[key], Snap(w), w.limiter, w.now); }
      }
    case _ =>
  }

  lemma {:induction false} NoCalls(st: L.State)
    ensures L.Run(st, []) == st && P.Passes(st, []) == []
  {
  }

  lemma {:induction false} RejectedCalls(key: L.App, app: AppState, snap: Snapshot, limiter: L.State, now: Time)
    requires Rejected(app, snap)
    ensures PassCalls(key, app, snap, limiter, now) == []
  {
    hide Rejected;
  }

  /** The limiter of a run is where the calls since the operator last started take it. */
  lemma {:induction false} RunMoves(w: World, steps: seq<Step>)
    ensures Run(w, steps).limiter == L.Run(Origin(w, steps), Calls(w, steps))
  {
    hide Next, StepCalls, L.Run;
    if |steps| == 0 || steps[|steps| - 1].Restart? {
      NoCalls(Origin(w, steps));
      if |steps| > 0 { Restarted(Run(w, steps[..|steps| - 1])); }
    } else {
      var front := steps[..|steps| - 1];
      RunMoves(w, front);
      StepMoves(Run(w, front), steps[|steps| - 1]);
      RunTwo(Origin(w, front), Calls(w, front), StepCalls(Run(w, front), steps[|steps| - 1]));
    }
  }

  lemma {:induction false} Restarted(w: World)
    ensures Next(w, Restart).limiter == L.Fresh()
  {
  }

  // ----- Changes of Services ---------------------------------------------------------------------------------

  /** The pass of this step changes the existing Service of an app whose own spec has not moved. */
  predicate Changes(w: World, s: Step) {
    s.Reconcile? && s.key in w.apps && w.apps[s.key].service.Some? && !Triggered(w.apps[s.key])
    && PassIn(w, s.key, s.seen).app.service != w.apps[s.key].service
  }

  /** When they happen, since the operator last started. */
  function ChangeTimes(w: World, steps: seq<Step>): seq<Time> {
    if |steps| == 0 || steps[|steps| - 1].Restart? then []
    else
      var front := steps[..|steps| - 1];
      ChangeTimes(w, front) + if Changes(Run(w, front), steps[|steps| - 1]) then [Run(w, front).now] else []
  }

  /** A granted reservation is a pass of the limiter. */
  lemma {:induction false} GrantedCalls(key: L.App, app: AppState, snap: Snapshot, limiter: L.State, now: Time)
    requires !Rejected(app, snap) && GatePass(key, app, snap, limiter, now).reserved == Some(0)
    ensures P.Times(P.Passes(limiter, PassCalls(key, app, snap, limiter, now))) == [now]
  {
    hide Rejected, EffectiveGate, L.Reserved, L.Released, Triggered, EffectiveOf, AppliedValues, PerMinute, P.Passes, L.After;
    var c := L.Reserve(key, now, PerMinute(snap));
    TwoCalls(limiter, c, L.Release(key));
    GrantedPass(limiter, key, now, PerMinute(snap));
    var ps := P.PassOf(limiter, c);
    assert ps + [] == ps;
    P.TimesAt(ps);
  }

  lemma {:induction false} GrantedPass(st: L.State, key: L.App, now: Time, perMinute: int)
    requires L.Reserved(st, key, now, perMinute).wait <= 0
    ensures |P.PassOf(st, L.Reserve(key, now, perMinute))| == 1 && P.PassOf(st, L.Reserve(key, now, perMinute))[0].at == now
    ensures P.PassOf(L.After(st, L.Reserve(key, now, perMinute)), L.Release(key)) == []
  {
  }

  lemma {:induction false} StepPasses(w: World, s: Step)
    requires AllAccounted(w) && Changes(w, s)
    ensures P.Times(P.Passes(w.limiter, StepCalls(w, s))) == [w.now]
  {
    hide Pass, Rejected, GatePass, PassCalls, Accounted, Triggered, P.Passes, P.Times;
    var app := w.apps[s.key];
    assert Accounted(app);
    PassSlot(s.key, app, Snap(w), w.limiter, s.seen, w.now);
    if Rejected(app, Snap(w)) {
      RejectedNeverAsks(s.key, app, Snap(w), w.limiter, s.seen, w.now);
    } else {
      PassGate(s.key, app, Snap(w), w.limiter, s.seen, w.now);
      GrantedCalls(s.key, app, Snap(w), w.limiter, w.now);
    }
  }

  lemma {:induction false} TimesJoin(a: seq<P.Pass>, b: seq<P.Pass>)
    ensures P.Times(a + b) == P.Times(a) + P.Times(b)
  {
    if |b| == 0 {
      assert a + b == a;
    } else {
      assert (a + b)[..|a + b| - 1] == a + b[..|b| - 1];
      TimesJoin(a, b[..|b| - 1]);
    }
  }

  lemma {:induction false} WithinJoin(a: seq<Time>, b: seq<Time>, from: Time, to: Time)
    ensures L.Within(a + b, from, to) == L.Within(a, from, to) + L.Within(b, from, to)
  {
    if |b| == 0 {
      assert a + b == a;
    } else {
      assert (a + b)[..|a + b| - 1] == a + b[..|b| - 1];
      WithinJoin(a, b[..|b| - 1], from, to);
    }
  }

  /** Over a run of atomic passes, every such change is a pass of the limiter at that moment. */
  lemma {:induction false} ChangesArePasses(w: World, steps: seq<Step>, from: Time, to: Time)
    requires AllAccounted(w) && forall n :: 0 <= n < |steps| ==> Atomic(steps[n])
    ensures L.Within(ChangeTimes(w, steps), from, to)
         <= L.Within(P.Times(P.Passes(Origin(w, steps), Calls(w, steps))), from, to)
  {
    hide Next, StepCalls, L.Run, P.Passes, P.Times, L.Within, Changes, AllAccounted;
    if |steps| == 0 || steps[|steps| - 1].Restart? {
      assert ChangeTimes(w, steps) == [];
      NothingWithin(from, to);
    } else {
      var front, s := steps[..|steps| - 1], steps[|steps| - 1];
      var mid := Run(w, front);
      ChangesArePasses(w, front, from, to);
      RunAccounted(w, front);
      RunMoves(w, front);
      StepMoves(mid, s);
      RunTwo(Origin(w, front), Calls(w, front), StepCalls(mid, s));
      var before, now' := P.Passes(Origin(w, front), Calls(w, front)), P.Passes(mid.limiter, StepCalls(mid, s));
      TimesJoin(before, now');
      WithinJoin(P.Times(before), P.Times(now'), from, to);
      var more: seq<Time> := if Changes(mid, s) then [mid.now] else [];
      WithinJoin(ChangeTimes(w, front), more, from, to);
      if Changes(mid, s) {
        StepPasses(mid, s);
      } else {
        NothingWithin(from, to);
      }
    }
  }

  lemma {:induction false} NothingWithin(from: Time, to: Time)
    ensures L.Within([], from, to) == 0
  {
  }

  // ----- The cap -----------------------------------------------------------------------------------------------

  predicate MakesPass(s: Step) { s.Reconcile? || s.BrokenPass? }

  /** Whenever a pass is made, the rate in force is p or less. */
  predicate RateUpTo(w: World, steps: seq<Step>, p: int) {
    forall n :: 0 <= n < |steps| && MakesPass(steps[n]) ==> PerMinute(Snap(Run(w, steps[..n]))) <= p
  }

  lemma {:induction false} PassCallsPaced(key: L.App, app: AppState, snap: Snapshot, limiter: L.State, now: Time)
    requires now > 0
    ensures var cs := PassCalls(key, app, snap, limiter, now);
            L.Clocked(cs) && L.NoFaster(cs, PerMinute(snap))
  {
    hide Rejected, PerMinute, EffectiveGate, L.Reserved, Triggered, EffectiveOf, AppliedValues;
    RatePositive(snap);
  }

  lemma {:induction false} StepPaced(w: World, s: Step)
    requires w.now > 0
    ensures L.Clocked(StepCalls(w, s)) && Next(w, s).now > 0
    ensures L.NoFaster(StepCalls(w, s), PerMinute(Snap(w)))
    ensures !MakesPass(s) ==> forall i :: 0 <= i < |StepCalls(w, s)| ==> StepCalls(w, s)[i].Release?
  {
    hide Pass, Interrupted, PassCalls, PerMinute;
    match s
    case Reconcile(key, _) => if key in w.apps { PassCallsPaced(key, w.apps[key], Snap(w), w.limiter, w.now); }
    case BrokenPass(key, _) => if key in w.apps { PassCallsPaced(key, w.apps[key], Snap(w), w.limiter, w.now); }
    case _ =>
  }

  lemma {:induction false} RatePositive(snap: Snapshot)
    ensures PerMinute(snap) > 0
  {
  }

  lemma {:induction false} CallsClocked(w: World, steps: seq<Step>)
    requires w.now > 0
    ensures L.Clocked(Calls(w, steps)) && Run(w, steps).now > 0
  {
    hide Next, StepCalls, PerMinute, Snap;
    if |steps| > 0 {
      CallsClocked(w, steps[..|steps| - 1]);
      StepPaced(Run(w, steps[..|steps| - 1]), steps[|steps| - 1]);
    }
  }

  /** No slot is issued at a rate the platform never had in force. */
  lemma {:induction false} CallsNoFaster(w: World, steps: seq<Step>, p: int)
    requires w.now > 0 && RateUpTo(w, steps, p)
    ensures L.NoFaster(Calls(w, steps), p)
  {
    hide Next, StepCalls, PerMinute, Snap;
    if |steps| > 0 && !steps[|steps| - 1].Restart? {
      var front := steps[..|steps| - 1];
      assert forall n :: 0 <= n < |front| ==> front[..n] == steps[..n];
      CallsNoFaster(w, front, p);
      CallsClocked(w, front);
      assert steps[..|front|] == front;
      StepPaced(Run(w, front), steps[|front|]);
    }
  }

  /**
  The cap on re-renders over whole runs of atomic passes, counted from the last start of the operator,
  whatever becomes of the platform and its rate. If no app passes more than d after its slot and no slot
  from d before a half-open minute on was issued at a rate above p, the platform changes at most p Services
  in that minute, and one more for each interval begun of d, when p divides a minute; else one more than that
  while p^2 is within a minute's nanoseconds.
   */
  lemma {:induction false} ChangesPerMinute(w: World, steps: seq<Step>, p: int, d: Duration, t: Time)
    requires Initial(w) && w.now > 0 && p > 0 && d >= 0
    requires forall n :: 0 <= n < |steps| ==> Atomic(steps[n])
    requires P.Prompt(P.Passes(L.Fresh(), Calls(w, steps)), d)
    requires L.IssuedAtMost(Calls(w, steps), t - d, t + L.MINUTE, p)
    ensures var n := L.InMinute(ChangeTimes(w, steps), t);
            && (L.MINUTE % p == 0 ==> n <= p + L.Backlog(p, d))
            && (p * p <= L.MINUTE ==> n <= p + 1 + L.Backlog(p, d))
  {
    hide Run, Calls, ChangeTimes, P.Passes, P.Times, P.Prompt, L.Backlog, L.Within, L.Clocked, L.IssuedAtMost, Origin;
    CallsClocked(w, steps);
    ChangesArePasses(w, steps, t, t + L.MINUTE);
    FreshOrigin(w, steps);
    P.PassesPerMinute(Calls(w, steps), p, d, t);
  }

  /** However late apps come back: eleven minutes' worth in any minute, at the highest rate there was in force. */
  lemma {:induction false} ChangesEver(w: World, steps: seq<Step>, p: int, t: Time)
    requires Initial(w) && w.now > 0 && p > 0 && RateUpTo(w, steps, p)
    requires forall n :: 0 <= n < |steps| ==> Atomic(steps[n])
    ensures var n := L.InMinute(ChangeTimes(w, steps), t);
            && (L.MINUTE % p == 0 ==> n <= 11 * p)
            && (p * p <= L.MINUTE ==> n <= 11 * (p + 1))
  {
    hide Run, Calls, ChangeTimes, P.Passes, P.Times, L.Within, L.Clocked, L.NoFaster, L.IssuedAtMost, Origin, RateUpTo;
    CallsClocked(w, steps);
    CallsNoFaster(w, steps, p);
    L.NoFasterIssues(Calls(w, steps), p, t - L.STALE_AFTER, t + L.MINUTE);
    ChangesArePasses(w, steps, t, t + L.MINUTE);
    FreshOrigin(w, steps);
    P.PassesEver(Calls(w, steps), p, t);
  }
}
