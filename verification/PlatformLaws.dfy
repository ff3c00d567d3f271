/**
What the merge, the gates and a whole pass come to, with every value written out: the built-in table,
the connection wall, the resource rule, and what a pass leaves in the Service and in the status.
 */
module PlatformLaws {
  import opened Wrappers
  import opened StatusVerdict
  import opened PlatformRun
  import opened Dictionary
  import D = PlatformDefaults
  import L = RolloutLimiter
  import V = VerdictLaws

  // ----- The merge -----------------------------------------------------------------------------------------

  const BLANK_LAYER: D.Layer :=
    D.Layer(0, D.Quantity("", None), D.Quantity("", None), D.Quantity("", None), D.Quantity("", None), 0, "", None, None, None)

  function Offered(platform: Option<D.PlatformSpec>): D.Layer {
    match platform
    case Some(p) => p.layer
    case None => BLANK_LAYER
  }

  function FirstSet(a: D.Quantity, b: D.Quantity, c: D.Quantity): D.Quantity {
    if |a.text| > 0 then a else if |b.text| > 0 then b else c
  }

  function FirstPositive(a: int, b: int, c: int): int { if a > 0 then a else if b > 0 then b else c }

  function FirstSome(a: Option<int>, b: Option<int>): Option<int> { if a.Some? then a else b }

  /** The ten merged values, against the table of built-in ones. */
  lemma {:induction false} MergeLaw(app: D.Layer, platform: Option<D.PlatformSpec>)
    ensures var v, p := D.Resolve(app, platform).values, Offered(platform);
            && v.cpuRequest == FirstSet(app.cpuRequest, p.cpuRequest, D.Quantity("250m", Some(0.25)))
            && v.cpuLimit == FirstSet(app.cpuLimit, p.cpuLimit, D.Quantity("1000m", Some(1.0)))
            && v.memoryRequest == FirstSet(app.memoryRequest, p.memoryRequest, D.Quantity("512Mi", Some(536870912.0)))
            && v.memoryLimit == FirstSet(app.memoryLimit, p.memoryLimit, D.Quantity("1Gi", Some(1073741824.0)))
            && v.containerConcurrency == FirstPositive(app.containerConcurrency, p.containerConcurrency, 20)
            && v.timeoutSeconds == FirstPositive(app.timeoutSeconds, p.timeoutSeconds, 300)
            && v.scaleDownDelay == (if |app.scaleDownDelay| > 0 then app.scaleDownDelay else p.scaleDownDelay)
            && v.targetBurst == FirstSome(app.targetBurst, p.targetBurst)
            && v.panicWindow == FirstSome(app.panicWindow, p.panicWindow)
            && v.panicThreshold == FirstSome(app.panicThreshold, p.panicThreshold)
  {
    hide D.Inherited;
  }

  /** A resource the app leaves open and the platform fills. */
  predicate Filled(app: D.Quantity, platform: D.Quantity) { |app.text| == 0 && |platform.text| > 0 }

  predicate ResourceFilled(app: D.Layer, platform: Option<D.PlatformSpec>) {
    var p := Offered(platform);
    || Filled(app.cpuRequest, p.cpuRequest) || Filled(app.cpuLimit, p.cpuLimit)
    || Filled(app.memoryRequest, p.memoryRequest) || Filled(app.memoryLimit, p.memoryLimit)
  }

  /** The connection budget: the platform's own when it sets one, else 80. */
  function Budget(platform: Option<D.PlatformSpec>): int {
    match platform
    case Some(p) => if p.budget >= 1 then p.budget else 80
    case None => 80
  }

  lemma {:induction false} BudgetLaw(app: D.Layer, platform: Option<D.PlatformSpec>)
    ensures D.Resolve(app, platform).budget == Budget(platform)
    ensures D.Resolve(app, platform).resourceFromPlatform <==> ResourceFilled(app, platform)
  {
    hide D.Inherited, D.Values;
  }

  /** The paths of the fields reported as inherited: those the app leaves open and the platform fills. */
  lemma {:induction false} ReportLaw(app: D.Layer, platform: Option<D.PlatformSpec>)
    ensures var paths, p := Paths(D.Resolve(app, platform).inherited), Offered(platform);
            && Sorted(paths)
            && ("spec.resources.cpuRequest" in paths <==> Filled(app.cpuRequest, p.cpuRequest))
            && ("spec.resources.cpuLimit" in paths <==> Filled(app.cpuLimit, p.cpuLimit))
            && ("spec.resources.memoryRequest" in paths <==> Filled(app.memoryRequest, p.memoryRequest))
            && ("spec.resources.memoryLimit" in paths <==> Filled(app.memoryLimit, p.memoryLimit))
            && ("spec.scaling.containerConcurrency" in paths <==> app.containerConcurrency <= 0 < p.containerConcurrency)
            && ("spec.timeoutSeconds" in paths <==> app.timeoutSeconds <= 0 < p.timeoutSeconds)
            && ("spec.scaling.scaleDownDelay" in paths <==> |app.scaleDownDelay| == 0 < |p.scaleDownDelay|)
            && ("spec.scaling.targetBurstCapacity" in paths <==> app.targetBurst.None? && p.targetBurst.Some?)
            && ("spec.scaling.panicWindowPercentage" in paths <==> app.panicWindow.None? && p.panicWindow.Some?)
            && ("spec.scaling.panicThresholdPercentage" in paths <==> app.panicThreshold.None? && p.panicThreshold.Some?)
  {
    hide D.Path, D.Inherited, D.Rank, D.Ascending, Before, Sorted, D.FIELDS;
    var fs := D.Resolve(app, platform).inherited;
    var p := D.LayerOf(platform);
    D.InheritedExactly(app, p);
    SortedPaths(fs);
    PathNames();
    forall f: D.Field
      ensures D.Path(f) in Paths(fs) <==> D.FromPlatform(f, app, p)
    {
      PathIn(fs, f);
    }
  }

  lemma {:induction false} PathNames()
    ensures D.Path(D.CpuRequest) == "spec.resources.cpuRequest" && D.Path(D.CpuLimit) == "spec.resources.cpuLimit"
    ensures D.Path(D.MemoryRequest) == "spec.resources.memoryRequest" && D.Path(D.MemoryLimit) == "spec.resources.memoryLimit"
    ensures D.Path(D.ContainerConcurrency) == "spec.scaling.containerConcurrency"
    ensures D.Path(D.TimeoutSeconds) == "spec.timeoutSeconds" && D.Path(D.ScaleDownDelay) == "spec.scaling.scaleDownDelay"
    ensures D.Path(D.TargetBurst) == "spec.scaling.targetBurstCapacity"
    ensures D.Path(D.PanicWindow) == "spec.scaling.panicWindowPercentage"
    ensures D.Path(D.PanicThreshold) == "spec.scaling.panicThresholdPercentage"
  {
  }

  lemma {:induction false} DiffersAt(s: string, t: string, k: nat)
    requires k < |s| && k < |t| && s[..k] == t[..k] && s[k] < t[k]
    ensures Before(s, t)
  {
  }

  lemma {:induction false} NextResource(f: D.Field, g: D.Field)
    requires D.Rank(g) == D.Rank(f) + 1 <= 4
    ensures Before(D.Path(f), D.Path(g))
  {
    hide Before;
    match f
    case CpuLimit => DiffersAt(D.Path(f), D.Path(g), 18);
    case CpuRequest => DiffersAt(D.Path(f), D.Path(g), 15);
    case MemoryLimit => DiffersAt(D.Path(f), D.Path(g), 21);
    case MemoryRequest => DiffersAt(D.Path(f), D.Path(g), 5);
    case _ =>
  }

  lemma {:induction false} AfterConcurrency()
    ensures Before("spec.scaling.containerConcurrency", "spec.scaling.panicThresholdPercentage")
  {
    hide Before;
    var a, b := "spec.scaling.containerConcurrency", "spec.scaling.panicThresholdPercentage";
    assert a[..13] == "spec.scaling." && b[..13] == "spec.scaling.";
    DiffersAt(a, b, 13);
  }

  lemma {:induction false} AfterThreshold()
    ensures Before("spec.scaling.panicThresholdPercentage", "spec.scaling.panicWindowPercentage")
  {
    hide Before;
    var a, b := "spec.scaling.panicThresholdPercentage", "spec.scaling.panicWindowPercentage";
    assert a[..18] == "spec.scaling.panic" && b[..18] == "spec.scaling.panic";
    DiffersAt(a, b, 18);
  }

  lemma {:induction false} AfterWindow()
    ensures Before("spec.scaling.panicWindowPercentage", "spec.scaling.scaleDownDelay")
  {
    hide Before;
    var a, b := "spec.scaling.panicWindowPercentage", "spec.scaling.scaleDownDelay";
    assert a[..13] == "spec.scaling." && b[..13] == "spec.scaling.";
    DiffersAt(a, b, 13);
  }

  lemma {:induction false} AfterDelay()
    ensures Before("spec.scaling.scaleDownDelay", "spec.scaling.targetBurstCapacity")
  {
    hide Before;
    var a, b := "spec.scaling.scaleDownDelay", "spec.scaling.targetBurstCapacity";
    assert a[..13] == "spec.scaling." && b[..13] == "spec.scaling.";
    DiffersAt(a, b, 13);
  }

  lemma {:induction false} AfterBurst()
    ensures Before("spec.scaling.targetBurstCapacity", "spec.timeoutSeconds")
  {
    hide Before;
    var a, b := "spec.scaling.targetBurstCapacity", "spec.timeoutSeconds";
    assert a[..5] == "spec." && b[..5] == "spec.";
    DiffersAt(a, b, 5);
  }

  lemma {:induction false} NextKnob(f: D.Field, g: D.Field)
    requires 4 < D.Rank(g) == D.Rank(f) + 1
    ensures Before(D.Path(f), D.Path(g))
  {
    hide Before, D.Path;
    PathNames();
    AfterConcurrency();
    AfterThreshold();
    AfterWindow();
    AfterDelay();
    AfterBurst();
  }

  /** The fields in their order of rank have their paths in dictionary order. */
  lemma {:induction false} NextPath(f: D.Field, g: D.Field)
    requires D.Rank(g) == D.Rank(f) + 1
    ensures Before(D.Path(f), D.Path(g))
  {
    hide Before, D.Path, D.Rank;
    if D.Rank(g) <= 4 { NextResource(f, g); } else { NextKnob(f, g); }
  }

  lemma {:induction false} PathOrder(f: D.Field, g: D.Field)
    requires D.Rank(f) < D.Rank(g)
    ensures Before(D.Path(f), D.Path(g))
    decreases D.Rank(g) - D.Rank(f)
  {
    hide Before, D.Path;
    if D.Rank(g) == D.Rank(f) + 1 {
      NextPath(f, g);
    } else {
      var h := FieldAt(D.Rank(g) - 1);
      PathOrder(f, h);
      NextPath(h, g);
      Transitive(D.Path(f), D.Path(h), D.Path(g));
    }
  }

  function FieldAt(r: nat): (f: D.Field)
    requires r < 10
    ensures D.Rank(f) == r
  {
    D.FIELDS[r]
  }

  lemma {:induction false} SortedPaths(fs: seq<D.Field>)
    requires D.Ascending(fs)
    ensures Sorted(Paths(fs))
  {
    hide Before, D.Path, D.Rank;
    forall j, k | 0 <= j < k < |fs|
      ensures Before(Paths(fs)[j], Paths(fs)[k])
    {
      PathOrder(fs[j], fs[k]);
    }
  }

  lemma {:induction false} PathIn(fs: seq<D.Field>, f: D.Field)
    ensures D.Path(f) in Paths(fs) <==> f in fs
  {
    hide Before, D.Path, D.Rank;
    if D.Path(f) in Paths(fs) {
      var k :| 0 <= k < |fs| && Paths(fs)[k] == D.Path(f);
      if D.Rank(f) < D.Rank(fs[k]) { PathOrder(f, fs[k]); }
      if D.Rank(fs[k]) < D.Rank(f) { PathOrder(fs[k], f); }
      Irreflexive(D.Path(f));
      D.RankInjective(f, fs[k]);
    }
    if f in fs {
      var k :| 0 <= k < |fs| && fs[k] == f;
      assert Paths(fs)[k] == D.Path(f);
    }
  }

  // ----- The gates ---------------------------------------------------------------------------------------------

  /** The platform an app inherits from: one that is there and accepted. */
  function Accepted(snap: Snapshot): Option<D.PlatformSpec> {
    match snap.obj
    case Some(p) => if |p.acceptError| == 0 then Some(p.spec) else None
    case None => None
  }

  /** At most b connections, whatever the number of pods; a pool of size 0 is not counted. */
  predicate WithinWall(s: AppSpec, b: int) { s.poolMax > 0 ==> s.maxScale != 0 && s.maxScale * s.poolMax <= b }

  /** Rejected for a fault of its own: one that reads no budget, or a wall crossed under the budget in force and under 80. */
  lemma {:induction false} RejectedExactly(app: AppState, snap: Snapshot)
    ensures Rejected(app, snap) <==>
              |app.spec.error| > 0 || (!WithinWall(app.spec, Budget(Accepted(snap))) && !WithinWall(app.spec, 80))
  {
    hide D.Resolve;
    BudgetLaw(app.spec.layer, Accepted(snap));
    Walls(app.spec, Budget(Accepted(snap)));
    Walls(app.spec, 80);
    hide WithinWall, BeyondWall, ResourceGate;
    GateHolds(EffectiveOf(app, snap));
  }

  lemma {:induction false} Walls(s: AppSpec, b: int)
    ensures BeyondWall(s, b) <==> !WithinWall(s, b)
  {
  }

  lemma {:induction false} GateHolds(eff: D.Effective)
    ensures ResourceGate(eff) == GO || ResourceGate(eff).hold == HoldInvalid
  {
  }

  /** Parsed amounts of which the first is the larger. */
  predicate Above(a: D.Quantity, b: D.Quantity) {
    match (a.amount, b.amount)
    case (Some(x), Some(y)) => x > y
    case _ => false
  }

  /** What a merge is held for: the wall first, then cpu, then memory, each only if a platform value is at fault. */
  function Fault(app: AppState, snap: Snapshot): Gate {
    var b, v := Budget(Accepted(snap)), EffectiveOf(app, snap).values;
    if !WithinWall(app.spec, b) then Gate(HoldInvalid, "spec.scaling", Wall(app.spec.maxScale, app.spec.poolMax, b), 0)
    else if !ResourceFilled(app.spec.layer, Accepted(snap)) then Gate(NoHold, "", NoDetail, 0)
    else if Above(v.cpuRequest, v.cpuLimit) then
      Gate(HoldInvalid, "spec.resources.cpuRequest", RequestAboveLimit("cpu", v.cpuRequest.text, v.cpuLimit.text), 0)
    else if Above(v.memoryRequest, v.memoryLimit) then
      Gate(HoldInvalid, "spec.resources.memoryRequest", RequestAboveLimit("memory", v.memoryRequest.text, v.memoryLimit.text), 0)
    else Gate(NoHold, "", NoDetail, 0)
  }

  lemma {:induction false} GateLaw(app: AppState, snap: Snapshot)
    requires !Rejected(app, snap)
    ensures EffectiveGate(app.spec, snap, EffectiveOf(app, snap)) == Fault(app, snap)
  {
    hide D.Resolve;
    RejectedExactly(app, snap);
    BudgetLaw(app.spec.layer, Accepted(snap));
    Walls(app.spec, Budget(Accepted(snap)));
    Walls(app.spec, 80);
    NothingFilled(app.spec.layer);
    hide WithinWall, BeyondWall, Rejected, ResourceFilled;
  }

  lemma {:induction false} NothingFilled(app: D.Layer)
    ensures !ResourceFilled(app, None)
  {
  }

  /** A pass that writes the Service found its spec valid under the budget in force, and its resources in order. */
  lemma {:induction false} WallRespected(key: L.App, app: AppState, snap: Snapshot, limiter: L.State, seen: Seen, now: Time)
    ensures var r := Pass(key, app, snap, limiter, seen, now);
            (!Rejected(app, snap) && r.gate.hold == NoHold) || r.app.service != app.service ==>
              && WithinWall(app.spec, Budget(Accepted(snap))) && |app.spec.error| == 0
              && r.app.service == Some(Service(app.generation, app.spec, EffectiveOf(app, snap).values))
  {
    hide Pass, Rejected, D.Resolve, GatePass;
    PassWrites(key, app, snap, limiter, seen, now);
    if !Rejected(app, snap) {
      RejectedExactly(app, snap);
      PassGate(key, app, snap, limiter, seen, now);
      GateFacts(key, app, snap, limiter, now);
      GateLaw(app, snap);
    }
  }

  lemma {:induction false} BrokenRespects(key: L.App, app: AppState, snap: Snapshot, limiter: L.State, now: Time, written: bool)
    ensures var after := Interrupted(key, app, snap, limiter, now, written).0;
            after.service != app.service ==>
              && after.service.Some? && after.service.value.spec == app.spec
              && WithinWall(app.spec, Budget(Accepted(snap))) && |app.spec.error| == 0
  {
    hide Rejected, D.Resolve, GatePass;
    if !Rejected(app, snap) {
      RejectedExactly(app, snap);
      GateFacts(key, app, snap, limiter, now);
      GateLaw(app, snap);
    }
  }

  // ----- The wall over runs -----------------------------------------------------------------------------------------

  predicate ServicesWithin(w: World, b: int) {
    forall key :: key in w.apps && w.apps[key].service.Some? ==> WithinWall(w.apps[key].service.value.spec, b)
  }

  lemma {:induction false} WallMono(s: AppSpec, b: int, c: int)
    requires b <= c
    ensures WithinWall(s, b) ==> WithinWall(s, c)
  {
  }

  lemma {:induction false} StepWithin(w: World, s: Step, b: int)
    requires ServicesWithin(w, b) && Budget(Accepted(Snap(w))) <= b
    ensures ServicesWithin(Next(w, s), b)
  {
    hide Pass, Interrupted, WithinWall, Budget, Accepted, Snap, EffectiveOf, Rejected;
    match s
    case Reconcile(key, seen) =>
      if key in w.apps {
        WallRespected(key, w.apps[key], Snap(w), w.limiter, seen, w.now);
        WallMono(w.apps[key].spec, Budget(Accepted(Snap(w))), b);
      }
    case BrokenPass(key, written) =>
      if key in w.apps {
        BrokenRespects(key, w.apps[key], Snap(w), w.limiter, w.now, written);
        WallMono(w.apps[key].spec, Budget(Accepted(Snap(w))), b);
      }
    case _ =>
  }

  /**
  The wall over whole runs: however apps and platforms are edited, no Service is ever rendered, by a pass
  that completes or one that fails half way, from a spec that may open more connections than the largest
  budget there has been in force.
   */
  lemma {:induction false} WallOverRuns(w: World, steps: seq<Step>, b: int)
    requires Initial(w)
    requires forall n :: 0 <= n < |steps| ==> Budget(Accepted(Snap(Run(w, steps[..n])))) <= b
    ensures ServicesWithin(Run(w, steps), b)
  {
    hide Next, ServicesWithin, Budget, Accepted, Snap;
    if |steps| == 0 {
      assert ServicesWithin(w, b) by { NoServices(w, b); }
    } else {
      var front := steps[..|steps| - 1];
      assert forall n :: 0 <= n < |front| ==> front[..n] == steps[..n];
      WallOverRuns(w, front, b);
      assert steps[..|front|] == front;
      StepWithin(Run(w, front), steps[|front|], b);
    }
  }

  lemma {:induction false} NoServices(w: World, b: int)
    requires Initial(w)
    ensures ServicesWithin(w, b)
  {
  }

  // ----- The rollout gate --------------------------------------------------------------------------------------------

  /** The limiter is asked exactly when a platform edit would change the Service of an app that has not moved itself. */
  lemma {:induction false} AskedExactly(key: L.App, app: AppState, snap: Snapshot, limiter: L.State, now: Time)
    requires !Rejected(app, snap)
    ensures var r, values := GatePass(key, app, snap, limiter, now), EffectiveOf(app, snap).values;
            var rate := if Accepted(snap).Some? && Accepted(snap).value.perMinute >= 1 then Accepted(snap).value.perMinute else 10;
            var o := L.Reserved(limiter, key, now, rate);
            && (r.reserved.Some? <==>
                  && Fault(app, snap).hold == NoHold && app.service.Some? && !Triggered(app)
                  && Accepted(snap) != (if app.stamp.Some? then Some(app.stamp.value.spec) else None)
                  && values != (if app.stamp.Some? then app.stamp.value.values else D.Resolve(app.spec.layer, None).values))
            && (r.reserved.Some? ==> r.reserved == Some(o.wait))
            && (r.gate.hold == HoldPending <==> r.reserved.Some? && o.wait > 0)
            && (r.gate.hold == HoldPending ==> r.gate == Gate(HoldPending, "", NoDetail, o.wait) && r.limiter == o.state)
            && (r.gate.hold != HoldPending ==>
                  r.limiter == L.Released(if r.reserved.Some? then o.state else limiter, key) && r.gate == Fault(app, snap))
  {
    hide Triggered, L.Reserved, D.Resolve, Rejected;
    GateLaw(app, snap);
    hide Fault, EffectiveGate;
    FaultKinds(app, snap);
  }

  lemma {:induction false} FaultKinds(app: AppState, snap: Snapshot)
    ensures Fault(app, snap) == GO || Fault(app, snap).hold == HoldInvalid
  {
    hide WithinWall, ResourceFilled, D.Resolve;
  }

  // ----- What a pass leaves ------------------------------------------------------------------------------------------

  predicate Shows(c: Option<Condition>, generation: int, status: CondStatus, reason: Reason, message: Message) {
    c.Some? && c.value.status == status && c.value.reason == reason && c.value.message == message
    && c.value.observedGeneration == generation
  }

  /** A rejected app keeps its Service, its stamp and its slot, and is told why. */
  lemma {:induction false} RejectedLaw(key: L.App, app: AppState, snap: Snapshot, limiter: L.State, seen: Seen, now: Time)
    requires Rejected(app, snap)
    ensures var r := Pass(key, app, snap, limiter, seen, now);
            var why := if |app.spec.error| > 0 then OtherError(app.spec.error)
                       else Wall(app.spec.maxScale, app.spec.poolMax, Budget(Accepted(snap)));
            && r.app == app.(conditions := r.app.conditions) && r.limiter == limiter && r.reserved == None
            && Shows(Find(r.app.conditions, Ready), app.generation, IsFalse, InvalidSpec, SpecUnmet)
            && Shows(Find(r.app.conditions, Degraded), app.generation, IsTrue, InvalidSpec, SpecRejected(why))
            && r.events == [Event(true, InvalidImage, SpecRejected(why))]
  {
    hide Find, SetCondition, D.Resolve, Rejected;
    BudgetLaw(app.spec.layer, Accepted(snap));
    var budget := EffectiveOf(app, snap).budget;
    var once := SetCondition(app.conditions, InvalidDegraded(app, budget), now);
    FindAfterSet(once, InvalidReady(app), now, Ready);
    FindAfterSet(once, InvalidReady(app), now, Degraded);
    FindAfterSet(app.conditions, InvalidDegraded(app, budget), now, Degraded);
  }

  /** A rendered app is stamped with the platform it was rendered under, or with none. */
  lemma {:induction false} StampLaw(key: L.App, app: AppState, snap: Snapshot, limiter: L.State, seen: Seen, now: Time)
    requires !Rejected(app, snap) && Pass(key, app, snap, limiter, seen, now).gate.hold == NoHold
    ensures var stamp, eff := Pass(key, app, snap, limiter, seen, now).app.stamp, EffectiveOf(app, snap);
            match Accepted(snap)
            case None => stamp == None
            case Some(p) =>
              && stamp.Some? && stamp.value.spec == p && stamp.value.generation == snap.obj.value.generation
              && stamp.value.profile == (if |p.profile| > 0 then p.profile else "default")
              && stamp.value.values == eff.values && stamp.value.inherited == Paths(eff.inherited)
  {
    hide Pass, Rejected, D.Resolve, Paths;
    PassWrites(key, app, snap, limiter, seen, now);
  }

  /** What an app is told of the platform. */
  lemma {:induction false} PlatformReported(key: L.App, app: AppState, snap: Snapshot, limiter: L.State, seen: Seen, now: Time)
    requires !Rejected(app, snap)
    ensures var r := Pass(key, app, snap, limiter, seen, now);
            var c, gate, g := Find(r.app.conditions, PlatformDefaultsApplied), r.gate, app.generation;
            var rate := if Accepted(snap).Some? && Accepted(snap).value.perMinute >= 1 then Accepted(snap).value.perMinute else 10;
            var paths := Paths(EffectiveOf(app, snap).inherited);
            && (gate.hold == HoldInvalid ==> Shows(c, g, IsFalse, EffectiveSpecInvalid, MergedSpecInvalid(gate.field, gate.detail)))
            && (gate.hold == HoldPending ==> Shows(c, g, IsUnknown, RolloutPending, QueuedBehindRate(rate)))
            && (gate.hold == NoHold ==>
                  if !snap.crdPresent then Shows(c, g, IsTrue, NoPlatformCRD, CrdAbsent)
                  else match snap.obj
                       case None => Shows(c, g, IsTrue, NoPlatform, PlatformAbsent)
                       case Some(o) =>
                         var profile := if |o.spec.profile| > 0 then o.spec.profile else "default";
                         if |o.acceptError| > 0 then Shows(c, g, IsFalse, PlatformNotAccepted, PlatformRejected(o.acceptError))
                         else if |paths| > 0 then Shows(c, g, IsTrue, Inherited, PlatformSupplied(o.generation, profile, paths))
                         else Shows(c, g, IsTrue, NothingToInherit, PlatformSuppliesNothing(o.generation, profile)))
  {
    hide Find, Applied, VerdictOf, GatePass, Rejected, D.Resolve, MirrorOf;
    var gate := GatePass(key, app, snap, limiter, now).gate;
    var after := Rendered(app, snap, gate);
    var i := InputsOf(key, after, snap, gate, seen);
    V.PlatformLaw(i, app.conditions, now, now);
  }

  /** What the verdict is told of the app itself and of its Service. */
  lemma {:induction false} InputsLaw(key: L.App, app: AppState, snap: Snapshot, gate: Gate, seen: Seen)
    ensures var i := InputsOf(key, app, snap, gate, seen);
            && i.generation == app.generation && i.namespace == key.namespace && i.name == key.name
            && (app.service.Some? ==> i.service == seen.inputs.service)
            && (app.service.None? ==> i.service.ready.None? && i.service.routesReady.None?)
            && i.database == seen.inputs.database && i.pinnedRevision == seen.inputs.pinnedRevision
            && i.revision == seen.inputs.revision && i.kafkaQueue == seen.inputs.kafkaQueue
            && i.provisionKafkaSource == seen.inputs.provisionKafkaSource
            && i.imageCache == seen.inputs.imageCache && i.policy == seen.inputs.policy && i.collision == seen.inputs.collision
            && i.exposure == seen.inputs.exposure && i.pods == seen.inputs.pods
            && i.platform.Some? && i.platform.value.gate == gate
  {
    hide D.Resolve, Paths;
  }

  /**
  What the status copies: an address once known stays, the traffic and the active state are those of the
  live Service, the Secret is the bound database's, and the deploy time moves for a new revision that serves.
   */
  lemma {:induction false} MirrorLaw(key: L.App, app: AppState, snap: Snapshot, limiter: L.State, seen: Seen, now: Time)
    requires !Rejected(app, snap)
    ensures var r := Pass(key, app, snap, limiter, seen, now);
            var m, live := r.app.mirror, r.app.service.Some?;
            && m.url == (if live && seen.url.Some? then seen.url.value else app.mirror.url)
            && m.traffic == (if live then seen.traffic else "")
            && m.databaseSecret == (if seen.inputs.database.Some? then seen.inputs.database.value else "")
            && m.deploy.observedRevision == (if live then seen.latestReady else "")
            && (m.deploy.scaledToZero == Some(true) <==> live && |seen.latestReady| > 0 && seen.active == Some(false))
            && (m.deploy.scaledToZero == Some(false) <==> live && |seen.latestReady| > 0 && seen.active == Some(true))
            && (m.deploy.deployTime
                == if live && V.Serving(seen.inputs) && |seen.latestReady| > 0
                      && (seen.latestReady != app.mirror.deploy.observedRevision || app.mirror.deploy.deployTime.None?)
                   then Some(now) else app.mirror.deploy.deployTime)
  {
    hide Find, Applied, VerdictOf, GatePass, Rejected, D.Resolve, InputsOf, StampFor, Render;
  }
}
