/**
The operator over whole runs: users edit apps, the administrator edits or deletes the platform,
time passes, and reconcile passes merge, hold, pace, render and report.

Hashes are the hashed values. A rendered Knative Service is the app spec and the merged values it
was rendered from; what Knative makes of it is observed, not modelled.
 */
module PlatformRun {
  import opened Wrappers
  import opened StatusVerdict
  import D = PlatformDefaults
  import Deploy = DeployState
  import L = RolloutLimiter

  // ----- Objects ----------------------------------------------------------------------------------

  /** error is the first complaint validation has that reads no budget, "" when it has none. */
  datatype AppSpec = AppSpec(layer: D.Layer, error: string, maxScale: int, poolMax: int, rest: string)

  datatype Platform = Platform(generation: int, spec: D.PlatformSpec, acceptError: string)

  datatype Snapshot = Snapshot(crdPresent: bool, obj: Option<Platform>)

  datatype Service = Service(generation: int, spec: AppSpec, values: D.Layer)

  /** status.platform: what the platform contributed to the last render. */
  datatype Stamp = Stamp(generation: int, profile: string, spec: D.PlatformSpec, values: D.Layer, inherited: seq<string>)

  /** What the status copies or derives from the live Service and the spec, beside conditions and stamp. */
  datatype Mirror = Mirror(url: string, traffic: string, databaseSecret: string, deploy: Deploy.Status)

  const BLANK: Mirror := Mirror("", "", "", Deploy.Status("", None, None))

  datatype AppState = AppState(
    generation: int, spec: AppSpec, conditions: seq<Condition>, stamp: Option<Stamp>, mirror: Mirror, service: Option<Service>)

  /** What a pass reads of everything this module does not hold. */
  datatype Seen = Seen(inputs: Inputs, url: Option<string>, traffic: string, latestReady: string, active: Option<bool>)

  // ----- The platform in force -----------------------------------------------------------------------

  function Active(snap: Snapshot): Option<D.PlatformSpec> {
    if snap.obj.Some? && snap.obj.value.acceptError == "" then Some(snap.obj.value.spec) else None
  }

  function Profile(snap: Snapshot): string {
    match Active(snap)
    case None => ""
    case Some(p) => if p.profile != "" then p.profile else "default"
  }

  function PerMinute(snap: Snapshot): int {
    match Active(snap)
    case None => D.BUILTIN_RATE
    case Some(p) => if p.perMinute > 0 then p.perMinute else D.BUILTIN_RATE
  }

  function EffectiveOf(app: AppState, snap: Snapshot): D.Effective {
    D.Resolve(app.spec.layer, Active(snap))
  }

  function Paths(fs: seq<D.Field>): seq<string> {
    seq(|fs|, k requires 0 <= k < |fs| => D.Path(fs[k]))
  }

  // ----- Validation and the gates ---------------------------------------------------------------------

  predicate BeyondWall(s: AppSpec, budget: int) {
    s.poolMax > 0 && (s.maxScale == 0 || s.maxScale * s.poolMax > budget)
  }

  predicate ValidUnder(s: AppSpec, budget: int) { s.error == "" && !BeyondWall(s, budget) }

  function Complaint(s: AppSpec, budget: int): Detail {
    if s.error != "" then OtherError(s.error) else Wall(s.maxScale, s.poolMax, budget)
  }

  predicate Exceeds(request: D.Quantity, limit: D.Quantity) {
    request.amount.Some? && limit.amount.Some? && request.amount.value > limit.amount.value
  }

  const GO: Gate := Gate(NoHold, "", NoDetail, 0)

  function ResourceGate(eff: D.Effective): Gate {
    var v := eff.values;
    if !eff.resourceFromPlatform then GO
    else if Exceeds(v.cpuRequest, v.cpuLimit) then
      Gate(HoldInvalid, "spec.resources.cpuRequest", RequestAboveLimit("cpu", v.cpuRequest.text, v.cpuLimit.text), 0)
    else if Exceeds(v.memoryRequest, v.memoryLimit) then
      Gate(HoldInvalid, "spec.resources.memoryRequest", RequestAboveLimit("memory", v.memoryRequest.text, v.memoryLimit.text), 0)
    else GO
  }

  /** Holds an app whose merged spec is invalid because of a platform value. */
  function EffectiveGate(s: AppSpec, snap: Snapshot, eff: D.Effective): Gate {
    if Active(snap).None? then GO
    else if !ValidUnder(s, eff.budget) then
      if eff.budget != D.BUILTIN_BUDGET && ValidUnder(s, D.BUILTIN_BUDGET) then
        Gate(HoldInvalid, "spec.scaling", Complaint(s, eff.budget), 0)
      else GO
    else ResourceGate(eff)
  }

  /** The values the app counts as last rendered with. */
  function AppliedValues(app: AppState): D.Layer {
    if app.stamp.Some? then app.stamp.value.values else D.Resolve(app.spec.layer, None).values
  }

  function AppliedPlatform(app: AppState): Option<D.PlatformSpec> {
    if app.stamp.Some? then Some(app.stamp.value.spec) else None
  }

  predicate Triggered(app: AppState) { AppTriggered(app.generation, app.conditions) }

  /** reserved is what the limiter answered, when it was asked. */
  datatype Rollout = Rollout(gate: Gate, limiter: L.State, reserved: Option<Duration>)

  function DecideRollout(key: L.App, app: AppState, snap: Snapshot, limiter: L.State, now: Time): Rollout {
    if Active(snap) == AppliedPlatform(app) then Rollout(GO, limiter, None)
    else if EffectiveOf(app, snap).values == AppliedValues(app) then Rollout(GO, limiter, None)
    else if Triggered(app) then Rollout(GO, limiter, None)
    else if app.service.None? then Rollout(GO, limiter, None)
    else
      var o := L.Reserved(limiter, key, now, PerMinute(snap));
      Rollout(if o.wait > 0 then Gate(HoldPending, "", NoDetail, o.wait) else GO, o.state, Some(o.wait))
  }

  /** The decision, and a slot handed back whenever the app is not queued any more. */
  function GateRollout(key: L.App, app: AppState, snap: Snapshot, limiter: L.State, now: Time): Rollout {
    var d := DecideRollout(key, app, snap, limiter, now);
    if d.gate.hold == HoldPending then d else d.(limiter := L.Released(d.limiter, key))
  }

  function GatePass(key: L.App, app: AppState, snap: Snapshot, limiter: L.State, now: Time): Rollout {
    var gate := EffectiveGate(app.spec, snap, EffectiveOf(app, snap));
    if gate.hold == NoHold then GateRollout(key, app, snap, limiter, now)
    else Rollout(gate, L.Released(limiter, key), None)
  }

  // ----- One pass -------------------------------------------------------------------------------------

  predicate Rejected(app: AppState, snap: Snapshot) {
    var eff := EffectiveOf(app, snap);
    !ValidUnder(app.spec, eff.budget) && EffectiveGate(app.spec, snap, eff).hold == NoHold
  }

  function InvalidDegraded(app: AppState, budget: int): Condition {
    Condition(Degraded, IsTrue, InvalidSpec, SpecRejected(Complaint(app.spec, budget)), app.generation, 0)
  }

  function InvalidReady(app: AppState): Condition {
    Condition(Ready, IsFalse, InvalidSpec, SpecUnmet, app.generation, 0)
  }

  function RejectedConditions(app: AppState, budget: int, now: Time): seq<Condition> {
    SetCondition(SetCondition(app.conditions, InvalidDegraded(app, budget), now), InvalidReady(app), now)
  }

  function Render(app: AppState, snap: Snapshot): Service {
    Service(app.generation, app.spec, EffectiveOf(app, snap).values)
  }

  function StampFor(app: AppState, snap: Snapshot): Option<Stamp> {
    if Active(snap).None? then None
    else
      Some(Stamp(snap.obj.value.generation, Profile(snap), Active(snap).value, EffectiveOf(app, snap).values,
                 Paths(EffectiveOf(app, snap).inherited)))
  }

  function PlatformInput(app: AppState, snap: Snapshot, gate: Gate): PlatformState {
    PlatformState(
      !snap.crdPresent, snap.obj.Some?,
      if snap.obj.Some? then snap.obj.value.acceptError else "",
      if snap.obj.Some? then snap.obj.value.generation else 0,
      Profile(snap), Paths(EffectiveOf(app, snap).inherited), PerMinute(snap), gate)
  }

  /** What the verdict is computed from. */
  function InputsOf(key: L.App, app: AppState, snap: Snapshot, gate: Gate, seen: Seen): Inputs {
    seen.inputs.(generation := app.generation, namespace := key.namespace, name := key.name,
                 service := if app.service.Some? then seen.inputs.service else ServiceStatus(None, None),
                 platform := Some(PlatformInput(app, snap, gate)))
  }

  /** Activeness is read of the latest ready revision only. */
  function Deployed(app: AppState, seen: Seen, now: Time): Deploy.Observed {
    if app.service.None? then Deploy.Observed("", false, None, now)
    else Deploy.Observed(seen.latestReady, IsReady(seen.inputs.service.ready),
                         if seen.latestReady != "" then seen.active else None, now)
  }

  function MirrorOf(app: AppState, seen: Seen, now: Time): Mirror {
    var live := app.service.Some?;
    Mirror(if live && seen.url.Some? then seen.url.value else app.mirror.url,
           if live then seen.traffic else "",
           if seen.inputs.database.Some? then seen.inputs.database.value else "",
           Deploy.Derived(app.mirror.deploy, Deployed(app, seen, now)))
  }

  /** The Service write, and the stamp that goes with it, unless the gate holds. */
  function Rendered(app: AppState, snap: Snapshot, gate: Gate): AppState {
    if gate.hold == NoHold then app.(service := Some(Render(app, snap)), stamp := StampFor(app, snap)) else app
  }

  datatype Report = Report(app: AppState, limiter: L.State, gate: Gate, reserved: Option<Duration>, events: seq<Event>)

  function Pass(key: L.App, app: AppState, snap: Snapshot, limiter: L.State, seen: Seen, now: Time): Report {
    if Rejected(app, snap) then
      Report(app.(conditions := RejectedConditions(app, EffectiveOf(app, snap).budget, now)), limiter, GO, None,
             [Event(true, InvalidImage, SpecRejected(Complaint(app.spec, EffectiveOf(app, snap).budget)))])
    else
      var r := GatePass(key, app, snap, limiter, now);
      var after := Rendered(app, snap, r.gate);
      var v := VerdictOf(InputsOf(key, after, snap, r.gate, seen), app.conditions, now);
      Report(after.(conditions := Applied(app.conditions, v, now), mirror := MirrorOf(after, seen, now)),
             r.limiter, r.gate, r.reserved, v.events)
  }

  /** A pass that fails before its status write; written tells whether it got past the Service write. */
  function Interrupted(key: L.App, app: AppState, snap: Snapshot, limiter: L.State, now: Time, written: bool): (AppState, L.State) {
    if Rejected(app, snap) then (app, limiter)
    else
      var r := GatePass(key, app, snap, limiter, now);
      (if written && r.gate.hold == NoHold then app.(service := Some(Render(app, snap))) else app, r.limiter)
  }

  // ----- Whose fault an invalid spec is --------------------------------------------------------------------

  lemma {:induction false} WallMonotone(s: AppSpec, low: int, high: int)
    requires low <= high && ValidUnder(s, low)
    ensures ValidUnder(s, high)
  {
  }

  /**
  The platform never turns an app away: an app valid under the built-in budget is not rejected under
  any platform, it is held at most; a larger budget never holds it for the wall; and an app that sets
  its four resource values itself is never held for them.
   */
  lemma {:induction false} PlatformNeverRejects(app: AppState, snap: Snapshot)
    requires ValidUnder(app.spec, D.BUILTIN_BUDGET)
    ensures !Rejected(app, snap)
    ensures var eff := EffectiveOf(app, snap);
            var gate := EffectiveGate(app.spec, snap, eff);
            && (gate.hold == HoldInvalid && gate.field == "spec.scaling" ==> eff.budget < D.BUILTIN_BUDGET)
            && (eff.budget >= D.BUILTIN_BUDGET && (forall f :: f in RESOURCES ==> D.Has(app.spec.layer, f)) ==> gate == GO)
  {
    hide BeyondWall, D.Has, D.Values, D.Inherited;
    var eff := EffectiveOf(app, snap);
    if eff.budget >= D.BUILTIN_BUDGET { WallMonotone(app.spec, D.BUILTIN_BUDGET, eff.budget); }
    assert "spec.scaling"[5] == 's' && "spec.resources.cpuRequest"[5] == 'r' && "spec.resources.memoryRequest"[5] == 'r';
  }

  const RESOURCES := {D.CpuRequest, D.CpuLimit, D.MemoryRequest, D.MemoryLimit}

  // ----- Runs -------------------------------------------------------------------------------------------

  datatype World = World(
    apps: map<L.App, AppState>, crdPresent: bool, platform: Option<Platform>, limiter: L.State, now: Time)

  datatype Step =
    | CreateApp(key: L.App, spec: AppSpec)
    | EditApp(key: L.App, spec: AppSpec)
    | DeleteApp(key: L.App)
    | DeleteService(key: L.App)
    | SetPlatform(platform: Option<Platform>)
    | SetCrd(present: bool)
    | Tick(d: nat)
    | Reconcile(key: L.App, seen: Seen)
    | BrokenPass(key: L.App, written: bool)
    | Restart

  function Snap(w: World): Snapshot {
    if w.crdPresent then Snapshot(true, w.platform) else Snapshot(false, None)
  }

  function PassIn(w: World, key: L.App, seen: Seen): Report
    requires key in w.apps
  {
    Pass(key, w.apps[key], Snap(w), w.limiter, seen, w.now)
  }

  function Next(w: World, s: Step): World {
    match s
    case CreateApp(key, spec) => if key in w.apps then w else w.(apps := w.apps[key := AppState(1, spec, [], None, BLANK, None)])
    case EditApp(key, spec) =>
      if key !in w.apps || spec == w.apps[key].spec then w
      else w.(apps := w.apps[key := w.apps[key].(generation := w.apps[key].generation + 1, spec := spec)])
    case DeleteApp(key) => w.(apps := w.apps - {key}, limiter := L.Released(w.limiter, key))
    case DeleteService(key) => if key !in w.apps then w else w.(apps := w.apps[key := w.apps[key].(service := None)])
    case SetPlatform(p) => w.(platform := p)
    case SetCrd(present) => w.(crdPresent := present)
    case Tick(d) => w.(now := w.now + d)
    case Restart => w.(limiter := L.Fresh())
    case Reconcile(key, seen) =>
      if key !in w.apps then w.(limiter := L.Released(w.limiter, key))
      else
        var r := PassIn(w, key, seen);
        w.(apps := w.apps[key := r.app], limiter := r.limiter)
    case BrokenPass(key, written) =>
      if key !in w.apps then w
      else
        var r := Interrupted(key, w.apps[key], Snap(w), w.limiter, w.now, written);
        w.(apps := w.apps[key := r.0], limiter := r.1)
  }

  function Run(w: World, steps: seq<Step>): World {
    if |steps| == 0 then w else Next(Run(w, steps[..|steps| - 1]), steps[|steps| - 1])
  }

  predicate Initial(w: World) { w.apps == map[] && w.limiter == L.Fresh() }

  // ----- What holds of every app -------------------------------------------------------------------------

  /** The generation the Reconciling condition last recorded. */
  function Reconciled(app: AppState): Option<int> {
    match Find(app.conditions, Reconciling)
    case Some(c) => Some(c.observedGeneration)
    case None => None
  }

  predicate ClaimsReady(app: AppState) {
    var c := Find(app.conditions, Ready);
    c.Some? && c.value.status == IsTrue && c.value.observedGeneration == app.generation
  }

  predicate Honest(app: AppState) {
    && app.generation >= 1
    && (Find(app.conditions, Ready).Some? ==> Find(app.conditions, Ready).value.observedGeneration <= app.generation)
    && (Reconciled(app).Some? ==> Reconciled(app).value <= app.generation)
    && (ClaimsReady(app) ==> !Triggered(app))
    && (app.service.Some? ==> app.service.value.generation <= app.generation)
    && (app.service.Some? && !Triggered(app) ==> app.service.value.generation == app.generation)
    && (app.service.Some? && app.service.value.generation == app.generation ==> app.service.value.spec == app.spec)
  }

  /** The stamp speaks for the live Service, as long as the app's own spec has not moved. */
  predicate StampCurrent(app: AppState) {
    !Triggered(app) ==>
      && (app.stamp.Some? ==> app.stamp.value.values == D.Resolve(app.spec.layer, Some(app.stamp.value.spec)).values)
      && (app.service.Some? ==> app.service.value.values == AppliedValues(app))
  }

  lemma {:induction false} RollUps(i: Inputs, conds: seq<Condition>, now: Time)
    ensures var after := Applied(conds, VerdictOf(i, conds, now), now);
            var rec, ready := Find(after, Reconciling), Find(after, Ready);
            && rec.Some? && ready.Some? && ready.value.observedGeneration == i.generation
            && (ChangeDropped(i, conds) ==>
                  && ready.value.status == IsFalse
                  && var was := Find(conds, Reconciling);
                     rec.value.observedGeneration == if was.Some? then was.value.observedGeneration else 0)
            && (!ChangeDropped(i, conds) ==> rec.value.observedGeneration == i.generation)
  {
    hide Applied, VerdictOf, Find, Diagnose, DiagnosedMessage, DiagnosedReason, HeldMessage;
    FindAfterVerdict(i, conds, now, now, Reconciling);
    FindAfterVerdict(i, conds, now, now, Ready);
    FindType(conds, Reconciling);
    FindType(conds, Ready);
  }

  // ----- Every pass keeps it -------------------------------------------------------------------------------

  lemma {:induction false} RejectedRollUps(app: AppState, budget: int, now: Time)
    ensures var after := RejectedConditions(app, budget, now);
            && Find(after, Reconciling) == Find(app.conditions, Reconciling)
            && Find(after, Ready).Some? && Find(after, Ready).value.observedGeneration == app.generation
            && Find(after, Ready).value.status == IsFalse
            && Find(after, Ready) == Some(Merged(Find(app.conditions, Ready), InvalidReady(app), now))
            && Find(after, Degraded) == Some(Merged(Find(app.conditions, Degraded), InvalidDegraded(app, budget), now))
  {
    hide Find, SetCondition;
    var conds := app.conditions;
    var d, r := InvalidDegraded(app, budget), InvalidReady(app);
    FindAfterSet(conds, d, now, Reconciling);
    FindAfterSet(conds, d, now, Ready);
    FindAfterSet(conds, d, now, Degraded);
    FindAfterSet(SetCondition(conds, d, now), r, now, Reconciling);
    FindAfterSet(SetCondition(conds, d, now), r, now, Ready);
    FindAfterSet(SetCondition(conds, d, now), r, now, Degraded);
  }

  /** The gates, as far as the Service is concerned: what lets a pass write, and what it then finds. */
  lemma {:induction false} GateFacts(key: L.App, app: AppState, snap: Snapshot, limiter: L.State, now: Time)
    ensures var r := GatePass(key, app, snap, limiter, now);
            && (r.gate.hold == HoldPending ==> !Triggered(app) && app.service.Some?)
            && (r.gate.hold == NoHold ==> r.gate == GO)
            && (r.reserved.Some? ==> Active(snap) != AppliedPlatform(app) && !Triggered(app) && app.service.Some?
                                     && EffectiveOf(app, snap).values != AppliedValues(app))
            && (r.gate.hold == NoHold && app.service.Some? && !Triggered(app)
                && Active(snap) != AppliedPlatform(app) && EffectiveOf(app, snap).values != AppliedValues(app)
                ==> r.reserved == Some(0))
            && (r.gate.hold == NoHold ==> EffectiveGate(app.spec, snap, EffectiveOf(app, snap)) == GO)
            && (EffectiveGate(app.spec, snap, EffectiveOf(app, snap)) == GO
                && (Active(snap) == AppliedPlatform(app) || EffectiveOf(app, snap).values == AppliedValues(app))
                ==> r.gate == GO && r.reserved == None)
  {
    hide Triggered, L.Reserved, D.Resolve, ResourceGate, BeyondWall;
    WaitNonNegative(limiter, key, now, PerMinute(snap));
    GateKinds(app.spec, snap, EffectiveOf(app, snap));
  }

  lemma {:induction false} GateKinds(s: AppSpec, snap: Snapshot, eff: D.Effective)
    ensures var g := EffectiveGate(s, snap, eff); g == GO || g.hold == HoldInvalid
  {
    hide BeyondWall;
  }

  lemma {:induction false} WaitNonNegative(st: L.State, key: L.App, now: Time, perMinute: int)
    ensures L.Reserved(st, key, now, perMinute).wait >= 0
  {
  }

  /** What the roll-up conditions say after a completed pass that was not rejected. */
  lemma {:induction false} PassRollUps(key: L.App, app: AppState, snap: Snapshot, limiter: L.State, seen: Seen, now: Time)
    requires !Rejected(app, snap)
    ensures var r := Pass(key, app, snap, limiter, seen, now);
            var dropped := r.gate.hold == HoldInvalid && Triggered(app);
            && Find(r.app.conditions, Ready).Some? && Reconciled(r.app).Some?
            && Find(r.app.conditions, Ready).value.observedGeneration == app.generation
            && (dropped ==> Find(r.app.conditions, Ready).value.status == IsFalse)
            && Reconciled(r.app) == Some(if !dropped then app.generation
                                         else if Reconciled(app).Some? then Reconciled(app).value else 0)
  {
    hide GatePass, Rejected, VerdictOf, Applied, Find, AppTriggered, PlatformInput;
    var r := GatePass(key, app, snap, limiter, now);
    var after := Rendered(app, snap, r.gate);
    var i := InputsOf(key, after, snap, r.gate, seen);
    assert i.platform.value.gate == r.gate by { InputGate(key, after, snap, r.gate, seen); }
    RollUps(i, app.conditions, now);
  }

  lemma {:induction false} InputGate(key: L.App, app: AppState, snap: Snapshot, gate: Gate, seen: Seen)
    ensures InputsOf(key, app, snap, gate, seen).platform.value.gate == gate
  {
  }

  /** What a pass leaves of the Service and the stamp. */
  lemma {:induction false} PassWrites(key: L.App, app: AppState, snap: Snapshot, limiter: L.State, seen: Seen, now: Time)
    ensures var r := Pass(key, app, snap, limiter, seen, now);
            && r.app.generation == app.generation && r.app.spec == app.spec
            && (Rejected(app, snap) || r.gate.hold != NoHold ==> r.app.service == app.service && r.app.stamp == app.stamp)
            && (!Rejected(app, snap) && r.gate.hold == NoHold ==>
                  r.app.service == Some(Render(app, snap)) && r.app.stamp == StampFor(app, snap))
  {
    hide GatePass, Rejected, VerdictOf, Applied, StampFor, Render, RejectedConditions;
  }

  lemma {:induction false} TriggeredMeans(app: AppState)
    ensures Triggered(app) <==> Reconciled(app) != Some(app.generation)
  {
    hide Find;
  }

  lemma {:induction false} PassHonest(key: L.App, app: AppState, snap: Snapshot, limiter: L.State, seen: Seen, now: Time)
    requires Honest(app)
    ensures Honest(Pass(key, app, snap, limiter, seen, now).app)
  {
    hide Rejected, Pass, Find, Triggered, Reconciled, Render, StampFor;
    var after := Pass(key, app, snap, limiter, seen, now).app;
    TriggeredMeans(app);
    TriggeredMeans(after);
    PassWrites(key, app, snap, limiter, seen, now);
    if Rejected(app, snap) {
      RejectedPass(key, app, snap, limiter, seen, now);
    } else {
      PassRollUps(key, app, snap, limiter, seen, now);
      PassGate(key, app, snap, limiter, seen, now);
      RenderedFrom(app, snap);
    }
  }

  lemma {:induction false} RenderedFrom(app: AppState, snap: Snapshot)
    ensures Render(app, snap).generation == app.generation && Render(app, snap).spec == app.spec
    ensures Render(app, snap).values == EffectiveOf(app, snap).values
  {
  }

  lemma {:induction false} RejectedPass(key: L.App, app: AppState, snap: Snapshot, limiter: L.State, seen: Seen, now: Time)
    requires Rejected(app, snap)
    ensures var after := Pass(key, app, snap, limiter, seen, now).app;
            && Reconciled(after) == Reconciled(app)
            && Find(after.conditions, Ready).Some? && Find(after.conditions, Ready).value.status == IsFalse
            && Find(after.conditions, Ready).value.observedGeneration == app.generation
  {
    hide Rejected, Find, RejectedConditions;
    RejectedRollUps(app, EffectiveOf(app, snap).budget, now);
  }

  /** The gate a pass reports, and what the limiter was asked, are the gate's. */
  lemma {:induction false} PassGate(key: L.App, app: AppState, snap: Snapshot, limiter: L.State, seen: Seen, now: Time)
    requires !Rejected(app, snap)
    ensures var r, g := Pass(key, app, snap, limiter, seen, now), GatePass(key, app, snap, limiter, now);
            && r.gate == g.gate && r.reserved == g.reserved && r.limiter == g.limiter
            && (g.gate.hold == HoldPending ==> !Triggered(app))
  {
    hide GatePass, Rejected, VerdictOf, Applied, Triggered;
    GateFacts(key, app, snap, limiter, now);
  }

  lemma {:induction false} BrokenHonest(key: L.App, app: AppState, snap: Snapshot, limiter: L.State, now: Time, written: bool)
    requires Honest(app)
    ensures Honest(Interrupted(key, app, snap, limiter, now, written).0)
  {
    hide Rejected, GatePass, Find, Triggered, Render;
    RenderedFrom(app, snap);
    var after := Interrupted(key, app, snap, limiter, now, written).0;
    TriggeredMeans(app);
    TriggeredMeans(after);
    assert after.conditions == app.conditions && after.generation == app.generation;
  }

  lemma {:induction false} EditHonest(app: AppState, spec: AppSpec)
    requires Honest(app)
    ensures Honest(app.(generation := app.generation + 1, spec := spec))
  {
    hide Find, Triggered;
    TriggeredMeans(app.(generation := app.generation + 1, spec := spec));
  }

  // ----- Honest Ready over all runs ----------------------------------------------------------------------------

  predicate AllHonest(w: World) { forall k :: k in w.apps ==> Honest(w.apps[k]) }

  lemma {:induction false} StepHonest(w: World, s: Step)
    requires AllHonest(w)
    ensures AllHonest(Next(w, s))
  {
    hide Honest, Pass, Interrupted;
    match s
    case CreateApp(key, spec) => NewHonest(spec);
    case EditApp(key, spec) => if key in w.apps { EditHonest(w.apps[key], spec); }
    case DeleteService(key) => if key in w.apps { ServicelessHonest(w.apps[key]); }
    case Reconcile(key, seen) =>
      if key in w.apps { PassHonest(key, w.apps[key], Snap(w), w.limiter, seen, w.now); }
    case BrokenPass(key, written) =>
      if key in w.apps { BrokenHonest(key, w.apps[key], Snap(w), w.limiter, w.now, written); }
    case _ =>
  }

  lemma {:induction false} NewHonest(spec: AppSpec)
    ensures Honest(AppState(1, spec, [], None, BLANK, None))
  {
  }

  lemma {:induction false} ServicelessHonest(app: AppState)
    requires Honest(app)
    ensures Honest(app.(service := None))
  {
    hide Find;
  }

  lemma {:induction false} RunHonest(w: World, steps: seq<Step>)
    requires AllHonest(w)
    ensures AllHonest(Run(w, steps))
  {
    hide AllHonest, Next;
    if |steps| > 0 {
      RunHonest(w, steps[..|steps| - 1]);
      StepHonest(Run(w, steps[..|steps| - 1]), steps[|steps| - 1]);
    }
  }

  /**
  Honest Ready: however users, the administrator, time and passes interleave, failed passes
  included, an app that says Ready for its current generation has no Service other than one
  rendered from that generation's own spec.
   */
  lemma {:induction false} HonestReady(w: World, steps: seq<Step>, key: L.App)
    requires Initial(w) && key in Run(w, steps).apps
    ensures var app := Run(w, steps).apps[key];
            ClaimsReady(app) && app.service.Some? ==>
              app.service.value.generation == app.generation && app.service.value.spec == app.spec
  {
    hide Run, ClaimsReady, Triggered, Reconciled, Find;
    RunHonest(w, steps);
    assert Honest(Run(w, steps).apps[key]);
  }

  /** A step that lets no pass of the app through to its Service. */
  predicate Blocked(w: World, s: Step, key: L.App) {
    match s
    case DeleteApp(k) => k != key
    case Reconcile(k, _) => k == key && key in w.apps ==> PassBlocked(w, key)
    case BrokenPass(k, _) => k == key && key in w.apps ==> PassBlocked(w, key)
    case _ => true
  }

  predicate PassBlocked(w: World, key: L.App)
    requires key in w.apps
  {
    Rejected(w.apps[key], Snap(w)) || GatePass(key, w.apps[key], Snap(w), w.limiter, w.now).gate.hold != NoHold
  }

  predicate StillDropped(app: AppState, was: Option<Service>) {
    Triggered(app) && !ClaimsReady(app) && (app.service == was || app.service == None)
  }

  lemma {:induction false} BlockedStep(w: World, s: Step, key: L.App, was: Option<Service>)
    requires AllHonest(w) && key in w.apps && StillDropped(w.apps[key], was) && Blocked(w, s, key)
    ensures key in Next(w, s).apps && StillDropped(Next(w, s).apps[key], was)
  {
    hide Pass, Interrupted, Find, Triggered, Rejected, GatePass, ClaimsReady, Reconciled;
    var app, next := w.apps[key], Next(w, s).apps[key];
    assert Honest(app);
    StepHonest(w, s);
    assert Honest(next);
    TriggeredMeans(app);
    TriggeredMeans(next);
    match s
    case EditApp(k, spec) => if k == key { EditedReconciled(app, spec); }
    case DeleteService(k) => if k == key { ServicelessReconciled(app); }
    case Reconcile(k, seen) =>
      if k == key {
        PassWrites(key, app, Snap(w), w.limiter, seen, w.now);
        if Rejected(app, Snap(w)) {
          RejectedPass(key, app, Snap(w), w.limiter, seen, w.now);
        } else {
          PassRollUps(key, app, Snap(w), w.limiter, seen, w.now);
          PassGate(key, app, Snap(w), w.limiter, seen, w.now);
        }
      }
    case BrokenPass(k, written) =>
      if k == key { BrokenBlocked(key, app, Snap(w), w.limiter, w.now, written); }
    case _ =>
  }

  lemma {:induction false} EditedReconciled(app: AppState, spec: AppSpec)
    ensures Reconciled(app.(generation := app.generation + 1, spec := spec)) == Reconciled(app)
  {
    hide Find;
  }

  lemma {:induction false} ServicelessReconciled(app: AppState)
    ensures Reconciled(app.(service := None)) == Reconciled(app)
  {
    hide Find;
  }

  lemma {:induction false} BrokenBlocked(key: L.App, app: AppState, snap: Snapshot, limiter: L.State, now: Time, written: bool)
    requires Rejected(app, snap) || GatePass(key, app, snap, limiter, now).gate.hold != NoHold
    ensures Interrupted(key, app, snap, limiter, now, written).0 == app
  {
    hide Rejected, GatePass;
  }

  predicate AllBlocked(w: World, steps: seq<Step>, key: L.App) {
    forall n :: 0 <= n < |steps| ==> Blocked(Run(w, steps[..n]), steps[n], key)
  }

  /**
  A change that has not been applied is never reported Ready while no pass of the app is let
  through: not after any number of held or rejected passes, edits or platform changes; and its
  Service stays the one it was, unless somebody deletes it.
   */
  lemma {:induction false} DroppedStaysNotReady(w: World, steps: seq<Step>, key: L.App)
    requires AllHonest(w) && key in w.apps && Triggered(w.apps[key])
    requires AllBlocked(w, steps, key)
    ensures key in Run(w, steps).apps && StillDropped(Run(w, steps).apps[key], w.apps[key].service)
  {
    hide Next, Blocked, StillDropped, Triggered;
    if |steps| == 0 {
      assert Honest(w.apps[key]);
      assert StillDropped(w.apps[key], w.apps[key].service) by { HonestDropped(w.apps[key]); }
    } else {
      var front := steps[..|steps| - 1];
      assert forall n :: 0 <= n < |front| ==> front[..n] == steps[..n];
      DroppedStaysNotReady(w, front, key);
      RunHonest(w, front);
      assert Blocked(Run(w, front), steps[|front|], key);
      BlockedStep(Run(w, front), steps[|front|], key, w.apps[key].service);
    }
  }

  lemma {:induction false} HonestDropped(app: AppState)
    requires Honest(app) && Triggered(app)
    ensures StillDropped(app, app.service)
  {
  }

  // ----- Slot accounting ------------------------------------------------------------------------------------------

  predicate Accounted(app: AppState) { Honest(app) && StampCurrent(app) }

  lemma {:induction false} PassAccounted(key: L.App, app: AppState, snap: Snapshot, limiter: L.State, seen: Seen, now: Time)
    requires Accounted(app)
    ensures Accounted(Pass(key, app, snap, limiter, seen, now).app)
  {
    hide Rejected, Pass, Find, Triggered, Reconciled, Render, StampFor, D.Resolve, ClaimsReady;
    var after := Pass(key, app, snap, limiter, seen, now).app;
    PassHonest(key, app, snap, limiter, seen, now);
    TriggeredMeans(app);
    TriggeredMeans(after);
    PassWrites(key, app, snap, limiter, seen, now);
    if Rejected(app, snap) {
      RejectedPass(key, app, snap, limiter, seen, now);
    } else {
      PassRollUps(key, app, snap, limiter, seen, now);
      PassGate(key, app, snap, limiter, seen, now);
      RenderedFrom(app, snap);
      StampedFrom(app, snap);
    }
  }

  lemma {:induction false} StampedFrom(app: AppState, snap: Snapshot)
    ensures StampFor(app, snap).Some? <==> Active(snap).Some?
    ensures Active(snap).Some? ==>
              StampFor(app, snap).value.spec == Active(snap).value && StampFor(app, snap).value.values == EffectiveOf(app, snap).values
  {
  }

  predicate AllAccounted(w: World) { forall k :: k in w.apps ==> Accounted(w.apps[k]) }

  /** Passes are atomic: none fails between its Service write and its status write. */
  predicate Atomic(s: Step) { s.BrokenPass? ==> !s.written }

  lemma {:induction false} StepAccounted(w: World, s: Step)
    requires AllAccounted(w) && Atomic(s)
    ensures AllAccounted(Next(w, s))
  {
    hide Accounted, Pass, Interrupted;
    match s
    case CreateApp(key, spec) => NewAccounted(spec);
    case EditApp(key, spec) => if key in w.apps { EditAccounted(w.apps[key], spec); }
    case DeleteService(key) => if key in w.apps { ServicelessAccounted(w.apps[key]); }
    case Reconcile(key, seen) =>
      if key in w.apps { PassAccounted(key, w.apps[key], Snap(w), w.limiter, seen, w.now); }
    case BrokenPass(key, written) =>
      if key in w.apps { BrokenKeeps(key, w.apps[key], Snap(w), w.limiter, w.now); }
    case _ =>
  }

  lemma {:induction false} NewAccounted(spec: AppSpec)
    ensures Accounted(AppState(1, spec, [], None, BLANK, None))
  {
  }

  lemma {:induction false} EditAccounted(app: AppState, spec: AppSpec)
    requires Accounted(app)
    ensures Accounted(app.(generation := app.generation + 1, spec := spec))
  {
    hide Find, Triggered;
    EditHonest(app, spec);
    TriggeredMeans(app.(generation := app.generation + 1, spec := spec));
  }

  lemma {:induction false} ServicelessAccounted(app: AppState)
    requires Accounted(app)
    ensures Accounted(app.(service := None))
  {
    hide Find;
  }

  lemma {:induction false} BrokenKeeps(key: L.App, app: AppState, snap: Snapshot, limiter: L.State, now: Time)
    ensures Interrupted(key, app, snap, limiter, now, false).0 == app
  {
    hide Rejected, GatePass;
  }

  lemma {:induction false} RunAccounted(w: World, steps: seq<Step>)
    requires AllAccounted(w) && forall n :: 0 <= n < |steps| ==> Atomic(steps[n])
    ensures AllAccounted(Run(w, steps))
  {
    hide AllAccounted, Next;
    if |steps| > 0 {
      RunAccounted(w, steps[..|steps| - 1]);
      StepAccounted(Run(w, steps[..|steps| - 1]), steps[|steps| - 1]);
    }
  }

  lemma {:induction false} PassSlot(key: L.App, app: AppState, snap: Snapshot, limiter: L.State, seen: Seen, now: Time)
    requires Accounted(app) && !Triggered(app) && app.service.Some?
    ensures var r := Pass(key, app, snap, limiter, seen, now);
            && (r.app.service != app.service ==> r.reserved == Some(0))
            && (EffectiveOf(app, snap).values == app.service.value.values ==>
                  r.app.service == app.service && r.reserved == None)
  {
    hide Rejected, Pass, Find, Triggered, Reconciled, Render, StampFor, D.Resolve, GatePass, ClaimsReady;
    PassWrites(key, app, snap, limiter, seen, now);
    RenderedFrom(app, snap);
    if Rejected(app, snap) {
      RejectedNeverAsks(key, app, snap, limiter, seen, now);
    } else {
      PassGate(key, app, snap, limiter, seen, now);
      GateFacts(key, app, snap, limiter, now);
    }
  }

  lemma {:induction false} RejectedNeverAsks(key: L.App, app: AppState, snap: Snapshot, limiter: L.State, seen: Seen, now: Time)
    requires Rejected(app, snap)
    ensures Pass(key, app, snap, limiter, seen, now).reserved == None
  {
    hide Rejected, RejectedConditions;
  }

  /**
  Slot accounting: in any run of atomic passes, a pass that changes the existing Service of an app
  whose own spec has not moved was granted a slot for it by the limiter in that very pass; and a
  platform edit that leaves the app's merged values as they are neither touches its Service nor
  asks for a slot.
   */
  lemma {:induction false} SlotAccounting(w: World, steps: seq<Step>, key: L.App, seen: Seen)
    requires Initial(w) && forall n :: 0 <= n < |steps| ==> Atomic(steps[n])
    requires key in Run(w, steps).apps
    ensures var now := Run(w, steps);
            var app, r := now.apps[key], PassIn(now, key, seen);
            app.service.Some? && !Triggered(app) ==>
              && (r.app.service != app.service ==> r.reserved == Some(0))
              && (EffectiveOf(app, Snap(now)).values == app.service.value.values ==>
                    r.app.service == app.service && r.reserved == None)
  {
    hide Run, Accounted, Pass, Triggered;
    RunAccounted(w, steps);
    var now := Run(w, steps);
    var app := now.apps[key];
    assert Accounted(app);
    if app.service.Some? && !Triggered(app) {
      PassSlot(key, app, Snap(now), now.limiter, seen, now.now);
    }
  }

  /**
  Where the accounting can fail, exactly: a pass changes an untriggered app's existing Service without
  a slot if and only if it may write, would render other values than the live ones, and the app's stamp
  says there is nothing to pace, because its platform or its values are those in force.
   */
  lemma {:induction false} EscapesExactly(key: L.App, app: AppState, snap: Snapshot, limiter: L.State, seen: Seen, now: Time)
    requires Honest(app) && !Triggered(app) && app.service.Some?
    ensures var r, eff := Pass(key, app, snap, limiter, seen, now), EffectiveOf(app, snap);
            r.app.service != app.service && r.reserved != Some(0) <==>
              && !Rejected(app, snap) && EffectiveGate(app.spec, snap, eff) == GO
              && eff.values != app.service.value.values
              && (Active(snap) == AppliedPlatform(app) || eff.values == AppliedValues(app))
  {
    hide Rejected, Pass, Find, Triggered, Reconciled, Render, StampFor, D.Resolve, GatePass, ClaimsReady, EffectiveGate;
    PassWrites(key, app, snap, limiter, seen, now);
    RenderedFrom(app, snap);
    if Rejected(app, snap) {
      RejectedNeverAsks(key, app, snap, limiter, seen, now);
    } else {
      PassGate(key, app, snap, limiter, seen, now);
      GateFacts(key, app, snap, limiter, now);
    }
  }

  /**
  What atomicity is for: a pass writes the Service for a new platform and loses its status write;
  the platform is put back to the stamped one; the next pass re-renders the Service without asking
  the limiter.
   */
  lemma {:induction false} LostStatusEscapes(
    key: L.App, app: AppState, back: Platform, other: Snapshot, limiter: L.State, seen: Seen, at: Time, now: Time)
    requires Accounted(app) && !Triggered(app) && app.service.Some? && app.stamp.Some?
    requires back.acceptError == "" && back.spec == app.stamp.value.spec
    requires var eff := EffectiveOf(app, Snapshot(true, Some(back)));
             ValidUnder(app.spec, eff.budget) && ResourceGate(eff) == GO
    requires !Rejected(app, other) && GatePass(key, app, other, limiter, at).gate == GO
    requires EffectiveOf(app, other).values != AppliedValues(app)
    ensures var broken := Interrupted(key, app, other, limiter, at, true);
            var r := Pass(key, broken.0, Snapshot(true, Some(back)), broken.1, seen, now);
            r.app.service != broken.0.service && r.reserved == None
  {
    hide Find, D.Resolve, Triggered, Rejected, GatePass, ClaimsReady, ResourceGate, BeyondWall;
    var broken := Interrupted(key, app, other, limiter, at, true);
    RenderedFrom(app, other);
    Rerender(key, broken.0, app.stamp.value, back, broken.1, seen, now);
  }

  lemma {:induction false} Rerender(key: L.App, app: AppState, stamp: Stamp, platform: Platform, limiter: L.State, seen: Seen, now: Time)
    requires app.service.Some? && app.stamp == Some(stamp)
    requires platform.acceptError == "" && platform.spec == stamp.spec
    requires var eff := EffectiveOf(app, Snapshot(true, Some(platform)));
             ValidUnder(app.spec, eff.budget) && ResourceGate(eff) == GO && eff.values != app.service.value.values
    ensures var r := Pass(key, app, Snapshot(true, Some(platform)), limiter, seen, now);
            r.app.service != app.service && r.reserved == None
  {
    hide VerdictOf, Applied, D.Resolve, BeyondWall, L.Reserved;
  }

  const PLAIN: AppSpec := AppSpec(D.NOTHING, "", 0, 0, "")

  /** A platform that supplies a request timeout and nothing else. */
  function Timeout(seconds: int): Platform {
    Platform(1, D.PlatformSpec(D.NOTHING.(timeoutSeconds := seconds), 0, 0, "", ""), "")
  }

  function TimeoutSnap(seconds: int): Snapshot { Snapshot(true, Some(Timeout(seconds))) }

  const START: World := World(map[], true, Some(Timeout(60)), L.Fresh(), 1)

  /** An app is created and rendered; the platform changes; the pass that follows loses its status write; the platform is put back. */
  function EscapeSteps(key: L.App, seen: Seen): seq<Step> {
    [CreateApp(key, PLAIN)] + [Reconcile(key, seen)] + [SetPlatform(Some(Timeout(90)))] + [BrokenPass(key, true)]
    + [SetPlatform(Some(Timeout(60)))]
  }

  lemma {:induction false} RunOneMore(w: World, steps: seq<Step>, s: Step)
    ensures Run(w, steps + [s]) == Next(Run(w, steps), s)
  {
    hide Next;
    assert (steps + [s])[..|steps|] == steps;
  }

  lemma {:induction false} RunNothing(w: World)
    ensures Run(w, []) == w
  {
  }

  /** What a plain app is rendered with under such a platform: its timeout, within any validation and hold. */
  lemma {:induction false} PlainValues(app: AppState, seconds: int)
    requires app.spec == PLAIN && seconds > 0
    ensures EffectiveOf(app, TimeoutSnap(seconds)).values.timeoutSeconds == seconds
    ensures !Rejected(app, TimeoutSnap(seconds))
    ensures EffectiveGate(app.spec, TimeoutSnap(seconds), EffectiveOf(app, TimeoutSnap(seconds))) == GO
    ensures D.Resolve(app.spec.layer, None).values.timeoutSeconds == 300
  {
    hide D.Inherited;
  }

  lemma {:induction false} FirstPass(key: L.App, seen: Seen)
    ensures var app := AppState(1, PLAIN, [], None, BLANK, None);
            var r := Pass(key, app, TimeoutSnap(60), L.Fresh(), seen, 1);
            && r.limiter == L.Fresh() && !Triggered(r.app) && r.app.generation == 1 && r.app.spec == PLAIN
            && r.app.service == Some(Render(app, TimeoutSnap(60))) && r.app.stamp == StampFor(app, TimeoutSnap(60))
  {
    hide Pass, Rejected, EffectiveGate, Find, D.Resolve, VerdictOf, Applied, Render, StampFor, Reconciled, L.Reserved;
    var app := AppState(1, PLAIN, [], None, BLANK, None);
    PlainValues(app, 60);
    assert app.service.None?;
    NoServiceGoes(key, app, TimeoutSnap(60), L.Fresh(), 1);
    PassGate(key, app, TimeoutSnap(60), L.Fresh(), seen, 1);
    PassWrites(key, app, TimeoutSnap(60), L.Fresh(), seen, 1);
    PassRollUps(key, app, TimeoutSnap(60), L.Fresh(), seen, 1);
    TriggeredMeans(Pass(key, app, TimeoutSnap(60), L.Fresh(), seen, 1).app);
    ReleaseFresh(key);
  }

  lemma {:induction false} NoServiceGoes(key: L.App, app: AppState, snap: Snapshot, limiter: L.State, now: Time)
    requires app.service.None? && EffectiveGate(app.spec, snap, EffectiveOf(app, snap)) == GO
    ensures GatePass(key, app, snap, limiter, now) == Rollout(GO, L.Released(limiter, key), None)
  {
    hide Triggered, EffectiveGate, L.Reserved, L.Released, D.Resolve;
  }

  /** The first reservation ever made passes at once. */
  lemma {:induction false} FirstSlot(key: L.App, app: AppState, seconds: int, now: Time)
    requires app.spec == PLAIN && seconds > 0 && now > 0
    ensures GatePass(key, app, TimeoutSnap(seconds), L.Fresh(), now).gate == GO
  {
    hide Triggered, EffectiveGate, D.Resolve;
    PlainValues(app, seconds);
    assert L.Reserved(L.Fresh(), key, now, PerMinute(TimeoutSnap(seconds))).wait == 0;
  }

  /** The last two steps: a broken pass under the other platform, then a pass under the old one. */
  lemma {:induction false} BrokenThenBack(key: L.App, app: AppState, seen: Seen)
    requires app.spec == PLAIN && app.generation == 1 && !Triggered(app)
    requires var fresh' := AppState(1, PLAIN, [], None, BLANK, None);
             app.service == Some(Render(fresh', TimeoutSnap(60))) && app.stamp == StampFor(fresh', TimeoutSnap(60))
    ensures var broken := Interrupted(key, app, TimeoutSnap(90), L.Fresh(), 1, true);
            var r := Pass(key, broken.0, TimeoutSnap(60), broken.1, seen, 1);
            && !Triggered(broken.0) && broken.0.service.Some? && broken.0.service != app.service
            && r.app.service != broken.0.service && r.reserved == None
  {
    hide Triggered, EffectiveGate, Rejected, D.Resolve, GatePass, Pass, VerdictOf, Applied, Find;
    PlainValues(app, 60);
    PlainValues(app, 90);
    FirstSlot(key, app, 90, 1);
    var broken := Interrupted(key, app, TimeoutSnap(90), L.Fresh(), 1, true);
    assert broken.0 == app.(service := Some(Render(app, TimeoutSnap(90))));
    UntriggeredByService(app, broken.0);
    PlainValues(broken.0, 60);
    var snap := TimeoutSnap(60);
    GateFacts(key, broken.0, snap, broken.1, 1);
    PassGate(key, broken.0, snap, broken.1, seen, 1);
    PassWrites(key, broken.0, snap, broken.1, seen, 1);
  }

  lemma {:induction false} UntriggeredByService(app: AppState, after: AppState)
    requires after.generation == app.generation && after.conditions == app.conditions
    ensures Triggered(after) == Triggered(app)
  {
    hide Find;
  }

  /** Such a run from the start: its next pass changes the Service of an app whose spec has not moved, and asks for no slot. */
  lemma {:induction false} EscapeRun(key: L.App, seen: Seen)
    ensures Initial(START)
    ensures var w := Run(START, EscapeSteps(key, seen));
            && key in w.apps && w.apps[key].service.Some? && !Triggered(w.apps[key])
            && PassIn(w, key, seen).app.service != w.apps[key].service && PassIn(w, key, seen).reserved == None
  {
    hide Pass, Interrupted, Triggered, Run, Render, StampFor;
    var s1, s2 := [CreateApp(key, PLAIN)], [CreateApp(key, PLAIN)] + [Reconcile(key, seen)];
    var s3 := s2 + [SetPlatform(Some(Timeout(90)))];
    var s4 := s3 + [BrokenPass(key, true)];
    RunNothing(START);
    assert [] + s1 == s1;
    RunOneMore(START, [], s1[0]);
    RunOneMore(START, s1, Reconcile(key, seen));
    RunOneMore(START, s2, SetPlatform(Some(Timeout(90))));
    RunOneMore(START, s3, BrokenPass(key, true));
    RunOneMore(START, s4, SetPlatform(Some(Timeout(60))));
    FirstPass(key, seen);
    BrokenThenBack(key, Run(START, s2).apps[key], seen);
  }

  // ----- No platform, no limiter ----------------------------------------------------------------------------------

  predicate Inert(p: Option<Platform>) { p.Some? ==> p.value.acceptError != "" }

  predicate Unplatformed(w: World) {
    Inert(w.platform) && w.limiter == L.Fresh() && forall k :: k in w.apps ==> w.apps[k].stamp == None
  }

  lemma {:induction false} InertPass(key: L.App, app: AppState, snap: Snapshot, seen: Seen, now: Time)
    requires Inert(snap.obj) && app.stamp == None
    ensures var r := Pass(key, app, snap, L.Fresh(), seen, now);
            r.reserved == None && r.limiter == L.Fresh() && r.app.stamp == None
  {
    hide VerdictOf, Applied, D.Resolve, BeyondWall, L.Reserved, RejectedConditions;
    ReleaseFresh(key);
  }

  lemma {:induction false} InertBroken(key: L.App, app: AppState, snap: Snapshot, now: Time, written: bool)
    requires Inert(snap.obj) && app.stamp == None
    ensures var r := Interrupted(key, app, snap, L.Fresh(), now, written);
            r.0.stamp == None && r.1 == L.Fresh()
  {
    hide D.Resolve, BeyondWall, L.Reserved;
    ReleaseFresh(key);
  }

  lemma {:induction false} ReleaseFresh(key: L.App)
    ensures L.Released(L.Fresh(), key) == L.Fresh()
  {
  }

  lemma {:induction false} StepUnplatformed(w: World, s: Step)
    requires Unplatformed(w) && (s.SetPlatform? ==> Inert(s.platform))
    ensures Unplatformed(Next(w, s))
  {
    hide Pass, Interrupted, L.Fresh, L.Released;
    match s
    case DeleteApp(key) => ReleaseFresh(key);
    case Reconcile(key, seen) =>
      ReleaseFresh(key);
      if key in w.apps { InertPass(key, w.apps[key], Snap(w), seen, w.now); }
    case BrokenPass(key, written) =>
      if key in w.apps { InertBroken(key, w.apps[key], Snap(w), w.now, written); }
    case _ =>
  }

  /** As long as no accepted platform ever exists, no pass consults the limiter, and it stays as it was created. */
  lemma {:induction false} NoPlatformNoLimiter(w: World, steps: seq<Step>, key: L.App, seen: Seen)
    requires Initial(w) && Inert(w.platform)
    requires forall n :: 0 <= n < |steps| && steps[n].SetPlatform? ==> Inert(steps[n].platform)
    ensures Unplatformed(Run(w, steps))
    ensures key in Run(w, steps).apps ==> PassIn(Run(w, steps), key, seen).reserved == None
  {
    hide Pass, Unplatformed, Next, L.Fresh;
    if |steps| == 0 {
      assert Unplatformed(w) by { InitialUnplatformed(w); }
    } else {
      NoPlatformNoLimiter(w, steps[..|steps| - 1], key, seen);
      StepUnplatformed(Run(w, steps[..|steps| - 1]), steps[|steps| - 1]);
    }
    var now := Run(w, steps);
    if key in now.apps { UnplatformedPass(now, key, seen); }
  }

  lemma {:induction false} InitialUnplatformed(w: World)
    requires Initial(w) && Inert(w.platform)
    ensures Unplatformed(w)
  {
  }

  lemma {:induction false} UnplatformedPass(w: World, key: L.App, seen: Seen)
    requires Unplatformed(w) && key in w.apps
    ensures PassIn(w, key, seen).reserved == None
  {
    hide Pass, L.Fresh;
    InertPass(key, w.apps[key], Snap(w), seen, w.now);
  }

  // ----- A pass is idempotent --------------------------------------------------------------------------------------

  /** A rejected spec is rejected again, to the same effect. */
  lemma {:induction false} RejectedTwice(
    key: L.App, app: AppState, snap: Snapshot, limiter: L.State, seen: Seen, now: Time, moved: L.State, later: Time)
    requires Rejected(app, snap)
    ensures var r := Pass(key, app, snap, limiter, seen, now);
            var again := Pass(key, r.app, snap, moved, seen, later);
            again.app == r.app && again.limiter == moved
  {
    hide Find, SetCondition, D.Resolve, Merged, BeyondWall;
    var budget := EffectiveOf(app, snap).budget;
    var after := RejectedConditions(app, budget, now);
    RejectedRollUps(app, budget, now);
    FindType(app.conditions, Degraded);
    FindType(app.conditions, Ready);
    MergedContent(Find(app.conditions, Degraded), InvalidDegraded(app, budget), now);
    MergedContent(Find(app.conditions, Ready), InvalidReady(app), now);
    SetNoChange(after, InvalidDegraded(app, budget), later);
    SetNoChange(after, InvalidReady(app), later);
  }

  lemma {:induction false} MergedContent(prior: Option<Condition>, c: Condition, now: Time)
    requires prior.Some? ==> prior.value.ctype == c.ctype
    ensures SameContent(Merged(prior, c, now), c)
  {
  }

  /** Once a pass has written, or is held for its spec, the gate answers the same at any later time, whatever the limiter holds. */
  lemma {:induction false} GateTwice(
    key: L.App, app: AppState, after: AppState, snap: Snapshot, limiter: L.State, now: Time, moved: L.State, later: Time)
    requires after.spec == app.spec && after.generation == app.generation
    requires var g := GatePass(key, app, snap, limiter, now).gate;
             g.hold != HoldPending && (g.hold == NoHold ==> after.stamp == StampFor(app, snap))
    ensures var again := GatePass(key, after, snap, moved, later);
            again.gate == GatePass(key, app, snap, limiter, now).gate && again.limiter == L.Released(moved, key)
  {
    hide Triggered, D.Resolve, L.Reserved, BeyondWall, ResourceGate, L.Released, Paths;
    GateFacts(key, app, snap, limiter, now);
    GateFacts(key, after, snap, moved, later);
  }

  /** The clock-dependent diagnoses of the service come out the same at both times. */
  predicate SameStalls(i: Inputs, at: Time, later: Time) {
    PinStalled(i, later) == PinStalled(i, at) && IngressStalls(i, later) == IngressStalls(i, at)
  }

  /** The stalls read nothing of the app but whether its Service exists. */
  lemma {:induction false} StallsOf(key: L.App, app: AppState, snap: Snapshot, gate: Gate, gate': Gate, seen: Seen, at: Time)
    ensures PinStalled(InputsOf(key, app, snap, gate, seen), at) == PinStalled(InputsOf(key, app, snap, gate', seen), at)
    ensures IngressStalls(InputsOf(key, app, snap, gate, seen), at) == IngressStalls(InputsOf(key, app, snap, gate', seen), at)
  {
    hide StalledSince, IngressStall;
  }

  lemma {:induction false} MirrorTwice(app: AppState, after: AppState, seen: Seen, now: Time, later: Time)
    requires after.service == app.service && after.mirror == MirrorOf(app, seen, now)
    ensures MirrorOf(after, seen, later) == after.mirror
  {
    Deploy.DerivedFixpoint(app.mirror.deploy, Deployed(app, seen, now), later);
  }

  /** What the status holds, all of it. */
  function StatusOf(app: AppState): (seq<Condition>, Option<Stamp>, Mirror) { (app.conditions, app.stamp, app.mirror) }

  /**
  An idle app settles in one pass: unless that pass left it queued, any pass after it, at any later
  time and whatever other apps did to the limiter in between, finds nothing to change in the app's
  status or Service, so the guarded status write does not happen; and unless the spec is rejected it
  emits no verdict event. Time enters only through the two stall diagnoses, which must come out the same.
   */
  lemma {:induction false} PassIdempotent(
    key: L.App, app: AppState, snap: Snapshot, limiter: L.State, seen: Seen, now: Time, moved: L.State, later: Time)
    requires Honest(app) && Pass(key, app, snap, limiter, seen, now).gate.hold != HoldPending
    requires !Rejected(app, snap) ==>
               SameStalls(InputsOf(key, Pass(key, app, snap, limiter, seen, now).app, snap, GO, seen), now, later)
    ensures var r := Pass(key, app, snap, limiter, seen, now);
            var again := Pass(key, r.app, snap, moved, seen, later);
            && again.app == r.app && StatusOf(again.app) == StatusOf(r.app)
            && again.limiter == (if Rejected(app, snap) then moved else L.Released(moved, key))
            && (!Rejected(app, snap) ==> again.gate == r.gate && again.events == [])
  {
    hide Rejected, GatePass, VerdictOf, Applied, Find, Render, StampFor, Triggered, Reconciled, ClaimsReady, InputsOf, MirrorOf,
         PinStalled, IngressStalls;
    if Rejected(app, snap) {
      RejectedTwice(key, app, snap, limiter, seen, now, moved, later);
    } else {
      var r := GatePass(key, app, snap, limiter, now);
      var once := Rendered(app, snap, r.gate);
      var i := InputsOf(key, once, snap, r.gate, seen);
      var after := Pass(key, app, snap, limiter, seen, now).app;
      PassRollUps(key, app, snap, limiter, seen, now);
      PassGate(key, app, snap, limiter, seen, now);
      TriggeredMeans(after);
      GateTwice(key, app, after, snap, limiter, now, moved, later);
      SameRender(app, after, snap);
      SameInputs(key, once, after, snap, r.gate, seen);
      SameInputs(key, once, after, snap, GO, seen);
      StallsOf(key, once, snap, r.gate, GO, seen, now);
      StallsOf(key, once, snap, r.gate, GO, seen, later);
      VerdictFixpoint(i, app.conditions, now, now, later, later);
      Generation(key, once, snap, r.gate, seen);
      MirrorTwice(once, after, seen, now, later);
    }
  }

  lemma {:induction false} Generation(key: L.App, app: AppState, snap: Snapshot, gate: Gate, seen: Seen)
    ensures InputsOf(key, app, snap, gate, seen).generation == app.generation
  {
  }

  lemma {:induction false} SameRender(app: AppState, after: AppState, snap: Snapshot)
    requires after.spec == app.spec && after.generation == app.generation
    ensures Render(after, snap) == Render(app, snap) && StampFor(after, snap) == StampFor(app, snap)
    ensures Rejected(after, snap) == Rejected(app, snap)
  {
  }

  lemma {:induction false} SameInputs(key: L.App, app: AppState, after: AppState, snap: Snapshot, gate: Gate, seen: Seen)
    requires after.spec == app.spec && after.generation == app.generation && after.service == app.service
    ensures InputsOf(key, after, snap, gate, seen) == InputsOf(key, app, snap, gate, seen)
  {
  }

  // ----- A queued app waits quietly -----------------------------------------------------------------------------------

  /** Before its slot, and through other apps' traffic, a queued app is told the time that remains. */
  lemma {:induction false} StillQueued(
    key: L.App, app: AppState, queued: AppState, snap: Snapshot, limiter: L.State, now: Time, others: seq<L.Call>, later: Time)
    requires queued.spec == app.spec && queued.stamp == app.stamp && queued.service == app.service && !Triggered(queued)
    requires app.service.Some? && GatePass(key, app, snap, limiter, now).gate.hold == HoldPending
    requires var slot := now + GatePass(key, app, snap, limiter, now).gate.wait;
             later < slot && forall n :: 0 <= n < |others| ==> L.LeavesAlone(others[n], key, slot)
    ensures var r := GatePass(key, app, snap, limiter, now);
            var again := GatePass(key, queued, snap, L.Run(r.limiter, others), later);
            again.gate == Gate(HoldPending, "", NoDetail, now + r.gate.wait - later)
  {
    hide Triggered, D.Resolve, L.Reserved, L.Run, EffectiveGate;
    QueuedGate(key, app, snap, limiter, now);
    L.WaitThenPass(limiter, key, now, PerMinute(snap), others, later, PerMinute(snap));
  }

  /**
  The queued form: a pass that comes before the slot finds nothing to change in the app's status or
  Service and emits nothing; only the wait it reports is shorter, by the time that has gone by.
   */
  lemma {:induction false} QueuedIdle(
    key: L.App, app: AppState, snap: Snapshot, limiter: L.State, seen: Seen, now: Time, others: seq<L.Call>, later: Time)
    requires Honest(app) && !Rejected(app, snap) && Pass(key, app, snap, limiter, seen, now).gate.hold == HoldPending
    requires var slot := now + Pass(key, app, snap, limiter, seen, now).gate.wait;
             now <= later < slot && forall n :: 0 <= n < |others| ==> L.LeavesAlone(others[n], key, slot)
    requires SameStalls(InputsOf(key, app, snap, GO, seen), now, later)
    ensures var r := Pass(key, app, snap, limiter, seen, now);
            var again := Pass(key, r.app, snap, L.Run(r.limiter, others), seen, later);
            && again.app == r.app && StatusOf(again.app) == StatusOf(r.app) && r.app.service == app.service
            && again.gate == r.gate.(wait := r.gate.wait - (later - now)) && again.events == []
  {
    hide Rejected, GatePass, VerdictOf, Applied, Find, Render, StampFor, Triggered, Reconciled, ClaimsReady, InputsOf, MirrorOf,
         PinStalled, IngressStalls, L.Run;
    var r := GatePass(key, app, snap, limiter, now);
    var i := InputsOf(key, app, snap, r.gate, seen);
    var after := Pass(key, app, snap, limiter, seen, now).app;
    PassRollUps(key, app, snap, limiter, seen, now);
    PassGate(key, app, snap, limiter, seen, now);
    GateFacts(key, app, snap, limiter, now);
    QueuedGate(key, app, snap, limiter, now);
    TriggeredMeans(after);
    SameRender(app, after, snap);
    StillQueued(key, app, after, snap, limiter, now, others, later);
    var gate := GatePass(key, after, snap, L.Run(r.limiter, others), later).gate;
    SameInputs(key, app, after, snap, gate, seen);
    StallsOf(key, app, snap, r.gate, GO, seen, now);
    StallsOf(key, app, snap, r.gate, GO, seen, later);
    OnlyWait(key, app, snap, r.gate, gate, seen);
    Generation(key, app, snap, r.gate, seen);
    QueuedVerdict(i, gate.wait, app.conditions, now, now, later, later);
    MirrorTwice(app, after, seen, now, later);
  }

  lemma {:induction false} OnlyWait(key: L.App, app: AppState, snap: Snapshot, gate: Gate, gate': Gate, seen: Seen)
    requires gate' == gate.(wait := gate'.wait)
    ensures InputsOf(key, app, snap, gate', seen) == Waiting(InputsOf(key, app, snap, gate, seen), gate'.wait)
  {
  }

  // ----- A queued app is written at its slot --------------------------------------------------------------------------

  /**
  A pass that queues an app is followed, once its slot has come and within the limiter's stale
  bound after it, by a pass that renders the queued values; other apps' traffic on the limiter in
  between makes no difference.
   */
  lemma {:induction false} QueuedThenWritten(
    key: L.App, app: AppState, snap: Snapshot, limiter: L.State, seen: Seen, now: Time,
    others: seq<L.Call>, back: Time, seenBack: Seen)
    requires !Rejected(app, snap) && Pass(key, app, snap, limiter, seen, now).gate.hold == HoldPending
    requires var slot := now + Pass(key, app, snap, limiter, seen, now).gate.wait;
             && slot <= back <= slot + L.STALE_AFTER
             && forall n :: 0 <= n < |others| ==> L.LeavesAlone(others[n], key, slot)
    ensures var queued := Pass(key, app, snap, limiter, seen, now);
            var r := Pass(key, queued.app, snap, L.Run(queued.limiter, others), seenBack, back);
            && queued.app.service == app.service
            && r.gate == GO && r.reserved == Some(0) && r.app.service == Some(Render(app, snap))
  {
    hide Rejected, GatePass, Pass, VerdictOf, Applied, Find, Render, StampFor, Triggered, Reconciled, L.Run, L.Reserved;
    var queued := Pass(key, app, snap, limiter, seen, now);
    var moved := L.Run(queued.limiter, others);
    PassWrites(key, app, snap, limiter, seen, now);
    PassGate(key, app, snap, limiter, seen, now);
    PassRollUps(key, app, snap, limiter, seen, now);
    QueuedGate(key, app, snap, limiter, now);
    GateFacts(key, app, snap, limiter, now);
    L.WaitThenPass(limiter, key, now, PerMinute(snap), others, back, PerMinute(snap));
    TriggeredMeans(queued.app);
    SameRender(app, queued.app, snap);
    GrantedGate(key, app, queued.app, snap, limiter, now, moved, back);
    PassGate(key, queued.app, snap, moved, seenBack, back);
    PassWrites(key, queued.app, snap, moved, seenBack, back);
  }

  lemma {:induction false} QueuedGate(key: L.App, app: AppState, snap: Snapshot, limiter: L.State, now: Time)
    requires GatePass(key, app, snap, limiter, now).gate.hold == HoldPending
    ensures var o, r := L.Reserved(limiter, key, now, PerMinute(snap)), GatePass(key, app, snap, limiter, now);
            o.wait > 0 && r.gate == Gate(HoldPending, "", NoDetail, o.wait) && r.limiter == o.state
            && Active(snap) != AppliedPlatform(app) && EffectiveOf(app, snap).values != AppliedValues(app)
            && EffectiveGate(app.spec, snap, EffectiveOf(app, snap)) == GO
  {
    hide Triggered, D.Resolve, L.Reserved, BeyondWall, ResourceGate;
    GateKinds(app.spec, snap, EffectiveOf(app, snap));
  }

  lemma {:induction false} GrantedGate(key: L.App, app: AppState, queued: AppState, snap: Snapshot, limiter: L.State, now: Time, moved: L.State, back: Time)
    requires queued.spec == app.spec && queued.stamp == app.stamp && queued.service == app.service
    requires !Triggered(queued) && app.service.Some?
    requires Active(snap) != AppliedPlatform(app) && EffectiveOf(app, snap).values != AppliedValues(app)
    requires EffectiveGate(app.spec, snap, EffectiveOf(app, snap)) == GO
    requires L.Reserved(moved, key, back, PerMinute(snap)).wait == 0
    ensures var r := GatePass(key, queued, snap, moved, back); r.gate == GO && r.reserved == Some(0)
  {
    hide Triggered, D.Resolve, L.Reserved, EffectiveGate;
  }
}
