/**
The reconcile pass as the operator runs it: the app object and the limiter are updated in place.
Each method is proved against the functions of PlatformRun.
 */
module PlatformReconciler {
  import opened Wrappers
  import opened StatusVerdict
  import opened PlatformRun
  import D = PlatformDefaults
  import L = RolloutLimiter
  import B = VerdictBuilder
  import Deploy = DeployState

  /** One NextApp, its status, and its live Service. */
  class NextApp {
    const key: L.App
    var generation: int
    var spec: AppSpec
    var status: B.StatusWriter
    var stamp: Option<Stamp>
    var mirror: Mirror
    var service: Option<Service>

    constructor (key: L.App, spec: AppSpec)
      ensures this.key == key && fresh(status) && status.emitted == []
      ensures Abs() == AppState(1, spec, [], None, BLANK, None)
    {
      this.key, generation, this.spec, stamp, mirror, service := key, 1, spec, None, BLANK, None;
      status := new B.StatusWriter();
    }

    function Abs(): AppState
      reads this, status
    {
      AppState(generation, spec, status.conditions, stamp, mirror, service)
    }
  }

  method CheckResources(eff: D.Effective) returns (gate: Gate)
    ensures gate == ResourceGate(eff)
  {
    var pairs := [("cpu", "spec.resources.cpuRequest", eff.values.cpuRequest, eff.values.cpuLimit),
                  ("memory", "spec.resources.memoryRequest", eff.values.memoryRequest, eff.values.memoryLimit)];
    if eff.resourceFromPlatform {
      for n := 0 to |pairs|
        invariant forall j :: 0 <= j < n ==> !Exceeds(pairs[j].2, pairs[j].3)
      {
        var p := pairs[n];
        assert n == 1 ==> !Exceeds(pairs[0].2, pairs[0].3);
        if p.2.amount.Some? && p.3.amount.Some? {
          if p.2.amount.value > p.3.amount.value {
            return Gate(HoldInvalid, p.1, RequestAboveLimit(p.0, p.2.text, p.3.text), 0);
          }
        }
      }
      assert !Exceeds(pairs[0].2, pairs[0].3) && !Exceeds(pairs[1].2, pairs[1].3);
    }
    gate := GO;
  }

  method PlatformEffectiveGate(spec: AppSpec, snap: Snapshot, eff: D.Effective) returns (gate: Gate)
    ensures gate == EffectiveGate(spec, snap, eff)
  {
    hide ResourceGate, BeyondWall;
    if Active(snap).None? {
      return GO;
    }
    if !ValidUnder(spec, eff.budget) {
      if eff.budget != D.BUILTIN_BUDGET && ValidUnder(spec, D.BUILTIN_BUDGET) {
        return Gate(HoldInvalid, "spec.scaling", Complaint(spec, eff.budget), 0);
      }
      return GO;
    }
    gate := CheckResources(eff);
  }

  class Reconciler {
    const rollout: L.Limiter

    constructor ()
      ensures fresh(rollout) && rollout.Abs() == L.Fresh()
    {
      rollout := new L.Limiter();
    }

    method Decide(app: NextApp, snap: Snapshot, eff: D.Effective, now: Time) returns (gate: Gate, ghost reserved: Option<Duration>)
      requires eff == EffectiveOf(app.Abs(), snap)
      modifies rollout
      ensures var d := DecideRollout(app.key, app.Abs(), snap, old(rollout.Abs()), now);
              gate == d.gate && reserved == d.reserved && rollout.Abs() == d.limiter
    {
      hide D.Resolve, L.Reserved, Triggered;
      reserved := None;
      var applied, appliedValues := None, D.Resolve(app.spec.layer, None).values;
      if app.stamp.Some? {
        applied, appliedValues := Some(app.stamp.value.spec), app.stamp.value.values;
      }
      if Active(snap) == applied {
        return GO, None;
      }
      if eff.values == appliedValues {
        return GO, None;
      }
      if Triggered(app.Abs()) {
        return GO, None;
      }
      if app.service.None? {
        return GO, None;
      }
      var wait := rollout.Reserve(app.key, now, PerMinute(snap));
      reserved := Some(wait);
      if wait > 0 {
        return Gate(HoldPending, "", NoDetail, wait), reserved;
      }
      gate := GO;
    }

    method GateRollout(app: NextApp, snap: Snapshot, eff: D.Effective, now: Time) returns (gate: Gate, ghost reserved: Option<Duration>)
      requires eff == EffectiveOf(app.Abs(), snap)
      modifies rollout
      ensures var d := PlatformRun.GateRollout(app.key, app.Abs(), snap, old(rollout.Abs()), now);
              gate == d.gate && reserved == d.reserved && rollout.Abs() == d.limiter
    {
      hide DecideRollout, EffectiveOf, L.Released;
      gate, reserved := Decide(app, snap, eff, now);
      if gate.hold != HoldPending {
        rollout.Release(app.key);
      }
    }

    method Reject(app: NextApp, budget: int, now: Time)
      modifies app.status
      ensures app.Abs() == old(app.Abs()).(conditions := RejectedConditions(old(app.Abs()), budget, now))
      ensures app.status.emitted == old(app.status.emitted)
           + [Event(true, InvalidImage, SpecRejected(Complaint(app.spec, budget)))]
    {
      hide SetCondition, Complaint;
      ghost var was := app.Abs();
      app.status.emitted := app.status.emitted + [Event(true, InvalidImage, SpecRejected(Complaint(app.spec, budget)))];
      app.status.SetStatusCondition(InvalidDegraded(app.Abs(), budget), now);
      assert InvalidDegraded(was, budget) == InvalidDegraded(app.Abs(), budget);
      app.status.SetStatusCondition(InvalidReady(app.Abs()), now);
    }

    /** What the status copies from the live Service and the spec. */
    method UpdateMirror(app: NextApp, seen: Seen, now: Time)
      modifies app`mirror
      ensures app.mirror == MirrorOf(old(app.Abs()), seen, now)
    {
      hide Deploy.Derived;
      var m := app.mirror;
      m := m.(databaseSecret := "");
      if seen.inputs.database.Some? {
        m := m.(databaseSecret := seen.inputs.database.value);
      }
      if app.service.Some? && seen.url.Some? {
        m := m.(url := seen.url.value);
      }
      m := m.(traffic := if app.service.Some? then seen.traffic else "");
      var deploy := Deploy.DeriveDeployState(m.deploy, Deployed(app.Abs(), seen, now));
      app.mirror := m.(deploy := deploy);
    }

    /** The whole pass; written tells whether the status is written back, which it is exactly when it changed. */
    method Reconcile(app: NextApp, snap: Snapshot, seen: Seen, now: Time) returns (written: bool)
      modifies app, app.status, rollout
      ensures app.status == old(app.status)
      ensures var r := Pass(app.key, old(app.Abs()), snap, old(rollout.Abs()), seen, now);
              && app.Abs() == r.app && rollout.Abs() == r.limiter
              && app.status.emitted == old(app.status.emitted) + r.events
      ensures written <==> StatusOf(app.Abs()) != StatusOf(old(app.Abs()))
    {
      hide EffectiveOf, EffectiveGate, PlatformRun.GateRollout, VerdictOf, Applied, RejectedConditions, InputsOf, StampFor, Render,
           ValidUnder, Complaint, L.Released, MirrorOf;
      ghost var was, limiter := app.Abs(), rollout.Abs();
      var observed, observedStamp, observedMirror := app.status.conditions, app.stamp, app.mirror;
      var eff := D.ResolveEffective(app.spec.layer, Active(snap));
      assert eff == EffectiveOf(was, snap) by { MergeOf(was, snap); }
      var gate := PlatformEffectiveGate(app.spec, snap, eff);
      if !ValidUnder(app.spec, eff.budget) && gate.hold == NoHold {
        Reject(app, eff.budget, now);
        return app.status.conditions != observed;
      }
      ghost var reserved: Option<Duration> := None;
      if gate.hold == NoHold {
        gate, reserved := GateRollout(app, snap, eff, now);
      } else {
        rollout.Release(app.key);
      }
      assert gate == GatePass(app.key, was, snap, limiter, now).gate;
      if gate.hold == NoHold {
        app.service := Some(Service(app.generation, app.spec, eff.values));
        app.stamp := StampFor(app.Abs(), snap);
      }
      ghost var done := app.Abs();
      assert done == Rendered(was, snap, gate) by {
        if gate.hold == NoHold { Written(was, done, snap, eff); }
      }
      UpdateMirror(app, seen, now);
      var inputs := InputsOf(app.key, app.Abs(), snap, gate, seen);
      assert inputs == InputsOf(app.key, done, snap, gate, seen) by { InputsRead(app.key, done, app.Abs(), snap, gate, seen); }
      var verdict := B.ComputeStatusVerdict(inputs, app.status.conditions, now);
      written := app.status.ApplyStatusVerdict(observed, app.stamp == observedStamp && app.mirror == observedMirror, verdict, now);
    }
  }

  /** The verdict reads nothing of the mirror. */
  lemma {:induction false} InputsRead(key: L.App, app: AppState, after: AppState, snap: Snapshot, gate: Gate, seen: Seen)
    requires after == app.(mirror := after.mirror)
    ensures InputsOf(key, after, snap, gate, seen) == InputsOf(key, app, snap, gate, seen)
  {
    hide D.Resolve;
  }

  lemma {:induction false} MergeOf(app: AppState, snap: Snapshot)
    ensures EffectiveOf(app, snap) == D.Resolve(app.spec.layer, Active(snap))
  {
  }

  lemma {:induction false} Written(was: AppState, now: AppState, snap: Snapshot, eff: D.Effective)
    requires eff == EffectiveOf(was, snap)
    requires now.generation == was.generation && now.spec == was.spec && now.conditions == was.conditions && now.mirror == was.mirror
    requires now.service == Some(Service(was.generation, was.spec, eff.values))
    requires now.stamp == StampFor(was.(service := now.service), snap)
    ensures now == was.(service := Some(Render(was, snap)), stamp := StampFor(was, snap))
  {
    hide D.Resolve;
  }
}
