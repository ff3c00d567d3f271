/**
The verdict as the operator computes it: one record grown section by section, then applied to the
status in place. Both are proved against the decisions of StatusVerdict.
 */
module VerdictBuilder {
  import opened Wrappers
  import opened StatusVerdict

  class Builder {
    var removals: seq<CondType>
    var conditions: seq<Condition>
    var events: seq<Event>
    var requeueAfter: Duration

    constructor ()
      ensures removals == [] && conditions == [] && events == [] && requeueAfter == 0
    {
      removals, conditions, events, requeueAfter := [], [], [], 0;
    }

    /** What deciding one condition appends. */
    twostate predicate Grew(t: CondType, i: Inputs, conds: seq<Condition>, now: Time)
      reads this
    {
      removals == old(removals) + RemovalOf(t, Decide(t, i, conds, now))
      && conditions == old(conditions) + SettingOf(Decide(t, i, conds, now))
      && events == old(events) + EventsFor(t, i, conds, now)
    }

    method Append(i: Inputs, t: CondType, status: CondStatus, reason: Reason, message: Message)
      modifies this`conditions
      ensures conditions == old(conditions) + [Make(i, t, status, reason, message)]
    {
      conditions := conditions + [Condition(t, status, reason, message, i.generation, 0)];
    }

    method Emit(warning: bool, reason: Reason, message: Message)
      modifies this`events
      ensures events == old(events) + [Event(warning, reason, message)]
    {
      events := events + [Event(warning, reason, message)];
    }

    method Tighten(candidate: Duration)
      modifies this`requeueAfter
      ensures requeueAfter == Sooner(old(requeueAfter), candidate)
    {
      if requeueAfter == 0 || requeueAfter > candidate {
        requeueAfter := candidate;
      }
    }

    method AddDatabase(i: Inputs, ghost conds: seq<Condition>, ghost now: Time)
      modifies this
      ensures Grew(DatabaseReady, i, conds, now)
      ensures requeueAfter == old(requeueAfter)
    {
      if i.database.Some? {
        Append(i, DatabaseReady, IsTrue, Bound, BoundSecret(i.database.value));
      } else {
        removals := removals + [DatabaseReady];
      }
    }

    method AddReconciling(i: Inputs, conds: seq<Condition>, ghost now: Time, dropped: bool)
      requires dropped == ChangeDropped(i, conds)
      modifies this
      ensures Grew(Reconciling, i, conds, now)
      ensures requeueAfter == old(requeueAfter)
    {
      if dropped {
        var lastReconciled := 0;
        var prev := Find(conds, Reconciling);
        if prev.Some? {
          lastReconciled := prev.value.observedGeneration;
        }
        var gate := i.platform.value.gate;
        conditions := conditions
          + [Condition(Reconciling, IsTrue, EffectiveSpecInvalid, ChangeHeld(i.generation, gate.field, gate.detail),
                       lastReconciled, 0)];
      } else {
        Append(i, Reconciling, IsFalse, ReconcileSuccess, ReconciliationComplete);
      }
    }

    /** The reasons and messages of a service that is not Ready, overwritten by each finer diagnosis. */
    method Explain(i: Inputs, conds: seq<Condition>, now: Time)
      returns (readyReason: Reason, readyMessage: Message, degradedReason: Reason, degradedMessage: Message)
      requires !ChangeDropped(i, conds) && !IsReady(i.service.ready)
      modifies this`events
      ensures Set(Make(i, Ready, IsFalse, readyReason, readyMessage)) == ReadyCondition(i, conds, now)
      ensures Set(Make(i, Degraded, IsTrue, degradedReason, degradedMessage)) == DegradedCondition(i, conds, now)
      ensures events == old(events) + EventsFor(Ready, i, conds, now)
    {
      hide Find, StalledSince, IngressStalls, ServiceReason, ServiceText, ChangeDropped, IsReady;
      var prev := Find(conds, Ready);
      readyReason, readyMessage := KnativeServiceNotReady, ServiceNotReady(ServiceReason(i), ServiceText(i));
      degradedReason, degradedMessage := Reported(ServiceReason(i)), KnativeText(ServiceText(i));
      var pinnedHandled := false;
      if i.revision == Inconclusive {
        if prev.Some? && prev.value.reason == PinnedRevisionNotFound {
          readyReason, readyMessage := PinnedRevisionNotFound, prev.value.message;
          degradedReason, degradedMessage := PinnedRevisionNotFound, prev.value.message;
          pinnedHandled := true;
        }
      } else if PinStalled(i, now) {
        readyReason, readyMessage := PinnedRevisionNotFound, PinMissing(i.pinnedRevision, i.namespace, i.name);
        degradedReason, degradedMessage := readyReason, readyMessage;
        if prev.None? || prev.value.reason != PinnedRevisionNotFound {
          Emit(true, PinnedRevisionNotFound, readyMessage);
        }
        pinnedHandled := true;
      }
      if !pinnedHandled && IngressStalls(i, now) {
        readyReason, readyMessage := IngressNotProgrammed, IngressStalled;
        degradedReason, degradedMessage := readyReason, readyMessage;
        if prev.None? || prev.value.reason != IngressNotProgrammed {
          Emit(true, IngressNotProgrammed, readyMessage);
        }
      }
    }

    method AddReadiness(i: Inputs, conds: seq<Condition>, now: Time, dropped: bool)
      requires dropped == ChangeDropped(i, conds)
      modifies this
      ensures removals == old(removals)
      ensures conditions == old(conditions) + SettingOf(ReadyCondition(i, conds, now))
                          + SettingOf(DegradedCondition(i, conds, now))
      ensures events == old(events) + EventsFor(Ready, i, conds, now)
      ensures requeueAfter == if !dropped && !IsReady(i.service.ready) then NOT_READY_REQUEUE else old(requeueAfter)
    {
      hide StalledSince, Find;
      if dropped {
        Append(i, Ready, IsFalse, EffectiveSpecInvalid, HeldMessage(i));
        Append(i, Degraded, IsTrue, EffectiveSpecInvalid, HeldMessage(i));
      } else if IsReady(i.service.ready) {
        Append(i, Ready, IsTrue, ReconcileSuccess, ServiceIsReady);
        Append(i, Degraded, IsFalse, ReconcileSuccess, NoErrors);
      } else {
        var readyReason, readyMessage, degradedReason, degradedMessage := Explain(i, conds, now);
        Append(i, Ready, IsFalse, readyReason, readyMessage);
        Append(i, Degraded, IsTrue, degradedReason, degradedMessage);
        requeueAfter := NOT_READY_REQUEUE;
      }
    }

    method AddRevalidation(i: Inputs, conds: seq<Condition>, ghost now: Time)
      modifies this
      ensures Grew(RevalidationDeferred, i, conds, now)
      ensures requeueAfter == old(requeueAfter)
    {
      if i.kafkaQueue {
        var reason, message := ConsumerNotProvisioned, KafkaDeferred;
        if i.provisionKafkaSource {
          reason, message := ProvisionKafkaSourceInert, KafkaInert;
          var prev := Find(conds, RevalidationDeferred);
          if prev.None? || prev.value.reason != ProvisionKafkaSourceInert {
            Emit(true, ProvisionKafkaSourceInert, message);
          }
        }
        Append(i, RevalidationDeferred, IsTrue, reason, message);
      } else {
        Append(i, RevalidationDeferred, IsFalse, NotDeferred, KafkaNotDeferred);
      }
    }

    method AddEnvCollision(i: Inputs, conds: seq<Condition>, ghost now: Time)
      modifies this
      ensures Grew(EnvMapCollision, i, conds, now)
      ensures requeueAfter == old(requeueAfter)
    {
      var c := i.collision;
      if c.operatorWins != [] || c.grandfathered != [] || c.exempt != [] {
        var reason, warning := EnvVarIgnored, true;
        if c.grandfathered != [] {
          reason := EnvMapUserOverride;
        }
        if c.exempt != [] {
          if c.operatorWins == [] && c.grandfathered == [] {
            reason, warning := EnvMapExpectedOverride, false;
          }
        }
        var message := Collides(c.operatorWins, c.grandfathered, c.exempt);
        Append(i, EnvMapCollision, IsTrue, reason, message);
        var prev := Find(conds, EnvMapCollision);
        if prev.None? || prev.value.message != message {
          Emit(warning, reason, message);
        }
      } else {
        Append(i, EnvMapCollision, IsFalse, NoCollision, NothingCollides);
      }
    }

    method AddImageCache(i: Inputs, conds: seq<Condition>, ghost now: Time)
      modifies this
      ensures Grew(ImageCacheReady, i, conds, now)
      ensures requeueAfter
           == var r := if i.imageCache.transient && (i.imageCache.enabled || Find(conds, ImageCacheReady).Some?)
                       then Sooner(old(requeueAfter), NOT_READY_REQUEUE) else old(requeueAfter);
              if PrewarmReportable(i, conds) then Sooner(r, PREWARM_FAILURE_REQUEUE) else r
    {
      hide Find;
      var ic := i.imageCache;
      var prev := Find(conds, ImageCacheReady);
      var reportable := ic.error != "" && (ic.enabled || prev.Some?);
      if ic.transient && (ic.enabled || prev.Some?) {
        Tighten(NOT_READY_REQUEUE);
      }
      if reportable {
        var reason := ReconcileFailed;
        if !ic.enabled {
          reason := CleanupFailed;
        }
        var message := PrewarmFailure(false, ic.error, 0, 0);
        if ic.enabled {
          message := PrewarmFailure(true, ic.error, ic.ready, ic.desired);
        }
        Append(i, ImageCacheReady, IsFalse, reason, message);
        Tighten(PREWARM_FAILURE_REQUEUE);
        if prev.None? || prev.value.status != IsFalse || prev.value.reason != reason {
          Emit(true, ImagePrewarmFailed, message);
        }
      } else if ic.enabled {
        if ic.desired > 0 && ic.ready == ic.desired {
          Append(i, ImageCacheReady, IsTrue, Cached, PrewarmCached(ic.desired));
        } else {
          Append(i, ImageCacheReady, IsFalse, Pulling, PrewarmPulling(ic.ready, ic.desired));
        }
      } else if prev.Some? {
        removals := removals + [ImageCacheReady];
      }
    }

    method AddPolicy(i: Inputs, conds: seq<Condition>, ghost now: Time)
      modifies this
      ensures Grew(NetworkPolicyEnforced, i, conds, now)
      ensures requeueAfter == old(requeueAfter)
    {
      hide Find;
      var prev := Find(conds, NetworkPolicyEnforced);
      if i.policy.enabled {
        match i.policy.verdict {
          case Enforced =>
            Append(i, NetworkPolicyEnforced, IsTrue, PolicyControllerDetected, AgentRunning(i.policy.evidence));
          case LikelyUnenforced =>
            if prev.None? || prev.value.reason != NoPolicyController {
              Emit(true, NoPolicyController, PolicyInert(i.policy.evidence));
            }
            Append(i, NetworkPolicyEnforced, IsFalse, NoPolicyController, PolicyInert(i.policy.evidence));
          case Unclear =>
            Append(i, NetworkPolicyEnforced, IsUnknown, EnforcementUnknown, PolicyUnclear(i.policy.evidence));
        }
      } else if prev.Some? {
        removals := removals + [NetworkPolicyEnforced];
      }
    }

    method AddExposure(i: Inputs, conds: seq<Condition>, ghost now: Time)
      modifies this
      ensures Grew(PrivateExposure, i, conds, now)
      ensures requeueAfter == old(requeueAfter)
    {
      hide Find;
      var prev := Find(conds, PrivateExposure);
      if i.exposure.unknown {
        if prev.Some? {
          conditions := conditions + [prev.value];
        }
      } else if i.exposure.isPrivate && |i.exposure.mappings| > 0 {
        Append(i, PrivateExposure, IsTrue, DomainMappingPublishesPrivateApp, Exposed(i.exposure.mappings));
        if prev.None? {
          Emit(true, DomainMappingPublishesPrivateApp, Exposed(i.exposure.mappings));
        }
      } else if prev.Some? {
        removals := removals + [PrivateExposure];
      }
    }

    method AddPods(i: Inputs, conds: seq<Condition>, ghost now: Time)
      modifies this
      ensures Grew(PodCreationBlocked, i, conds, now)
      ensures requeueAfter == if !i.pods.unknown && !i.pods.sticky && i.pods.blocked
                              then Sooner(old(requeueAfter), NOT_READY_REQUEUE) else old(requeueAfter)
    {
      hide Find;
      var pc := i.pods;
      var prev := Find(conds, PodCreationBlocked);
      if pc.unknown || pc.sticky {
        if prev.Some? {
          conditions := conditions + [prev.value];
        }
      } else if pc.blocked {
        var message := CannotCreatePods(pc.revision, pc.detail);
        var same := prev.Some? && prev.value.reason == Reported(pc.reason)
                         && prev.value.message.CannotCreatePods? && prev.value.message.revision == pc.revision;
        if same {
          message := prev.value.message;
        } else {
          Emit(true, Reported(pc.reason), message);
        }
        Append(i, PodCreationBlocked, IsTrue, Reported(pc.reason), message);
        Tighten(NOT_READY_REQUEUE);
      } else if prev.Some? {
        removals := removals + [PodCreationBlocked];
      }
    }

    method AddPlatform(i: Inputs, conds: seq<Condition>, ghost now: Time)
      modifies this
      ensures Grew(PlatformDefaultsApplied, i, conds, now)
      ensures requeueAfter == if i.platform.Some? && i.platform.value.gate.hold == HoldPending
                              then Sooner(old(requeueAfter), i.platform.value.gate.wait + SLOT_SLACK) else old(requeueAfter)
    {
      hide Find, Make, Sooner;
      var decision := PlatformCondition(i);
      if decision.Set? {
        var c := decision.c;
        var prev := Find(conds, PlatformDefaultsApplied);
        if c.reason == EffectiveSpecInvalid || c.reason == PlatformNotAccepted {
          if prev.None? || prev.value.reason != c.reason || prev.value.message != c.message {
            Emit(true, c.reason, c.message);
          }
        }
        conditions := conditions + [c];
        if i.platform.value.gate.hold == HoldPending {
          Tighten(i.platform.value.gate.wait + SLOT_SLACK);
        }
      }
    }
  }

  lemma {:induction false} OneMore(ts: seq<CondType>, t: CondType, i: Inputs, conds: seq<Condition>, now: Time)
    ensures Removals(ts + [t], i, conds, now) == Removals(ts, i, conds, now) + RemovalOf(t, Decide(t, i, conds, now))
    ensures Sets(ts + [t], i, conds, now) == Sets(ts, i, conds, now) + SettingOf(Decide(t, i, conds, now))
    ensures Events(ts + [t], i, conds, now) == Events(ts, i, conds, now) + EventsFor(t, i, conds, now)
  {
    hide Decide, EventsFor;
    assert (ts + [t])[..|ts|] == ts;
  }

  /** Everything decided so far, for the condition types in done. */
  ghost predicate Covers(b: Builder, done: seq<CondType>, i: Inputs, conds: seq<Condition>, now: Time)
    reads b
  {
    b.removals == Removals(done, i, conds, now)
    && b.conditions == Sets(done, i, conds, now)
    && b.events == Events(done, i, conds, now)
  }

  lemma {:induction false} RollUpDecisions(i: Inputs, conds: seq<Condition>, now: Time)
    ensures Decide(Ready, i, conds, now) == ReadyCondition(i, conds, now)
         && Decide(Degraded, i, conds, now) == DegradedCondition(i, conds, now)
    ensures RemovalOf(Ready, ReadyCondition(i, conds, now)) == [] && RemovalOf(Degraded, DegradedCondition(i, conds, now)) == []
    ensures EventsFor(Degraded, i, conds, now) == []
  {
  }

  method AddRollUps(b: Builder, i: Inputs, conds: seq<Condition>, now: Time)
    requires Covers(b, [DatabaseReady], i, conds, now) && b.requeueAfter == 0
    modifies b
    ensures Covers(b, [DatabaseReady, Reconciling, Ready, Degraded], i, conds, now)
    ensures b.requeueAfter
         == if !ChangeDropped(i, conds) && !IsReady(i.service.ready) then NOT_READY_REQUEUE
            else if i.revision == NotFound then NOT_READY_REQUEUE else 0
  {
    hide Removals, Sets, Events, ChangeDropped, IsReady, Decide, EventsFor, Find;
    var dropped := ChangeDropped(i, conds);
    ghost var d := [DatabaseReady];
    b.AddReconciling(i, conds, now, dropped);
    b.AddReadiness(i, conds, now, dropped);
    OneMore(d, Reconciling, i, conds, now);
    OneMore(d + [Reconciling], Ready, i, conds, now);
    OneMore(d + [Reconciling] + [Ready], Degraded, i, conds, now);
    assert d + [Reconciling] + [Ready] + [Degraded] == [DatabaseReady, Reconciling, Ready, Degraded];
    RollUpDecisions(i, conds, now);
    if i.revision == NotFound && b.requeueAfter == 0 {
      b.requeueAfter := NOT_READY_REQUEUE;
    }
  }

  method AddAppConditions(b: Builder, i: Inputs, conds: seq<Condition>, now: Time)
    requires Covers(b, [DatabaseReady, Reconciling, Ready, Degraded], i, conds, now)
    modifies b
    ensures Covers(b, ORDER[..8], i, conds, now)
    ensures b.requeueAfter
         == var r := if i.imageCache.transient && (i.imageCache.enabled || Find(conds, ImageCacheReady).Some?)
                     then Sooner(old(b.requeueAfter), NOT_READY_REQUEUE) else old(b.requeueAfter);
            if PrewarmReportable(i, conds) then Sooner(r, PREWARM_FAILURE_REQUEUE) else r
  {
    hide Removals, Sets, Events, Decide, EventsFor, Find, PrewarmReportable, Sooner;
    ghost var d := [DatabaseReady, Reconciling, Ready, Degraded];
    b.AddRevalidation(i, conds, now);
    OneMore(d, RevalidationDeferred, i, conds, now);
    b.AddEnvCollision(i, conds, now);
    OneMore(d + [RevalidationDeferred], EnvMapCollision, i, conds, now);
    b.AddImageCache(i, conds, now);
    OneMore(d + [RevalidationDeferred] + [EnvMapCollision], ImageCacheReady, i, conds, now);
    b.AddPolicy(i, conds, now);
    OneMore(d + [RevalidationDeferred] + [EnvMapCollision] + [ImageCacheReady], NetworkPolicyEnforced, i, conds, now);
    assert d + [RevalidationDeferred] + [EnvMapCollision] + [ImageCacheReady] + [NetworkPolicyEnforced] == ORDER[..8];
  }

  method AddClusterConditions(b: Builder, i: Inputs, conds: seq<Condition>, now: Time)
    requires Covers(b, ORDER[..8], i, conds, now)
    modifies b
    ensures Covers(b, ORDER, i, conds, now)
    ensures b.requeueAfter
         == var r := if !i.pods.unknown && !i.pods.sticky && i.pods.blocked
                     then Sooner(old(b.requeueAfter), NOT_READY_REQUEUE) else old(b.requeueAfter);
            if i.platform.Some? && i.platform.value.gate.hold == HoldPending then
              Sooner(r, i.platform.value.gate.wait + SLOT_SLACK)
            else r
  {
    hide Removals, Sets, Events, Decide, EventsFor, Find, Sooner;
    ghost var d := ORDER[..8];
    b.AddExposure(i, conds, now);
    OneMore(d, PrivateExposure, i, conds, now);
    b.AddPods(i, conds, now);
    OneMore(d + [PrivateExposure], PodCreationBlocked, i, conds, now);
    b.AddPlatform(i, conds, now);
    OneMore(d + [PrivateExposure] + [PodCreationBlocked], PlatformDefaultsApplied, i, conds, now);
    assert d + [PrivateExposure] + [PodCreationBlocked] + [PlatformDefaultsApplied] == ORDER;
  }

  /** The whole computation, section by section in the order that persists. */
  method ComputeStatusVerdict(i: Inputs, conds: seq<Condition>, now: Time) returns (v: Verdict)
    ensures v == VerdictOf(i, conds, now)
  {
    hide Decide, EventsFor, Removals, Sets, Events, Find, PrewarmReportable, ChangeDropped, IsReady, Sooner;
    var b := new Builder();
    assert Covers(b, [], i, conds, now) by { Nothing(i, conds, now); }
    b.AddDatabase(i, conds, now);
    OneMore([], DatabaseReady, i, conds, now);
    assert [] + [DatabaseReady] == [DatabaseReady];
    AddRollUps(b, i, conds, now);
    AddAppConditions(b, i, conds, now);
    AddClusterConditions(b, i, conds, now);
    v := Verdict(b.removals, b.conditions, b.events, b.requeueAfter);
  }

  lemma {:induction false} Nothing(i: Inputs, conds: seq<Condition>, now: Time)
    ensures Removals([], i, conds, now) == [] && Sets([], i, conds, now) == [] && Events([], i, conds, now) == []
  {
  }

  // ----- Applying -------------------------------------------------------------------------------------

  lemma {:induction false} SetAt(conds: seq<Condition>, k: nat, c: Condition, now: Time)
    requires k <= |conds| && forall j :: 0 <= j < k ==> conds[j].ctype != c.ctype
    ensures k == |conds| ==> SetCondition(conds, c, now) == conds + [Merged(None, c, now)]
    ensures k < |conds| && conds[k].ctype == c.ctype ==>
              SetCondition(conds, c, now) == conds[k := Updated(conds[k], c, now)]
  {
    hide Updated;
    if k > 0 {
      SetAt(conds[1..], k - 1, c, now);
      assert conds == [conds[0]] + conds[1..];
    }
  }

  lemma {:induction false} RemoveSnoc(conds: seq<Condition>, c: Condition, t: CondType)
    ensures RemoveCondition(conds + [c], t) == RemoveCondition(conds, t) + if c.ctype == t then [] else [c]
  {
    if |conds| > 0 {
      assert (conds + [c])[1..] == conds[1..] + [c];
      RemoveSnoc(conds[1..], c, t);
    }
  }

  /** One app's status, and the events emitted for it. */
  class StatusWriter {
    var conditions: seq<Condition>
    var emitted: seq<Event>

    constructor ()
      ensures conditions == [] && emitted == []
    {
      conditions, emitted := [], [];
    }

    method SetStatusCondition(c: Condition, now: Time)
      modifies this`conditions
      ensures conditions == SetCondition(old(conditions), c, now)
    {
      var k := 0;
      while k < |conditions| && conditions[k].ctype != c.ctype
        invariant 0 <= k <= |conditions| && conditions == old(conditions)
        invariant forall j :: 0 <= j < k ==> conditions[j].ctype != c.ctype
      {
        k := k + 1;
      }
      SetAt(conditions, k, c, now);
      if k == |conditions| {
        conditions := conditions + [if c.lastTransition == 0 then c.(lastTransition := now) else c];
      } else {
        var transition := conditions[k].lastTransition;
        if conditions[k].status != c.status {
          transition := if c.lastTransition != 0 then c.lastTransition else now;
        }
        conditions := conditions[k := conditions[k].(status := c.status, reason := c.reason, message := c.message,
                                                     observedGeneration := c.observedGeneration,
                                                     lastTransition := transition)];
      }
    }

    method RemoveStatusCondition(t: CondType)
      modifies this`conditions
      ensures conditions == RemoveCondition(old(conditions), t)
    {
      var kept, k := [], 0;
      while k < |conditions|
        invariant 0 <= k <= |conditions| && conditions == old(conditions)
        invariant kept == RemoveCondition(conditions[..k], t)
      {
        assert conditions[..k + 1] == conditions[..k] + [conditions[k]];
        RemoveSnoc(conditions[..k], conditions[k], t);
        if conditions[k].ctype != t {
          kept := kept + [conditions[k]];
        }
        k := k + 1;
      }
      assert conditions[..k] == conditions;
      conditions := kept;
    }

    /**
    Emits, removes, sets in order, and writes only what differs from the status observed at the top of
    the pass; restUnchanged says whether the rest of the status is as it was observed.
     */
    method ApplyStatusVerdict(observed: seq<Condition>, restUnchanged: bool, v: Verdict, now: Time) returns (written: bool)
      modifies this
      ensures emitted == old(emitted) + v.events
      ensures conditions == Applied(old(conditions), v, now)
      ensures written <==> conditions != observed || !restUnchanged
    {
      hide SetCondition, RemoveCondition;
      for k := 0 to |v.events|
        invariant emitted == old(emitted) + v.events[..k] && conditions == old(conditions)
      {
        emitted := emitted + [v.events[k]];
      }
      assert v.events[..|v.events|] == v.events;
      for k := 0 to |v.removals|
        invariant conditions == RemoveAll(old(conditions), v.removals[..k])
        invariant emitted == old(emitted) + v.events
      {
        RemoveStatusCondition(v.removals[k]);
        assert v.removals[..k + 1][..k] == v.removals[..k];
      }
      assert v.removals[..|v.removals|] == v.removals;
      ghost var base := conditions;
      for k := 0 to |v.sets|
        invariant conditions == SetAll(base, v.sets[..k], now)
        invariant emitted == old(emitted) + v.events
      {
        SetStatusCondition(v.sets[k], now);
        assert v.sets[..k + 1][..k] == v.sets[..k];
      }
      assert v.sets[..|v.sets|] == v.sets;
      written := !(conditions == observed && restUnchanged);
    }
  }
}
