/**
What each condition of a NextApp says once a verdict has been applied, in terms of what the pass
observed: the laws a reader of the status relies on.
 */
module VerdictLaws {
  import opened Wrappers
  import opened StatusVerdict

  /** The condition of type t that a verdict computed at at leaves when it is applied at now. */
  function Left(t: CondType, i: Inputs, conds: seq<Condition>, at: Time, now: Time): Option<Condition> {
    Find(Applied(conds, VerdictOf(i, conds, at), now), t)
  }

  predicate Says(c: Option<Condition>, i: Inputs, status: CondStatus, reason: Reason, message: Message) {
    c.Some? && c.value.status == status && c.value.reason == reason && c.value.message == message
    && c.value.observedGeneration == i.generation
  }

  lemma {:induction false} LeftIs(t: CondType, i: Inputs, conds: seq<Condition>, at: Time, now: Time)
    requires t in ORDER
    ensures Left(t, i, conds, at, now) == Outcome(t, i, conds, at, now)
    ensures Find(conds, t).Some? ==> Find(conds, t).value.ctype == t
  {
    hide Find, Applied, VerdictOf, Outcome;
    FindAfterVerdict(i, conds, at, now, t);
    FindType(conds, t);
  }

  // ----- Ready, Degraded and Reconciling -------------------------------------------------------------------

  /** A change of the app's own spec that an invalid merge holds back. */
  predicate HeldBack(i: Inputs, conds: seq<Condition>) {
    var c := Find(conds, Reconciling);
    i.platform.Some? && i.platform.value.gate.hold.HoldInvalid? && (c.Some? ==> c.value.observedGeneration != i.generation)
  }

  predicate Serving(i: Inputs) { i.service.ready.Some? && i.service.ready.value.status == IsTrue }

  /** Not True for two minutes or more. */
  predicate LongDown(c: Option<ServiceCondition>, at: Time) {
    c.Some? && c.value.status != IsTrue && c.value.transition != 0 && at >= c.value.transition + 120_000_000_000
  }

  predicate PinGone(i: Inputs, at: Time) {
    i.revision == NotFound && (LongDown(i.service.ready, at) || LongDown(i.service.routesReady, at))
  }

  predicate NoIngress(i: Inputs, at: Time) {
    || (LongDown(i.service.ready, at) && i.service.ready.value.reason == "IngressNotConfigured")
    || (LongDown(i.service.routesReady, at) && i.service.routesReady.value.reason == "IngressNotConfigured")
  }

  /** A pin found missing before, which this pass could not look up again. */
  predicate PinUnread(i: Inputs, conds: seq<Condition>) {
    var c := Find(conds, Ready);
    i.revision == Inconclusive && c.Some? && c.value.reason == PinnedRevisionNotFound
  }

  function KnativeReason(i: Inputs): string {
    match i.service.ready
    case Some(c) => if c.reason == "" then "Pending" else c.reason
    case None => "Pending"
  }

  function KnativeMessage(i: Inputs): string {
    match i.service.ready
    case Some(c) => if c.text == "" then "Knative Service has not reported Ready yet" else c.text
    case None => "Knative Service has not reported Ready yet"
  }

  /** Reconciling is True for a change held back only, and then keeps the generation last reconciled. */
  lemma {:induction false} ReconcilingLaw(i: Inputs, conds: seq<Condition>, at: Time, now: Time)
    ensures var c, prev := Left(Reconciling, i, conds, at, now), Find(conds, Reconciling);
            && (!HeldBack(i, conds) ==> Says(c, i, IsFalse, ReconcileSuccess, ReconciliationComplete))
            && (HeldBack(i, conds) ==>
                  && c.Some? && c.value.status == IsTrue && c.value.reason == EffectiveSpecInvalid
                  && c.value.message == ChangeHeld(i.generation, i.platform.value.gate.field, i.platform.value.gate.detail)
                  && c.value.observedGeneration == if prev.Some? then prev.value.observedGeneration else 0)
  {
    hide Find, Applied, VerdictOf;
    LeftIs(Reconciling, i, conds, at, now);
  }

  lemma {:induction false} Decided(
    t: CondType, i: Inputs, conds: seq<Condition>, at: Time, now: Time, status: CondStatus, reason: Reason, message: Message)
    requires t in ORDER && Decide(t, i, conds, at) == Set(Make(i, t, status, reason, message))
    ensures Says(Left(t, i, conds, at, now), i, status, reason, message)
  {
    hide Find, Applied, VerdictOf, Decide;
    LeftIs(t, i, conds, at, now);
  }

  /** Ready is True and Degraded False for an app that serves and has no change held back. */
  lemma {:induction false} ServingLaw(i: Inputs, conds: seq<Condition>, at: Time, now: Time)
    requires Serving(i) && !HeldBack(i, conds)
    ensures Says(Left(Ready, i, conds, at, now), i, IsTrue, ReconcileSuccess, ServiceIsReady)
    ensures Says(Left(Degraded, i, conds, at, now), i, IsFalse, ReconcileSuccess, NoErrors)
  {
    hide Left, Says, Diagnose, ChangeDropped, HeldBack, DiagnosedReason, DiagnosedMessage, ServiceReason, ServiceText;
    HeldIsDropped(i, conds);
    Decided(Ready, i, conds, at, now, IsTrue, ReconcileSuccess, ServiceIsReady);
    Decided(Degraded, i, conds, at, now, IsFalse, ReconcileSuccess, NoErrors);
  }

  /** A change held back is what both report, with the reason the previous generation does not serve if it does not. */
  lemma {:induction false} HeldLaw(i: Inputs, conds: seq<Condition>, at: Time, now: Time)
    requires HeldBack(i, conds)
    ensures var gate := i.platform.value.gate;
            var m := ChangeNotApplied(i.generation, gate.field, gate.detail, if Serving(i) then None else Some(KnativeReason(i)));
            && Says(Left(Ready, i, conds, at, now), i, IsFalse, EffectiveSpecInvalid, m)
            && Says(Left(Degraded, i, conds, at, now), i, IsTrue, EffectiveSpecInvalid, m)
  {
    hide Left, Says, Diagnose, ChangeDropped, DiagnosedReason, DiagnosedMessage, ServiceReason, KnativeReason;
    var gate := i.platform.value.gate;
    var m := ChangeNotApplied(i.generation, gate.field, gate.detail, if Serving(i) then None else Some(KnativeReason(i)));
    HeldIsDropped(i, conds);
    KnativeSaid(i);
    Decided(Ready, i, conds, at, now, IsFalse, EffectiveSpecInvalid, m);
    Decided(Degraded, i, conds, at, now, IsTrue, EffectiveSpecInvalid, m);
  }

  /** What is said of an app that does not serve: the reason and message of Ready, and those of Degraded. */
  datatype Story = Story(ready: Reason, readyText: Message, degraded: Reason, degradedText: Message)

  function Both(reason: Reason, message: Message): Story { Story(reason, message, reason, message) }

  /** The most specific diagnosis comes first. */
  function Explanation(i: Inputs, conds: seq<Condition>, at: Time): Story {
    if PinUnread(i, conds) then Both(PinnedRevisionNotFound, Find(conds, Ready).value.message)
    else if PinGone(i, at) then Both(PinnedRevisionNotFound, PinMissing(i.pinnedRevision, i.namespace, i.name))
    else if NoIngress(i, at) then Both(IngressNotProgrammed, IngressStalled)
    else
      Story(KnativeServiceNotReady, ServiceNotReady(KnativeReason(i), KnativeMessage(i)),
            Reported(KnativeReason(i)), KnativeText(KnativeMessage(i)))
  }

  /** An app that does not serve is not Ready and Degraded, for the reason that explains it best. */
  lemma {:induction false} DiagnosisLaw(i: Inputs, conds: seq<Condition>, at: Time, now: Time)
    requires !Serving(i) && !HeldBack(i, conds)
    ensures var story := Explanation(i, conds, at);
            && Says(Left(Ready, i, conds, at, now), i, IsFalse, story.ready, story.readyText)
            && Says(Left(Degraded, i, conds, at, now), i, IsTrue, story.degraded, story.degradedText)
  {
    hide Left, Says, Find, Diagnose, ServiceReason, ServiceText, KnativeReason, KnativeMessage, PinGone, NoIngress,
         PinUnread, ChangeDropped, HeldBack;
    HeldIsDropped(i, conds);
    KnativeSaid(i);
    Diagnosed(i, conds, at);
    var story := Explanation(i, conds, at);
    Decided(Ready, i, conds, at, now, IsFalse, story.ready, story.readyText);
    Decided(Degraded, i, conds, at, now, IsTrue, story.degraded, story.degradedText);
  }

  lemma {:induction false} HeldIsDropped(i: Inputs, conds: seq<Condition>)
    ensures ChangeDropped(i, conds) <==> HeldBack(i, conds)
  {
    hide Find;
  }

  lemma {:induction false} KnativeSaid(i: Inputs)
    ensures ServiceReason(i) == KnativeReason(i) && ServiceText(i) == KnativeMessage(i)
  {
  }

  lemma {:induction false} Diagnosed(i: Inputs, conds: seq<Condition>, at: Time)
    ensures PinUnread(i, conds) ==> Find(conds, Ready).Some? && Diagnose(i, conds, at) == KeptPin(Find(conds, Ready).value.message)
    ensures !PinUnread(i, conds) && PinGone(i, at) ==> Diagnose(i, conds, at) == MissingPin
    ensures !PinUnread(i, conds) && !PinGone(i, at) && NoIngress(i, at) ==> Diagnose(i, conds, at) == StalledIngress
    ensures !PinUnread(i, conds) && !PinGone(i, at) && !NoIngress(i, at) ==> Diagnose(i, conds, at) == PlainNotReady
  {
    hide Find;
  }

  // ----- The other eight ---------------------------------------------------------------------------------------

  lemma {:induction false} DatabaseLaw(i: Inputs, conds: seq<Condition>, at: Time, now: Time)
    ensures var c := Left(DatabaseReady, i, conds, at, now);
            && (c.Some? <==> i.database.Some?)
            && (c.Some? ==> Says(c, i, IsTrue, Bound, BoundSecret(i.database.value)))
  {
    hide Find, Applied, VerdictOf;
    LeftIs(DatabaseReady, i, conds, at, now);
  }

  /** Deferred exactly when the queue is kafka. */
  lemma {:induction false} RevalidationLaw(i: Inputs, conds: seq<Condition>, at: Time, now: Time)
    ensures var c := Left(RevalidationDeferred, i, conds, at, now);
            && c.Some? && (c.value.status == IsTrue <==> i.kafkaQueue)
            && (i.kafkaQueue && i.provisionKafkaSource ==> Says(c, i, IsTrue, ProvisionKafkaSourceInert, KafkaInert))
            && (i.kafkaQueue && !i.provisionKafkaSource ==> Says(c, i, IsTrue, ConsumerNotProvisioned, KafkaDeferred))
            && (!i.kafkaQueue ==> Says(c, i, IsFalse, NotDeferred, KafkaNotDeferred))
  {
    hide Find, Applied, VerdictOf;
    LeftIs(RevalidationDeferred, i, conds, at, now);
  }

  /** Colliding exactly when one of the three lists holds a name; what is grandfathered is named first. */
  lemma {:induction false} CollisionLaw(i: Inputs, conds: seq<Condition>, at: Time, now: Time)
    ensures var c := Left(EnvMapCollision, i, conds, at, now);
            var wins, kept, exempt := i.collision.operatorWins, i.collision.grandfathered, i.collision.exempt;
            && c.Some? && (c.value.status == IsTrue <==> |wins| + |kept| + |exempt| > 0)
            && (c.value.status == IsFalse <==> |wins| + |kept| + |exempt| == 0)
            && (c.value.reason == EnvMapUserOverride <==> |kept| > 0)
            && (c.value.reason == EnvVarIgnored <==> |wins| > 0 && |kept| == 0)
            && (c.value.reason == EnvMapExpectedOverride <==> |exempt| > 0 && |wins| == |kept| == 0)
            && (c.value.reason == NoCollision <==> c.value.status == IsFalse)
            && c.value.message == (if c.value.status == IsTrue then Collides(wins, kept, exempt) else NothingCollides)
            && c.value.observedGeneration == i.generation
  {
    hide Find, Applied, VerdictOf;
    LeftIs(EnvMapCollision, i, conds, at, now);
  }

  /** Cached exactly when prewarming is on, nothing failed and every node that should have the image has it. */
  lemma {:induction false} ImageCacheLaw(i: Inputs, conds: seq<Condition>, at: Time, now: Time)
    ensures var c, ic := Left(ImageCacheReady, i, conds, at, now), i.imageCache;
            && (c.Some? <==> ic.enabled || (ic.error != "" && Find(conds, ImageCacheReady).Some?))
            && (c.Some? ==>
                  && (c.value.status == IsTrue <==> ic.enabled && ic.error == "" && ic.desired > 0 && ic.ready == ic.desired)
                  && c.value.status != IsUnknown
                  && (c.value.status == IsTrue ==> Says(c, i, IsTrue, Cached, PrewarmCached(ic.desired)))
                  && (ic.enabled && ic.error == "" && c.value.status == IsFalse ==>
                        Says(c, i, IsFalse, Pulling, PrewarmPulling(ic.ready, ic.desired)))
                  && (ic.enabled && ic.error != "" ==>
                        Says(c, i, IsFalse, ReconcileFailed, PrewarmFailure(true, ic.error, ic.ready, ic.desired)))
                  && (!ic.enabled ==> Says(c, i, IsFalse, CleanupFailed, PrewarmFailure(false, ic.error, 0, 0))))
  {
    hide Find, Applied, VerdictOf;
    LeftIs(ImageCacheReady, i, conds, at, now);
  }

  /** Present exactly when a policy is asked for; True for a detected enforcer, False for none, Unknown otherwise. */
  lemma {:induction false} PolicyLaw(i: Inputs, conds: seq<Condition>, at: Time, now: Time)
    ensures var c, evidence := Left(NetworkPolicyEnforced, i, conds, at, now), i.policy.evidence;
            && (c.Some? <==> i.policy.enabled)
            && (c.Some? ==>
                  && (c.value.status == IsTrue <==> i.policy.verdict == Enforced)
                  && (c.value.status == IsFalse <==> i.policy.verdict == LikelyUnenforced)
                  && (c.value.status == IsTrue ==> Says(c, i, IsTrue, PolicyControllerDetected, AgentRunning(evidence)))
                  && (c.value.status == IsFalse ==> Says(c, i, IsFalse, NoPolicyController, PolicyInert(evidence)))
                  && (c.value.status == IsUnknown ==> Says(c, i, IsUnknown, EnforcementUnknown, PolicyUnclear(evidence))))
  {
    hide Find, Applied, VerdictOf;
    LeftIs(NetworkPolicyEnforced, i, conds, at, now);
  }

  /** Present exactly when a private app is seen to be published; an unreadable list changes nothing. */
  lemma {:induction false} ExposureLaw(i: Inputs, conds: seq<Condition>, at: Time, now: Time)
    ensures var c := Left(PrivateExposure, i, conds, at, now);
            && (i.exposure.unknown ==> c == Find(conds, PrivateExposure))
            && (!i.exposure.unknown ==>
                  && (c.Some? <==> i.exposure.isPrivate && |i.exposure.mappings| > 0)
                  && (c.Some? ==> Says(c, i, IsTrue, DomainMappingPublishesPrivateApp, Exposed(i.exposure.mappings))))
  {
    hide Find, Applied, VerdictOf;
    LeftIs(PrivateExposure, i, conds, at, now);
  }

  predicate SameRefusal(prev: Option<Condition>, pods: PodCreation) {
    prev.Some? && prev.value.reason == Reported(pods.reason)
    && prev.value.message.CannotCreatePods? && prev.value.message.revision == pods.revision
  }

  /**
  Present exactly when pods are seen to be refused; an unreadable or sticky read changes nothing, and the
  same refusal of the same revision keeps the message it was first reported with.
   */
  lemma {:induction false} PodsLaw(i: Inputs, conds: seq<Condition>, at: Time, now: Time)
    ensures var c, prev, pods := Left(PodCreationBlocked, i, conds, at, now), Find(conds, PodCreationBlocked), i.pods;
            && (pods.unknown || pods.sticky ==> c == prev)
            && (!pods.unknown && !pods.sticky ==>
                  && (c.Some? <==> pods.blocked)
                  && (c.Some? ==>
                        && Says(c, i, IsTrue, Reported(pods.reason), c.value.message)
                        && c.value.message.CannotCreatePods? && c.value.message.revision == pods.revision
                        && (!SameRefusal(prev, pods) ==> c.value.message.rejection == pods.detail)
                        && (SameRefusal(prev, pods) ==> c.value.message == prev.value.message)))
  {
    hide Find, Applied, VerdictOf;
    LeftIs(PodCreationBlocked, i, conds, at, now);
  }

  /** False for a merge that is invalid or a platform not accepted, Unknown for an app that is queued, True otherwise. */
  lemma {:induction false} PlatformLaw(i: Inputs, conds: seq<Condition>, at: Time, now: Time)
    requires i.platform.Some?
    ensures var c, pd := Left(PlatformDefaultsApplied, i, conds, at, now), i.platform.value;
            var free := pd.gate.hold == NoHold;
            var accepted := free && !pd.crdMissing && pd.present && pd.notAccepted == "";
            && c.Some?
            && (c.value.status == IsUnknown <==> pd.gate.hold == HoldPending)
            && (c.value.status == IsFalse <==>
                  pd.gate.hold == HoldInvalid || (free && !pd.crdMissing && pd.present && pd.notAccepted != ""))
            && (pd.gate.hold == HoldInvalid ==> Says(c, i, IsFalse, EffectiveSpecInvalid, MergedSpecInvalid(pd.gate.field, pd.gate.detail)))
            && (pd.gate.hold == HoldPending ==> Says(c, i, IsUnknown, RolloutPending, QueuedBehindRate(pd.perMinute)))
            && (free && pd.crdMissing ==> Says(c, i, IsTrue, NoPlatformCRD, CrdAbsent))
            && (free && !pd.crdMissing && !pd.present ==> Says(c, i, IsTrue, NoPlatform, PlatformAbsent))
            && (free && c.value.status == IsFalse ==> Says(c, i, IsFalse, PlatformNotAccepted, PlatformRejected(pd.notAccepted)))
            && (accepted && |pd.inherited| > 0 ==>
                  Says(c, i, IsTrue, Inherited, PlatformSupplied(pd.generation, pd.profile, pd.inherited)))
            && (accepted && |pd.inherited| == 0 ==>
                  Says(c, i, IsTrue, NothingToInherit, PlatformSuppliesNothing(pd.generation, pd.profile)))
  {
    hide Find, Applied, VerdictOf;
    LeftIs(PlatformDefaultsApplied, i, conds, at, now);
  }

  // ----- Transition times and the order of the list ---------------------------------------------------------------

  /** A condition's transition time moves, to the time of the pass, exactly when its status does. */
  lemma {:induction false} TransitionLaw(t: CondType, i: Inputs, conds: seq<Condition>, at: Time, now: Time)
    requires t in ORDER
    ensures var c, prev := Left(t, i, conds, at, now), Find(conds, t);
            c.Some? && c != prev ==>
              c.value.lastTransition == if prev.Some? && prev.value.status == c.value.status then prev.value.lastTransition else now
  {
    hide Find, Applied, VerdictOf, Diagnose, ServiceReason, ServiceText, ChangeDropped;
    LeftIs(t, i, conds, at, now);
    DecidesFresh(t, i, conds, at);
  }

  /** A decision either carries the condition it found or leaves the transition time open. */
  lemma {:induction false} DecidesFresh(t: CondType, i: Inputs, conds: seq<Condition>, at: Time)
    ensures var d := Decide(t, i, conds, at);
            d.Set? ==> Find(conds, t) == Some(d.c) || d.c.lastTransition == 0
  {
    hide Find, Diagnose, ServiceReason, ServiceText, ChangeDropped;
  }

  /** Conditions the verdict does not own are left alone. */
  lemma {:induction false} OthersLaw(name: string, i: Inputs, conds: seq<Condition>, at: Time, now: Time)
    ensures Left(OtherType(name), i, conds, at, now) == Find(conds, OtherType(name))
  {
    hide Find, RemoveAll, SetAll, Removals, Sets, Distinct;
    OrderDistinct();
    NotOrdered(name);
    FindAfterRemovals(conds, ORDER, i, conds, at, OtherType(name));
    FindAfterSets(RemoveAll(conds, Removals(ORDER, i, conds, at)), ORDER, i, conds, at, now, OtherType(name));
  }

  lemma {:induction false} NotOrdered(name: string)
    ensures OtherType(name) !in ORDER
  {
    assert forall k :: 0 <= k < |ORDER| ==> Position(ORDER[k]) == k;
  }

  predicate InOrder(cs: seq<Condition>) { forall j, k :: 0 <= j < k < |cs| ==> Position(cs[j].ctype) < Position(cs[k].ctype) }

  /** New conditions enter the list in the one order in which they persist. */
  lemma {:induction false} OrderLaw(i: Inputs, conds: seq<Condition>, at: Time)
    ensures InOrder(VerdictOf(i, conds, at).sets)
    ensures forall c :: c in VerdictOf(i, conds, at).sets ==> c.ctype in ORDER
  {
    hide Sets;
    assert forall j :: 0 <= j < |ORDER| ==> Position(ORDER[j]) == j;
    SetsInOrder(ORDER, i, conds, at);
  }

  lemma {:induction false} SetsInOrder(ts: seq<CondType>, i: Inputs, conds: seq<Condition>, at: Time)
    requires forall j :: 0 <= j < |ts| ==> Position(ts[j]) == j
    ensures InOrder(Sets(ts, i, conds, at))
    ensures forall c :: c in Sets(ts, i, conds, at) ==> c.ctype in ts
  {
    hide Decide;
    if |ts| > 0 {
      var n := |ts| - 1;
      var front := Sets(ts[..n], i, conds, at);
      SetsInOrder(ts[..n], i, conds, at);
      DecidesItsType(ts[n], i, conds, at);
      forall j | 0 <= j < |front|
        ensures Position(front[j].ctype) < n
      {
        assert front[j] in front;
        var k :| 0 <= k < n && ts[..n][k] == front[j].ctype;
      }
      assert Sets(ts, i, conds, at) == front + SettingOf(Decide(ts[n], i, conds, at));
    }
  }

  // ----- Events --------------------------------------------------------------------------------------------------------

  /** A condition somebody should be told about. */
  predicate Alarming(c: Option<Condition>) {
    c.Some? &&
    match c.value.ctype
    case Ready => c.value.status == IsFalse && c.value.reason in {PinnedRevisionNotFound, IngressNotProgrammed}
    case RevalidationDeferred => c.value.status == IsTrue && c.value.reason == ProvisionKafkaSourceInert
    case EnvMapCollision => c.value.status == IsTrue
    case ImageCacheReady => c.value.status == IsFalse && c.value.reason in {ReconcileFailed, CleanupFailed}
    case NetworkPolicyEnforced => c.value.status == IsFalse && c.value.reason == NoPolicyController
    case PrivateExposure => c.value.status == IsTrue
    case PodCreationBlocked => c.value.status == IsTrue
    case PlatformDefaultsApplied => c.value.status == IsFalse && c.value.reason in {EffectiveSpecInvalid, PlatformNotAccepted}
    case _ => false
  }

  /** The alarm that was there already. */
  predicate Known(prev: Option<Condition>, c: Condition) {
    prev.Some? &&
    match c.ctype
    case EnvMapCollision => prev.value.message == c.message
    case ImageCacheReady => prev.value.status == c.status && prev.value.reason == c.reason
    case PrivateExposure => true
    case PodCreationBlocked => prev.value.reason == c.reason && prev.value.message == c.message
    case PlatformDefaultsApplied => prev.value.reason == c.reason && prev.value.message == c.message
    case _ => prev.value.reason == c.reason
  }

  /** An event warns unless the collision is one that is expected, and is named after the condition's reason. */
  function Alert(c: Condition): Event {
    Event(c.reason != EnvMapExpectedOverride, if c.ctype == ImageCacheReady then ImagePrewarmFailed else c.reason, c.message)
  }

  lemma {:induction false} ReadyEvents(i: Inputs, conds: seq<Condition>, at: Time, now: Time)
    ensures EventsFor(Ready, i, conds, at) == News(Ready, i, conds, at, now)
  {
    hide Find, Applied, VerdictOf, PinStalled, IngressStalls, ChangeDropped, IsReady, ServiceReason, ServiceText;
    LeftIs(Ready, i, conds, at, now);
  }

  lemma {:induction false} RollUpEvents(t: CondType, i: Inputs, conds: seq<Condition>, at: Time, now: Time)
    requires t in {DatabaseReady, Reconciling, Degraded, RevalidationDeferred}
    ensures EventsFor(t, i, conds, at) == News(t, i, conds, at, now)
  {
    hide Find, Applied, VerdictOf, Diagnose, ChangeDropped, IsReady, ServiceReason, ServiceText;
    LeftIs(t, i, conds, at, now);
  }

  lemma {:induction false} AppEvents(t: CondType, i: Inputs, conds: seq<Condition>, at: Time, now: Time)
    requires t in {EnvMapCollision, ImageCacheReady, NetworkPolicyEnforced}
    ensures EventsFor(t, i, conds, at) == News(t, i, conds, at, now)
  {
    hide Find, Applied, VerdictOf, Diagnose, ChangeDropped, IsReady, ServiceReason, ServiceText;
    LeftIs(t, i, conds, at, now);
  }

  lemma {:induction false} ClusterEvents(t: CondType, i: Inputs, conds: seq<Condition>, at: Time, now: Time)
    requires t in {PrivateExposure, PodCreationBlocked, PlatformDefaultsApplied}
    ensures EventsFor(t, i, conds, at) == News(t, i, conds, at, now)
  {
    hide Find, Applied, VerdictOf, Diagnose, ChangeDropped, IsReady;
    LeftIs(t, i, conds, at, now);
  }

  lemma {:induction false} TypeEvents(t: CondType, i: Inputs, conds: seq<Condition>, at: Time, now: Time)
    requires t in ORDER
    ensures EventsFor(t, i, conds, at) == News(t, i, conds, at, now)
  {
    hide EventsFor, News;
    if t == Ready {
      ReadyEvents(i, conds, at, now);
    } else if t in {PrivateExposure, PodCreationBlocked, PlatformDefaultsApplied} {
      ClusterEvents(t, i, conds, at, now);
    } else if t in {DatabaseReady, Reconciling, Degraded, RevalidationDeferred} {
      RollUpEvents(t, i, conds, at, now);
    } else {
      AppEvents(t, i, conds, at, now);
    }
  }

  /** What is told of a type: its alarm, unless it was known. */
  function News(t: CondType, i: Inputs, conds: seq<Condition>, at: Time, now: Time): seq<Event> {
    var c := Left(t, i, conds, at, now);
    if Alarming(c) && !Known(Find(conds, t), c.value) then [Alert(c.value)] else []
  }

  lemma {:induction false} EventFrom(ts: seq<CondType>, i: Inputs, conds: seq<Condition>, at: Time, e: Event)
    ensures e in Events(ts, i, conds, at) <==> exists t :: t in ts && e in EventsFor(t, i, conds, at)
  {
    hide EventsFor;
    if |ts| > 0 {
      var front, last := ts[..|ts| - 1], ts[|ts| - 1];
      EventFrom(front, i, conds, at, e);
      assert forall t :: t in ts <==> t in front || t == last;
    }
  }

  /** The events of a verdict are the alarms it leaves that were not known before: each warning has its condition. */
  lemma {:induction false} EventsLaw(i: Inputs, conds: seq<Condition>, at: Time, now: Time, e: Event)
    ensures e in VerdictOf(i, conds, at).events <==> exists t :: t in ORDER && e in News(t, i, conds, at, now)
  {
    hide Events, EventsFor, News, Sets, Removals, Left;
    EventFrom(ORDER, i, conds, at, e);
    forall t | t in ORDER
      ensures EventsFor(t, i, conds, at) == News(t, i, conds, at, now)
    {
      TypeEvents(t, i, conds, at, now);
    }
  }

  // ----- When to look again ------------------------------------------------------------------------------------------------

  /** A reason to look again d from now. */
  predicate Calls(i: Inputs, conds: seq<Condition>, d: Duration) {
    var ic := i.imageCache;
    var cacheOwned := ic.enabled || Find(conds, ImageCacheReady).Some?;
    || (d == 30_000_000_000 && !Serving(i) && !HeldBack(i, conds))
    || (d == 30_000_000_000 && i.revision == NotFound)
    || (d == 30_000_000_000 && ic.transient && cacheOwned)
    || (d == 120_000_000_000 && ic.error != "" && cacheOwned)
    || (d == 30_000_000_000 && i.pods.blocked && !i.pods.unknown && !i.pods.sticky)
    || (i.platform.Some? && i.platform.value.gate.hold == HoldPending && d == i.platform.value.gate.wait + 500_000_000)
  }

  /** The requeue is the soonest of the reasons there are, and none when there is none. */
  lemma {:induction false} RequeueLaw(i: Inputs, conds: seq<Condition>, at: Time)
    requires i.platform.Some? ==> i.platform.value.gate.wait >= 0
    ensures var r := VerdictOf(i, conds, at).requeueAfter;
            if exists d :: Calls(i, conds, d) then Calls(i, conds, r) && forall d :: Calls(i, conds, d) ==> r <= d
            else r == 0
  {
    hide Find, HeldBack, Serving, ChangeDropped, IsReady, Removals, Sets, Events;
    HeldIsDropped(i, conds);
    ServingIsReady(i);
    var r := RequeueAfter(i, conds);
    if r == 0 {
      assert forall d :: !Calls(i, conds, d);
    } else {
      assert Calls(i, conds, r);
    }
  }

  lemma {:induction false} ServingIsReady(i: Inputs)
    ensures IsReady(i.service.ready) <==> Serving(i)
  {
  }
}
