/**
The operator's status verdict for one NextApp: from the app, its previous conditions and what
one pass observed, the conditions to set and remove, the events to emit and the requeue.

The central result is that a verdict is a fixpoint: computing and applying it again on
unchanged inputs leaves the ordered condition list, transition times included, exactly as it
is and emits nothing, so the write guard fires and an idle app stays idle.

Messages are kept as the facts they are printed from; two messages are the same when those are.
 */
module StatusVerdict {
  import opened Wrappers

  type Time = int
  type Duration = int

  const SECOND: Duration := 1_000_000_000
  const MINUTE: Duration := 60 * SECOND
  const NOT_READY_REQUEUE: Duration := 30 * SECOND
  const PREWARM_FAILURE_REQUEUE: Duration := 2 * MINUTE
  const STALL_WINDOW: Duration := 2 * MINUTE
  const SLOT_SLACK: Duration := 500_000_000

  // ----- Conditions -----------------------------------------------------------------------------

  datatype CondType =
    | DatabaseReady | Reconciling | Ready | Degraded | RevalidationDeferred | EnvMapCollision
    | ImageCacheReady | NetworkPolicyEnforced | PrivateExposure | PodCreationBlocked
    | PlatformDefaultsApplied
    | OtherType(name: string)

  datatype CondStatus = IsTrue | IsFalse | IsUnknown

  datatype Reason =
    | Bound | ReconcileSuccess | EffectiveSpecInvalid | KnativeServiceNotReady
    | PinnedRevisionNotFound | IngressNotProgrammed
    | ConsumerNotProvisioned | ProvisionKafkaSourceInert | NotDeferred
    | EnvVarIgnored | EnvMapUserOverride | EnvMapExpectedOverride | NoCollision
    | ReconcileFailed | CleanupFailed | ImagePrewarmFailed | Cached | Pulling
    | PolicyControllerDetected | NoPolicyController | EnforcementUnknown
    | DomainMappingPublishesPrivateApp
    | NoPlatformCRD | NoPlatform | Inherited | NothingToInherit | PlatformNotAccepted | RolloutPending
    | InvalidSpec | InvalidImage
    | Reported(text: string)   // taken from Knative or from an admission rejection

  /** Why a merged or an admitted spec is refused. */
  datatype Detail =
    | NoDetail
    | Wall(maxScale: int, poolMax: int, budget: int)
    | RequestAboveLimit(resource: string, request: string, limit: string)
    | OtherError(text: string)

  datatype Message =
    | BoundSecret(secret: string)
    | ReconciliationComplete
    | ChangeHeld(generation: int, field: string, detail: Detail)
    | ChangeNotApplied(generation: int, field: string, detail: Detail, previousNotReady: Option<string>)
    | ServiceIsReady
    | NoErrors
    | ServiceNotReady(reason: string, text: string)
    | KnativeText(text: string)
    | PinMissing(revision: string, namespace: string, app: string)
    | IngressStalled
    | KafkaDeferred | KafkaInert | KafkaNotDeferred
    | Collides(operatorWins: seq<string>, grandfathered: seq<string>, exempt: seq<string>)
    | NothingCollides
    | PrewarmFailure(enabled: bool, error: string, ready: int, desired: int)
    | PrewarmCached(desired: int)
    | PrewarmPulling(ready: int, desired: int)
    | AgentRunning(evidence: string) | PolicyInert(evidence: string) | PolicyUnclear(evidence: string)
    | Exposed(mappings: seq<string>)
    | CannotCreatePods(revision: string, rejection: string)
    | MergedSpecInvalid(field: string, detail: Detail)
    | QueuedBehindRate(perMinute: int)
    | CrdAbsent | PlatformAbsent
    | PlatformRejected(error: string)
    | PlatformSupplied(generation: int, profile: string, fields: seq<string>)
    | PlatformSuppliesNothing(generation: int, profile: string)
    | SpecRejected(detail: Detail)
    | SpecUnmet
    | OtherText(text: string)

  /** lastTransition 0 is the zero time: not set by the caller. */
  datatype Condition = Condition(
    ctype: CondType, status: CondStatus, reason: Reason, message: Message,
    observedGeneration: int, lastTransition: Time)

  function Find(conds: seq<Condition>, t: CondType): Option<Condition> {
    if |conds| == 0 then None
    else if conds[0].ctype == t then Some(conds[0])
    else Find(conds[1..], t)
  }

  /** The API machinery's RemoveStatusCondition: drops every condition of the type. */
  function RemoveCondition(conds: seq<Condition>, t: CondType): seq<Condition> {
    if |conds| == 0 then []
    else (if conds[0].ctype == t then [] else [conds[0]]) + RemoveCondition(conds[1..], t)
  }

  /** The API machinery's SetStatusCondition on a condition of the same type. */
  function Updated(prior: Condition, c: Condition, now: Time): Condition {
    Condition(prior.ctype, c.status, c.reason, c.message, c.observedGeneration,
      if prior.status == c.status then prior.lastTransition
      else if c.lastTransition != 0 then c.lastTransition
      else now)
  }

  /** SetStatusCondition: in place when the type is present, appended otherwise. */
  function SetCondition(conds: seq<Condition>, c: Condition, now: Time): seq<Condition> {
    if |conds| == 0 then [c.(lastTransition := if c.lastTransition == 0 then now else c.lastTransition)]
    else if conds[0].ctype == c.ctype then [Updated(conds[0], c, now)] + conds[1..]
    else [conds[0]] + SetCondition(conds[1..], c, now)
  }

  // ----- What one pass observed ------------------------------------------------------------------

  /** A condition of the child Knative Service; transition 0 when it has none. */
  datatype ServiceCondition = ServiceCondition(status: CondStatus, reason: string, text: string, transition: Time)

  datatype ServiceStatus = ServiceStatus(ready: Option<ServiceCondition>, routesReady: Option<ServiceCondition>)

  datatype RevisionCheck = Exists | NotFound | Inconclusive

  datatype ImageCache = ImageCache(enabled: bool, desired: int, ready: int, error: string, transient: bool)

  datatype Enforcement = Enforced | LikelyUnenforced | Unclear

  datatype Policy = Policy(enabled: bool, verdict: Enforcement, evidence: string)

  datatype Collision = Collision(operatorWins: seq<string>, grandfathered: seq<string>, exempt: seq<string>)

  datatype Exposure = Exposure(isPrivate: bool, mappings: seq<string>, unknown: bool)

  datatype PodCreation = PodCreation(blocked: bool, unknown: bool, sticky: bool, reason: string, revision: string, detail: string)

  datatype Hold = NoHold | HoldInvalid | HoldPending

  /** Why a pass does not write the Knative Service; wait is for HoldPending. */
  datatype Gate = Gate(hold: Hold, field: string, detail: Detail, wait: Duration)

  datatype PlatformState = PlatformState(
    crdMissing: bool, present: bool, notAccepted: string, generation: int, profile: string,
    inherited: seq<string>, perMinute: int, gate: Gate)

  datatype Inputs = Inputs(
    generation: int, namespace: string, name: string,
    database: Option<string>,
    kafkaQueue: bool, provisionKafkaSource: bool,
    pinnedRevision: string,
    service: ServiceStatus,
    revision: RevisionCheck,
    imageCache: ImageCache,
    policy: Policy,
    collision: Collision,
    exposure: Exposure,
    pods: PodCreation,
    platform: Option<PlatformState>)

  // ----- Stalls and holds -------------------------------------------------------------------------

  predicate IsReady(c: Option<ServiceCondition>) { c.Some? && c.value.status == IsTrue }

  predicate StalledSince(c: Option<ServiceCondition>, now: Time) {
    c.Some? && c.value.status != IsTrue && c.value.transition != 0 && now - c.value.transition >= STALL_WINDOW
  }

  const INGRESS_NOT_CONFIGURED := "IngressNotConfigured"

  predicate PinStalled(i: Inputs, now: Time) {
    i.revision == NotFound && (StalledSince(i.service.routesReady, now) || StalledSince(i.service.ready, now))
  }

  predicate IngressStall(c: Option<ServiceCondition>, now: Time) {
    StalledSince(c, now) && c.value.reason == INGRESS_NOT_CONFIGURED
  }

  predicate IngressStalls(i: Inputs, now: Time) {
    IngressStall(i.service.routesReady, now) || IngressStall(i.service.ready, now)
  }

  /** The app's own spec moved since the generation its Reconciling condition last recorded. */
  predicate AppTriggered(generation: int, conds: seq<Condition>) {
    var c := Find(conds, Reconciling);
    c.None? || c.value.observedGeneration != generation
  }

  /** A hold-last-good that holds back a change the app itself made. */
  predicate ChangeDropped(i: Inputs, conds: seq<Condition>) {
    i.platform.Some? && i.platform.value.gate.hold == HoldInvalid && AppTriggered(i.generation, conds)
  }

  // ----- The verdict, condition by condition ------------------------------------------------------

  datatype Decision = Keep | Remove | Set(c: Condition)

  function Make(i: Inputs, t: CondType, status: CondStatus, reason: Reason, message: Message): Condition {
    Condition(t, status, reason, message, i.generation, 0)
  }

  function Database(i: Inputs): Decision {
    match i.database
    case Some(secret) => Set(Make(i, DatabaseReady, IsTrue, Bound, BoundSecret(secret)))
    case None => Remove
  }

  function Reconcile(i: Inputs, conds: seq<Condition>): Decision {
    if ChangeDropped(i, conds) then
      var gate := i.platform.value.gate;
      var prev := Find(conds, Reconciling);
      Set(Condition(Reconciling, IsTrue, EffectiveSpecInvalid, ChangeHeld(i.generation, gate.field, gate.detail),
        if prev.Some? then prev.value.observedGeneration else 0, 0))
    else Set(Make(i, Reconciling, IsFalse, ReconcileSuccess, ReconciliationComplete))
  }

  function ServiceReason(i: Inputs): string {
    if i.service.ready.Some? && i.service.ready.value.reason != "" then i.service.ready.value.reason else "Pending"
  }

  function ServiceText(i: Inputs): string {
    if i.service.ready.Some? && i.service.ready.value.text != "" then i.service.ready.value.text
    else "Knative Service has not reported Ready yet"
  }

  function HeldMessage(i: Inputs): Message
    requires i.platform.Some?
  {
    var gate := i.platform.value.gate;
    ChangeNotApplied(i.generation, gate.field, gate.detail,
      if IsReady(i.service.ready) then None else Some(ServiceReason(i)))
  }

  /** Why a service that is not Ready is reported so. */
  datatype Diagnosis = KeptPin(message: Message) | MissingPin | StalledIngress | PlainNotReady

  function Diagnose(i: Inputs, conds: seq<Condition>, now: Time): Diagnosis {
    var prev := Find(conds, Ready);
    if i.revision == Inconclusive && prev.Some? && prev.value.reason == PinnedRevisionNotFound then KeptPin(prev.value.message)
    else if PinStalled(i, now) then MissingPin
    else if IngressStalls(i, now) then StalledIngress
    else PlainNotReady
  }

  function DiagnosedReason(d: Diagnosis): Option<Reason> {
    match d
    case KeptPin(_) => Some(PinnedRevisionNotFound)
    case MissingPin => Some(PinnedRevisionNotFound)
    case StalledIngress => Some(IngressNotProgrammed)
    case PlainNotReady => None
  }

  function DiagnosedMessage(i: Inputs, d: Diagnosis): Message {
    match d
    case KeptPin(m) => m
    case MissingPin => PinMissing(i.pinnedRevision, i.namespace, i.name)
    case StalledIngress => IngressStalled
    case PlainNotReady => ServiceNotReady(ServiceReason(i), ServiceText(i))
  }

  function ReadyCondition(i: Inputs, conds: seq<Condition>, now: Time): Decision {
    if ChangeDropped(i, conds) then Set(Make(i, Ready, IsFalse, EffectiveSpecInvalid, HeldMessage(i)))
    else if IsReady(i.service.ready) then Set(Make(i, Ready, IsTrue, ReconcileSuccess, ServiceIsReady))
    else
      var d := Diagnose(i, conds, now);
      var reason := DiagnosedReason(d);
      Set(Make(i, Ready, IsFalse, if reason.Some? then reason.value else KnativeServiceNotReady, DiagnosedMessage(i, d)))
  }

  function DegradedCondition(i: Inputs, conds: seq<Condition>, now: Time): Decision {
    if ChangeDropped(i, conds) then Set(Make(i, Degraded, IsTrue, EffectiveSpecInvalid, HeldMessage(i)))
    else if IsReady(i.service.ready) then Set(Make(i, Degraded, IsFalse, ReconcileSuccess, NoErrors))
    else
      var d := Diagnose(i, conds, now);
      var reason := DiagnosedReason(d);
      Set(Make(i, Degraded, IsTrue, if reason.Some? then reason.value else Reported(ServiceReason(i)),
        if d.PlainNotReady? then KnativeText(ServiceText(i)) else DiagnosedMessage(i, d)))
  }

  function Revalidation(i: Inputs): Decision {
    if !i.kafkaQueue then Set(Make(i, RevalidationDeferred, IsFalse, NotDeferred, KafkaNotDeferred))
    else if i.provisionKafkaSource then Set(Make(i, RevalidationDeferred, IsTrue, ProvisionKafkaSourceInert, KafkaInert))
    else Set(Make(i, RevalidationDeferred, IsTrue, ConsumerNotProvisioned, KafkaDeferred))
  }

  predicate HasCollision(c: Collision) { c.operatorWins != [] || c.grandfathered != [] || c.exempt != [] }

  function CollisionReason(c: Collision): Reason {
    if c.grandfathered != [] then EnvMapUserOverride
    else if c.operatorWins == [] then EnvMapExpectedOverride
    else EnvVarIgnored
  }

  function CollisionMessage(c: Collision): Message { Collides(c.operatorWins, c.grandfathered, c.exempt) }

  function EnvCollision(i: Inputs): Decision {
    if HasCollision(i.collision) then
      Set(Make(i, EnvMapCollision, IsTrue, CollisionReason(i.collision), CollisionMessage(i.collision)))
    else Set(Make(i, EnvMapCollision, IsFalse, NoCollision, NothingCollides))
  }

  predicate PrewarmReportable(i: Inputs, conds: seq<Condition>) {
    i.imageCache.error != "" && (i.imageCache.enabled || Find(conds, ImageCacheReady).Some?)
  }

  function PrewarmReason(i: Inputs): Reason { if i.imageCache.enabled then ReconcileFailed else CleanupFailed }

  function PrewarmMessage(i: Inputs): Message {
    var ic := i.imageCache;
    PrewarmFailure(ic.enabled, ic.error, if ic.enabled then ic.ready else 0, if ic.enabled then ic.desired else 0)
  }

  function ImageCacheCondition(i: Inputs, conds: seq<Condition>): Decision {
    var ic := i.imageCache;
    if PrewarmReportable(i, conds) then Set(Make(i, ImageCacheReady, IsFalse, PrewarmReason(i), PrewarmMessage(i)))
    else if ic.enabled then
      if ic.desired > 0 && ic.ready == ic.desired then Set(Make(i, ImageCacheReady, IsTrue, Cached, PrewarmCached(ic.desired)))
      else Set(Make(i, ImageCacheReady, IsFalse, Pulling, PrewarmPulling(ic.ready, ic.desired)))
    else if Find(conds, ImageCacheReady).Some? then Remove
    else Keep
  }

  function PolicyCondition(i: Inputs, conds: seq<Condition>): Decision {
    if i.policy.enabled then
      match i.policy.verdict
      case Enforced =>
        Set(Make(i, NetworkPolicyEnforced, IsTrue, PolicyControllerDetected, AgentRunning(i.policy.evidence)))
      case LikelyUnenforced =>
        Set(Make(i, NetworkPolicyEnforced, IsFalse, NoPolicyController, PolicyInert(i.policy.evidence)))
      case Unclear =>
        Set(Make(i, NetworkPolicyEnforced, IsUnknown, EnforcementUnknown, PolicyUnclear(i.policy.evidence)))
    else if Find(conds, NetworkPolicyEnforced).Some? then Remove
    else Keep
  }

  /** Sets the condition that is there already: an inconclusive read keeps the prior verdict. */
  function Carry(conds: seq<Condition>, t: CondType): Decision {
    match Find(conds, t)
    case Some(c) => Set(c)
    case None => Keep
  }

  function ExposureCondition(i: Inputs, conds: seq<Condition>): Decision {
    if i.exposure.unknown then Carry(conds, PrivateExposure)
    else if i.exposure.isPrivate && i.exposure.mappings != [] then
      Set(Make(i, PrivateExposure, IsTrue, DomainMappingPublishesPrivateApp, Exposed(i.exposure.mappings)))
    else if Find(conds, PrivateExposure).Some? then Remove
    else Keep
  }

  /** The block already reported: same reason, same revision. Its first message is kept. */
  predicate SameBlock(i: Inputs, conds: seq<Condition>) {
    var prev := Find(conds, PodCreationBlocked);
    prev.Some? && prev.value.reason == Reported(i.pods.reason)
    && prev.value.message.CannotCreatePods? && prev.value.message.revision == i.pods.revision
  }

  function BlockedMessage(i: Inputs, conds: seq<Condition>): Message {
    if SameBlock(i, conds) then Find(conds, PodCreationBlocked).value.message
    else CannotCreatePods(i.pods.revision, i.pods.detail)
  }

  function PodsCondition(i: Inputs, conds: seq<Condition>): Decision {
    if i.pods.unknown || i.pods.sticky then Carry(conds, PodCreationBlocked)
    else if i.pods.blocked then
      Set(Make(i, PodCreationBlocked, IsTrue, Reported(i.pods.reason), BlockedMessage(i, conds)))
    else if Find(conds, PodCreationBlocked).Some? then Remove
    else Keep
  }

  function PlatformCondition(i: Inputs): Decision {
    match i.platform
    case None => Keep
    case Some(pd) => Set(
      if pd.gate.hold == HoldInvalid then
        Make(i, PlatformDefaultsApplied, IsFalse, EffectiveSpecInvalid, MergedSpecInvalid(pd.gate.field, pd.gate.detail))
      else if pd.gate.hold == HoldPending then
        Make(i, PlatformDefaultsApplied, IsUnknown, RolloutPending, QueuedBehindRate(pd.perMinute))
      else if pd.crdMissing then Make(i, PlatformDefaultsApplied, IsTrue, NoPlatformCRD, CrdAbsent)
      else if !pd.present then Make(i, PlatformDefaultsApplied, IsTrue, NoPlatform, PlatformAbsent)
      else if pd.notAccepted != "" then
        Make(i, PlatformDefaultsApplied, IsFalse, PlatformNotAccepted, PlatformRejected(pd.notAccepted))
      else if pd.inherited != [] then
        Make(i, PlatformDefaultsApplied, IsTrue, Inherited, PlatformSupplied(pd.generation, pd.profile, pd.inherited))
      else Make(i, PlatformDefaultsApplied, IsTrue, NothingToInherit, PlatformSuppliesNothing(pd.generation, pd.profile)))
  }

  /** The order in which the verdict appends conditions, and so the order they persist in. */
  const ORDER: seq<CondType> := [
    DatabaseReady, Reconciling, Ready, Degraded, RevalidationDeferred, EnvMapCollision,
    ImageCacheReady, NetworkPolicyEnforced, PrivateExposure, PodCreationBlocked, PlatformDefaultsApplied]

  function Decide(t: CondType, i: Inputs, conds: seq<Condition>, now: Time): Decision {
    match t
    case DatabaseReady => Database(i)
    case Reconciling => Reconcile(i, conds)
    case Ready => ReadyCondition(i, conds, now)
    case Degraded => DegradedCondition(i, conds, now)
    case RevalidationDeferred => Revalidation(i)
    case EnvMapCollision => EnvCollision(i)
    case ImageCacheReady => ImageCacheCondition(i, conds)
    case NetworkPolicyEnforced => PolicyCondition(i, conds)
    case PrivateExposure => ExposureCondition(i, conds)
    case PodCreationBlocked => PodsCondition(i, conds)
    case PlatformDefaultsApplied => PlatformCondition(i)
    case OtherType(_) => Keep
  }

  // ----- Events -----------------------------------------------------------------------------------

  datatype Event = Event(warning: bool, reason: Reason, message: Message)

  /** The events one condition's decision emits: only on entry into a state, never while it lasts. */
  function EventsFor(t: CondType, i: Inputs, conds: seq<Condition>, now: Time): seq<Event> {
    var prev := Find(conds, t);
    match t
    case Ready =>
      if ChangeDropped(i, conds) || IsReady(i.service.ready) then []
      else
        var d := Diagnose(i, conds, now);
        (match d
         case MissingPin =>
           if prev.Some? && prev.value.reason == PinnedRevisionNotFound then []
           else [Event(true, PinnedRevisionNotFound, DiagnosedMessage(i, d))]
         case StalledIngress =>
           if prev.Some? && prev.value.reason == IngressNotProgrammed then []
           else [Event(true, IngressNotProgrammed, IngressStalled)]
         case _ => [])
    case RevalidationDeferred =>
      if i.kafkaQueue && i.provisionKafkaSource && !(prev.Some? && prev.value.reason == ProvisionKafkaSourceInert)
      then [Event(true, ProvisionKafkaSourceInert, KafkaInert)] else []
    case EnvMapCollision =>
      if HasCollision(i.collision) && !(prev.Some? && prev.value.message == CollisionMessage(i.collision))
      then [Event(CollisionReason(i.collision) != EnvMapExpectedOverride, CollisionReason(i.collision), CollisionMessage(i.collision))]
      else []
    case ImageCacheReady =>
      if PrewarmReportable(i, conds)
         && !(prev.Some? && prev.value.status == IsFalse && prev.value.reason == PrewarmReason(i))
      then [Event(true, ImagePrewarmFailed, PrewarmMessage(i))] else []
    case NetworkPolicyEnforced =>
      if i.policy.enabled && i.policy.verdict == LikelyUnenforced && !(prev.Some? && prev.value.reason == NoPolicyController)
      then [Event(true, NoPolicyController, PolicyInert(i.policy.evidence))] else []
    case PrivateExposure =>
      if !i.exposure.unknown && i.exposure.isPrivate && i.exposure.mappings != [] && prev.None?
      then [Event(true, DomainMappingPublishesPrivateApp, Exposed(i.exposure.mappings))] else []
    case PodCreationBlocked =>
      if !i.pods.unknown && !i.pods.sticky && i.pods.blocked && !SameBlock(i, conds)
      then [Event(true, Reported(i.pods.reason), BlockedMessage(i, conds))] else []
    case PlatformDefaultsApplied =>
      (match PlatformCondition(i)
       case Set(c) =>
         if c.reason in {EffectiveSpecInvalid, PlatformNotAccepted}
            && !(prev.Some? && prev.value.reason == c.reason && prev.value.message == c.message)
         then [Event(true, c.reason, c.message)] else []
       case _ => [])
    case _ => []
  }

  // ----- Requeue ------------------------------------------------------------------------------------

  function Sooner(current: Duration, candidate: Duration): Duration {
    if current == 0 || current > candidate then candidate else current
  }

  function RequeueAfter(i: Inputs, conds: seq<Condition>): Duration {
    var ic := i.imageCache;
    var r0 := if !ChangeDropped(i, conds) && !IsReady(i.service.ready) then NOT_READY_REQUEUE else 0;
    var r1 := if i.revision == NotFound && r0 == 0 then NOT_READY_REQUEUE else r0;
    var r2 := if ic.transient && (ic.enabled || Find(conds, ImageCacheReady).Some?) then Sooner(r1, NOT_READY_REQUEUE) else r1;
    var r3 := if PrewarmReportable(i, conds) then Sooner(r2, PREWARM_FAILURE_REQUEUE) else r2;
    var r4 := if !i.pods.unknown && !i.pods.sticky && i.pods.blocked then Sooner(r3, NOT_READY_REQUEUE) else r3;
    if i.platform.Some? && i.platform.value.gate.hold == HoldPending then
      Sooner(r4, i.platform.value.gate.wait + SLOT_SLACK)
    else r4
  }

  // ----- The whole verdict ---------------------------------------------------------------------------

  datatype Verdict = Verdict(removals: seq<CondType>, sets: seq<Condition>, events: seq<Event>, requeueAfter: Duration)

  function RemovalOf(t: CondType, d: Decision): seq<CondType> { if d.Remove? then [t] else [] }

  function SettingOf(d: Decision): seq<Condition> { if d.Set? then [d.c] else [] }

  function Removals(ts: seq<CondType>, i: Inputs, conds: seq<Condition>, now: Time): seq<CondType> {
    if |ts| == 0 then []
    else
      var n := |ts| - 1;
      Removals(ts[..n], i, conds, now) + RemovalOf(ts[n], Decide(ts[n], i, conds, now))
  }

  function Sets(ts: seq<CondType>, i: Inputs, conds: seq<Condition>, now: Time): seq<Condition> {
    if |ts| == 0 then []
    else
      var n := |ts| - 1;
      Sets(ts[..n], i, conds, now) + SettingOf(Decide(ts[n], i, conds, now))
  }

  function Events(ts: seq<CondType>, i: Inputs, conds: seq<Condition>, now: Time): seq<Event> {
    if |ts| == 0 then []
    else
      var n := |ts| - 1;
      Events(ts[..n], i, conds, now) + EventsFor(ts[n], i, conds, now)
  }

  function VerdictOf(i: Inputs, conds: seq<Condition>, now: Time): Verdict {
    Verdict(Removals(ORDER, i, conds, now), Sets(ORDER, i, conds, now), Events(ORDER, i, conds, now), RequeueAfter(i, conds))
  }

  function RemoveAll(conds: seq<Condition>, ts: seq<CondType>): seq<Condition> {
    if |ts| == 0 then conds else RemoveCondition(RemoveAll(conds, ts[..|ts| - 1]), ts[|ts| - 1])
  }

  function SetAll(conds: seq<Condition>, cs: seq<Condition>, now: Time): seq<Condition> {
    if |cs| == 0 then conds else SetCondition(SetAll(conds, cs[..|cs| - 1], now), cs[|cs| - 1], now)
  }

  /** Removals first, then the settings in order. */
  function Applied(conds: seq<Condition>, v: Verdict, now: Time): seq<Condition> {
    SetAll(RemoveAll(conds, v.removals), v.sets, now)
  }

  // ----- What setting and removing do to a lookup -------------------------------------------------

  /** A type's condition after setting c on it. */
  function Merged(prior: Option<Condition>, c: Condition, now: Time): Condition {
    match prior
    case None => c.(lastTransition := if c.lastTransition == 0 then now else c.lastTransition)
    case Some(p) => Updated(p, c, now)
  }

  lemma {:induction false} FindType(conds: seq<Condition>, t: CondType)
    ensures Find(conds, t).Some? ==> Find(conds, t).value.ctype == t
  {
    if |conds| > 0 && conds[0].ctype != t { FindType(conds[1..], t); }
  }

  lemma {:induction false} FindAfterSet(conds: seq<Condition>, c: Condition, now: Time, t: CondType)
    ensures Find(SetCondition(conds, c, now), t)
         == if t == c.ctype then Some(Merged(Find(conds, t), c, now)) else Find(conds, t)
  {
    if |conds| > 0 {
      assert SetCondition(conds, c, now)[1..]
          == if conds[0].ctype == c.ctype then conds[1..] else SetCondition(conds[1..], c, now);
      if conds[0].ctype != c.ctype { FindAfterSet(conds[1..], c, now, t); }
    }
  }

  lemma {:induction false} FindAfterRemove(conds: seq<Condition>, r: CondType, t: CondType)
    ensures Find(RemoveCondition(conds, r), t) == if t == r then None else Find(conds, t)
  {
    if |conds| > 0 {
      FindAfterRemove(conds[1..], r, t);
      var rest := RemoveCondition(conds[1..], r);
      assert [] + rest == rest;
      assert ([conds[0]] + rest)[1..] == rest;
    }
  }

  predicate SameContent(p: Condition, c: Condition) {
    p.ctype == c.ctype && p.status == c.status && p.reason == c.reason && p.message == c.message
    && p.observedGeneration == c.observedGeneration
  }

  lemma {:induction false} SetNoChange(conds: seq<Condition>, c: Condition, now: Time)
    requires Find(conds, c.ctype).Some? && SameContent(Find(conds, c.ctype).value, c)
    ensures SetCondition(conds, c, now) == conds
  {
    if conds[0].ctype != c.ctype { SetNoChange(conds[1..], c, now); }
  }

  lemma {:induction false} RemoveNoChange(conds: seq<Condition>, t: CondType)
    requires Find(conds, t).None?
    ensures RemoveCondition(conds, t) == conds
  {
    if |conds| > 0 { RemoveNoChange(conds[1..], t); }
  }

  // ----- A lookup after a whole verdict -------------------------------------------------------------

  predicate Distinct(ts: seq<CondType>) { forall j, k :: 0 <= j < k < |ts| ==> ts[j] != ts[k] }

  lemma {:induction false} DecidesItsType(t: CondType, i: Inputs, conds: seq<Condition>, now: Time)
    ensures Decide(t, i, conds, now).Set? ==> Decide(t, i, conds, now).c.ctype == t
  {
    FindType(conds, t);
  }

  lemma {:induction false} RemoveOneMore(base: seq<Condition>, rest: seq<CondType>, last: seq<CondType>)
    requires |last| <= 1
    ensures RemoveAll(base, rest + last)
         == if last == [] then RemoveAll(base, rest) else RemoveCondition(RemoveAll(base, rest), last[0])
  {
    if last == [] {
      assert rest + last == rest;
    } else {
      assert (rest + last)[..|rest|] == rest;
    }
  }

  lemma {:induction false} SetOneMore(base: seq<Condition>, rest: seq<Condition>, last: seq<Condition>, now: Time)
    requires |last| <= 1
    ensures SetAll(base, rest + last, now)
         == if last == [] then SetAll(base, rest, now) else SetCondition(SetAll(base, rest, now), last[0], now)
  {
    if last == [] {
      assert rest + last == rest;
    } else {
      assert (rest + last)[..|rest|] == rest;
    }
  }

  lemma {:induction false} DistinctPrefix(ts: seq<CondType>, t: CondType)
    requires |ts| > 0 && Distinct(ts)
    ensures Distinct(ts[..|ts| - 1])
    ensures t in ts <==> t in ts[..|ts| - 1] || t == ts[|ts| - 1]
    ensures ts[|ts| - 1] !in ts[..|ts| - 1]
  {
  }

  lemma {:induction false} FindAfterRemovals(
    base: seq<Condition>, ts: seq<CondType>, i: Inputs, conds: seq<Condition>, at: Time, t: CondType)
    requires Distinct(ts)
    ensures Find(RemoveAll(base, Removals(ts, i, conds, at)), t)
         == if t in ts && Decide(t, i, conds, at).Remove? then None else Find(base, t)
  {
    hide Decide, RemoveAll, RemoveCondition, Find, Distinct;
    if |ts| == 0 {
      RemoveNothing(base);
    } else {
      var n := |ts| - 1;
      var rest := Removals(ts[..n], i, conds, at);
      DistinctPrefix(ts, t);
      FindAfterRemovals(base, ts[..n], i, conds, at, t);
      RemoveOneMore(base, rest, RemovalOf(ts[n], Decide(ts[n], i, conds, at)));
      FindAfterRemove(RemoveAll(base, rest), ts[n], t);
    }
  }

  lemma {:induction false} RemoveNothing(base: seq<Condition>)
    ensures RemoveAll(base, []) == base
  {
  }

  lemma {:induction false} SetNothing(base: seq<Condition>, now: Time)
    ensures SetAll(base, [], now) == base
  {
  }

  lemma {:induction false} FindAfterSets(
    base: seq<Condition>, ts: seq<CondType>, i: Inputs, conds: seq<Condition>, at: Time, now: Time, t: CondType)
    requires Distinct(ts)
    ensures Find(SetAll(base, Sets(ts, i, conds, at), now), t)
         == if t in ts && Decide(t, i, conds, at).Set? then Some(Merged(Find(base, t), Decide(t, i, conds, at).c, now))
            else Find(base, t)
  {
    hide Decide, Merged, SetAll, SetCondition, Find, Distinct;
    if |ts| == 0 {
      SetNothing(base, now);
    } else {
      var n := |ts| - 1;
      var rest := Sets(ts[..n], i, conds, at);
      var d := Decide(ts[n], i, conds, at);
      DistinctPrefix(ts, t);
      FindAfterSets(base, ts[..n], i, conds, at, now, t);
      DecidesItsType(ts[n], i, conds, at);
      SetOneMore(base, rest, SettingOf(d), now);
      if d.Set? { FindAfterSet(SetAll(base, rest, now), d.c, now, t); }
    }
  }

  /** What looking t up gives once a verdict computed from conds has been applied to conds. */
  function Outcome(t: CondType, i: Inputs, conds: seq<Condition>, at: Time, now: Time): Option<Condition> {
    match Decide(t, i, conds, at)
    case Keep => Find(conds, t)
    case Remove => None
    case Set(c) => Some(Merged(Find(conds, t), c, now))
  }

  function Position(t: CondType): nat {
    match t
    case DatabaseReady => 0
    case Reconciling => 1
    case Ready => 2
    case Degraded => 3
    case RevalidationDeferred => 4
    case EnvMapCollision => 5
    case ImageCacheReady => 6
    case NetworkPolicyEnforced => 7
    case PrivateExposure => 8
    case PodCreationBlocked => 9
    case PlatformDefaultsApplied => 10
    case OtherType(_) => 11
  }

  lemma {:induction false} OrderDistinct()
    ensures Distinct(ORDER)
  {
    assert forall j :: 0 <= j < |ORDER| ==> Position(ORDER[j]) == j;
  }

  lemma {:induction false} FindAfterVerdict(i: Inputs, conds: seq<Condition>, at: Time, now: Time, t: CondType)
    requires t in ORDER
    ensures Find(Applied(conds, VerdictOf(i, conds, at), now), t) == Outcome(t, i, conds, at, now)
  {
    hide Decide, Merged, Distinct;
    hide RemoveAll, SetAll, Removals, Sets, Find;
    OrderDistinct();
    FindAfterRemovals(conds, ORDER, i, conds, at, t);
    FindAfterSets(RemoveAll(conds, Removals(ORDER, i, conds, at)), ORDER, i, conds, at, now, t);
  }

  // ----- A settled verdict changes nothing ------------------------------------------------------------

  /** Carrying this decision out on conds would change nothing. */
  predicate Settled(t: CondType, d: Decision, conds: seq<Condition>) {
    match d
    case Keep => true
    case Remove => Find(conds, t).None?
    case Set(c) => c.ctype == t && Find(conds, t).Some? && SameContent(Find(conds, t).value, c)
  }

  lemma {:induction false} SettledApply(ts: seq<CondType>, i: Inputs, conds: seq<Condition>, at: Time, now: Time)
    requires forall t :: t in ts ==> Settled(t, Decide(t, i, conds, at), conds)
    ensures RemoveAll(conds, Removals(ts, i, conds, at)) == conds
    ensures SetAll(conds, Sets(ts, i, conds, at), now) == conds
  {
    hide Decide, SameContent, RemoveAll, SetAll, RemoveCondition, SetCondition, Find;
    if |ts| == 0 {
      RemoveNothing(conds);
      SetNothing(conds, now);
    } else {
      var n := |ts| - 1;
      SettledApply(ts[..n], i, conds, at, now);
      var d := Decide(ts[n], i, conds, at);
      assert Settled(ts[n], d, conds);
      RemoveOneMore(conds, Removals(ts[..n], i, conds, at), RemovalOf(ts[n], d));
      SetOneMore(conds, Sets(ts[..n], i, conds, at), SettingOf(d), now);
      if d.Remove? { RemoveNoChange(conds, ts[n]); }
      if d.Set? { SetNoChange(conds, d.c, now); }
    }
  }

  lemma {:induction false} NoEvents(ts: seq<CondType>, i: Inputs, conds: seq<Condition>, at: Time)
    requires forall t :: t in ts ==> EventsFor(t, i, conds, at) == []
    ensures Events(ts, i, conds, at) == []
  {
    hide EventsFor;
    if |ts| > 0 { NoEvents(ts[..|ts| - 1], i, conds, at); }
  }

  // ----- The second verdict, condition by condition ----------------------------------------------------

  /** after is what a verdict computed from conds at at left behind, as far as t can tell. */
  predicate Follows(t: CondType, i: Inputs, conds: seq<Condition>, at: Time, after: seq<Condition>, now: Time) {
    Find(after, t) == Outcome(t, i, conds, at, now)
  }

  /**
  The one case in which a dropped change is forgotten: nothing was ever reconciled, so the held
  Reconciling condition records generation 0, and that is the generation held back.
   */
  predicate LosesDrop(i: Inputs, conds: seq<Condition>) {
    i.generation == 0 && ChangeDropped(i, conds) && Find(conds, Reconciling).None?
  }

  /** Whether a change is dropped does not depend on how often the verdict has been applied. */
  lemma {:induction false} DropSticks(i: Inputs, conds: seq<Condition>, at: Time, after: seq<Condition>, now: Time)
    requires !LosesDrop(i, conds)
    requires Follows(Reconciling, i, conds, at, after, now)
    ensures ChangeDropped(i, after) == ChangeDropped(i, conds)
  {
  }

  /** The same for the diagnosis of a service that is not Ready. */
  lemma {:induction false} DiagnosisSticks(i: Inputs, conds: seq<Condition>, at: Time, after: seq<Condition>, now: Time, later: Time)
    requires !ChangeDropped(i, conds) && !IsReady(i.service.ready)
    requires Follows(Ready, i, conds, at, after, now)
    requires PinStalled(i, later) == PinStalled(i, at) && IngressStalls(i, later) == IngressStalls(i, at)
    ensures Diagnose(i, after, later) == Diagnose(i, conds, at)
  {
    hide StalledSince, IngressStalls, ChangeDropped, IsReady;
  }

  predicate Quiet(t: CondType, i: Inputs, after: seq<Condition>, later: Time) {
    Settled(t, Decide(t, i, after, later), after) && EventsFor(t, i, after, later) == []
  }

  lemma {:induction false} ReconcilingSettles(i: Inputs, conds: seq<Condition>, at: Time, after: seq<Condition>, now: Time, later: Time)
    requires ChangeDropped(i, after) == ChangeDropped(i, conds)
    requires Follows(Reconciling, i, conds, at, after, now)
    ensures Quiet(Reconciling, i, after, later)
  {
    hide Find, ChangeDropped;
    assert ChangeDropped(i, conds) ==> i.platform.Some? by { DropNeedsPlatform(i, conds); }
    FindType(conds, Reconciling);
  }

  lemma {:induction false} DropNeedsPlatform(i: Inputs, conds: seq<Condition>)
    ensures ChangeDropped(i, conds) ==> i.platform.Some?
  {
  }

  /** Ready and Degraded read only the drop, the service's readiness and the diagnosis. */
  lemma {:induction false} ReadinessSettles(
    t: CondType, i: Inputs, conds: seq<Condition>, at: Time, after: seq<Condition>, now: Time, later: Time)
    requires t == Ready || t == Degraded
    requires ChangeDropped(i, after) == ChangeDropped(i, conds)
    requires !ChangeDropped(i, conds) && !IsReady(i.service.ready) ==>
               Diagnose(i, after, later) == Diagnose(i, conds, at)
    requires Follows(t, i, conds, at, after, now)
    ensures Quiet(t, i, after, later)
  {
    hide Find, ChangeDropped, Diagnose, IsReady, ServiceReason, ServiceText;
    DropNeedsPlatform(i, conds);
    FindType(conds, t);
  }

  lemma {:induction false} OthersSettle(t: CondType, i: Inputs, conds: seq<Condition>, at: Time, after: seq<Condition>, now: Time, later: Time)
    requires t in ORDER && t != Reconciling && t != Ready && t != Degraded
    requires Follows(t, i, conds, at, after, now)
    ensures Quiet(t, i, after, later)
  {
    hide PinStalled, IngressStalls, Find;
    FindType(conds, t);
  }

  lemma {:induction false} AllSettle(i: Inputs, conds: seq<Condition>, at: Time, now: Time, later: Time)
    requires !LosesDrop(i, conds)
    requires PinStalled(i, later) == PinStalled(i, at) && IngressStalls(i, later) == IngressStalls(i, at)
    ensures forall t :: t in ORDER ==> Quiet(t, i, Applied(conds, VerdictOf(i, conds, at), now), later)
  {
    hide PinStalled, IngressStalls, Decide, EventsFor, Find, Outcome, Applied, ChangeDropped, Diagnose, Quiet, LosesDrop;
    var after := Applied(conds, VerdictOf(i, conds, at), now);
    forall t | t in ORDER
      ensures Quiet(t, i, after, later)
    {
      FindAfterVerdict(i, conds, at, now, t);
      FindAfterVerdict(i, conds, at, now, Reconciling);
      FindAfterVerdict(i, conds, at, now, Ready);
      DropSticks(i, conds, at, after, now);
      if !ChangeDropped(i, conds) && !IsReady(i.service.ready) {
        DiagnosisSticks(i, conds, at, after, now, later);
      }
      if t == Reconciling {
        ReconcilingSettles(i, conds, at, after, now, later);
      } else if t == Ready || t == Degraded {
        ReadinessSettles(t, i, conds, at, after, now, later);
      } else {
        OthersSettle(t, i, conds, at, after, now, later);
      }
    }
  }

  lemma {:induction false} SettledVerdict(i: Inputs, conds: seq<Condition>, at: Time, now: Time)
    requires forall t :: t in ORDER ==> Quiet(t, i, conds, at)
    ensures Applied(conds, VerdictOf(i, conds, at), now) == conds
    ensures VerdictOf(i, conds, at).events == []
  {
    hide Decide, EventsFor, Find, Settled;
    forall t | t in ORDER
      ensures Settled(t, Decide(t, i, conds, at), conds) && EventsFor(t, i, conds, at) == []
    {
      assert Quiet(t, i, conds, at);
    }
    SettledApply(ORDER, i, conds, at, now);
    NoEvents(ORDER, i, conds, at);
  }

  /** A forgotten drop: the second verdict turns Reconciling from True to False. */
  lemma {:induction false} LostDropMoves(i: Inputs, conds: seq<Condition>, at: Time, now: Time, later: Time, again: Time)
    requires LosesDrop(i, conds)
    ensures var after := Applied(conds, VerdictOf(i, conds, at), now);
            Applied(after, VerdictOf(i, after, later), again) != after
  {
    hide Applied, Find, RemoveAll, SetAll, Sets, Removals;
    var after := Applied(conds, VerdictOf(i, conds, at), now);
    FindAfterVerdict(i, conds, at, now, Reconciling);
    FindAfterVerdict(i, after, later, again, Reconciling);
    assert Find(after, Reconciling).value.status == IsTrue;
    assert Find(after, Reconciling).value.observedGeneration == 0;
    assert !ChangeDropped(i, after);
  }

  /**
  The verdict is a fixpoint: on unchanged inputs a second computation, applied, leaves the ordered
  condition list as it is, transition times included, and emits nothing. The only exception is a
  drop at generation 0, which the API server never assigns.
   */
  lemma {:induction false} VerdictFixpoint(i: Inputs, conds: seq<Condition>, at: Time, now: Time, later: Time, again: Time)
    requires PinStalled(i, later) == PinStalled(i, at) && IngressStalls(i, later) == IngressStalls(i, at)
    ensures var after := Applied(conds, VerdictOf(i, conds, at), now);
            Applied(after, VerdictOf(i, after, later), again) == after <==> !LosesDrop(i, conds)
    ensures !LosesDrop(i, conds) ==> VerdictOf(i, Applied(conds, VerdictOf(i, conds, at), now), later).events == []
    ensures i.generation >= 1 ==> !LosesDrop(i, conds)
  {
    hide PinStalled, IngressStalls, Applied, VerdictOf, Quiet, ChangeDropped;
    if LosesDrop(i, conds) {
      LostDropMoves(i, conds, at, now, later, again);
    } else {
      AllSettle(i, conds, at, now, later);
      SettledVerdict(i, Applied(conds, VerdictOf(i, conds, at), now), later, again);
    }
  }

  /** A stall once reported lasts for as long as the service reports the same: time alone never clears it. */
  lemma {:induction false} StallsPersist(i: Inputs, at: Time, later: Time)
    requires at <= later
    ensures PinStalled(i, at) ==> PinStalled(i, later)
    ensures IngressStalls(i, at) ==> IngressStalls(i, later)
  {
  }

  /**
  The three roll-ups tell one story: Ready is True exactly when the Service is Ready and no change of
  the app is being held back, Degraded is its opposite, and Reconciling is True exactly for a change
  held back, with the generation last reconciled left in it.
   */
  lemma {:induction false} RollUpsAgree(i: Inputs, conds: seq<Condition>, at: Time, now: Time)
    ensures var after := Applied(conds, VerdictOf(i, conds, at), now);
            var dropped := ChangeDropped(i, conds);
            var ready, degraded, reconciling := Find(after, Ready), Find(after, Degraded), Find(after, Reconciling);
            && ready.Some? && degraded.Some? && reconciling.Some?
            && (ready.value.status == IsTrue <==> IsReady(i.service.ready) && !dropped)
            && (degraded.value.status == IsFalse <==> ready.value.status == IsTrue)
            && (reconciling.value.status == IsTrue <==> dropped)
            && (!dropped ==> reconciling.value.observedGeneration == i.generation)
            && (dropped ==> reconciling.value.observedGeneration != i.generation || i.generation == 0)
  {
    hide Applied, VerdictOf, Find, Diagnose, DiagnosedMessage, DiagnosedReason, HeldMessage, IsReady;
    FindAfterVerdict(i, conds, at, now, Ready);
    FindAfterVerdict(i, conds, at, now, Degraded);
    FindAfterVerdict(i, conds, at, now, Reconciling);
    FindType(conds, Ready);
    FindType(conds, Degraded);
    FindType(conds, Reconciling);
  }

  /** An app that is not Ready is looked at again within 30 s, and a queued one no later than half a second past its slot. */
  lemma {:induction false} RequeueBound(i: Inputs, conds: seq<Condition>)
    requires i.platform.Some? ==> i.platform.value.gate.wait >= 0
    ensures RequeueAfter(i, conds) >= 0
    ensures !IsReady(i.service.ready) && !ChangeDropped(i, conds) ==> 0 < RequeueAfter(i, conds) <= NOT_READY_REQUEUE
    ensures i.platform.Some? && i.platform.value.gate.hold == HoldPending ==>
              0 < RequeueAfter(i, conds) <= i.platform.value.gate.wait + SLOT_SLACK
    ensures i.pods.blocked && !i.pods.unknown && !i.pods.sticky ==> 0 < RequeueAfter(i, conds) <= NOT_READY_REQUEUE
  {
    hide Find, IsReady, ChangeDropped;
  }

  /** The same inputs with another wait. */
  function Waiting(i: Inputs, wait: Duration): Inputs {
    if i.platform.None? then i
    else i.(platform := Some(i.platform.value.(gate := i.platform.value.gate.(wait := wait))))
  }

  /** No decision and no event reads the wait: it travels in the requeue only. */
  lemma {:induction false} WaitUnread(t: CondType, i: Inputs, wait: Duration, conds: seq<Condition>, at: Time)
    ensures Decide(t, Waiting(i, wait), conds, at) == Decide(t, i, conds, at)
    ensures EventsFor(t, Waiting(i, wait), conds, at) == EventsFor(t, i, conds, at)
  {
    hide Find, StalledSince, IngressStall, EventsFor, Diagnose, ChangeDropped;
    WaitUnreadDiagnosis(i, wait, conds, at);
    WaitUnreadEvents(t, i, wait, conds, at);
  }

  lemma {:induction false} WaitUnreadEvents(t: CondType, i: Inputs, wait: Duration, conds: seq<Condition>, at: Time)
    ensures EventsFor(t, Waiting(i, wait), conds, at) == EventsFor(t, i, conds, at)
  {
    hide Find, StalledSince, IngressStall, Decide, Diagnose, ChangeDropped;
    WaitUnreadDiagnosis(i, wait, conds, at);
  }

  lemma {:induction false} WaitUnreadDiagnosis(i: Inputs, wait: Duration, conds: seq<Condition>, at: Time)
    ensures ChangeDropped(Waiting(i, wait), conds) == ChangeDropped(i, conds)
    ensures Diagnose(Waiting(i, wait), conds, at) == Diagnose(i, conds, at)
  {
    hide Find, StalledSince, IngressStall;
  }

  /** The fixpoint for a queued app: a second verdict with less time to wait still changes nothing and emits nothing. */
  lemma {:induction false} QueuedVerdict(i: Inputs, wait: Duration, conds: seq<Condition>, at: Time, now: Time, later: Time, again: Time)
    requires i.generation >= 1
    requires PinStalled(i, later) == PinStalled(i, at) && IngressStalls(i, later) == IngressStalls(i, at)
    ensures var after := Applied(conds, VerdictOf(i, conds, at), now);
            && Applied(after, VerdictOf(Waiting(i, wait), after, later), again) == after
            && VerdictOf(Waiting(i, wait), after, later).events == []
  {
    hide PinStalled, IngressStalls, Applied, VerdictOf, Decide, EventsFor, Find, Settled, Waiting, ChangeDropped;
    var after := Applied(conds, VerdictOf(i, conds, at), now);
    AllSettle(i, conds, at, now, later);
    forall t | t in ORDER
      ensures Quiet(t, Waiting(i, wait), after, later)
    {
      assert Quiet(t, i, after, later);
      WaitUnread(t, i, wait, after, later);
    }
    SettledVerdict(Waiting(i, wait), after, later, again);
  }
}
