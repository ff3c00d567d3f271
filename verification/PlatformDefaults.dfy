/**
The merge of an app's settings over the cluster platform's over the built-in table, with the
provenance the operator reports.
 */
module PlatformDefaults {
  import opened Wrappers

  /** A resource text and the amount it parses to; the empty text is a field left unset. */
  datatype Quantity = Quantity(text: string, amount: Option<real>)

  /** The settings an app and a platform both may carry; 0, "" and None are unset. */
  datatype Layer = Layer(
    containerConcurrency: int,
    cpuRequest: Quantity, memoryRequest: Quantity, cpuLimit: Quantity, memoryLimit: Quantity,
    timeoutSeconds: int, scaleDownDelay: string,
    targetBurst: Option<int>, panicWindow: Option<int>, panicThreshold: Option<int>)

  /** budget and perMinute are unset at 0; rest stands for what reaches no app. */
  datatype PlatformSpec = PlatformSpec(layer: Layer, budget: int, perMinute: int, profile: string, rest: string)

  const UNSET: Quantity := Quantity("", None)
  const NOTHING: Layer := Layer(0, UNSET, UNSET, UNSET, UNSET, 0, "", None, None, None)

  function Builtin(): Layer {
    Layer(
      20, Quantity("250m", Some(0.25)), Quantity("512Mi", Some(536870912.0)),
      Quantity("1000m", Some(1.0)), Quantity("1Gi", Some(1073741824.0)), 300, "", None, None, None)
  }

  const BUILTIN_BUDGET := 80
  const BUILTIN_RATE := 10

  /** The fields a platform may supply, in the alphabetical order of their paths. */
  datatype Field =
    | CpuLimit | CpuRequest | MemoryLimit | MemoryRequest
    | ContainerConcurrency | PanicThreshold | PanicWindow | ScaleDownDelay | TargetBurst | TimeoutSeconds

  function Path(f: Field): string {
    match f
    case CpuLimit => "spec.resources.cpuLimit"
    case CpuRequest => "spec.resources.cpuRequest"
    case MemoryLimit => "spec.resources.memoryLimit"
    case MemoryRequest => "spec.resources.memoryRequest"
    case ContainerConcurrency => "spec.scaling.containerConcurrency"
    case PanicThreshold => "spec.scaling.panicThresholdPercentage"
    case PanicWindow => "spec.scaling.panicWindowPercentage"
    case ScaleDownDelay => "spec.scaling.scaleDownDelay"
    case TargetBurst => "spec.scaling.targetBurstCapacity"
    case TimeoutSeconds => "spec.timeoutSeconds"
  }

  function Rank(f: Field): nat {
    match f
    case CpuLimit => 0
    case CpuRequest => 1
    case MemoryLimit => 2
    case MemoryRequest => 3
    case ContainerConcurrency => 4
    case PanicThreshold => 5
    case PanicWindow => 6
    case ScaleDownDelay => 7
    case TargetBurst => 8
    case TimeoutSeconds => 9
  }

  const FIELDS: seq<Field> := [
    CpuLimit, CpuRequest, MemoryLimit, MemoryRequest,
    ContainerConcurrency, PanicThreshold, PanicWindow, ScaleDownDelay, TargetBurst, TimeoutSeconds]

  predicate Has(l: Layer, f: Field) {
    match f
    case CpuLimit => l.cpuLimit.text != ""
    case CpuRequest => l.cpuRequest.text != ""
    case MemoryLimit => l.memoryLimit.text != ""
    case MemoryRequest => l.memoryRequest.text != ""
    case ContainerConcurrency => l.containerConcurrency > 0
    case PanicThreshold => l.panicThreshold.Some?
    case PanicWindow => l.panicWindow.Some?
    case ScaleDownDelay => l.scaleDownDelay != ""
    case TargetBurst => l.targetBurst.Some?
    case TimeoutSeconds => l.timeoutSeconds > 0
  }

  /** The layer a field's effective value comes from: the app's, else the platform's, else the built-in's. */
  function Winner(f: Field, app: Layer, platform: Layer): Layer {
    if Has(app, f) then app else if Has(platform, f) then platform else Builtin()
  }

  predicate FromPlatform(f: Field, app: Layer, platform: Layer) { !Has(app, f) && Has(platform, f) }

  function Inherited(fs: seq<Field>, app: Layer, platform: Layer): seq<Field> {
    if |fs| == 0 then []
    else (if FromPlatform(fs[0], app, platform) then [fs[0]] else []) + Inherited(fs[1..], app, platform)
  }

  /** The merged values that reach the rendered Knative Service. */
  function Values(app: Layer, platform: Layer): Layer {
    Layer(
      Winner(ContainerConcurrency, app, platform).containerConcurrency,
      Winner(CpuRequest, app, platform).cpuRequest,
      Winner(MemoryRequest, app, platform).memoryRequest,
      Winner(CpuLimit, app, platform).cpuLimit,
      Winner(MemoryLimit, app, platform).memoryLimit,
      Winner(TimeoutSeconds, app, platform).timeoutSeconds,
      Winner(ScaleDownDelay, app, platform).scaleDownDelay,
      Winner(TargetBurst, app, platform).targetBurst,
      Winner(PanicWindow, app, platform).panicWindow,
      Winner(PanicThreshold, app, platform).panicThreshold)
  }

  datatype Effective = Effective(values: Layer, resourceFromPlatform: bool, budget: int, inherited: seq<Field>)

  function LayerOf(platform: Option<PlatformSpec>): Layer {
    if platform.Some? then platform.value.layer else NOTHING
  }

  function BudgetOf(platform: Option<PlatformSpec>): int {
    if platform.Some? && platform.value.budget > 0 then platform.value.budget else BUILTIN_BUDGET
  }

  function Resolve(app: Layer, platform: Option<PlatformSpec>): Effective {
    var p := LayerOf(platform);
    Effective(
      Values(app, p),
      FromPlatform(CpuRequest, app, p) || FromPlatform(CpuLimit, app, p)
      || FromPlatform(MemoryRequest, app, p) || FromPlatform(MemoryLimit, app, p),
      BudgetOf(platform),
      Inherited(FIELDS, app, p))
  }

  // ----- The report ------------------------------------------------------------------------------

  predicate Ascending(fs: seq<Field>) { forall j, k :: 0 <= j < k < |fs| ==> Rank(fs[j]) < Rank(fs[k]) }

  lemma {:induction false} RankInjective(f: Field, g: Field)
    ensures Rank(f) == Rank(g) ==> f == g
  {
  }

  lemma {:induction false} InheritedMembers(fs: seq<Field>, app: Layer, platform: Layer, f: Field)
    ensures f in Inherited(fs, app, platform) <==> f in fs && FromPlatform(f, app, platform)
  {
    hide FromPlatform;
    if |fs| > 0 { InheritedMembers(fs[1..], app, platform, f); }
  }

  lemma {:induction false} InheritedAscending(fs: seq<Field>, app: Layer, platform: Layer)
    requires Ascending(fs)
    ensures Ascending(Inherited(fs, app, platform))
  {
    hide FromPlatform, Rank;
    if |fs| > 0 {
      var rest := Inherited(fs[1..], app, platform);
      InheritedAscending(fs[1..], app, platform);
      forall g | g in rest
        ensures Rank(fs[0]) < Rank(g)
      {
        InheritedMembers(fs[1..], app, platform, g);
      }
    }
  }

  lemma {:induction false} FieldsAscend()
    ensures Ascending(FIELDS) && forall f: Field :: f in FIELDS
  {
    forall f: Field
      ensures f in FIELDS
    {
      assert FIELDS[Rank(f)] == f;
    }
    assert forall j :: 0 <= j < |FIELDS| ==> Rank(FIELDS[j]) == j;
  }

  /** The report lists, in order and once each, exactly the fields the platform supplied. */
  lemma {:induction false} InheritedExactly(app: Layer, platform: Layer)
    ensures Ascending(Inherited(FIELDS, app, platform))
    ensures forall f :: f in Inherited(FIELDS, app, platform) <==> FromPlatform(f, app, platform)
  {
    FieldsAscend();
    InheritedAscending(FIELDS, app, platform);
    forall f
      ensures f in Inherited(FIELDS, app, platform) <==> FromPlatform(f, app, platform)
    {
      InheritedMembers(FIELDS, app, platform, f);
    }
  }

  /** Two ascending lists of the same fields are the same list. */
  lemma {:induction false} SameAscending(a: seq<Field>, b: seq<Field>)
    requires Ascending(a) && Ascending(b)
    requires forall f :: f in a <==> f in b
    ensures a == b
  {
    hide Rank;
    assert |b| > 0 ==> b[0] in b;
    if |a| > 0 {
      assert a[0] in b;
      assert b[0] in a;
      RankInjective(a[0], b[0]);
      assert a[0] == b[0];
      forall f
        ensures f in a[1..] <==> f in b[1..]
      {
        RankInjective(f, a[0]);
        assert f in a <==> f in a[1..] || f == a[0];
        assert f in b <==> f in b[1..] || f == b[0];
        assert a[0] !in a[1..] && b[0] !in b[1..];
      }
      SameAscending(a[1..], b[1..]);
    }
  }

  /** The two layers carry the same value for a field. */
  predicate Same(f: Field, a: Layer, b: Layer) {
    match f
    case CpuLimit => a.cpuLimit == b.cpuLimit
    case CpuRequest => a.cpuRequest == b.cpuRequest
    case MemoryLimit => a.memoryLimit == b.memoryLimit
    case MemoryRequest => a.memoryRequest == b.memoryRequest
    case ContainerConcurrency => a.containerConcurrency == b.containerConcurrency
    case PanicThreshold => a.panicThreshold == b.panicThreshold
    case PanicWindow => a.panicWindow == b.panicWindow
    case ScaleDownDelay => a.scaleDownDelay == b.scaleDownDelay
    case TargetBurst => a.targetBurst == b.targetBurst
    case TimeoutSeconds => a.timeoutSeconds == b.timeoutSeconds
  }

  /**
  Field by field, the app's own value wins, then the platform's, then the built-in; the platform is
  named as the source exactly where its value was taken.
   */
  lemma {:induction false} Precedence(f: Field, app: Layer, platform: Option<PlatformSpec>)
    ensures var eff := Resolve(app, platform);
            var p := LayerOf(platform);
            && (Has(app, f) ==> Same(f, eff.values, app) && f !in eff.inherited)
            && (!Has(app, f) && Has(p, f) ==> Same(f, eff.values, p) && f in eff.inherited)
            && (!Has(app, f) && !Has(p, f) ==> Same(f, eff.values, Builtin()) && f !in eff.inherited)
            && (platform.None? ==> eff.inherited == [] && eff.budget == BUILTIN_BUDGET && !eff.resourceFromPlatform)
  {
    hide Inherited, Has, Builtin, Ascending;
    var p := LayerOf(platform);
    var r := Inherited(FIELDS, app, p);
    assert |r| > 0 ==> r[0] in r;
    InheritedExactly(app, p);
    if platform.None? {
      forall g ensures !FromPlatform(g, app, p) { NothingHas(g); }
      assert r == [];
    }
  }

  lemma {:induction false} NothingHas(f: Field)
    ensures !Has(NOTHING, f)
  {
  }

  /** A platform can change an app's values only through the fields reported as inherited. */
  lemma {:induction false} NothingInherited(app: Layer, platform: PlatformSpec)
    requires Resolve(app, Some(platform)).inherited == []
    ensures Resolve(app, Some(platform)).values == Resolve(app, None).values
  {
    hide Has, Inherited, Ascending, Builtin;
    InheritedExactly(app, platform.layer);
    forall f
      ensures Winner(f, app, platform.layer) == Winner(f, app, NOTHING)
    {
      assert !FromPlatform(f, app, platform.layer);
      NothingHas(f);
    }
  }

  // ----- The computation ---------------------------------------------------------------------------

  method SortFields(fs: seq<Field>) returns (sorted: seq<Field>)
    requires forall j, k :: 0 <= j < k < |fs| ==> fs[j] != fs[k]
    ensures Ascending(sorted)
    ensures forall f :: f in sorted <==> f in fs
  {
    hide Rank;
    sorted := [];
    for n := 0 to |fs|
      invariant Ascending(sorted)
      invariant forall f :: f in sorted <==> f in fs[..n]
    {
      var f, k := fs[n], 0;
      while k < |sorted| && Rank(sorted[k]) < Rank(f)
        invariant 0 <= k <= |sorted|
        invariant forall j :: 0 <= j < k ==> Rank(sorted[j]) < Rank(f)
      {
        k := k + 1;
      }
      assert f !in sorted;
      if k < |sorted| { RankInjective(sorted[k], f); }
      var was := sorted;
      sorted := was[..k] + [f] + was[k..];
      assert forall g :: g in sorted <==> g in was || g == f;
      assert fs[..n + 1] == fs[..n] + [f];
    }
    assert fs[..|fs|] == fs;
  }

  lemma {:induction false} InheritedSnoc(fs: seq<Field>, f: Field, app: Layer, platform: Layer)
    ensures Inherited(fs + [f], app, platform)
         == Inherited(fs, app, platform) + if FromPlatform(f, app, platform) then [f] else []
  {
    hide FromPlatform;
    if |fs| > 0 {
      assert (fs + [f])[1..] == fs[1..] + [f];
      InheritedSnoc(fs[1..], f, app, platform);
    }
  }

  lemma {:induction false} InheritedDistinct(fs: seq<Field>, app: Layer, platform: Layer)
    requires forall j, k :: 0 <= j < k < |fs| ==> fs[j] != fs[k]
    ensures var r := Inherited(fs, app, platform); forall j, k :: 0 <= j < k < |r| ==> r[j] != r[k]
  {
    hide FromPlatform;
    if |fs| > 0 {
      InheritedDistinct(fs[1..], app, platform);
      InheritedMembers(fs[1..], app, platform, fs[0]);
    }
  }

  /** The order in which the merge visits the fields. */
  const VISITED: seq<Field> := [
    ContainerConcurrency, CpuRequest, MemoryRequest, CpuLimit, MemoryLimit,
    TimeoutSeconds, ScaleDownDelay, TargetBurst, PanicWindow, PanicThreshold]

  lemma {:induction false} VisitsAll()
    ensures forall j, k :: 0 <= j < k < |VISITED| ==> VISITED[j] != VISITED[k]
    ensures forall f: Field :: f in VISITED
  {
    forall f: Field
      ensures f in VISITED
    {
      match f
      case ContainerConcurrency => assert VISITED[0] == f;
      case CpuRequest => assert VISITED[1] == f;
      case MemoryRequest => assert VISITED[2] == f;
      case CpuLimit => assert VISITED[3] == f;
      case MemoryLimit => assert VISITED[4] == f;
      case TimeoutSeconds => assert VISITED[5] == f;
      case ScaleDownDelay => assert VISITED[6] == f;
      case TargetBurst => assert VISITED[7] == f;
      case PanicWindow => assert VISITED[8] == f;
      case PanicThreshold => assert VISITED[9] == f;
    }
  }

  /** The fields noted as supplied by the platform while merging; visited is the part of the merge already done. */
  class Notes {
    var inherited: seq<Field>
    ghost var visited: seq<Field>
    ghost const app: Layer
    ghost const platform: Layer

    ghost predicate Valid()
      reads this
    {
      inherited == Inherited(visited, app, platform)
    }

    constructor (ghost app: Layer, ghost platform: Layer)
      ensures Valid() && visited == [] && this.app == app && this.platform == platform
    {
      inherited := [];
      visited := [];
      this.app, this.platform := app, platform;
    }

    /** Notes f when the platform is the one that supplies it. */
    method Note(f: Field, supplied: bool)
      requires Valid() && supplied == FromPlatform(f, app, platform)
      modifies this
      ensures Valid() && visited == old(visited) + [f]
    {
      hide FromPlatform, Inherited;
      InheritedSnoc(visited, f, app, platform);
      if supplied {
        inherited := inherited + [f];
      }
      visited := visited + [f];
    }

    method Pick(f: Field, appValue: Quantity, platformValue: Quantity, builtin: Quantity)
      returns (value: Quantity, supplied: bool)
      requires Valid() && Has(app, f) == (appValue.text != "") && Has(platform, f) == (platformValue.text != "")
      modifies this
      ensures Valid() && visited == old(visited) + [f]
      ensures value == if Has(app, f) then appValue else if Has(platform, f) then platformValue else builtin
      ensures supplied == FromPlatform(f, app, platform)
    {
      hide Inherited, Has;
      supplied := false;
      if appValue.text != "" {
        value := appValue;
      } else if platformValue.text != "" {
        supplied := true;
        value := platformValue;
      } else {
        value := builtin;
      }
      Note(f, supplied);
    }

    method PickNumber(f: Field, appValue: int, platformValue: int, builtin: int) returns (value: int)
      requires Valid() && Has(app, f) == (appValue > 0) && Has(platform, f) == (platformValue > 0)
      modifies this
      ensures Valid() && visited == old(visited) + [f]
      ensures value == if Has(app, f) then appValue else if Has(platform, f) then platformValue else builtin
    {
      hide Inherited, Has;
      var supplied := false;
      value := builtin;
      if appValue > 0 {
        value := appValue;
      } else if platformValue > 0 {
        value, supplied := platformValue, true;
      }
      Note(f, supplied);
    }

    method PickText(f: Field, appValue: string, platformValue: string) returns (value: string)
      requires Valid() && Has(app, f) == (appValue != "") && Has(platform, f) == (platformValue != "")
      modifies this
      ensures Valid() && visited == old(visited) + [f]
      ensures value == if Has(app, f) then appValue else if Has(platform, f) then platformValue else ""
    {
      hide Inherited, Has;
      var supplied := false;
      value := "";
      if appValue != "" {
        value := appValue;
      } else if platformValue != "" {
        value, supplied := platformValue, true;
      }
      Note(f, supplied);
    }

    method PickPointer(f: Field, appValue: Option<int>, platformValue: Option<int>) returns (value: Option<int>)
      requires Valid() && Has(app, f) == appValue.Some? && Has(platform, f) == platformValue.Some?
      modifies this
      ensures Valid() && visited == old(visited) + [f]
      ensures value == if Has(app, f) then appValue else if Has(platform, f) then platformValue else None
    {
      hide Inherited, Has;
      var supplied := false;
      if appValue.Some? {
        value := appValue;
      } else if platformValue.Some? {
        supplied := true;
        value := platformValue;
      } else {
        value := None;
      }
      Note(f, supplied);
    }
  }

  lemma {:induction false} HasMeans(l: Layer)
    ensures Has(l, CpuLimit) == (l.cpuLimit.text != "") && Has(l, CpuRequest) == (l.cpuRequest.text != "")
    ensures Has(l, MemoryLimit) == (l.memoryLimit.text != "") && Has(l, MemoryRequest) == (l.memoryRequest.text != "")
    ensures Has(l, ContainerConcurrency) == (l.containerConcurrency > 0) && Has(l, TimeoutSeconds) == (l.timeoutSeconds > 0)
    ensures Has(l, ScaleDownDelay) == (l.scaleDownDelay != "") && Has(l, TargetBurst) == l.targetBurst.Some?
    ensures Has(l, PanicWindow) == l.panicWindow.Some? && Has(l, PanicThreshold) == l.panicThreshold.Some?
  {
  }

  lemma {:induction false} ResourceWinners(app: Layer, platform: Layer)
    ensures Winner(CpuRequest, app, platform).cpuRequest
         == if Has(app, CpuRequest) then app.cpuRequest
            else if Has(platform, CpuRequest) then platform.cpuRequest else Builtin().cpuRequest
    ensures Winner(MemoryRequest, app, platform).memoryRequest
         == if Has(app, MemoryRequest) then app.memoryRequest
            else if Has(platform, MemoryRequest) then platform.memoryRequest else Builtin().memoryRequest
    ensures Winner(CpuLimit, app, platform).cpuLimit
         == if Has(app, CpuLimit) then app.cpuLimit
            else if Has(platform, CpuLimit) then platform.cpuLimit else Builtin().cpuLimit
    ensures Winner(MemoryLimit, app, platform).memoryLimit
         == if Has(app, MemoryLimit) then app.memoryLimit
            else if Has(platform, MemoryLimit) then platform.memoryLimit else Builtin().memoryLimit
  {
    hide Has, Builtin;
  }

  /** The knobs without a built-in value stay unset unless the app or the platform sets them. */
  lemma {:induction false} KnobWinners(app: Layer, platform: Layer)
    ensures Winner(ScaleDownDelay, app, platform).scaleDownDelay
         == if Has(app, ScaleDownDelay) then app.scaleDownDelay
            else if Has(platform, ScaleDownDelay) then platform.scaleDownDelay else ""
    ensures Winner(TargetBurst, app, platform).targetBurst
         == if Has(app, TargetBurst) then app.targetBurst
            else if Has(platform, TargetBurst) then platform.targetBurst else None
    ensures Winner(PanicWindow, app, platform).panicWindow
         == if Has(app, PanicWindow) then app.panicWindow
            else if Has(platform, PanicWindow) then platform.panicWindow else None
    ensures Winner(PanicThreshold, app, platform).panicThreshold
         == if Has(app, PanicThreshold) then app.panicThreshold
            else if Has(platform, PanicThreshold) then platform.panicThreshold else None
  {
    hide Has;
  }

  lemma {:induction false} WinnerMeans(f: Field, app: Layer, platform: Layer)
    ensures Winner(f, app, platform) == if Has(app, f) then app else if Has(platform, f) then platform else Builtin()
  {
    hide Has, Builtin;
  }

  method Reported(noted: seq<Field>, ghost app: Layer, ghost platform: Layer) returns (report: seq<Field>)
    requires noted == Inherited(VISITED, app, platform)
    ensures report == Inherited(FIELDS, app, platform)
  {
    hide Inherited, Ascending, FromPlatform;
    Report(app, platform);
    report := SortFields(noted);
    InheritedExactly(app, platform);
    SameAscending(report, Inherited(FIELDS, app, platform));
  }

  method PickResources(notes: Notes, app: Layer, p: Layer)
    returns (cpuRequest: Quantity, memoryRequest: Quantity, cpuLimit: Quantity, memoryLimit: Quantity, involved: bool)
    requires notes.Valid() && notes.app == app && notes.platform == p
    modifies notes
    ensures notes.Valid() && notes.visited == old(notes.visited) + [CpuRequest, MemoryRequest, CpuLimit, MemoryLimit]
    ensures cpuRequest == Winner(CpuRequest, app, p).cpuRequest && memoryRequest == Winner(MemoryRequest, app, p).memoryRequest
    ensures cpuLimit == Winner(CpuLimit, app, p).cpuLimit && memoryLimit == Winner(MemoryLimit, app, p).memoryLimit
    ensures involved == (FromPlatform(CpuRequest, app, p) || FromPlatform(CpuLimit, app, p)
                         || FromPlatform(MemoryRequest, app, p) || FromPlatform(MemoryLimit, app, p))
  {
    hide Inherited, Has, FromPlatform, Builtin, Winner;
    HasMeans(app);
    HasMeans(p);
    ResourceWinners(app, p);
    var s0, s1, s2, s3;
    cpuRequest, s0 := notes.Pick(CpuRequest, app.cpuRequest, p.cpuRequest, Builtin().cpuRequest);
    memoryRequest, s1 := notes.Pick(MemoryRequest, app.memoryRequest, p.memoryRequest, Builtin().memoryRequest);
    cpuLimit, s2 := notes.Pick(CpuLimit, app.cpuLimit, p.cpuLimit, Builtin().cpuLimit);
    memoryLimit, s3 := notes.Pick(MemoryLimit, app.memoryLimit, p.memoryLimit, Builtin().memoryLimit);
    involved := s0 || s1 || s2 || s3;
  }

  method PickPointers(notes: Notes, app: Layer, p: Layer)
    returns (burst: Option<int>, window: Option<int>, threshold: Option<int>)
    requires notes.Valid() && notes.app == app && notes.platform == p
    modifies notes
    ensures notes.Valid() && notes.visited == old(notes.visited) + [TargetBurst, PanicWindow, PanicThreshold]
    ensures burst == Winner(TargetBurst, app, p).targetBurst && window == Winner(PanicWindow, app, p).panicWindow
    ensures threshold == Winner(PanicThreshold, app, p).panicThreshold
  {
    hide Inherited, Has, Builtin, Winner, FromPlatform;
    HasMeans(app);
    HasMeans(p);
    KnobWinners(app, p);
    burst := notes.PickPointer(TargetBurst, app.targetBurst, p.targetBurst);
    window := notes.PickPointer(PanicWindow, app.panicWindow, p.panicWindow);
    threshold := notes.PickPointer(PanicThreshold, app.panicThreshold, p.panicThreshold);
  }

  method PickKnobs(notes: Notes, app: Layer, p: Layer) returns (timeout: int, delay: string)
    requires notes.Valid() && notes.app == app && notes.platform == p
    modifies notes
    ensures notes.Valid() && notes.visited == old(notes.visited) + [TimeoutSeconds, ScaleDownDelay]
    ensures timeout == Winner(TimeoutSeconds, app, p).timeoutSeconds && delay == Winner(ScaleDownDelay, app, p).scaleDownDelay
  {
    hide Inherited, Has, Builtin, Winner, FromPlatform;
    HasMeans(app);
    HasMeans(p);
    WinnerMeans(TimeoutSeconds, app, p);
    KnobWinners(app, p);
    timeout := notes.PickNumber(TimeoutSeconds, app.timeoutSeconds, p.timeoutSeconds, Builtin().timeoutSeconds);
    delay := notes.PickText(ScaleDownDelay, app.scaleDownDelay, p.scaleDownDelay);
  }

  /** Field by field, noting each platform value as it is taken; the notes are sorted at the end. */
  method ResolveEffective(app: Layer, platform: Option<PlatformSpec>) returns (eff: Effective)
    ensures eff == Resolve(app, platform)
  {
    hide Inherited, Has, FromPlatform, Builtin, Winner;
    var p, budget := NOTHING, BUILTIN_BUDGET;
    if platform.Some? {
      p := platform.value.layer;
      if platform.value.budget > 0 {
        budget := platform.value.budget;
      }
    }
    HasMeans(app);
    HasMeans(p);
    WinnerMeans(ContainerConcurrency, app, p);
    var notes := new Notes(app, p);
    var concurrency := notes.PickNumber(
      ContainerConcurrency, app.containerConcurrency, p.containerConcurrency, Builtin().containerConcurrency);
    var cpuRequest, memoryRequest, cpuLimit, memoryLimit, involved := PickResources(notes, app, p);
    var timeout, delay := PickKnobs(notes, app, p);
    var burst, window, threshold := PickPointers(notes, app, p);
    assert notes.visited == VISITED;
    var inherited := Reported(notes.inherited, app, p);
    eff := Effective(
      Layer(concurrency, cpuRequest, memoryRequest, cpuLimit, memoryLimit, timeout, delay, burst, window, threshold),
      involved, budget, inherited);
  }

  /** What is noted on the way is what the report lists, before sorting. */
  lemma {:induction false} Report(app: Layer, platform: Layer)
    ensures var r := Inherited(VISITED, app, platform);
            (forall j, k :: 0 <= j < k < |r| ==> r[j] != r[k])
            && forall f :: f in r <==> FromPlatform(f, app, platform)
  {
    VisitsAll();
    InheritedDistinct(VISITED, app, platform);
    forall f
      ensures f in Inherited(VISITED, app, platform) <==> FromPlatform(f, app, platform)
    {
      InheritedMembers(VISITED, app, platform, f);
    }
  }
}
