/**
The environment list of the rendered container: operator-managed variables, the Secret-backed
envMap with the bound database folded in, the user's plain env, and the public origins.
 */
module EnvAssembly {
  import opened Wrappers
  import opened Dictionary
  import opened DecimalText

  datatype Ref = Ref(secret: string, key: string)

  datatype Source = Plain(value: string) | Secret(ref: Ref)

  datatype EnvVar = EnvVar(name: string, source: Source)

  datatype Storage = Storage(provider: string, bucket: string, region: string, endpoint: string)
  datatype Cache = Cache(provider: string, url: string, keyPrefix: string)
  datatype Revalidation = Revalidation(queue: string, brokerUrl: string)
  datatype Rum = Rum(enabled: bool, sampleRate: string)
  datatype Tracing = Tracing(enabled: bool, endpoint: string, sampleRate: string)
  datatype Observability = Observability(enabled: bool, rum: Rum, tracing: Tracing)

  /** An empty key is unset. */
  datatype Database = Database(url: Ref, readOnly: Option<Ref>)

  /** Absent sections are their zero values. */
  datatype Spec = Spec(
    app: string, poolMax: int, storage: Storage, cache: Cache, revalidation: Revalidation,
    observability: Observability, database: Option<Database>, env: map<string, string>, publicHosts: seq<string>)

  // ----- Operator-managed variables ------------------------------------------------------------------

  function Maybe(present: bool, name: string, value: string): seq<EnvVar> {
    if present then [EnvVar(name, Plain(value))] else []
  }

  function BaseEnv(s: Spec): seq<EnvVar> {
    [EnvVar("HOSTNAME", Plain("0.0.0.0")), EnvVar("NODE_ENV", Plain("production"))]
  }

  function PoolEnv(s: Spec): seq<EnvVar> {
    if s.poolMax > 0 then [EnvVar("KNEXT_DB_POOL_MAX", Plain(Decimal(s.poolMax)))] else []
  }

  function StorageEnv(s: Spec): seq<EnvVar> {
    if s.storage.provider == "" then []
    else
      [EnvVar("STORAGE_PROVIDER", Plain(s.storage.provider)), EnvVar("GCS_BUCKET_NAME", Plain(s.storage.bucket))]
      + Maybe(s.storage.region != "", "CACHE_BUCKET_REGION", s.storage.region)
      + Maybe(s.storage.endpoint != "", "S3_ENDPOINT", s.storage.endpoint)
  }

  function CacheEnv(s: Spec): seq<EnvVar> {
    if s.cache.provider == "" then []
    else
      [EnvVar("CACHE_PROVIDER", Plain(s.cache.provider)), EnvVar("REDIS_URL", Plain(s.cache.url))]
      + Maybe(s.cache.keyPrefix != "", "REDIS_KEY_PREFIX", s.cache.keyPrefix)
  }

  function RevalidationEnv(s: Spec): seq<EnvVar> {
    if s.revalidation.queue == "" then []
    else
      [EnvVar("KAFKA_BROKER_URL", Plain(s.revalidation.brokerUrl)),
       EnvVar("KAFKA_REVALIDATION_TOPIC", Plain(s.app + "-revalidation"))]
  }

  function ObservabilityEnv(s: Spec): seq<EnvVar> {
    var o := s.observability;
    if !o.enabled then []
    else
      [EnvVar("KN_APP_NAME", Plain(s.app))]
      + Maybe(o.rum.enabled, "NEXT_PUBLIC_RUM_ENABLED", "true")
      + Maybe(o.rum.enabled && o.rum.sampleRate != "", "NEXT_PUBLIC_RUM_SAMPLE_RATE", o.rum.sampleRate)
      + Maybe(o.tracing.enabled, "OTEL_TRACING_ENABLED", "true")
      + Maybe(o.tracing.enabled && o.tracing.endpoint != "", "OTEL_EXPORTER_OTLP_ENDPOINT", o.tracing.endpoint)
      + Maybe(o.tracing.enabled && o.tracing.sampleRate != "", "OTEL_TRACES_SAMPLER_ARG", o.tracing.sampleRate)
  }

  function OperatorEnv(s: Spec): seq<EnvVar> {
    BaseEnv(s) + PoolEnv(s) + StorageEnv(s) + CacheEnv(s) + RevalidationEnv(s) + ObservabilityEnv(s)
  }

  /** Admission's own list of the names the operator injects: a hand-kept mirror of the conditionals above. */
  function ReservedOperatorEnvNames(s: Spec): set<string> {
    {"HOSTNAME", "NODE_ENV"}
    + (if s.poolMax > 0 then {"KNEXT_DB_POOL_MAX"} else {})
    + (if s.storage.provider != "" then
         {"STORAGE_PROVIDER", "GCS_BUCKET_NAME"}
         + (if s.storage.region != "" then {"CACHE_BUCKET_REGION"} else {})
         + (if s.storage.endpoint != "" then {"S3_ENDPOINT"} else {})
       else {})
    + (if s.cache.provider != "" then
         {"CACHE_PROVIDER", "REDIS_URL"} + (if s.cache.keyPrefix != "" then {"REDIS_KEY_PREFIX"} else {})
       else {})
    + (if s.revalidation.queue != "" then {"KAFKA_BROKER_URL", "KAFKA_REVALIDATION_TOPIC"} else {})
    + (if s.observability.enabled then
         {"KN_APP_NAME"}
         + (if s.observability.rum.enabled then
              {"NEXT_PUBLIC_RUM_ENABLED"}
              + (if s.observability.rum.sampleRate != "" then {"NEXT_PUBLIC_RUM_SAMPLE_RATE"} else {})
            else {})
         + (if s.observability.tracing.enabled then
              {"OTEL_TRACING_ENABLED"}
              + (if s.observability.tracing.endpoint != "" then {"OTEL_EXPORTER_OTLP_ENDPOINT"} else {})
              + (if s.observability.tracing.sampleRate != "" then {"OTEL_TRACES_SAMPLER_ARG"} else {})
            else {})
       else {})
  }

  // ----- Lists of variables -----------------------------------------------------------------------------

  predicate Has(env: seq<EnvVar>, name: string) { exists k :: 0 <= k < |env| && env[k].name == name }

  predicate NoRepeat(env: seq<EnvVar>) {
    forall j, k :: 0 <= j < k < |env| ==> env[j].name != env[k].name
  }

  /** What the container sees: the last entry of a name counts. */
  function Lookup(env: seq<EnvVar>, name: string): Option<Source> {
    if |env| == 0 then None
    else if env[|env| - 1].name == name then Some(env[|env| - 1].source)
    else Lookup(env[..|env| - 1], name)
  }

  function IndexOf(env: seq<EnvVar>, name: string): (k: nat)
    requires Has(env, name)
    ensures k < |env| && env[k].name == name
  {
    if env[0].name == name then 0 else 1 + IndexOf(env[1..], name)
  }

  lemma {:induction false} LookupHas(env: seq<EnvVar>, name: string)
    ensures Lookup(env, name).Some? <==> Has(env, name)
  {
    if |env| > 0 {
      var front := env[..|env| - 1];
      LookupHas(front, name);
      if Has(env, name) && env[|env| - 1].name != name {
        var k :| 0 <= k < |env| && env[k].name == name;
        assert front[k].name == name;
      }
      if Has(front, name) {
        var k :| 0 <= k < |front| && front[k].name == name;
        assert env[k].name == name;
      }
    }
  }

  lemma {:induction false} LookupReplace(env: seq<EnvVar>, k: nat, e: EnvVar, name: string)
    requires NoRepeat(env) && k < |env| && env[k].name == e.name
    ensures Lookup(env[k := e], name) == if name == e.name then Some(e.source) else Lookup(env, name)
  {
    var n := |env| - 1;
    if k < n {
      assert env[k := e][..n] == env[..n][k := e];
      LookupReplace(env[..n], k, e, name);
    } else {
      assert env[k := e][..n] == env[..n];
    }
  }

  lemma {:induction false} LookupAppend(env: seq<EnvVar>, e: EnvVar, name: string)
    ensures Lookup(env + [e], name) == if name == e.name then Some(e.source) else Lookup(env, name)
  {
    assert (env + [e])[..|env|] == env;
  }

  // ----- The operator's names -------------------------------------------------------------------------------

  /** The position of an operator-managed name in the order they are appended, told from its length and first letter. */
  function Rank(n: string): nat {
    if |n| == 8 then if n[0] == 'H' then 0 else 1
    else if |n| == 17 then 2
    else if |n| == 16 then if n[0] == 'S' then 3 else if n[0] == 'R' then 9 else 10
    else if |n| == 15 then 4
    else if |n| == 19 then 5
    else if |n| == 11 then if n[0] == 'S' then 6 else 12
    else if |n| == 14 then 7
    else if |n| == 9 then 8
    else if |n| == 24 then 11
    else if |n| == 23 then if n[0] == 'N' then 13 else 17
    else if |n| == 27 then if n[0] == 'N' then 14 else 16
    else if |n| == 20 then 15
    else 18
  }

  predicate Ranked(env: seq<EnvVar>, lo: nat, hi: nat) {
    && (forall k :: 0 <= k < |env| ==> lo <= Rank(env[k].name) < hi)
    && (forall j, k :: 0 <= j < k < |env| ==> Rank(env[j].name) < Rank(env[k].name))
  }

  lemma {:induction false} JoinRanked(a: seq<EnvVar>, b: seq<EnvVar>, lo: nat, mid: nat, hi: nat)
    requires lo <= mid <= hi && Ranked(a, lo, mid) && Ranked(b, mid, hi)
    ensures Ranked(a + b, lo, hi)
  {
    hide Rank;
  }

  lemma {:induction false} MaybeRanked(present: bool, name: string, value: string)
    ensures Ranked(Maybe(present, name, value), Rank(name), Rank(name) + 1)
  {
    hide Rank;
  }

  lemma {:induction false} StorageRanked(s: Spec)
    ensures Ranked(StorageEnv(s), 3, 7)
  {
    var two := [EnvVar("STORAGE_PROVIDER", Plain(s.storage.provider)), EnvVar("GCS_BUCKET_NAME", Plain(s.storage.bucket))];
    var region := Maybe(s.storage.region != "", "CACHE_BUCKET_REGION", s.storage.region);
    var endpoint := Maybe(s.storage.endpoint != "", "S3_ENDPOINT", s.storage.endpoint);
    assert Ranked(two, 3, 5);
    assert Ranked(region, 5, 6) && Ranked(endpoint, 6, 7);
    JoinRanked(two, region, 3, 5, 6);
    JoinRanked(two + region, endpoint, 3, 6, 7);
  }

  lemma {:induction false} CacheRanked(s: Spec)
    ensures Ranked(CacheEnv(s), 7, 10)
  {
    var two := [EnvVar("CACHE_PROVIDER", Plain(s.cache.provider)), EnvVar("REDIS_URL", Plain(s.cache.url))];
    var prefix := Maybe(s.cache.keyPrefix != "", "REDIS_KEY_PREFIX", s.cache.keyPrefix);
    assert Ranked(two, 7, 9) && Ranked(prefix, 9, 10);
    JoinRanked(two, prefix, 7, 9, 10);
  }

  lemma {:induction false} ObservabilityRanked(s: Spec)
    ensures Ranked(ObservabilityEnv(s), 12, 18)
  {
    hide Rank, Maybe;
    var o := s.observability;
    var app := [EnvVar("KN_APP_NAME", Plain(s.app))];
    var r1 := Maybe(o.rum.enabled, "NEXT_PUBLIC_RUM_ENABLED", "true");
    var r2 := Maybe(o.rum.enabled && o.rum.sampleRate != "", "NEXT_PUBLIC_RUM_SAMPLE_RATE", o.rum.sampleRate);
    var t1 := Maybe(o.tracing.enabled, "OTEL_TRACING_ENABLED", "true");
    var t2 := Maybe(o.tracing.enabled && o.tracing.endpoint != "", "OTEL_EXPORTER_OTLP_ENDPOINT", o.tracing.endpoint);
    var t3 := Maybe(o.tracing.enabled && o.tracing.sampleRate != "", "OTEL_TRACES_SAMPLER_ARG", o.tracing.sampleRate);
    MaybeRanked(o.rum.enabled, "NEXT_PUBLIC_RUM_ENABLED", "true");
    MaybeRanked(o.rum.enabled && o.rum.sampleRate != "", "NEXT_PUBLIC_RUM_SAMPLE_RATE", o.rum.sampleRate);
    MaybeRanked(o.tracing.enabled, "OTEL_TRACING_ENABLED", "true");
    MaybeRanked(o.tracing.enabled && o.tracing.endpoint != "", "OTEL_EXPORTER_OTLP_ENDPOINT", o.tracing.endpoint);
    MaybeRanked(o.tracing.enabled && o.tracing.sampleRate != "", "OTEL_TRACES_SAMPLER_ARG", o.tracing.sampleRate);
    ObservabilityRanks();
    JoinRanked(app, r1, 12, 13, 14);
    JoinRanked(app + r1, r2, 12, 14, 15);
    JoinRanked(app + r1 + r2, t1, 12, 15, 16);
    JoinRanked(app + r1 + r2 + t1, t2, 12, 16, 17);
    JoinRanked(app + r1 + r2 + t1 + t2, t3, 12, 17, 18);
  }

  lemma {:induction false} ObservabilityRanks()
    ensures Rank("KN_APP_NAME") == 12 && Rank("NEXT_PUBLIC_RUM_ENABLED") == 13
    ensures Rank("NEXT_PUBLIC_RUM_SAMPLE_RATE") == 14 && Rank("OTEL_TRACING_ENABLED") == 15
    ensures Rank("OTEL_EXPORTER_OTLP_ENDPOINT") == 16 && Rank("OTEL_TRACES_SAMPLER_ARG") == 17
  {
  }

  lemma {:induction false} SmallRanked(s: Spec)
    ensures Ranked(BaseEnv(s), 0, 2) && Ranked(PoolEnv(s), 2, 3) && Ranked(RevalidationEnv(s), 10, 12)
  {
    hide Decimal;
  }

  lemma {:induction false} OperatorRanked(s: Spec)
    ensures Ranked(OperatorEnv(s), 0, 18)
  {
    hide BaseEnv, PoolEnv, StorageEnv, CacheEnv, RevalidationEnv, ObservabilityEnv, Ranked;
    SmallRanked(s);
    StorageRanked(s);
    CacheRanked(s);
    ObservabilityRanked(s);
    JoinRanked(BaseEnv(s), PoolEnv(s), 0, 2, 3);
    JoinRanked(BaseEnv(s) + PoolEnv(s), StorageEnv(s), 0, 3, 7);
    JoinRanked(BaseEnv(s) + PoolEnv(s) + StorageEnv(s), CacheEnv(s), 0, 7, 10);
    JoinRanked(BaseEnv(s) + PoolEnv(s) + StorageEnv(s) + CacheEnv(s), RevalidationEnv(s), 0, 10, 12);
    JoinRanked(BaseEnv(s) + PoolEnv(s) + StorageEnv(s) + CacheEnv(s) + RevalidationEnv(s), ObservabilityEnv(s), 0, 12, 18);
  }

  lemma {:induction false} OperatorNoRepeat(s: Spec)
    ensures NoRepeat(OperatorEnv(s))
  {
    hide OperatorEnv, Rank;
    OperatorRanked(s);
  }

  function Names(env: seq<EnvVar>): set<string> { set k | 0 <= k < |env| :: env[k].name }

  lemma {:induction false} NamesJoin(a: seq<EnvVar>, b: seq<EnvVar>)
    ensures Names(a + b) == Names(a) + Names(b)
  {
    var c := a + b;
    forall n | n in Names(a) + Names(b)
      ensures n in Names(c)
    {
      if n in Names(a) {
        var k :| 0 <= k < |a| && a[k].name == n;
        assert c[k].name == n;
      } else {
        var k :| 0 <= k < |b| && b[k].name == n;
        assert c[|a| + k].name == n;
      }
    }
  }

  lemma {:induction false} MaybeNames(present: bool, name: string, value: string)
    ensures Names(Maybe(present, name, value)) == if present then {name} else {}
  {
    var m := Maybe(present, name, value);
    assert present ==> m[0].name == name;
  }

  lemma {:induction false} PairNames(a: EnvVar, b: EnvVar)
    ensures Names([a, b]) == {a.name, b.name}
  {
    var m := [a, b];
    assert m[0].name == a.name && m[1].name == b.name;
  }

  lemma {:induction false} SmallParity(s: Spec)
    ensures Names(BaseEnv(s)) == {"HOSTNAME", "NODE_ENV"}
    ensures Names(PoolEnv(s)) == if s.poolMax > 0 then {"KNEXT_DB_POOL_MAX"} else {}
    ensures Names(RevalidationEnv(s))
         == if s.revalidation.queue != "" then {"KAFKA_BROKER_URL", "KAFKA_REVALIDATION_TOPIC"} else {}
  {
    hide Decimal;
    PairNames(EnvVar("HOSTNAME", Plain("0.0.0.0")), EnvVar("NODE_ENV", Plain("production")));
    PairNames(EnvVar("KAFKA_BROKER_URL", Plain(s.revalidation.brokerUrl)),
              EnvVar("KAFKA_REVALIDATION_TOPIC", Plain(s.app + "-revalidation")));
    if s.poolMax > 0 {
      MaybeNames(true, "KNEXT_DB_POOL_MAX", Decimal(s.poolMax));
    }
  }

  lemma {:induction false} StorageParity(s: Spec)
    ensures Names(StorageEnv(s))
         == if s.storage.provider != "" then
              {"STORAGE_PROVIDER", "GCS_BUCKET_NAME"}
              + (if s.storage.region != "" then {"CACHE_BUCKET_REGION"} else {})
              + (if s.storage.endpoint != "" then {"S3_ENDPOINT"} else {})
            else {}
  {
    hide Maybe, Names;
    NothingNamed();
    var a, b := EnvVar("STORAGE_PROVIDER", Plain(s.storage.provider)), EnvVar("GCS_BUCKET_NAME", Plain(s.storage.bucket));
    var region := Maybe(s.storage.region != "", "CACHE_BUCKET_REGION", s.storage.region);
    var endpoint := Maybe(s.storage.endpoint != "", "S3_ENDPOINT", s.storage.endpoint);
    PairNames(a, b);
    MaybeNames(s.storage.region != "", "CACHE_BUCKET_REGION", s.storage.region);
    MaybeNames(s.storage.endpoint != "", "S3_ENDPOINT", s.storage.endpoint);
    NamesJoin([a, b], region);
    NamesJoin([a, b] + region, endpoint);
  }

  lemma {:induction false} NothingNamed()
    ensures Names([]) == {}
  {
  }

  lemma {:induction false} CacheParity(s: Spec)
    ensures Names(CacheEnv(s))
         == if s.cache.provider != "" then
              {"CACHE_PROVIDER", "REDIS_URL"} + (if s.cache.keyPrefix != "" then {"REDIS_KEY_PREFIX"} else {})
            else {}
  {
    hide Maybe, Names;
    NothingNamed();
    var a, b := EnvVar("CACHE_PROVIDER", Plain(s.cache.provider)), EnvVar("REDIS_URL", Plain(s.cache.url));
    var prefix := Maybe(s.cache.keyPrefix != "", "REDIS_KEY_PREFIX", s.cache.keyPrefix);
    PairNames(a, b);
    MaybeNames(s.cache.keyPrefix != "", "REDIS_KEY_PREFIX", s.cache.keyPrefix);
    NamesJoin([a, b], prefix);
  }

  lemma {:induction false} ObservabilityParity(s: Spec)
    ensures Names(ObservabilityEnv(s))
         == if s.observability.enabled then
              {"KN_APP_NAME"}
              + (if s.observability.rum.enabled then
                   {"NEXT_PUBLIC_RUM_ENABLED"}
                   + (if s.observability.rum.sampleRate != "" then {"NEXT_PUBLIC_RUM_SAMPLE_RATE"} else {})
                 else {})
              + (if s.observability.tracing.enabled then
                   {"OTEL_TRACING_ENABLED"}
                   + (if s.observability.tracing.endpoint != "" then {"OTEL_EXPORTER_OTLP_ENDPOINT"} else {})
                   + (if s.observability.tracing.sampleRate != "" then {"OTEL_TRACES_SAMPLER_ARG"} else {})
                 else {})
            else {}
  {
    hide Maybe, Names;
    NothingNamed();
    var o := s.observability;
    var app := Maybe(true, "KN_APP_NAME", s.app);
    var r1 := Maybe(o.rum.enabled, "NEXT_PUBLIC_RUM_ENABLED", "true");
    var r2 := Maybe(o.rum.enabled && o.rum.sampleRate != "", "NEXT_PUBLIC_RUM_SAMPLE_RATE", o.rum.sampleRate);
    var t1 := Maybe(o.tracing.enabled, "OTEL_TRACING_ENABLED", "true");
    var t2 := Maybe(o.tracing.enabled && o.tracing.endpoint != "", "OTEL_EXPORTER_OTLP_ENDPOINT", o.tracing.endpoint);
    var t3 := Maybe(o.tracing.enabled && o.tracing.sampleRate != "", "OTEL_TRACES_SAMPLER_ARG", o.tracing.sampleRate);
    MaybeNames(true, "KN_APP_NAME", s.app);
    MaybeNames(o.rum.enabled, "NEXT_PUBLIC_RUM_ENABLED", "true");
    MaybeNames(o.rum.enabled && o.rum.sampleRate != "", "NEXT_PUBLIC_RUM_SAMPLE_RATE", o.rum.sampleRate);
    MaybeNames(o.tracing.enabled, "OTEL_TRACING_ENABLED", "true");
    MaybeNames(o.tracing.enabled && o.tracing.endpoint != "", "OTEL_EXPORTER_OTLP_ENDPOINT", o.tracing.endpoint);
    MaybeNames(o.tracing.enabled && o.tracing.sampleRate != "", "OTEL_TRACES_SAMPLER_ARG", o.tracing.sampleRate);
    NamesJoin(app, r1);
    NamesJoin(app + r1, r2);
    NamesJoin(app + r1 + r2, t1);
    NamesJoin(app + r1 + r2 + t1, t2);
    NamesJoin(app + r1 + r2 + t1 + t2, t3);
    SingleMaybe("KN_APP_NAME", s.app);
  }

  lemma {:induction false} SingleMaybe(name: string, value: string)
    ensures Maybe(true, name, value) == [EnvVar(name, Plain(value))]
  {
  }

  /**
  The two hand-kept lists agree: for every spec, the names admission reserves are exactly the names
  the operator injects before envMap, and it injects none of them twice.
   */
  lemma {:induction false} ReservedParity(s: Spec)
    ensures Names(OperatorEnv(s)) == ReservedOperatorEnvNames(s)
    ensures NoRepeat(OperatorEnv(s))
  {
    OperatorNoRepeat(s);
    NamesOfParts(s);
    SmallParity(s);
    StorageParity(s);
    CacheParity(s);
    ObservabilityParity(s);
    hide OperatorEnv, BaseEnv, PoolEnv, StorageEnv, CacheEnv, RevalidationEnv, ObservabilityEnv, Names, NoRepeat;
  }

  lemma {:induction false} NamesOfParts(s: Spec)
    ensures Names(OperatorEnv(s))
         == Names(BaseEnv(s)) + Names(PoolEnv(s)) + Names(StorageEnv(s)) + Names(CacheEnv(s))
            + Names(RevalidationEnv(s)) + Names(ObservabilityEnv(s))
  {
    hide BaseEnv, PoolEnv, StorageEnv, CacheEnv, RevalidationEnv, ObservabilityEnv, Names;
    NamesJoin(BaseEnv(s), PoolEnv(s));
    NamesJoin(BaseEnv(s) + PoolEnv(s), StorageEnv(s));
    NamesJoin(BaseEnv(s) + PoolEnv(s) + StorageEnv(s), CacheEnv(s));
    NamesJoin(BaseEnv(s) + PoolEnv(s) + StorageEnv(s) + CacheEnv(s), RevalidationEnv(s));
    NamesJoin(BaseEnv(s) + PoolEnv(s) + StorageEnv(s) + CacheEnv(s) + RevalidationEnv(s), ObservabilityEnv(s));
  }

  // ----- The bound database -----------------------------------------------------------------------------------

  type EnvMap = map<string, Ref>

  const DATABASE_URL := "DATABASE_URL"
  const DATABASE_URL_RO := "DATABASE_URL_RO"
  const PUBLIC_ORIGINS := "KNEXT_PUBLIC_ORIGINS"

  function WithKey(ref: Ref, defaultKey: string): Ref {
    if ref.key == "" then ref.(key := defaultKey) else ref
  }

  /** The bound entries, written over whatever the user mapped to those names. */
  function BoundMap(m: EnvMap, db: Option<Database>): EnvMap {
    match db
    case None => m
    case Some(d) =>
      var bound := m[DATABASE_URL := WithKey(d.url, DATABASE_URL)];
      if d.readOnly.Some? then bound[DATABASE_URL_RO := WithKey(d.readOnly.value, DATABASE_URL_RO)] else bound
  }

  // ----- The envMap layer ----------------------------------------------------------------------------------------

  /** How an envMap name meets the operator's own variables. */
  datatype Kind = Free | OperatorWins | Exempt | Grandfathered

  function KindOf(op: seq<EnvVar>, name: string): Kind {
    if !Has(op, name) then Free
    else if name == "HOSTNAME" then OperatorWins
    else if name in {"REDIS_URL", "KAFKA_BROKER_URL", "OTEL_EXPORTER_OTLP_ENDPOINT"} then Exempt
    else Grandfathered
  }

  /** The names of one kind, in the order given. */
  function Select(op: seq<EnvVar>, names: seq<string>, kind: Kind): seq<string> {
    if |names| == 0 then []
    else
      var n := |names| - 1;
      Select(op, names[..n], kind) + if KindOf(op, names[n]) == kind then [names[n]] else []
  }

  function Mapped(op: seq<EnvVar>, names: seq<string>, m: EnvMap): (env: seq<EnvVar>)
    requires forall n :: n in names ==> n in m
    ensures |env| >= |op|
  {
    if |names| == 0 then op
    else
      var name := names[|names| - 1];
      var env := Mapped(op, names[..|names| - 1], m);
      var e := EnvVar(name, Secret(m[name]));
      if KindOf(op, name) == Free then env + [e]
      else if KindOf(op, name) == OperatorWins then env
      else env[IndexOf(op, name) := e]
  }

  predicate Unrepeated(names: seq<string>) { forall j, k :: 0 <= j < k < |names| ==> names[j] != names[k] }

  /** The operator's slots stay where they were: the saved positions remain valid. */
  predicate KeepsSlots(env: seq<EnvVar>, op: seq<EnvVar>) {
    |env| >= |op| && forall k :: 0 <= k < |op| ==> env[k].name == op[k].name
  }

  function MapLayer(op: seq<EnvVar>, names: seq<string>, m: EnvMap, name: string): Option<Source>
    requires forall n :: n in names ==> n in m
  {
    if name in names && KindOf(op, name) != OperatorWins then Some(Secret(m[name])) else Lookup(op, name)
  }

  lemma {:induction false} MappedSlots(op: seq<EnvVar>, names: seq<string>, m: EnvMap)
    requires forall n :: n in names ==> n in m
    ensures KeepsSlots(Mapped(op, names, m), op)
  {
    hide KindOf, IndexOf;
    if |names| > 0 { MappedSlots(op, names[..|names| - 1], m); }
  }

  lemma {:induction false} MappedLookup(op: seq<EnvVar>, names: seq<string>, m: EnvMap, name: string)
    requires NoRepeat(op) && Unrepeated(names) && forall n :: n in names ==> n in m
    ensures NoRepeat(Mapped(op, names, m))
    ensures Lookup(Mapped(op, names, m), name) == MapLayer(op, names, m, name)
  {
    hide KindOf, IndexOf, Lookup, NoRepeat;
    if |names| > 0 {
      var last, front := names[|names| - 1], names[..|names| - 1];
      var env := Mapped(op, front, m);
      MappedLookup(op, front, m, name);
      MappedLookup(op, front, m, last);
      MappedSlots(op, front, m);
      assert name in names <==> name in front || name == last;
      assert last !in front;
      var e := EnvVar(last, Secret(m[last]));
      if KindOf(op, last) == Free {
        FreeMeans(op, last);
        LookupHas(env, last);
        AppendNoRepeat(env, e);
        LookupAppend(env, e, name);
      } else if KindOf(op, last) != OperatorWins {
        TakenMeans(op, last);
        LookupReplace(env, IndexOf(op, last), e, name);
        ReplaceNoRepeat(env, IndexOf(op, last), e);
      }
    }
  }

  lemma {:induction false} FreeMeans(op: seq<EnvVar>, name: string)
    requires KindOf(op, name) == Free
    ensures Lookup(op, name) == None
  {
    LookupHas(op, name);
  }

  lemma {:induction false} TakenMeans(op: seq<EnvVar>, name: string)
    requires KindOf(op, name) != Free
    ensures Has(op, name)
  {
  }

  lemma {:induction false} AppendNoRepeat(env: seq<EnvVar>, e: EnvVar)
    requires NoRepeat(env) && !Has(env, e.name)
    ensures NoRepeat(env + [e])
  {
  }

  lemma {:induction false} ReplaceNoRepeat(env: seq<EnvVar>, k: nat, e: EnvVar)
    requires NoRepeat(env) && k < |env| && env[k].name == e.name
    ensures NoRepeat(env[k := e])
  {
  }

  lemma {:induction false} SelectMembers(op: seq<EnvVar>, names: seq<string>, kind: Kind, name: string)
    ensures name in Select(op, names, kind) <==> name in names && KindOf(op, name) == kind
  {
    hide KindOf;
    if |names| > 0 {
      SelectMembers(op, names[..|names| - 1], kind, name);
      assert name in names <==> name in names[..|names| - 1] || name == names[|names| - 1];
    }
  }

  lemma {:induction false} SelectSorted(op: seq<EnvVar>, names: seq<string>, kind: Kind)
    requires Sorted(names)
    ensures Sorted(Select(op, names, kind))
  {
    hide KindOf, Before;
    if |names| > 0 {
      var front := names[..|names| - 1];
      SelectSorted(op, front, kind);
      var kept := Select(op, front, kind);
      forall k | 0 <= k < |kept|
        ensures Before(kept[k], names[|names| - 1])
      {
        SelectMembers(op, front, kind, kept[k]);
        var j :| 0 <= j < |front| && front[j] == kept[k];
        assert names[j] == kept[k];
      }
    }
  }

  /**
  The report: each of its three lists is sorted and without repeats; together they hold exactly the
  envMap names that collide with the operator's, each in the one list its kind says.
   */
  lemma {:induction false} ReportPartitions(op: seq<EnvVar>, names: seq<string>, name: string)
    requires Sorted(names)
    ensures Sorted(Select(op, names, OperatorWins)) && Sorted(Select(op, names, Exempt)) && Sorted(Select(op, names, Grandfathered))
    ensures name in names && Has(op, name) <==>
              name in Select(op, names, OperatorWins) + Select(op, names, Exempt) + Select(op, names, Grandfathered)
    ensures name in Select(op, names, OperatorWins) <==> name in names && Has(op, name) && name == "HOSTNAME"
    ensures name in Select(op, names, Exempt) <==>
              name in names && Has(op, name) && name in {"REDIS_URL", "KAFKA_BROKER_URL", "OTEL_EXPORTER_OTLP_ENDPOINT"}
    ensures name in Select(op, names, Grandfathered) ==> name !in Select(op, names, OperatorWins) + Select(op, names, Exempt)
  {
    hide Select, Before;
    SelectSorted(op, names, OperatorWins);
    SelectSorted(op, names, Exempt);
    SelectSorted(op, names, Grandfathered);
    SelectMembers(op, names, OperatorWins, name);
    SelectMembers(op, names, Exempt, name);
    SelectMembers(op, names, Grandfathered, name);
    assert KindOf(op, name) == OperatorWins <==> Has(op, name) && name == "HOSTNAME";
    assert "HOSTNAME"[0] == 'H' && "REDIS_URL"[0] == 'R' && "KAFKA_BROKER_URL"[0] == 'K'
        && "OTEL_EXPORTER_OTLP_ENDPOINT"[0] == 'O';
  }

  // ----- The user layer and the public origins ---------------------------------------------------------------------

  function WithUser(base: seq<EnvVar>, names: seq<string>, values: map<string, string>): seq<EnvVar>
    requires forall n :: n in names ==> n in values
  {
    if |names| == 0 then base
    else
      var name := names[|names| - 1];
      WithUser(base, names[..|names| - 1], values)
      + if Has(base, name) then [] else [EnvVar(name, Plain(values[name]))]
  }

  lemma {:induction false} UserLookup(base: seq<EnvVar>, names: seq<string>, values: map<string, string>, name: string)
    requires NoRepeat(base) && Unrepeated(names) && forall n :: n in names ==> n in values
    ensures NoRepeat(WithUser(base, names, values))
    ensures Lookup(WithUser(base, names, values), name)
         == if Has(base, name) then Lookup(base, name) else if name in names then Some(Plain(values[name])) else None
  {
    hide Lookup, NoRepeat, Has;
    LookupHas(base, name);
    if |names| > 0 {
      var last, front := names[|names| - 1], names[..|names| - 1];
      UserLookup(base, front, values, name);
      UserLookup(base, front, values, last);
      var env := WithUser(base, front, values);
      assert name in names <==> name in front || name == last;
      assert last !in front;
      if Has(base, last) {
        assert env + [] == env;
      } else {
        var e := EnvVar(last, Plain(values[last]));
        LookupHas(env, last);
        AppendNoRepeat(env, e);
        LookupAppend(env, e, name);
      }
    }
  }

  function Origins(hosts: seq<string>): string {
    if |hosts| == 0 then ""
    else if |hosts| == 1 then "https://" + hosts[0]
    else Origins(hosts[..|hosts| - 1]) + "," + "https://" + hosts[|hosts| - 1]
  }

  /** The parts of a text between its commas. */
  function Parts(text: string): (parts: seq<string>)
    ensures |parts| > 0
  {
    if text == "" then [""]
    else
      var front, last := Parts(text[..|text| - 1]), text[|text| - 1];
      if last == ',' then front + [""] else front[..|front| - 1] + [front[|front| - 1] + [last]]
  }

  lemma {:induction false} PartsAppend(a: string, b: string)
    requires ',' !in b
    ensures Parts(a + b) == Parts(a)[..|Parts(a)| - 1] + [Parts(a)[|Parts(a)| - 1] + b]
  {
    if b == "" {
      assert a + b == a;
      var last := Parts(a)[|Parts(a)| - 1];
      assert last + b == last;
    } else {
      var front := b[..|b| - 1];
      assert (a + b)[..|a + b| - 1] == a + front;
      PartsAppend(a, front);
      assert b == front + [b[|b| - 1]];
      var last := Parts(a)[|Parts(a)| - 1];
      assert last + front + [b[|b| - 1]] == last + b;
    }
  }

  lemma {:induction false} PartsAfterComma(text: string, last: string)
    requires ',' !in last
    ensures Parts(text + "," + last) == Parts(text) + [last]
  {
    hide Parts;
    assert Parts(text + ",") == Parts(text) + [""] by { PartsComma(text); }
    PartsAppend(text + ",", last);
    assert "" + last == last;
  }

  lemma {:induction false} PartsComma(text: string)
    ensures Parts(text + ",") == Parts(text) + [""]
  {
    assert (text + ",")[..|text|] == text;
  }

  lemma {:induction false} OnePart(text: string)
    requires ',' !in text
    ensures Parts(text) == [text]
  {
    PartsAppend("", text);
    assert "" + text == text;
  }

  function Https(hosts: seq<string>): seq<string> { seq(|hosts|, k requires 0 <= k < |hosts| => "https://" + hosts[k]) }

  /** The public hosts are read back from the text, in order, each as an https origin. */
  lemma {:induction false} OriginsReadBack(hosts: seq<string>)
    requires |hosts| > 0 && forall h :: h in hosts ==> ',' !in h
    ensures Parts(Origins(hosts)) == Https(hosts)
  {
    hide Parts;
    var n := |hosts| - 1;
    var last := "https://" + hosts[n];
    assert hosts[n] in hosts;
    if n == 0 {
      OnePart(last);
    } else {
      OriginsReadBack(hosts[..n]);
      PartsAfterComma(Origins(hosts[..n]), last);
      assert Https(hosts) == Https(hosts[..n]) + [last];
      assert Origins(hosts) == Origins(hosts[..n]) + "," + last;
    }
  }

  function WithOrigins(env: seq<EnvVar>, hosts: seq<string>): seq<EnvVar> {
    if hosts == [] || Has(env, PUBLIC_ORIGINS) then env else env + [EnvVar(PUBLIC_ORIGINS, Plain(Origins(hosts)))]
  }

  // ----- The whole list ------------------------------------------------------------------------------------------------

  function Assembled(s: Spec, m: EnvMap, mapNames: seq<string>, userNames: seq<string>): seq<EnvVar>
    requires forall n :: n in mapNames ==> n in m
    requires forall n :: n in userNames ==> n in s.env
  {
    WithOrigins(WithUser(Mapped(OperatorEnv(s), mapNames, m), userNames, s.env), s.publicHosts)
  }

  /** What the operator gives each of its names, as a table. */
  function OperatorValue(s: Spec, name: string): string {
    if name == "HOSTNAME" then "0.0.0.0"
    else if name == "NODE_ENV" then "production"
    else if name == "KNEXT_DB_POOL_MAX" then if s.poolMax > 0 then Decimal(s.poolMax) else ""
    else if name == "STORAGE_PROVIDER" then s.storage.provider
    else if name == "GCS_BUCKET_NAME" then s.storage.bucket
    else if name == "CACHE_BUCKET_REGION" then s.storage.region
    else if name == "S3_ENDPOINT" then s.storage.endpoint
    else if name == "CACHE_PROVIDER" then s.cache.provider
    else if name == "REDIS_URL" then s.cache.url
    else if name == "REDIS_KEY_PREFIX" then s.cache.keyPrefix
    else if name == "KAFKA_BROKER_URL" then s.revalidation.brokerUrl
    else if name == "KAFKA_REVALIDATION_TOPIC" then s.app + "-revalidation"
    else if name == "KN_APP_NAME" then s.app
    else if name == "NEXT_PUBLIC_RUM_ENABLED" then "true"
    else if name == "NEXT_PUBLIC_RUM_SAMPLE_RATE" then s.observability.rum.sampleRate
    else if name == "OTEL_TRACING_ENABLED" then "true"
    else if name == "OTEL_EXPORTER_OTLP_ENDPOINT" then s.observability.tracing.endpoint
    else if name == "OTEL_TRACES_SAMPLER_ARG" then s.observability.tracing.sampleRate
    else ""
  }

  /** Every entry has the value the table gives its name. */
  predicate Tabled(s: Spec, env: seq<EnvVar>) {
    forall k :: 0 <= k < |env| ==> env[k].source == Plain(OperatorValue(s, env[k].name))
  }

  lemma {:induction false} TabledJoin(s: Spec, a: seq<EnvVar>, b: seq<EnvVar>)
    requires Tabled(s, a) && Tabled(s, b)
    ensures Tabled(s, a + b)
  {
    hide OperatorValue;
  }

  lemma {:induction false} TabledMaybe(s: Spec, present: bool, name: string, value: string)
    requires OperatorValue(s, name) == value
    ensures Tabled(s, Maybe(present, name, value))
  {
    hide OperatorValue;
  }

  lemma {:induction false} TabledPair(s: Spec, a: EnvVar, b: EnvVar)
    requires a.source == Plain(OperatorValue(s, a.name)) && b.source == Plain(OperatorValue(s, b.name))
    ensures Tabled(s, [a, b]) && Tabled(s, [a])
  {
    hide OperatorValue;
  }

  lemma {:induction false} BaseValues(s: Spec)
    ensures OperatorValue(s, "HOSTNAME") == "0.0.0.0" && OperatorValue(s, "NODE_ENV") == "production"
    ensures s.poolMax > 0 ==> OperatorValue(s, "KNEXT_DB_POOL_MAX") == Decimal(s.poolMax)
    ensures OperatorValue(s, "KAFKA_BROKER_URL") == s.revalidation.brokerUrl
    ensures OperatorValue(s, "KAFKA_REVALIDATION_TOPIC") == s.app + "-revalidation"
  {
    hide Decimal;
  }

  lemma {:induction false} StorageValues(s: Spec)
    ensures OperatorValue(s, "STORAGE_PROVIDER") == s.storage.provider && OperatorValue(s, "GCS_BUCKET_NAME") == s.storage.bucket
    ensures OperatorValue(s, "CACHE_BUCKET_REGION") == s.storage.region && OperatorValue(s, "S3_ENDPOINT") == s.storage.endpoint
    ensures OperatorValue(s, "CACHE_PROVIDER") == s.cache.provider && OperatorValue(s, "REDIS_URL") == s.cache.url
    ensures OperatorValue(s, "REDIS_KEY_PREFIX") == s.cache.keyPrefix
  {
    hide Decimal;
  }

  lemma {:induction false} RumValues(s: Spec)
    ensures OperatorValue(s, "KN_APP_NAME") == s.app
    ensures OperatorValue(s, "NEXT_PUBLIC_RUM_ENABLED") == "true"
    ensures OperatorValue(s, "NEXT_PUBLIC_RUM_SAMPLE_RATE") == s.observability.rum.sampleRate
  {
    hide Decimal;
  }

  lemma {:induction false} TracingValues(s: Spec)
    ensures OperatorValue(s, "OTEL_TRACING_ENABLED") == "true"
    ensures OperatorValue(s, "OTEL_EXPORTER_OTLP_ENDPOINT") == s.observability.tracing.endpoint
    ensures OperatorValue(s, "OTEL_TRACES_SAMPLER_ARG") == s.observability.tracing.sampleRate
  {
    hide Decimal;
  }

  lemma {:induction false} SmallTabled(s: Spec)
    ensures Tabled(s, BaseEnv(s)) && Tabled(s, PoolEnv(s)) && Tabled(s, RevalidationEnv(s))
  {
    hide OperatorValue, Decimal;
    BaseValues(s);
  }

  lemma {:induction false} StorageTabled(s: Spec)
    ensures Tabled(s, StorageEnv(s)) && Tabled(s, CacheEnv(s))
  {
    hide OperatorValue, Tabled, Maybe;
    StorageValues(s);
    NothingTabled(s);
    var a, b := EnvVar("STORAGE_PROVIDER", Plain(s.storage.provider)), EnvVar("GCS_BUCKET_NAME", Plain(s.storage.bucket));
    var c, d := EnvVar("CACHE_PROVIDER", Plain(s.cache.provider)), EnvVar("REDIS_URL", Plain(s.cache.url));
    var region := Maybe(s.storage.region != "", "CACHE_BUCKET_REGION", s.storage.region);
    var endpoint := Maybe(s.storage.endpoint != "", "S3_ENDPOINT", s.storage.endpoint);
    var prefix := Maybe(s.cache.keyPrefix != "", "REDIS_KEY_PREFIX", s.cache.keyPrefix);
    TabledPair(s, a, b);
    TabledPair(s, c, d);
    TabledMaybe(s, s.storage.region != "", "CACHE_BUCKET_REGION", s.storage.region);
    TabledMaybe(s, s.storage.endpoint != "", "S3_ENDPOINT", s.storage.endpoint);
    TabledMaybe(s, s.cache.keyPrefix != "", "REDIS_KEY_PREFIX", s.cache.keyPrefix);
    TabledJoin(s, [a, b], region);
    TabledJoin(s, [a, b] + region, endpoint);
    TabledJoin(s, [c, d], prefix);
  }

  lemma {:induction false} NothingTabled(s: Spec)
    ensures Tabled(s, [])
  {
  }

  lemma {:induction false} ObservabilityTabled(s: Spec)
    ensures Tabled(s, ObservabilityEnv(s))
  {
    hide OperatorValue, Tabled, Maybe;
    var o := s.observability;
    RumValues(s);
    TracingValues(s);
    NothingTabled(s);
    var app := EnvVar("KN_APP_NAME", Plain(s.app));
    var r1 := Maybe(o.rum.enabled, "NEXT_PUBLIC_RUM_ENABLED", "true");
    var r2 := Maybe(o.rum.enabled && o.rum.sampleRate != "", "NEXT_PUBLIC_RUM_SAMPLE_RATE", o.rum.sampleRate);
    var t1 := Maybe(o.tracing.enabled, "OTEL_TRACING_ENABLED", "true");
    var t2 := Maybe(o.tracing.enabled && o.tracing.endpoint != "", "OTEL_EXPORTER_OTLP_ENDPOINT", o.tracing.endpoint);
    var t3 := Maybe(o.tracing.enabled && o.tracing.sampleRate != "", "OTEL_TRACES_SAMPLER_ARG", o.tracing.sampleRate);
    TabledPair(s, app, app);
    TabledMaybe(s, o.rum.enabled, "NEXT_PUBLIC_RUM_ENABLED", "true");
    TabledMaybe(s, o.rum.enabled && o.rum.sampleRate != "", "NEXT_PUBLIC_RUM_SAMPLE_RATE", o.rum.sampleRate);
    TabledMaybe(s, o.tracing.enabled, "OTEL_TRACING_ENABLED", "true");
    TabledMaybe(s, o.tracing.enabled && o.tracing.endpoint != "", "OTEL_EXPORTER_OTLP_ENDPOINT", o.tracing.endpoint);
    TabledMaybe(s, o.tracing.enabled && o.tracing.sampleRate != "", "OTEL_TRACES_SAMPLER_ARG", o.tracing.sampleRate);
    TabledJoin(s, [app], r1);
    TabledJoin(s, [app] + r1, r2);
    TabledJoin(s, [app] + r1 + r2, t1);
    TabledJoin(s, [app] + r1 + r2 + t1, t2);
    TabledJoin(s, [app] + r1 + r2 + t1 + t2, t3);
  }

  lemma {:induction false} OperatorTabled(s: Spec)
    ensures Tabled(s, OperatorEnv(s))
  {
    hide BaseEnv, PoolEnv, StorageEnv, CacheEnv, RevalidationEnv, ObservabilityEnv, Tabled;
    SmallTabled(s);
    StorageTabled(s);
    ObservabilityTabled(s);
    TabledJoin(s, BaseEnv(s), PoolEnv(s));
    TabledJoin(s, BaseEnv(s) + PoolEnv(s), StorageEnv(s));
    TabledJoin(s, BaseEnv(s) + PoolEnv(s) + StorageEnv(s), CacheEnv(s));
    TabledJoin(s, BaseEnv(s) + PoolEnv(s) + StorageEnv(s) + CacheEnv(s), RevalidationEnv(s));
    TabledJoin(s, BaseEnv(s) + PoolEnv(s) + StorageEnv(s) + CacheEnv(s) + RevalidationEnv(s), ObservabilityEnv(s));
  }

  /** Each reserved name is injected with the value the table gives it. */
  lemma {:induction false} OperatorLookup(s: Spec, name: string)
    requires name in ReservedOperatorEnvNames(s)
    ensures Lookup(OperatorEnv(s), name) == Some(Plain(OperatorValue(s, name)))
  {
    hide OperatorEnv, ReservedOperatorEnvNames, OperatorValue, NoRepeat, Lookup;
    HasReserved(s, name);
    OperatorNoRepeat(s);
    OperatorTabled(s);
    var k :| 0 <= k < |OperatorEnv(s)| && OperatorEnv(s)[k].name == name;
    LookupAt(OperatorEnv(s), k);
  }

  /** A Secret reference of the bound database, which names its own key or leaves it to the variable's name. */
  function BoundTo(ref: Ref, name: string): Source { Secret(Ref(ref.secret, if |ref.key| == 0 then name else ref.key)) }

  /** What a name is looked up as, layer by layer, given the user's own envMap. */
  function Layered(s: Spec, userMap: EnvMap, name: string): Option<Source> {
    if name == "HOSTNAME" then Some(Plain("0.0.0.0"))
    else if s.database.Some? && name == "DATABASE_URL" then Some(BoundTo(s.database.value.url, name))
    else if s.database.Some? && s.database.value.readOnly.Some? && name == "DATABASE_URL_RO" then
      Some(BoundTo(s.database.value.readOnly.value, name))
    else if name in userMap then Some(Secret(userMap[name]))
    else if name in ReservedOperatorEnvNames(s) then Some(Plain(OperatorValue(s, name)))
    else if name in s.env then Some(Plain(s.env[name]))
    else if name == "KNEXT_PUBLIC_ORIGINS" && s.publicHosts != [] then Some(Plain(Origins(s.publicHosts)))
    else None
  }

  lemma {:induction false} SortedUnrepeated(names: seq<string>)
    requires Sorted(names)
    ensures Unrepeated(names)
  {
    hide Before;
    forall j, k | 0 <= j < k < |names|
      ensures names[j] != names[k]
    {
      Irreflexive(names[j]);
    }
  }

  lemma {:induction false} HasReserved(s: Spec, name: string)
    ensures Has(OperatorEnv(s), name) <==> name in ReservedOperatorEnvNames(s)
  {
    hide OperatorEnv, ReservedOperatorEnvNames;
    ReservedParity(s);
    var env := OperatorEnv(s);
    if Has(env, name) {
      var k :| 0 <= k < |env| && env[k].name == name;
      assert name in Names(env);
    }
  }

  lemma {:induction false} LookupAt(env: seq<EnvVar>, k: nat)
    requires NoRepeat(env) && k < |env|
    ensures Lookup(env, env[k].name) == Some(env[k].source)
  {
    var n := |env| - 1;
    if k < n { LookupAt(env[..n], k); }
  }

  lemma {:induction false} HostnameFirst(s: Spec)
    ensures |OperatorEnv(s)| > 0 && OperatorEnv(s)[0] == EnvVar("HOSTNAME", Plain("0.0.0.0"))
  {
    hide PoolEnv, StorageEnv, CacheEnv, RevalidationEnv, ObservabilityEnv;
  }

  /**
  The container sees each name at most once, and what it sees is the layered answer: HOSTNAME from
  the operator, then the bound database, the user's envMap, the operator, the user's plain env, and
  the public origins.
   */
  lemma {:induction false} LayeredLookup(s: Spec, userMap: EnvMap, mapNames: seq<string>, userNames: seq<string>, name: string)
    requires Lists(mapNames, BoundMap(userMap, s.database).Keys) && Lists(userNames, s.env.Keys)
    ensures NoRepeat(Assembled(s, BoundMap(userMap, s.database), mapNames, userNames))
    ensures Lookup(Assembled(s, BoundMap(userMap, s.database), mapNames, userNames), name) == Layered(s, userMap, name)
  {
    hide OperatorEnv, ReservedOperatorEnvNames, Mapped, WithUser, Lookup, NoRepeat, Before, Has, Names, Origins, Sorted,
         OperatorValue;
    var m, op := BoundMap(userMap, s.database), OperatorEnv(s);
    ReservedParity(s);
    HasReserved(s, name);
    HasReserved(s, PUBLIC_ORIGINS);
    SortedUnrepeated(mapNames);
    SortedUnrepeated(userNames);
    HostnameFirst(s);
    LookupAt(op, 0);
    LookupHas(op, name);
    if name in ReservedOperatorEnvNames(s) { OperatorLookup(s, name); }
    MappedLookup(op, mapNames, m, name);
    MappedLookup(op, mapNames, m, PUBLIC_ORIGINS);
    var base := Mapped(op, mapNames, m);
    LookupHas(base, name);
    UserLookup(base, userNames, s.env, name);
    UserLookup(base, userNames, s.env, PUBLIC_ORIGINS);
    var env := WithUser(base, userNames, s.env);
    LookupHas(env, PUBLIC_ORIGINS);
    LookupHas(env, name);
    var e := EnvVar(PUBLIC_ORIGINS, Plain(Origins(s.publicHosts)));
    if s.publicHosts != [] && !Has(env, PUBLIC_ORIGINS) {
      AppendNoRepeat(env, e);
      LookupAppend(env, e, name);
    }
    KindMeans(op, name);
  }

  lemma {:induction false} KindMeans(op: seq<EnvVar>, name: string)
    ensures KindOf(op, name) == OperatorWins <==> Has(op, name) && name == "HOSTNAME"
  {
  }

  // ----- The assembly as it runs ---------------------------------------------------------------------------------------

  datatype Warning = DatabaseOverrides(name: string) | UserEnvIgnored(name: string, bySecret: bool)

  datatype Report = Report(operatorWins: seq<string>, grandfathered: seq<string>, exempt: seq<string>)

  function Ignored(base: seq<EnvVar>, names: seq<string>): seq<Warning> {
    if |names| == 0 then []
    else
      var name := names[|names| - 1];
      Ignored(base, names[..|names| - 1])
      + if Has(base, name) then [UserEnvIgnored(name, Lookup(base, name).Some? && Lookup(base, name).value.Secret?)] else []
  }

  /** The user's own entries that the binding writes over. */
  function Overridden(m: EnvMap, db: Option<Database>): seq<Warning> {
    match db
    case None => []
    case Some(d) =>
      (if DATABASE_URL in m then [DatabaseOverrides(DATABASE_URL)] else [])
      + if d.readOnly.Some? && DATABASE_URL_RO in m then [DatabaseOverrides(DATABASE_URL_RO)] else []
  }

  /** A user's entry of the map is reported as overridden exactly when the binding writes over it. */
  lemma {:induction false} OverriddenExactly(m: EnvMap, db: Option<Database>)
    ensures DatabaseOverrides("DATABASE_URL") in Overridden(m, db) <==> db.Some? && "DATABASE_URL" in m
    ensures DatabaseOverrides("DATABASE_URL_RO") in Overridden(m, db) <==>
              db.Some? && db.value.readOnly.Some? && "DATABASE_URL_RO" in m
    ensures forall w :: w in Overridden(m, db) ==> w in {DatabaseOverrides("DATABASE_URL"), DatabaseOverrides("DATABASE_URL_RO")}
  {
    assert |"DATABASE_URL"| != |"DATABASE_URL_RO"|;
  }

  lemma {:induction false} IgnoredMembers(base: seq<EnvVar>, names: seq<string>, w: Warning)
    ensures w in Ignored(base, names) <==>
              && w.UserEnvIgnored? && w.name in names && Has(base, w.name)
              && (w.bySecret <==> Lookup(base, w.name).Some? && Lookup(base, w.name).value.Secret?)
  {
    hide Has, Lookup;
    if |names| > 0 {
      IgnoredMembers(base, names[..|names| - 1], w);
      assert forall n :: n in names <==> n in names[..|names| - 1] || n == names[|names| - 1];
    }
  }

  /** A plain entry is reported as ignored, and by whom, exactly when the map, the binding or the operator has its name. */
  lemma {:induction false} IgnoredExactly(s: Spec, m: EnvMap, mapNames: seq<string>, userNames: seq<string>, name: string)
    requires Lists(mapNames, m.Keys) && Lists(userNames, s.env.Keys)
    ensures var warnings := Ignored(Mapped(OperatorEnv(s), mapNames, m), userNames);
            && (UserEnvIgnored(name, true) in warnings <==> name in s.env && name in m && name != "HOSTNAME")
            && (UserEnvIgnored(name, false) in warnings <==>
                  name in s.env && name in ReservedOperatorEnvNames(s) && (name in m ==> name == "HOSTNAME"))
  {
    hide OperatorEnv, ReservedOperatorEnvNames, Mapped, Lookup, NoRepeat, Before, Has, Ignored, Sorted, OperatorValue;
    var op := OperatorEnv(s);
    var base := Mapped(op, mapNames, m);
    ReservedParity(s);
    HasReserved(s, name);
    HasReserved(s, "HOSTNAME");
    HostnameReserved(s);
    SortedUnrepeated(mapNames);
    MappedLookup(op, mapNames, m, name);
    LookupHas(base, name);
    LookupHas(op, name);
    KindMeans(op, name);
    if name in ReservedOperatorEnvNames(s) { OperatorLookup(s, name); }
    IgnoredMembers(base, userNames, UserEnvIgnored(name, true));
    IgnoredMembers(base, userNames, UserEnvIgnored(name, false));
  }

  lemma {:induction false} HostnameReserved(s: Spec)
    ensures "HOSTNAME" in ReservedOperatorEnvNames(s)
  {
  }

  /** The app as a pass holds it in memory: binding the database writes into its envMap. */
  class App {
    const spec: Spec
    var envMap: EnvMap
    var warnings: seq<Warning>

    constructor (spec: Spec, envMap: EnvMap)
      ensures this.spec == spec && this.envMap == envMap && warnings == []
    {
      this.spec, this.envMap, warnings := spec, envMap, [];
    }

    method Bind(name: string, ref: Ref)
      modifies this
      ensures envMap == old(envMap)[name := WithKey(ref, name)]
      ensures warnings == old(warnings) + if name in old(envMap) then [DatabaseOverrides(name)] else []
    {
      var key := ref.key;
      if key == "" {
        key := name;
      }
      if name in envMap {
        warnings := warnings + [DatabaseOverrides(name)];
      }
      envMap := envMap[name := Ref(ref.secret, key)];
    }

    /** Every envMap entry the binding overrides is warned about, and no other. */
    method InjectBoundDatabaseEnv()
      modifies this
      ensures envMap == BoundMap(old(envMap), spec.database)
      ensures warnings == old(warnings) + Overridden(old(envMap), spec.database)
    {
      if spec.database.None? {
        return;
      }
      assert |DATABASE_URL| != |DATABASE_URL_RO|;
      Bind(DATABASE_URL, spec.database.value.url);
      if spec.database.value.readOnly.Some? {
        Bind(DATABASE_URL_RO, spec.database.value.readOnly.value);
      }
    }

    method SystemEnv() returns (env: seq<EnvVar>)
      ensures env == OperatorEnv(spec)
    {
      hide Decimal;
      env := [EnvVar("HOSTNAME", Plain("0.0.0.0"))];
      env := env + [EnvVar("NODE_ENV", Plain("production"))];
      assert env == BaseEnv(spec);
      if spec.poolMax > 0 {
        env := env + [EnvVar("KNEXT_DB_POOL_MAX", Plain(Decimal(spec.poolMax)))];
      }
      assert env == BaseEnv(spec) + PoolEnv(spec);
      var storage := StorageVars();
      var cache := CacheVars();
      env := env + storage + cache;
      if spec.revalidation.queue != "" {
        env := env + [EnvVar("KAFKA_BROKER_URL", Plain(spec.revalidation.brokerUrl))];
        env := env + [EnvVar("KAFKA_REVALIDATION_TOPIC", Plain(spec.app + "-revalidation"))];
      }
      assert env == BaseEnv(spec) + PoolEnv(spec) + StorageEnv(spec) + CacheEnv(spec) + RevalidationEnv(spec);
      var observability := ObservabilityVars();
      env := env + observability;
    }

    method StorageVars() returns (env: seq<EnvVar>)
      ensures env == StorageEnv(spec)
    {
      env := [];
      var s := spec.storage;
      if s.provider != "" {
        env := env + [EnvVar("STORAGE_PROVIDER", Plain(s.provider))];
        env := env + [EnvVar("GCS_BUCKET_NAME", Plain(s.bucket))];
        if s.region != "" {
          env := env + [EnvVar("CACHE_BUCKET_REGION", Plain(s.region))];
        }
        if s.endpoint != "" {
          env := env + [EnvVar("S3_ENDPOINT", Plain(s.endpoint))];
        }
      }
    }

    method CacheVars() returns (env: seq<EnvVar>)
      ensures env == CacheEnv(spec)
    {
      env := [];
      var c := spec.cache;
      if c.provider != "" {
        env := env + [EnvVar("CACHE_PROVIDER", Plain(c.provider))];
        env := env + [EnvVar("REDIS_URL", Plain(c.url))];
        if c.keyPrefix != "" {
          env := env + [EnvVar("REDIS_KEY_PREFIX", Plain(c.keyPrefix))];
        }
      }
    }

    method ObservabilityVars() returns (env: seq<EnvVar>)
      ensures env == ObservabilityEnv(spec)
    {
      hide Maybe;
      env := [];
      if spec.observability.enabled {
        var rum := RumVars();
        var tracing := TracingVars();
        env := env + [EnvVar("KN_APP_NAME", Plain(spec.app))];
        Regroup(env, spec.observability);
        env := env + rum + tracing;
      }
    }

    method RumVars() returns (env: seq<EnvVar>)
      ensures var rum := spec.observability.rum;
              env == Maybe(rum.enabled, "NEXT_PUBLIC_RUM_ENABLED", "true")
                   + Maybe(rum.enabled && rum.sampleRate != "", "NEXT_PUBLIC_RUM_SAMPLE_RATE", rum.sampleRate)
    {
      env := [];
      var rum := spec.observability.rum;
      if rum.enabled {
        env := env + [EnvVar("NEXT_PUBLIC_RUM_ENABLED", Plain("true"))];
        if rum.sampleRate != "" {
          env := env + [EnvVar("NEXT_PUBLIC_RUM_SAMPLE_RATE", Plain(rum.sampleRate))];
        }
      }
    }

    method TracingVars() returns (env: seq<EnvVar>)
      ensures var t := spec.observability.tracing;
              env == Maybe(t.enabled, "OTEL_TRACING_ENABLED", "true")
                   + Maybe(t.enabled && t.endpoint != "", "OTEL_EXPORTER_OTLP_ENDPOINT", t.endpoint)
                   + Maybe(t.enabled && t.sampleRate != "", "OTEL_TRACES_SAMPLER_ARG", t.sampleRate)
    {
      env := [];
      var t := spec.observability.tracing;
      if t.enabled {
        env := env + [EnvVar("OTEL_TRACING_ENABLED", Plain("true"))];
        if t.endpoint != "" {
          env := env + [EnvVar("OTEL_EXPORTER_OTLP_ENDPOINT", Plain(t.endpoint))];
        }
        if t.sampleRate != "" {
          env := env + [EnvVar("OTEL_TRACES_SAMPLER_ARG", Plain(t.sampleRate))];
        }
      }
    }

    /** The envMap loop: colliding names are resolved in the slots saved before it, the others appended. */
    method MapSecrets(op: seq<EnvVar>) returns (env: seq<EnvVar>, report: Report, names: seq<string>)
      requires NoRepeat(op)
      ensures Lists(names, envMap.Keys)
      ensures env == Mapped(op, names, envMap)
      ensures report == Report(Select(op, names, OperatorWins), Select(op, names, Grandfathered), Select(op, names, Exempt))
    {
      hide IndexOf, Before, Has, Select, Mapped, Lists, NoRepeat;
      names := SortNames(envMap.Keys);
      ListedKeys(names, envMap.Keys);
      var reservedIndex := SaveSlots(op);
      env := op;
      report := Report([], [], []);
      Unmapped(op, envMap);
      for k := 0 to |names|
        invariant forall n :: n in names ==> n in envMap
        invariant env == Mapped(op, names[..k], envMap)
        invariant report.operatorWins == Select(op, names[..k], OperatorWins)
        invariant report.grandfathered == Select(op, names[..k], Grandfathered)
        invariant report.exempt == Select(op, names[..k], Exempt)
      {
        MapStep(op, names, envMap, k);
        var name := names[k];
        var fromSecret := EnvVar(name, Secret(envMap[name]));
        if name in reservedIndex {
          if name == "HOSTNAME" {
            report := report.(operatorWins := report.operatorWins + [name]);
          } else {
            env := env[reservedIndex[name] := fromSecret];
            if name == "REDIS_URL" || name == "KAFKA_BROKER_URL" || name == "OTEL_EXPORTER_OTLP_ENDPOINT" {
              report := report.(exempt := report.exempt + [name]);
            } else {
              report := report.(grandfathered := report.grandfathered + [name]);
            }
          }
        } else {
          env := env + [fromSecret];
        }
      }
      assert names[..|names|] == names;
    }

    method AppendUserEnv(base: seq<EnvVar>) returns (env: seq<EnvVar>, names: seq<string>)
      requires NoRepeat(base)
      modifies this`warnings
      ensures Lists(names, spec.env.Keys)
      ensures env == WithOrigins(WithUser(base, names, spec.env), spec.publicHosts)
      ensures warnings == old(warnings) + Ignored(base, names)
    {
      hide Before, NoRepeat, Origins;
      names := SortNames(spec.env.Keys);
      env := base;
      for k := 0 to |names|
        invariant forall n :: n in names ==> n in spec.env
        invariant env == WithUser(base, names[..k], spec.env)
        invariant warnings == old(warnings) + Ignored(base, names[..k])
      {
        assert names[..k + 1][..k] == names[..k];
        var name := names[k];
        var source := FindSource(base, name);
        if source.Some? {
          warnings := warnings + [UserEnvIgnored(name, source.value.Secret?)];
        } else {
          env := env + [EnvVar(name, Plain(spec.env[name]))];
        }
      }
      assert names[..|names|] == names;
      if |spec.publicHosts| > 0 {
        var taken := FindSource(env, PUBLIC_ORIGINS);
        if taken.None? {
          var origins := JoinOrigins(spec.publicHosts);
          env := env + [EnvVar(PUBLIC_ORIGINS, Plain(origins))];
        }
      }
    }

    /** The whole assembly of one pass. */
    method BuildKsvcEnv() returns (env: seq<EnvVar>, report: Report, ghost mapNames: seq<string>, ghost userNames: seq<string>)
      modifies this`warnings
      ensures Lists(mapNames, envMap.Keys) && Lists(userNames, spec.env.Keys)
      ensures env == Assembled(spec, envMap, mapNames, userNames)
      ensures var op := OperatorEnv(spec);
              report == Report(Select(op, mapNames, OperatorWins), Select(op, mapNames, Grandfathered), Select(op, mapNames, Exempt))
      ensures warnings == old(warnings) + Ignored(Mapped(OperatorEnv(spec), mapNames, envMap), userNames)
    {
      hide OperatorEnv, NoRepeat, Before, Select, WithOrigins, WithUser, Mapped;
      var op := SystemEnv();
      OperatorNoRepeat(spec);
      var base;
      base, report, mapNames := MapSecrets(op);
      SortedUnrepeated(mapNames);
      MappedLookup(op, mapNames, envMap, "");
      env, userNames := AppendUserEnv(base);
    }
  }

  lemma {:induction false} Regroup(env: seq<EnvVar>, o: Observability)
    ensures var r1 := Maybe(o.rum.enabled, "NEXT_PUBLIC_RUM_ENABLED", "true");
            var r2 := Maybe(o.rum.enabled && o.rum.sampleRate != "", "NEXT_PUBLIC_RUM_SAMPLE_RATE", o.rum.sampleRate);
            var t1 := Maybe(o.tracing.enabled, "OTEL_TRACING_ENABLED", "true");
            var t2 := Maybe(o.tracing.enabled && o.tracing.endpoint != "", "OTEL_EXPORTER_OTLP_ENDPOINT", o.tracing.endpoint);
            var t3 := Maybe(o.tracing.enabled && o.tracing.sampleRate != "", "OTEL_TRACES_SAMPLER_ARG", o.tracing.sampleRate);
            env + (r1 + r2) + (t1 + t2 + t3) == env + r1 + r2 + t1 + t2 + t3
  {
    hide Maybe;
  }

  lemma {:induction false} ListedKeys(names: seq<string>, keys: set<string>)
    requires Lists(names, keys)
    ensures forall n :: n in names ==> n in keys
  {
  }

  lemma {:induction false} Unmapped(op: seq<EnvVar>, m: EnvMap)
    ensures Mapped(op, [], m) == op
    ensures Select(op, [], OperatorWins) == [] && Select(op, [], Grandfathered) == [] && Select(op, [], Exempt) == []
  {
  }

  /** One turn of the envMap loop. */
  lemma {:induction false} MapStep(op: seq<EnvVar>, names: seq<string>, m: EnvMap, k: nat)
    requires k < |names| && forall n :: n in names ==> n in m
    ensures Mapped(op, names[..k + 1], m)
         == if KindOf(op, names[k]) == Free then Mapped(op, names[..k], m) + [EnvVar(names[k], Secret(m[names[k]]))]
            else if KindOf(op, names[k]) == OperatorWins then Mapped(op, names[..k], m)
            else Mapped(op, names[..k], m)[IndexOf(op, names[k]) := EnvVar(names[k], Secret(m[names[k]]))]
    ensures forall kind :: Select(op, names[..k + 1], kind)
                        == Select(op, names[..k], kind) + if KindOf(op, names[k]) == kind then [names[k]] else []
  {
    hide KindOf, IndexOf;
    assert names[..k + 1][..k] == names[..k];
  }

  method SaveSlots(op: seq<EnvVar>) returns (slots: map<string, nat>)
    requires NoRepeat(op)
    ensures forall n :: n in slots <==> Has(op, n)
    ensures forall n :: n in slots ==> slots[n] == IndexOf(op, n)
  {
    hide IndexOf, Has, NoRepeat;
    slots := map[];
    for k := 0 to |op|
      invariant forall n :: n in slots ==> Has(op, n) && slots[n] == IndexOf(op, n)
      invariant forall j :: 0 <= j < k ==> op[j].name in slots
    {
      SlotOf(op, k);
      slots := slots[op[k].name := k];
    }
    forall n
      ensures n in slots <==> Has(op, n)
    {
      if Has(op, n) {
        var k := IndexOf(op, n);
        assert op[k].name in slots;
      }
    }
  }

  lemma {:induction false} SlotOf(op: seq<EnvVar>, k: nat)
    requires NoRepeat(op) && k < |op|
    ensures Has(op, op[k].name) && IndexOf(op, op[k].name) == k
  {
    assert Has(op, op[k].name);
    if k > 0 {
      assert op[1..][k - 1].name == op[k].name;
      SlotOf(op[1..], k - 1);
    }
  }

  method FindSource(env: seq<EnvVar>, name: string) returns (r: Option<Source>)
    ensures r == Lookup(env, name)
    ensures r.Some? <==> Has(env, name)
  {
    hide Has;
    LookupHas(env, name);
    r := None;
    for k := 0 to |env|
      invariant r == Lookup(env[..k], name)
    {
      assert env[..k + 1][..k] == env[..k];
      if env[k].name == name {
        r := Some(env[k].source);
      }
    }
    assert env[..|env|] == env;
  }

  method JoinOrigins(hosts: seq<string>) returns (text: string)
    ensures text == Origins(hosts)
    ensures hosts != [] && (forall h :: h in hosts ==> ',' !in h) ==> Parts(text) == Https(hosts)
  {
    text := "";
    for k := 0 to |hosts|
      invariant text == Origins(hosts[..k])
    {
      assert hosts[..k + 1][..k] == hosts[..k];
      if k == 0 {
        text := "https://" + hosts[k];
      } else {
        text := text + "," + "https://" + hosts[k];
      }
    }
    assert hosts[..|hosts|] == hosts;
    if hosts != [] && forall h :: h in hosts ==> ',' !in h { OriginsReadBack(hosts); }
  }
}
