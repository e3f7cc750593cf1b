/** The whole compilation of one monitor, and what pgwatch makes of its output. */
module Compiler {
  import opened Prelude
  import opened Api
  import opened Labels
  import opened MetricsMerge
  import opened Children
  import opened ConfigMaps

  /** What one pass builds. `deployment` is absent where building it would dereference a
      missing credentials reference. */
  datatype Built = Built(
    configMap: ConfigMap,
    hash: Digest,
    deployment: Option<Deployment>,
    service: Service,
    serviceMonitor: ServiceMonitor)

  /** Steps 4 to 6b, from the merged metrics on. */
  ghost function CompileFrom(tk: Toolkit, key: Key, spec: MonitorSpec, merged: Merged): Option<Built> {
    match DataOf(tk, key, spec.database, merged)
    case None => None
    case Some(data) =>
      var hash := ContentHash(tk, data);
      Some(Built(
        ConfigMapOf(key, data),
        hash,
        if spec.database.HasCredentials() then Some(BuildDeployment(key, spec, merged, hash)) else None,
        BuildService(key, spec),
        BuildServiceMonitor(key, spec)))
  }

  /** What steps 3 to 6b may come to: Go's map order can leave several results open. */
  ghost predicate Compiles(tk: Toolkit, key: Key, spec: MonitorSpec, libs: seq<Library>, r: Option<Built>) {
    exists merged :: Merges(spec.metrics, libs, merged) && r == CompileFrom(tk, key, spec, merged)
  }

  /** One of the results, and the only one where `BuildIsUniqueIff` says so. */
  ghost function Compile(tk: Toolkit, key: Key, spec: MonitorSpec, libs: seq<Library>): Option<Built> {
    CompileFrom(tk, key, spec, Merge(spec.metrics, libs))
  }

  lemma CompileCompiles(tk: Toolkit, key: Key, spec: MonitorSpec, libs: seq<Library>)
    ensures Compiles(tk, key, spec, libs, Compile(tk, key, spec, libs))
  {
    MergeIsOutcome(spec.metrics, libs);
  }

  /** Steps 3 to 6b in the order the reconciler takes them. */
  method BuildAll(tk: Toolkit, key: Key, spec: MonitorSpec, libs: seq<Library>) returns (r: Option<Built>)
    requires spec.database.HasCredentials()
    ensures Compiles(tk, key, spec, libs, r)
    ensures Determined(UserMetrics(spec.metrics, libs)) ==> r == Compile(tk, key, spec, libs)
  {
    hide Merges, Determined;
    var merged := MergeMetrics(spec.metrics, libs);
    var built := BuildConfigMap(tk, key, spec, merged);
    if built.None? {
      r := None;
    } else {
      var (configMap, hash) := built.value;
      var args := BuildArgs(spec, merged);
      var deployment := BuildDeployment(key, spec, merged, hash).(args := args);
      r := Some(Built(configMap, hash, Some(deployment), BuildService(key, spec), BuildServiceMonitor(key, spec)));
    }
    assert r == CompileFrom(tk, key, spec, merged);
  }

  // ---- pgwatch's side ----

  /** What pgwatch schedules and the definitions it has. */
  datatype Plan = Plan(intervals: map<string, int>, definitions: map<string, Metric>)

  /** The value after a flag; every flag takes one value. */
  function FlagValue(args: seq<string>, flag: string): Option<string> {
    if |args| < 2 then None
    else if args[0] == flag then Some(args[1])
    else FlagValue(args[2..], flag)
  }

  /** A file of the mounted ConfigMap. */
  function ReadMounted(data: StringMap, path: string): Option<string> {
    var dir := CONFIG_MOUNT_PATH + "/";
    if dir <= path && path[|dir|..] in data then Some(data[path[|dir|..]]) else None
  }

  /** pgwatch's stated rules: `--metrics` replaces the built-in registry, and
      `preset_metrics` replaces `custom_metrics`. */
  function Interpret(tk: Toolkit, args: seq<string>, data: StringMap): Option<Plan> {
    match (LoadSource(tk, args, data), LoadRegistry(tk, args, data))
    case (Some(src), Some(registry)) => Some(Plan(Schedule(src, registry), registry.metrics))
    case _ => None
  }

  function LoadSource(tk: Toolkit, args: seq<string>, data: StringMap): Option<Source> {
    match FlagValue(args, "--sources")
    case None => None
    case Some(path) =>
      match ReadMounted(data, path)
      case None => None
      case Some(text) =>
        match tk.readSources(text)
        case Some(sources) => if |sources| == 1 then Some(sources[0]) else None
        case None => None
  }

  function LoadRegistry(tk: Toolkit, args: seq<string>, data: StringMap): Option<MetricsFile> {
    match FlagValue(args, "--metrics")
    case None => Some(tk.builtin)
    case Some(path) =>
      match ReadMounted(data, path)
      case None => None
      case Some(text) => tk.readMetrics(text)
  }

  function Schedule(src: Source, registry: MetricsFile): map<string, int> {
    if src.presetMetrics != "" then PresetIntervals(registry, src.presetMetrics) else src.customMetrics
  }

  /** A preset the registry does not know resolves to nothing. */
  function PresetIntervals(registry: MetricsFile, preset: string): map<string, int> {
    if preset in registry.presets then registry.presets[preset].metrics else map[]
  }

  /** What the spec asks for: the preset overridden by the user's metrics. */
  ghost function IntendedIntervals(builtin: MetricsFile, spec: MetricsSpec, libs: seq<Library>): map<string, int> {
    (if spec.preset == "" then map[] else PresetIntervals(builtin, spec.preset))
    + IntervalsOf(UserMetrics(spec, libs))
  }

  /** Under the metric's name stands the metric as the user wrote it. */
  ghost predicate DefinedBy(plan: Plan, md: MetricDefinition) {
    && md.name in plan.definitions
    && var x := plan.definitions[md.name];
       && Versions(md.sqls, x.sqls)
       && x.gauges == md.gauges && x.isInstanceLevel == md.isInstanceLevel && x.description == md.description
       && x.nodeStatus == (if md.masterOnly then "primary" else if md.standbyOnly then "standby" else "")
       && x.initSql == "" && x.storageName == ""
  }

  predicate SameAt(plan: Plan, builtin: MetricsFile, name: string) {
    && (name in plan.definitions <==> name in builtin.metrics)
    && (name in plan.definitions ==> plan.definitions[name] == builtin.metrics[name])
  }

  /** The intended schedule; for every user metric its last definition; for every other
      scheduled name the built-in definition or, where there is none, none. */
  ghost predicate Realises(plan: Plan, builtin: MetricsFile, spec: MetricsSpec, libs: seq<Library>) {
    var defs := UserMetrics(spec, libs);
    && plan.intervals == IntendedIntervals(builtin, spec, libs)
    && (forall i | IsLast(defs, i) :: DefinedBy(plan, defs[i]))
    && (forall name | name in plan.intervals && name !in NamesOf(defs) ::
          SameAt(plan, builtin, name))
  }

  /** Every metric a preset schedules is defined. */
  ghost predicate Closed(registry: MetricsFile, preset: string) {
    forall name | name in PresetIntervals(registry, preset) :: name in registry.metrics
  }

  lemma MergedIsEmptyIff(spec: MetricsSpec, libs: seq<Library>, m: Merged)
    requires Merges(spec, libs, m)
    ensures m.intervals == IntervalsOf(UserMetrics(spec, libs)) && m.intervals.Keys == m.definitions.Keys
    ensures |m.intervals| > 0 <==> UserMetrics(spec, libs) != []
    ensures |m.definitions| > 0 <==> UserMetrics(spec, libs) != []
  {
    var defs := UserMetrics(spec, libs);
    FoldIsLastWins(defs);
    LastWinsIsUnique(defs, m.intervals, m.definitions, IntervalsOf(defs), DefinitionsOf(defs));
    if defs != [] {
      assert defs[0] in defs;
      assert defs[0].name in m.intervals && defs[0].name in m.definitions;
    }
  }

  /** Compilation fails exactly for an unknown preset combined with user metrics. */
  lemma CompileFailsIff(tk: Toolkit, key: Key, spec: MonitorSpec, libs: seq<Library>, r: Option<Built>)
    requires Compiles(tk, key, spec, libs, r)
    ensures r.None? <==>
            && spec.metrics.preset != "" && spec.metrics.preset !in tk.builtin.presets
            && UserMetrics(spec.metrics, libs) != []
  {
    hide Merges, BuildDeployment, BuildService, BuildServiceMonitor, ContentHash;
    var m :| Merges(spec.metrics, libs, m) && r == CompileFrom(tk, key, spec, m);
    MergedIsEmptyIff(spec.metrics, libs, m);
    MergedPreset(spec.metrics, libs, m);
  }

  lemma MergedPreset(spec: MetricsSpec, libs: seq<Library>, m: Merged)
    requires Merges(spec, libs, m)
    ensures m.preset == spec.preset
  {}

  lemma FlagsOfArgs(sinks: SinksSpec, withMetrics: bool)
    ensures FlagValue(Args(sinks, withMetrics), "--sources") == Some(CONFIG_MOUNT_PATH + "/" + SOURCES_KEY)
    ensures FlagValue(Args(sinks, withMetrics), "--sources") == Some("/etc/pgwatch/sources.yaml")
    ensures withMetrics ==> FlagValue(Args(sinks, withMetrics), "--metrics") == Some("/etc/pgwatch/metrics.yaml")
    ensures FlagValue(Args(sinks, withMetrics), "--metrics") ==
            if withMetrics then Some(CONFIG_MOUNT_PATH + "/" + METRICS_KEY) else None
  {
    var args, tail := Args(sinks, withMetrics), SinkArgs(sinks);
    assert "--sources"[2] != "--metrics"[2] && "--sink"[3] != "--metrics"[3] && "--sink"[2] != "--metrics"[2];
    assert |args| >= 2 && args[0] == "--sources";
    assert CONFIG_MOUNT_PATH + "/" + SOURCES_KEY == "/etc/pgwatch/sources.yaml";
    assert CONFIG_MOUNT_PATH + "/" + METRICS_KEY == "/etc/pgwatch/metrics.yaml";
    SinkFlags(sinks);
    if withMetrics {
      assert args[2..][0] == "--metrics";
    } else {
      assert args[2..] == tail;
    }
  }

  lemma SinkFlags(sinks: SinksSpec)
    ensures FlagValue(SinkArgs(sinks), "--metrics").None?
  {
    var args := SinkArgs(sinks);
    if |args| > 2 {
      assert args[2..][2..] == [];
      assert FlagValue(args[2..], "--metrics").None?;
    } else if |args| == 2 {
      assert args[2..] == [];
    }
  }

  lemma MountedFiles(data: StringMap)
    ensures ReadMounted(data, CONFIG_MOUNT_PATH + "/" + SOURCES_KEY) ==
            if SOURCES_KEY in data then Some(data[SOURCES_KEY]) else None
    ensures ReadMounted(data, CONFIG_MOUNT_PATH + "/" + METRICS_KEY) ==
            if METRICS_KEY in data then Some(data[METRICS_KEY]) else None
  {
    var dir := CONFIG_MOUNT_PATH + "/";
    assert (dir + SOURCES_KEY)[|dir|..] == SOURCES_KEY && (dir + METRICS_KEY)[|dir|..] == METRICS_KEY;
  }

  function RegistryOf(builtin: MetricsFile, merged: Merged): MetricsFile {
    if NeedsMetricsFile(merged) then MetricsFileOf(builtin, merged) else builtin
  }

  /** pgwatch finds both files and reads back what was put in them. */
  lemma FilesAreFound(tk: Toolkit, key: Key, spec: MonitorSpec, merged: Merged)
    requires tk.PrintsReadably() && SourceOf(tk.builtin, key.name, spec.database, merged).Some?
    ensures var args := Args(spec.sinks, NeedsMetricsFile(merged));
            var data := DataOf(tk, key, spec.database, merged).value;
            && LoadSource(tk, args, data) == SourceOf(tk.builtin, key.name, spec.database, merged)
            && LoadRegistry(tk, args, data) == Some(RegistryOf(tk.builtin, merged))
  {
    var src := SourceOf(tk.builtin, key.name, spec.database, merged).value;
    FlagsOfArgs(spec.sinks, NeedsMetricsFile(merged));
    MountedFiles(DataOf(tk, key, spec.database, merged).value);
    assert SOURCES_KEY[0] != METRICS_KEY[0];
    assert tk.readSources(tk.printSources([src])) == Some([src]);
    var file := MetricsFileOf(tk.builtin, merged);
    assert tk.readMetrics(tk.printMetrics(file)) == Some(file);
  }

  lemma ScheduleIsOverride(builtin: MetricsFile, name: string, db: DatabaseRef, merged: Merged)
    requires SourceOf(builtin, name, db, merged).Some?
    ensures Schedule(SourceOf(builtin, name, db, merged).value, RegistryOf(builtin, merged)) ==
            (if merged.preset == "" then map[] else PresetIntervals(builtin, merged.preset)) + merged.intervals
  {
    hide BuildConnStr;
    if |merged.intervals| == 0 {
      assert merged.intervals == map[];
    }
  }

  lemma RegistryIsOverride(builtin: MetricsFile, merged: Merged, name: string)
    requires merged.preset != "" || name in merged.definitions
    ensures var registry := RegistryOf(builtin, merged).metrics;
            if name in merged.definitions then
              name in registry && CarriesOver(merged.definitions[name], registry[name])
            else
              && (name in registry <==> name in builtin.metrics)
              && (name in registry ==> registry[name] == builtin.metrics[name])
  {
    hide CarriesOver, MetricsFileOf;
    if |merged.definitions| == 0 {
      assert merged.definitions.Keys == {};
    }
    FileSaysWhatItShould(builtin, merged);
  }

  /** What pgwatch makes of a build. */
  function PlanOf(tk: Toolkit, b: Built): Option<Plan> {
    if b.deployment.None? then None else Interpret(tk, b.deployment.value.args, b.configMap.data)
  }

  lemma BuildReads(tk: Toolkit, key: Key, spec: MonitorSpec, merged: Merged, b: Built)
    requires tk.PrintsReadably() && spec.database.HasCredentials()
    requires CompileFrom(tk, key, spec, merged) == Some(b)
    ensures SourceOf(tk.builtin, key.name, spec.database, merged).Some? && b.deployment.Some?
    ensures LoadSource(tk, b.deployment.value.args, b.configMap.data) ==
            SourceOf(tk.builtin, key.name, spec.database, merged)
    ensures LoadRegistry(tk, b.deployment.value.args, b.configMap.data) == Some(RegistryOf(tk.builtin, merged))
  {
    hide SourceOf, LoadSource, LoadRegistry, Args, ContentHash, RegistryOf;
    FilesAreFound(tk, key, spec, merged);
  }

  lemma CarriedIsDefined(plan: Plan, md: MetricDefinition, d: MetricDef)
    requires Renders(md, d) && md.name in plan.definitions && CarriesOver(d, plan.definitions[md.name])
    ensures DefinedBy(plan, md)
  {
    hide Versions;
  }

  lemma MergedIsRealised(builtin: MetricsFile, spec: MetricsSpec, libs: seq<Library>, m: Merged, plan: Plan)
    requires Merges(spec, libs, m)
    requires plan.intervals == (if m.preset == "" then map[] else PresetIntervals(builtin, m.preset)) + m.intervals
    requires plan.definitions == RegistryOf(builtin, m).metrics
    ensures Realises(plan, builtin, spec, libs)
  {
    hide PresetIntervals, RegistryOf, Renders, NamesOf, CarriesOver, DefinedBy;
    var defs := UserMetrics(spec, libs);
    MergedIsEmptyIff(spec, libs, m);
    forall i | IsLast(defs, i) ensures DefinedBy(plan, defs[i]) {
      RegistryIsOverride(builtin, m, defs[i].name);
      assert Renders(defs[i], m.definitions[defs[i].name]);
      CarriedIsDefined(plan, defs[i], m.definitions[defs[i].name]);
    }
    forall name | name in plan.intervals && name !in NamesOf(defs)
      ensures SameAt(plan, builtin, name)
    {
      assert name !in m.intervals && m.preset != "";
      RegistryIsOverride(builtin, m, name);
    }
  }

  lemma RealisedIsClosed(plan: Plan, builtin: MetricsFile, spec: MetricsSpec, libs: seq<Library>)
    requires Realises(plan, builtin, spec, libs) && (spec.preset == "" || Closed(builtin, spec.preset))
    ensures plan.intervals.Keys <= plan.definitions.Keys
  {
    var defs := UserMetrics(spec, libs);
    FoldIsLastWins(defs);
    forall name | name in plan.intervals ensures name in plan.definitions {
      if name in NamesOf(defs) {
        var i := LastOccurrence(defs, name);
        assert DefinedBy(plan, defs[i]);
      } else {
        assert SameAt(plan, builtin, name);
        assert name !in IntervalsOf(defs);
      }
    }
  }

  /** Compilation preserves meaning: whatever order Go visits its maps in, pgwatch, started
      with the generated arguments on the generated files, runs exactly the intended schedule
      with exactly the intended definitions; a closed preset leaves no scheduled metric
      undefined. */
  lemma CompilationPreservesMeaning(tk: Toolkit, key: Key, spec: MonitorSpec, libs: seq<Library>, b: Built)
    requires tk.PrintsReadably() && spec.database.HasCredentials()
    requires Compiles(tk, key, spec, libs, Some(b))
    ensures PlanOf(tk, b).Some?
    ensures Realises(PlanOf(tk, b).value, tk.builtin, spec.metrics, libs)
    ensures spec.metrics.preset == "" || Closed(tk.builtin, spec.metrics.preset) ==>
              PlanOf(tk, b).value.intervals.Keys <= PlanOf(tk, b).value.definitions.Keys
  {
    hide Merges, CompileFrom, Realises, Closed, LoadSource, LoadRegistry, SourceOf, RegistryOf, Schedule;
    var m :| Merges(spec.metrics, libs, m) && CompileFrom(tk, key, spec, m) == Some(b);
    BuildReads(tk, key, spec, m, b);
    ScheduleIsOverride(tk.builtin, key.name, spec.database, m);
    MergedIsRealised(tk.builtin, spec.metrics, libs, m, PlanOf(tk, b).value);
    if spec.metrics.preset == "" || Closed(tk.builtin, spec.metrics.preset) {
      RealisedIsClosed(PlanOf(tk, b).value, tk.builtin, spec.metrics, libs);
    }
  }

  lemma SourceFields(builtin: MetricsFile, name: string, db: DatabaseRef, merged: Merged)
    ensures SourceOf(builtin, name, db, merged).Some? ==>
              var src := SourceOf(builtin, name, db, merged).value;
              && src.name == name && src.kind == "postgres" && src.isEnabled
              && src.customTags == db.customTags && src.connStr == BuildConnStr(db)
  {}

  /** The one source pgwatch loads is the monitor's own database, switched on, and the
      connection string leads there exactly when it can be read back at all. */
  lemma SourceIsTheDatabase(tk: Toolkit, key: Key, spec: MonitorSpec, libs: seq<Library>, b: Built)
    requires tk.PrintsReadably() && spec.database.HasCredentials()
    requires Compiles(tk, key, spec, libs, Some(b))
    ensures b.deployment.Some?
    ensures var src, db := LoadSource(tk, b.deployment.value.args, b.configMap.data), spec.database;
            && src.Some? && src.value.name == key.name && src.value.kind == "postgres" && src.value.isEnabled
            && src.value.customTags == db.customTags
            && (ParseConnStr(src.value.connStr) == Some(EffectiveTarget(db)) <==> TargetReadsBack(EffectiveTarget(db)))
  {
    hide ParseConnStr, BuildConnStr, TargetReadsBack, SourceOf, LoadSource, LoadRegistry, Merges, CompileFrom;
    var m :| Merges(spec.metrics, libs, m) && CompileFrom(tk, key, spec, m) == Some(b);
    BuildReads(tk, key, spec, m, b);
    SourceFields(tk.builtin, key.name, spec.database, m);
    ConnStrRoundTripsIff(spec.database);
  }

  // ---- what a build depends on ----

  /** No credential reaches the ConfigMap: specs that differ in nothing but their credentials
      compile to the same data under the same hash. */
  lemma CredentialsStayOutOfTheConfigMap(
    tk: Toolkit, key: Key, spec: MonitorSpec, merged: Merged,
    username: string, password: string, secret: Option<CredentialsSecretRef>)
    ensures var other := spec.(database := spec.database.(
              username := username, password := password, credentialsSecret := secret));
            var a, b := CompileFrom(tk, key, spec, merged), CompileFrom(tk, key, other, merged);
            && (a.Some? <==> b.Some?)
            && (a.Some? ==> a.value.configMap == b.value.configMap && a.value.hash == b.value.hash)
  {
    var db := spec.database;
    var changed := db.(username := username, password := password, credentialsSecret := secret);
    assert BuildConnStr(changed) == BuildConnStr(db);
    assert SourceOf(tk.builtin, key.name, changed, merged) == SourceOf(tk.builtin, key.name, db, merged);
  }

  predicate SameButTimeouts(a: seq<MetricDefinition>, b: seq<MetricDefinition>) {
    |a| == |b| &&
    forall i | 0 <= i < |a| :: b[i] == a[i].(statementTimeoutSeconds := b[i].statementTimeoutSeconds)
  }

  lemma {:induction false} FlattenKeepsTimeouts(a: seq<Library>, b: seq<Library>)
    requires |a| == |b| && forall i | 0 <= i < |a| :: SameButTimeouts(a[i].metrics, b[i].metrics)
    ensures SameButTimeouts(Flatten(a), Flatten(b))
  {
    if a != [] {
      FlattenKeepsTimeouts(a[..|a| - 1], b[..|b| - 1]);
    }
  }

  lemma NamesIgnoreTimeouts(a: seq<MetricDefinition>, b: seq<MetricDefinition>)
    requires SameButTimeouts(a, b)
    ensures NamesOf(a) <= NamesOf(b)
  {
    forall n | n in NamesOf(a) ensures n in NamesOf(b) {
      var md :| md in a && md.name == n;
      var k :| 0 <= k < |a| && a[k] == md;
      assert b[k] in b;
    }
  }

  lemma TimeoutsAreSymmetric(a: seq<MetricDefinition>, b: seq<MetricDefinition>)
    requires SameButTimeouts(a, b)
    ensures SameButTimeouts(b, a)
  {}

  lemma OutcomesIgnoreTimeouts(
    a: seq<MetricDefinition>, b: seq<MetricDefinition>, i: map<string, int>, d: map<string, MetricDef>)
    requires SameButTimeouts(a, b) && LastWins(a, i, d)
    ensures LastWins(b, i, d)
  {
    hide Versions, NamesOf;
    TimeoutsAreSymmetric(a, b);
    NamesIgnoreTimeouts(a, b);
    NamesIgnoreTimeouts(b, a);
    forall k | IsLast(b, k)
      ensures b[k].name in i && Renders(b[k], d[b[k].name]) && i[b[k].name] == IntervalSeconds(b[k].interval)
    {
      assert IsLast(a, k);
    }
  }

  /** `statementTimeoutSeconds` is documented as a limit and never gets out: specs and
      libraries that differ in it alone have the same builds. */
  lemma TimeoutsStayBehind(
    tk: Toolkit, key: Key, spec: MonitorSpec, libs: seq<Library>,
    custom: seq<MetricDefinition>, others: seq<Library>, r: Option<Built>)
    requires SameButTimeouts(spec.metrics.custom, custom)
    requires |libs| == |others| && forall i | 0 <= i < |libs| :: SameButTimeouts(libs[i].metrics, others[i].metrics)
    requires Compiles(tk, key, spec, libs, r)
    ensures Compiles(tk, key, spec.(metrics := spec.metrics.(custom := custom)), others, r)
  {
    hide LastWins, DataOf, ContentHash;
    var other := spec.(metrics := spec.metrics.(custom := custom));
    var m :| Merges(spec.metrics, libs, m) && r == CompileFrom(tk, key, spec, m);
    FlattenKeepsTimeouts(libs, others);
    var defs, same := UserMetrics(spec.metrics, libs), UserMetrics(other.metrics, others);
    OutcomesIgnoreTimeouts(defs, same, m.intervals, m.definitions);
    assert Merges(other.metrics, others, m) && CompileFrom(tk, key, other, m) == r;
  }

  // ---- when a build is a function of its inputs ----

  lemma MetricsFilesDiffer(builtin: MetricsFile, a: Merged, b: Merged)
    requires a.preset == b.preset && a.definitions.Keys == b.definitions.Keys
    requires MetricsFileOf(builtin, a) == MetricsFileOf(builtin, b)
    ensures a.definitions == b.definitions
  {
    forall n | n in a.definitions ensures a.definitions[n] == b.definitions[n] {
      assert MetricsFileOf(builtin, a).metrics[n] == MetricOf(a.definitions[n]);
      assert MetricsFileOf(builtin, b).metrics[n] == MetricOf(b.definitions[n]);
    }
  }

  lemma BuildsDiffer(tk: Toolkit, key: Key, spec: MonitorSpec, libs: seq<Library>, a: Merged, b: Merged)
    requires tk.PrintsReadably() && Merges(spec.metrics, libs, a) && Merges(spec.metrics, libs, b)
    requires CompileFrom(tk, key, spec, a).Some? && CompileFrom(tk, key, spec, a) == CompileFrom(tk, key, spec, b)
    ensures a == b
  {
    hide ContentHash, BuildDeployment, SourceOf, MetricsFileOf, Merges;
    MergedIsEmptyIff(spec.metrics, libs, a);
    MergedIsEmptyIff(spec.metrics, libs, b);
    MergedPreset(spec.metrics, libs, a);
    MergedPreset(spec.metrics, libs, b);
    if UserMetrics(spec.metrics, libs) == [] {
      assert a.definitions == map[] == b.definitions;
    } else {
      var x, y := MetricsFileOf(tk.builtin, a), MetricsFileOf(tk.builtin, b);
      assert tk.printMetrics(x) == tk.printMetrics(y) by {
        assert DataOf(tk, key, spec.database, a).value[METRICS_KEY] == tk.printMetrics(x);
        assert DataOf(tk, key, spec.database, b).value[METRICS_KEY] == tk.printMetrics(y);
      }
      assert tk.readMetrics(tk.printMetrics(x)) == Some(x) && tk.readMetrics(tk.printMetrics(y)) == Some(y);
      MetricsFilesDiffer(tk.builtin, a, b);
    }
  }

  /** The build is a function of spec and libraries exactly when the merge is, or when
      compilation fails anyway. */
  lemma BuildIsUniqueIff(tk: Toolkit, key: Key, spec: MonitorSpec, libs: seq<Library>)
    requires tk.PrintsReadably()
    ensures Determined(UserMetrics(spec.metrics, libs)) || Compile(tk, key, spec, libs).None? <==>
            forall r, t | Compiles(tk, key, spec, libs, r) && Compiles(tk, key, spec, libs, t) :: r == t
  {
    hide CompileFrom, LastWins, Determined, PresetIntervals;
    var defs := UserMetrics(spec.metrics, libs);
    MergeIsUniqueIff(defs);
    CompileCompiles(tk, key, spec, libs);
    forall r | Compiles(tk, key, spec, libs, r) ensures r.None? <==> Compile(tk, key, spec, libs).None? {
      CompileFailsIff(tk, key, spec, libs, r);
      CompileFailsIff(tk, key, spec, libs, Compile(tk, key, spec, libs));
    }
    if !Determined(defs) && Compile(tk, key, spec, libs).Some? {
      var i, d, j, e :| LastWins(defs, i, d) && LastWins(defs, j, e) && !(i == j && d == e);
      var a, b := Merged(spec.metrics.preset, i, d), Merged(spec.metrics.preset, j, e);
      assert Merges(spec.metrics, libs, a) && Merges(spec.metrics, libs, b);
      var r, t := CompileFrom(tk, key, spec, a), CompileFrom(tk, key, spec, b);
      assert Compiles(tk, key, spec, libs, r) && Compiles(tk, key, spec, libs, t);
      if r == t { BuildsDiffer(tk, key, spec, libs, a, b); }
    }
  }
}
