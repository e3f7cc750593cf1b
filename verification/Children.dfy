/** The objects generated for one monitor: ConfigMap, Deployment, Service, ServiceMonitor. */
module Children {
  import opened Prelude
  import opened Api
  import opened Labels
  import opened Text
  import opened MetricsMerge

  const SOURCES_KEY := "sources.yaml"
  const METRICS_KEY := "metrics.yaml"
  const CONFIG_MOUNT_PATH := "/etc/pgwatch"

  datatype ConfigMap = ConfigMap(key: Key, labels: StringMap, data: StringMap)

  datatype EnvVar = Literal(name: string, value: string) | FromSecret(name: string, secret: string, key: string)

  datatype Deployment = Deployment(
    key: Key,
    labels: StringMap,
    replicas: nat,
    selector: StringMap,
    podLabels: StringMap,
    podAnnotations: StringMap,
    image: string,
    args: seq<string>,
    envVars: seq<EnvVar>,
    portName: string,
    metricsPort: int,
    configMapName: string)

  datatype Service = Service(
    key: Key,
    labels: StringMap,
    annotations: StringMap,
    selector: StringMap,
    portName: string,
    port: int,
    targetPort: string)

  datatype ServiceMonitor = ServiceMonitor(
    key: Key,
    labels: StringMap,
    selector: StringMap,
    namespaces: seq<string>,
    port: string)

  /** Whether the pod is started with a metrics file; the same test decides whether the
      ConfigMap carries one. */
  predicate NeedsMetricsFile(merged: Merged) {
    merged.preset != "" || |merged.definitions| > 0
  }

  method BuildArgs(spec: MonitorSpec, merged: Merged) returns (args: seq<string>)
    ensures args == Args(spec.sinks, NeedsMetricsFile(merged))
  {
    args := ["--sources", CONFIG_MOUNT_PATH + "/" + SOURCES_KEY];
    if merged.preset != "" || |merged.definitions| > 0 {
      args := args + ["--metrics", CONFIG_MOUNT_PATH + "/" + METRICS_KEY];
    }
    var sinks := spec.sinks;
    if sinks.prometheus.Some? && sinks.prometheus.value.enabled {
      var port := sinks.prometheus.value.port;
      if port == 0 {
        port := 9187;
      }
      args := args + ["--sink", "prometheus://0.0.0.0:" + PrintInt(port)];
    }
    if sinks.grpc.Some? && sinks.grpc.value.enabled && sinks.grpc.value.endpoint != "" {
      args := args + ["--sink", "grpc://" + sinks.grpc.value.endpoint];
    }
  }

  function Args(sinks: SinksSpec, withMetrics: bool): seq<string> {
    ["--sources", CONFIG_MOUNT_PATH + "/" + SOURCES_KEY]
    + (if withMetrics then ["--metrics", CONFIG_MOUNT_PATH + "/" + METRICS_KEY] else [])
    + SinkArgs(sinks)
  }

  function SinkArgs(sinks: SinksSpec): seq<string> {
    (if sinks.prometheus.Some? && sinks.prometheus.value.enabled then
       var port := if sinks.prometheus.value.port == 0 then 9187 else sinks.prometheus.value.port;
       ["--sink", "prometheus://0.0.0.0:" + PrintInt(port)]
     else [])
    + (if sinks.grpc.Some? && sinks.grpc.value.enabled && sinks.grpc.value.endpoint != ""
       then ["--sink", "grpc://" + sinks.grpc.value.endpoint] else [])
  }

  /** The source dereferences `credentialsSecret` without a test: callers must have checked. */
  function BuildEnvVars(db: DatabaseRef): seq<EnvVar>
    requires db.HasCredentials()
  {
    if db.Inline() then [Literal("PGUSER", db.username), Literal("PGPASSWORD", db.password)]
    else
      var secret := db.credentialsSecret.value;
      var usernameKey := if secret.usernameKey == "" then "username" else secret.usernameKey;
      var passwordKey := if secret.passwordKey == "" then "password" else secret.passwordKey;
      [FromSecret("PGUSER", secret.name, usernameKey), FromSecret("PGPASSWORD", secret.name, passwordKey)]
  }

  /** The API type promises that a spec without any enabled sink is rejected. It is built like
      any other, with no `--sink` argument: there is one exactly when Prometheus is enabled,
      or gRPC is enabled and has an endpoint. */
  lemma SinkIff(sinks: SinksSpec, withMetrics: bool)
    ensures "--sink" in Args(sinks, withMetrics) <==>
            || (sinks.prometheus.Some? && sinks.prometheus.value.enabled)
            || (sinks.grpc.Some? && sinks.grpc.value.enabled && sinks.grpc.value.endpoint != "")
    ensures "--sink" !in Args(SinksSpec(None, None), withMetrics)
  {
    var args, tail := Args(sinks, withMetrics), SinkArgs(sinks);
    var front := if withMetrics then 4 else 2;
    assert "--sink"[0] == '-' && "--sink"[3] == 'i' && "--sources"[3] == 'o' && "--metrics"[3] == 'e';
    assert (CONFIG_MOUNT_PATH + "/" + SOURCES_KEY)[0] == '/' && (CONFIG_MOUNT_PATH + "/" + METRICS_KEY)[0] == '/';
    forall i | 0 <= i < front ensures args[i] != "--sink" && Args(SinksSpec(None, None), withMetrics)[i] != "--sink" {}
    assert args[front..] == tail && SinkArgs(SinksSpec(None, None)) == [];
    assert tail != [] ==> tail[0] == "--sink" && args[front] == tail[0];
  }

  /** What a container sees under a name, given the values the Secrets hold. */
  function EnvValue(env: seq<EnvVar>, secrets: map<(string, string), string>, name: string): Option<string> {
    if env == [] then None
    else if env[0].name != name then EnvValue(env[1..], secrets, name)
    else if env[0].Literal? then Some(env[0].value)
    else if (env[0].secret, env[0].key) in secrets then Some(secrets[(env[0].secret, env[0].key)])
    else None
  }

  /** The two keys of the Secret, by default `username` and `password`. */
  function SecretValue(ref: CredentialsSecretRef, key: string, default: string, secrets: map<(string, string), string>)
    : Option<string>
  {
    var place := (ref.name, if key == "" then default else key);
    if place in secrets then Some(secrets[place]) else None
  }

  /** Whatever the Secrets hold, the container logs in with the inline pair when both halves
      are given, and otherwise with the two values of the referenced Secret. */
  ghost predicate LogsIn(env: seq<EnvVar>, db: DatabaseRef) {
    forall secrets: map<(string, string), string> ::
      var user, password := EnvValue(env, secrets, "PGUSER"), EnvValue(env, secrets, "PGPASSWORD");
      if db.username != "" && db.password != "" then user == Some(db.username) && password == Some(db.password)
      else
        && db.credentialsSecret.Some?
        && var ref := db.credentialsSecret.value;
           && user == SecretValue(ref, ref.usernameKey, "username", secrets)
           && password == SecretValue(ref, ref.passwordKey, "password", secrets)
  }

  function ContainerImage(image: ImageSpec): string {
    (if image.repository == "" then "cybertecpostgresql/pgwatch" else image.repository)
    + ":" + (if image.tag == "" then "5.1.0" else image.tag)
  }

  function PrometheusPort(sinks: SinksSpec): int {
    if sinks.prometheus.Some? && sinks.prometheus.value.port > 0 then sinks.prometheus.value.port else 9187
  }

  function BuildDeployment(key: Key, spec: MonitorSpec, merged: Merged, configHash: string): Deployment
    requires spec.database.HasCredentials()
  {
    var name := ResourceName(key.name);
    Deployment(
      Key(key.namespace, name),
      SystemLabels(key.name),
      1,
      Selector(key.name),
      MergeLabels(SystemLabels(key.name), spec.podMetadata.labels),
      MergeLabels(map[ANNOTATION_CONFIG_HASH := configHash], spec.podMetadata.annotations),
      ContainerImage(spec.image),
      Args(spec.sinks, NeedsMetricsFile(merged)),
      BuildEnvVars(spec.database),
      "metrics",
      PrometheusPort(spec.sinks),
      name + "-config")
  }

  function BuildService(key: Key, spec: MonitorSpec): Service {
    Service(
      Key(key.namespace, ResourceName(key.name)),
      MergeLabels(SystemLabels(key.name), spec.serviceMetadata.labels),
      MergeLabels(map[], spec.serviceMetadata.annotations),
      Selector(key.name),
      "metrics",
      PrometheusPort(spec.sinks),
      "metrics")
  }

  function BuildServiceMonitor(key: Key, spec: MonitorSpec): ServiceMonitor {
    ServiceMonitor(
      Key(key.namespace, ResourceName(key.name)),
      MergeLabels(SystemLabels(key.name), spec.serviceMetadata.labels),
      Selector(key.name),
      [key.namespace],
      "metrics")
  }

  lemma EnvVarsLogIn(db: DatabaseRef)
    requires db.HasCredentials()
    ensures LogsIn(BuildEnvVars(db), db)
  {
    var env := BuildEnvVars(db);
    assert "PGUSER" != "PGPASSWORD" by { assert "PGUSER"[2] == 'U' && "PGPASSWORD"[2] == 'P'; }
    assert env[1..][0] == env[1];
  }

  /** The pod of the generated Deployment logs in with the spec's credentials. */
  lemma PodHasTheCredentials(key: Key, spec: MonitorSpec, merged: Merged, hash: string)
    requires spec.database.HasCredentials()
    ensures LogsIn(BuildDeployment(key, spec, merged, hash).envVars, spec.database)
  {
    hide LogsIn, BuildEnvVars;
    EnvVarsLogIn(spec.database);
  }

  /** The image asked for, with the documented defaults. */
  lemma ImageIsAskedFor(image: ImageSpec)
    ensures image.repository != "" && image.tag != "" ==> ContainerImage(image) == image.repository + ":" + image.tag
    ensures image.repository == "" && image.tag == "" ==> ContainerImage(image) == "cybertecpostgresql/pgwatch:5.1.0"
    ensures image.repository != "" && image.tag == "" ==> ContainerImage(image) == image.repository + ":5.1.0"
    ensures image.repository == "" && image.tag != "" ==>
              ContainerImage(image) == "cybertecpostgresql/pgwatch:" + image.tag
  {
    assert "cybertecpostgresql/pgwatch" + ":" == "cybertecpostgresql/pgwatch:";
    assert image.repository + ":" + "5.1.0" == image.repository + ":5.1.0";
    assert "cybertecpostgresql/pgwatch" + ":" + "5.1.0" == "cybertecpostgresql/pgwatch:5.1.0";
  }

  /** The objects fit together and carry the documented names: the Service forwards to the
      container's port, the ServiceMonitor scrapes the Service's, one replica runs. */
  lemma ObjectsFit(key: Key, spec: MonitorSpec, merged: Merged, hash: string)
    requires spec.database.HasCredentials()
    ensures var dep, svc := BuildDeployment(key, spec, merged, hash), BuildService(key, spec);
            var sm := BuildServiceMonitor(key, spec);
            && dep.key == svc.key == sm.key == Key(key.namespace, "pgpilot-" + key.name)
            && dep.configMapName == "pgpilot-" + key.name + "-config"
            && dep.replicas == 1 && dep.image == ContainerImage(spec.image)
            && svc.targetPort == dep.portName && sm.port == svc.portName && svc.port == dep.metricsPort
            && sm.namespaces == [key.namespace]
            && svc.annotations == spec.serviceMetadata.annotations
  {
    hide SystemLabels, BuildEnvVars, Args, ContainerImage, Selector, PrometheusPort;
    assert MergeLabels(map[], spec.serviceMetadata.annotations) == spec.serviceMetadata.annotations;
  }

  /** What the user asked to add is there, except under the reserved keys, and nothing else. */
  predicate LetsThrough(merged: StringMap, user: StringMap, reserved: set<string>) {
    && merged.Keys == user.Keys + reserved
    && forall k | k in user && k !in reserved :: merged[k] == user[k]
  }

  lemma MergeLetsThrough(system: StringMap, user: StringMap)
    ensures LetsThrough(MergeLabels(system, user), user, system.Keys)
  {}

  /** Every object says whose it is, and the user's labels and annotations get through beside. */
  lemma ObjectsSayWhose(key: Key, spec: MonitorSpec, merged: Merged, hash: string)
    requires spec.database.HasCredentials()
    ensures var dep, svc := BuildDeployment(key, spec, merged, hash), BuildService(key, spec);
            var sm, reserved := BuildServiceMonitor(key, spec), SystemLabels(key.name).Keys;
            && SaysWhose(dep.labels, key.name) && SaysWhose(dep.podLabels, key.name)
            && SaysWhose(svc.labels, key.name) && SaysWhose(sm.labels, key.name)
            && LetsThrough(dep.podLabels, spec.podMetadata.labels, reserved)
            && LetsThrough(svc.labels, spec.serviceMetadata.labels, reserved)
            && LetsThrough(sm.labels, spec.serviceMetadata.labels, reserved)
            && LetsThrough(dep.podAnnotations, spec.podMetadata.annotations, {"pgpilot.io/config-hash"})
  {
    hide SaysWhose, SystemLabels, MergeLabels, LetsThrough, BuildEnvVars;
    hide Args, ContainerImage, Selector, PrometheusPort;
    SystemLabelsSayWhose(key.name, spec.podMetadata.labels);
    SystemLabelsSayWhose(key.name, spec.serviceMetadata.labels);
    MergeLetsThrough(SystemLabels(key.name), spec.podMetadata.labels);
    MergeLetsThrough(SystemLabels(key.name), spec.serviceMetadata.labels);
    var annotation := map[ANNOTATION_CONFIG_HASH := hash];
    MergeLetsThrough(annotation, spec.podMetadata.annotations);
    assert annotation.Keys == {"pgpilot.io/config-hash"};
  }

  /** The sinks come last, Prometheus first, each after its flag; a gRPC sink is the endpoint. */
  lemma SinksAreNamed(sinks: SinksSpec, withMetrics: bool)
    ensures var args := Args(sinks, withMetrics);
            && (sinks.grpc.Some? && sinks.grpc.value.enabled && sinks.grpc.value.endpoint != "" ==>
                  |args| >= 4 && args[|args| - 2..] == ["--sink", "grpc://" + sinks.grpc.value.endpoint])
            && (!(sinks.grpc.Some? && sinks.grpc.value.enabled && sinks.grpc.value.endpoint != "") ==>
                  forall i | 2 <= i < |args| && args[i - 1] == "--sink" :: !("grpc://" <= args[i]))
  {
    var args, tail := Args(sinks, withMetrics), SinkArgs(sinks);
    assert args[|args| - |tail|..] == tail;
    if !(sinks.grpc.Some? && sinks.grpc.value.enabled && sinks.grpc.value.endpoint != "") {
      forall i | 2 <= i < |args| && args[i - 1] == "--sink" ensures !("grpc://" <= args[i]) {
        assert (CONFIG_MOUNT_PATH + "/" + METRICS_KEY)[0] == '/' && "grpc://"[0] == 'g' && "--sink"[0] == '-';
        assert args[i][0] != 'g';
      }
    }
  }

  /** With the Prometheus sink on, pgwatch listens on the port that the container exposes and
      the Service forwards, exactly when the port is not negative: buildArgs defaults 0 alone,
      prometheusPort everything below 1. */
  lemma ListensWhereScrapedIff(sinks: SinksSpec, withMetrics: bool)
    requires sinks.prometheus.Some? && sinks.prometheus.value.enabled
    ensures var listen := "prometheus://0.0.0.0:" + PrintInt(PrometheusPort(sinks));
            listen in Args(sinks, withMetrics) <==> sinks.prometheus.value.port >= 0
  {
    var prefix, args := "prometheus://0.0.0.0:", Args(sinks, withMetrics);
    var port := if sinks.prometheus.value.port == 0 then 9187 else sinks.prometheus.value.port;
    var at := if withMetrics then 5 else 3;
    assert args[at] == prefix + PrintInt(port);
    if port < 0 {
      PortsDiffer(prefix, port);
      assert prefix[0] == 'p' && "--sources"[0] == '-' && "--metrics"[0] == '-' && "--sink"[0] == '-';
      assert (CONFIG_MOUNT_PATH + "/" + SOURCES_KEY)[0] == '/' && (CONFIG_MOUNT_PATH + "/" + METRICS_KEY)[0] == '/';
      hide PrintInt;
      forall i | 0 <= i < |args| ensures args[i] != prefix + PrintInt(9187) {
        if i > at { assert args[i][0] == '-' || args[i][0] == 'g'; }
      }
    }
  }

  lemma PortsDiffer(prefix: string, port: int)
    requires port < 0
    ensures prefix + PrintInt(port) != prefix + PrintInt(9187)
  {
    assert (prefix + PrintInt(port))[|prefix|] == '-';
    assert IsDigit((prefix + PrintInt(9187))[|prefix|]);
  }

  /** Selector closure and isolation. For any two monitors of a namespace and any user
      labels and annotations on either, each selector picks the other's objects exactly
      when the two are the same monitor; the mounted ConfigMap is the generated one; and the
      pod template always carries the given hash. */
  lemma SelectorsCloseAndIsolate(
    a: Key, b: Key, specA: MonitorSpec, specB: MonitorSpec,
    mergedA: Merged, mergedB: Merged, hashA: string, hashB: string)
    requires specA.database.HasCredentials() && specB.database.HasCredentials()
    requires a.namespace == b.namespace
    ensures var depA, depB := BuildDeployment(a, specA, mergedA, hashA), BuildDeployment(b, specB, mergedB, hashB);
            var svcA, svcB := BuildService(a, specA), BuildService(b, specB);
            var smA := BuildServiceMonitor(a, specA);
            && (Matches(depA.selector, depB.podLabels) <==> a == b)
            && (Matches(svcA.selector, depB.podLabels) <==> a == b)
            && (Matches(smA.selector, svcB.labels) && svcB.key.namespace in smA.namespaces <==> a == b)
            && (depA.configMapName == ConfigMapName(b.name) <==> a == b)
            && ANNOTATION_CONFIG_HASH in depA.podAnnotations && depA.podAnnotations[ANNOTATION_CONFIG_HASH] == hashA
            && svcA.port == depA.metricsPort
  {
    SelectorIsolates(a.name, b.name, specB.podMetadata.labels);
    SelectorIsolates(a.name, b.name, specB.serviceMetadata.labels);
    ResourceNameInjective(a.name, b.name);
  }
}
