/** The two custom resources of group pgpilot.io/v1, as immutable values.
    Strings stand for Go strings: each `char` is one byte. */
module Api {
  import opened Prelude

  datatype Key = Key(namespace: string, name: string)

  /** `interval` is a duration in nanoseconds, as in metav1.Duration. */
  datatype MetricDefinition = MetricDefinition(
    name: string,
    description: string,
    interval: Option<int>,
    sqls: map<string, string>,
    gauges: seq<string>,
    statementTimeoutSeconds: int,
    masterOnly: bool,
    standbyOnly: bool,
    isInstanceLevel: bool)

  datatype CredentialsSecretRef = CredentialsSecretRef(name: string, usernameKey: string, passwordKey: string)

  datatype DatabaseRef = DatabaseRef(
    host: string,
    port: int,
    database: string,
    sslmode: string,
    username: string,
    password: string,
    credentialsSecret: Option<CredentialsSecretRef>,
    customTags: map<string, string>)
  {
    predicate Inline() { username != "" && password != "" }

    predicate HasCredentials() { Inline() || credentialsSecret.Some? }
  }

  datatype MetricsSpec = MetricsSpec(preset: string, fromLibraries: seq<string>, custom: seq<MetricDefinition>)

  datatype PrometheusSink = PrometheusSink(enabled: bool, port: int)

  datatype GrpcSink = GrpcSink(enabled: bool, endpoint: string)

  datatype SinksSpec = SinksSpec(prometheus: Option<PrometheusSink>, grpc: Option<GrpcSink>)

  datatype ImageSpec = ImageSpec(repository: string, tag: string)

  datatype MetadataOverrides = MetadataOverrides(labels: map<string, string>, annotations: map<string, string>)

  datatype MonitorSpec = MonitorSpec(
    database: DatabaseRef,
    metrics: MetricsSpec,
    sinks: SinksSpec,
    image: ImageSpec,
    podMetadata: MetadataOverrides,
    serviceMetadata: MetadataOverrides)

  datatype Library = Library(metrics: seq<MetricDefinition>)
}
