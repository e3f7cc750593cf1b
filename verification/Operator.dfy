/** The operator as a whole: the reconciler's guarantees over the compiler's output, for every
    monitor of a cluster in every run. */
module Operator {
  import opened Prelude
  import opened Api
  import opened Labels
  import opened MetricsMerge
  import opened Children
  import opened ConfigMaps
  import opened Compiler
  import opened Machine
  import opened Invariants
  import opened Safety
  import opened Pipeline
  import opened Cluster

  /** The machine of every key, with the real compiler. */
  ghost function Settings(tk: Toolkit, serviceMonitors: bool): Key -> Setting {
    (k: Key) => SettingOf(tk, k, serviceMonitors)
  }

  /** No monitor yet; whatever stands under the generated names is somebody else's. */
  ghost predicate InitialCluster(c: State) {
    && c.locals == map[]
    && (forall k | k in c.configMaps :: c.configMaps[k].stamp.None?)
    && (forall k | k in c.deployments :: c.deployments[k].stamp.None?)
    && (forall k | k in c.services :: c.services[k].stamp.None?)
    && (forall k | k in c.serviceMonitors :: c.serviceMonitors[k].stamp.None?)
  }

  lemma InitialViews(c: State, k: Key)
    requires InitialCluster(c)
    ensures Init(ViewOf(c, k))
  {}

  ghost predicate Runs(tk: Toolkit, sm: bool, states: seq<State>, sts: seq<ClusterStep>) {
    IsClusterRun(Settings(tk, sm), states, sts) && InitialCluster(states[0])
  }

  lemma {:induction false} ReachableIsGood(
    tk: Toolkit, sm: bool, states: seq<State>, sts: seq<ClusterStep>, i: nat, k: Key)
    requires Runs(tk, sm, states, sts) && i <= |sts|
    ensures Inv(Settings(tk, sm)(k), ViewOf(states[i], k))
  {
    hide Inv, ViewOf, Next, ClusterNext, Projected, Settings;
    if i == 0 {
      InitialViews(states[0], k);
      InitIsGood(Settings(tk, sm)(k), ViewOf(states[0], k));
    } else {
      ReachableIsGood(tk, sm, states, sts, i - 1, k);
      assert ClusterTook(Settings(tk, sm), states, sts, i - 1);
      StepProjects(Settings(tk, sm), states[i - 1], sts[i - 1], k);
      match Projected(sts[i - 1], k) {
        case Some(step) => StepKeepsInv(Settings(tk, sm)(k), ViewOf(states[i - 1], k), step);
        case None =>
      }
    }
  }

  /** The source is the monitor's database, switched on, at an address that reads back. */
  predicate FindsDatabase(src: Option<Source>, k: Key, db: DatabaseRef) {
    && src.Some? && src.value.name == k.name && src.value.kind == "postgres" && src.value.isEnabled
    && src.value.customTags == db.customTags
    && (TargetReadsBack(EffectiveTarget(db)) ==> ParseConnStr(src.value.connStr) == Some(EffectiveTarget(db)))
  }

  /** The stored objects of `k` run what the stored spec and libraries ask for. */
  ghost predicate Served(tk: Toolkit, c: State, k: Key, spec: MonitorSpec) {
    var libs := Resolve(LibrariesOf(c, k.namespace), spec.metrics.fromLibraries);
    && libs.Some?
    && ConfigMapKey(k) in c.configMaps && ResourceKey(k) in c.deployments
    && var cm, dep := c.configMaps[ConfigMapKey(k)].obj, c.deployments[ResourceKey(k)].obj;
       && cm.Some? && dep.Some?
       && dep.value.configMapName == cm.value.key.name
       && ANNOTATION_CONFIG_HASH in dep.value.podAnnotations
       && dep.value.podAnnotations[ANNOTATION_CONFIG_HASH] == ContentHash(tk, cm.value.data)
       && dep.value.replicas == 1 && LogsIn(dep.value.envVars, spec.database)
       && FindsDatabase(LoadSource(tk, dep.value.args, cm.value.data), k, spec.database)
       && var plan := Interpret(tk, dep.value.args, cm.value.data);
          && plan.Some? && Realises(plan.value, tk.builtin, spec.metrics, libs.value)
  }

  /** The parts meet. In every run of the cluster, whatever edits, deletions, lost replies,
      conflicts and crashes it holds, and whatever order Go visits its maps in: once nobody is
      going to look at a live monitor again, pgwatch, started from the stored Deployment on the
      stored ConfigMap, runs exactly the schedule and the definitions that the stored spec and
      the stored libraries ask for. */
  lemma EveryMonitorIsServed(tk: Toolkit, sm: bool, states: seq<State>, sts: seq<ClusterStep>, i: nat, k: Key)
    requires Runs(tk, sm, states, sts) && i <= |sts| && tk.PrintsReadably()
    requires k in states[i].locals
    requires var l := states[i].locals[k];
             l.mon.Some? && !l.mon.value.deleting && l.pass.Idle? && !l.dirty && !l.timer
    ensures var m := states[i].locals[k].mon.value; m.status.observedGeneration == m.generation && m.status.ready
    ensures states[i].locals[k].podsReady && Announces(states[i].locals[k].mon.value)
    ensures Served(tk, states[i], k, states[i].locals[k].mon.value.spec)
  {
    hide Compiles, Interpret, Realises, Inv, Announces, LogsIn, FindsDatabase;
    QuietIsConverged(tk, sm, states, sts, i, k);
    ConvergedIsServed(tk, sm, states[i], k);
  }

  lemma QuietIsConverged(tk: Toolkit, sm: bool, states: seq<State>, sts: seq<ClusterStep>, i: nat, k: Key)
    requires Runs(tk, sm, states, sts) && i <= |sts|
    requires var v := ViewOf(states[i], k); Quiet(v) && v.w.mon.Some? && !v.w.mon.value.deleting
    ensures Converged(Settings(tk, sm)(k), ViewOf(states[i], k).w)
    ensures var m := ViewOf(states[i], k).w.mon.value; m.status.observedGeneration == m.generation && m.status.ready
    ensures ViewOf(states[i], k).w.podsReady && Announces(ViewOf(states[i], k).w.mon.value)
  {
    hide ViewOf, StoreOk, PassOk, Runs, Resolve, Settings, Announces;
    ReachableIsGood(tk, sm, states, sts, i, k);
  }

  lemma ConvergedIsServed(tk: Toolkit, sm: bool, c: State, k: Key)
    requires tk.PrintsReadably() && Converged(Settings(tk, sm)(k), ViewOf(c, k).w)
    ensures k in c.locals && Served(tk, c, k, ViewOf(c, k).w.mon.value.spec)
  {
    hide Compiles, Interpret, Realises, Resolve, LibrariesOf, SecretsOf, Announces, LogsIn, ParseConnStr, LoadSource;
    var b :| ConvergedTo(Settings(tk, sm)(k), ViewOf(c, k).w, b);
    var spec := ViewOf(c, k).w.mon.value.spec;
    var libs := Resolve(LibrariesOf(c, k.namespace), spec.metrics.fromLibraries).value;
    BuildIsCoherent(tk, k, spec, libs, b);
    CompilationPreservesMeaning(tk, k, spec, libs, b);
    SourceIsTheDatabase(tk, k, spec, libs, b);
  }

  /** What one compilation builds fits together. */
  lemma BuildIsCoherent(tk: Toolkit, k: Key, spec: MonitorSpec, libs: seq<Library>, b: Built)
    requires Compiles(tk, k, spec, libs, Some(b))
    ensures b.deployment.Some? <==> spec.database.HasCredentials()
    ensures b.hash == ContentHash(tk, b.configMap.data)
    ensures b.configMap.key == ConfigMapKey(k)
    ensures b.deployment.Some? ==>
              && b.deployment.value.key == ResourceKey(k)
              && b.deployment.value.configMapName == b.configMap.key.name
              && ANNOTATION_CONFIG_HASH in b.deployment.value.podAnnotations
              && b.deployment.value.podAnnotations[ANNOTATION_CONFIG_HASH] == b.hash
              && b.deployment.value.replicas == 1 && LogsIn(b.deployment.value.envVars, spec.database)
  {
    hide Merges, DataOf, ContentHash, LogsIn, BuildEnvVars;
    if spec.database.HasCredentials() {
      EnvVarsLogIn(spec.database);
    }
  }

  /** The selectors and pod labels of a build, whatever the users add. */
  lemma BuildSelectors(tk: Toolkit, k: Key, spec: MonitorSpec, libs: seq<Library>, b: Built)
    requires Compiles(tk, k, spec, libs, Some(b))
    ensures b.service.selector == Selector(k.name)
    ensures b.deployment.Some? ==>
              && b.deployment.value.selector == Selector(k.name)
              && b.deployment.value.podLabels == MergeLabels(SystemLabels(k.name), spec.podMetadata.labels)
  {
    hide Merges, ContentHash, DataOf, SystemLabels, MergeLabels, Selector;
  }

  /** buildEnvVars never dereferences a missing reference: a pass gets to step 5 only with
      credentials, in every reachable state. */
  lemma NoNilDereference(tk: Toolkit, sm: bool, states: seq<State>, sts: seq<ClusterStep>, i: nat, k: Key)
    requires Runs(tk, sm, states, sts) && i <= |sts|
    requires k in states[i].locals
    requires var pass := states[i].locals[k].pass;
             pass.At? && (pass.pc.Build? || pass.pc.ApplyConfigMap? || pass.pc.ApplyDeployment?)
    ensures states[i].locals[k].pass.mon.spec.database.HasCredentials()
    ensures !states[i].locals[k].pass.pc.Build? ==> states[i].locals[k].pass.pc.b.deployment.Some?
  {
    hide LibrariesOf, SecretsOf, Compiles, StoreOk, WakeOk, Progress, ClusterTook, InitialCluster;
    ReachableIsGood(tk, sm, states, sts, i, k);
    var pass := states[i].locals[k].pass;
    assert pass == ViewOf(states[i], k).pass;
    if !pass.pc.Build? {
      BuildIsCoherent(tk, k, pass.mon.spec, pass.libs, pass.pc.b);
    }
  }

  /** Rollouts: between any two builds of a monitor the pod template's hash changes exactly
      when the ConfigMap's data does, whatever annotations the users add, unless the two data
      make a collision of the digest. */
  lemma RolloutIffDataChanges(
    tk: Toolkit, k: Key, specA: MonitorSpec, libsA: seq<Library>, a: Built,
    specB: MonitorSpec, libsB: seq<Library>, b: Built)
    requires tk.PrintsNoNul()
    requires Compiles(tk, k, specA, libsA, Some(a)) && specA.database.HasCredentials()
    requires Compiles(tk, k, specB, libsB, Some(b)) && specB.database.HasCredentials()
    ensures a.deployment.Some? && ANNOTATION_CONFIG_HASH in a.deployment.value.podAnnotations
    ensures b.deployment.Some? && ANNOTATION_CONFIG_HASH in b.deployment.value.podAnnotations
    ensures a.deployment.value.podAnnotations[ANNOTATION_CONFIG_HASH] ==
            b.deployment.value.podAnnotations[ANNOTATION_CONFIG_HASH]
            <==> a.configMap.data == b.configMap.data || tk.Collide(Stream(a.configMap.data), Stream(b.configMap.data))
  {
    hide Compiles, ContentHash, Stream, NulFree;
    BuildIsCoherent(tk, k, specA, libsA, a);
    BuildIsCoherent(tk, k, specB, libsB, b);
    BuiltDataIsNulFree(tk, k, specA, libsA, a);
    BuiltDataIsNulFree(tk, k, specB, libsB, b);
    HashIdentifiesData(tk, a.configMap.data, b.configMap.data);
  }

  lemma BuiltDataIsNulFree(tk: Toolkit, k: Key, spec: MonitorSpec, libs: seq<Library>, b: Built)
    requires tk.PrintsNoNul() && Compiles(tk, k, spec, libs, Some(b))
    ensures NulFree(b.configMap.data)
  {
    hide Merges, DataOf, ContentHash, NulFree;
    var m :| Merges(spec.metrics, libs, m) && Some(b) == CompileFrom(tk, k, spec, m);
    GeneratedDataIsNulFree(tk, k, spec.database, m);
  }

  // ---- every hash is of data that was stored ----

  /** The ConfigMap of `k` was stored with data of this hash. */
  ghost predicate StoredAt(tk: Toolkit, c: State, k: Key, hash: string) {
    && ConfigMapKey(k) in c.configMaps && c.configMaps[ConfigMapKey(k)].obj.Some?
    && ContentHash(tk, c.configMaps[ConfigMapKey(k)].obj.value.data) == hash
  }

  ghost predicate StoredBy(tk: Toolkit, states: seq<State>, i: nat, k: Key, hash: string)
    requires i < |states|
  {
    exists j | 0 <= j <= i :: StoredAt(tk, states[j], k, hash)
  }

  lemma StampedIsStored(tk: Toolkit, sm: bool, c: State, k: Key)
    requires Inv(Settings(tk, sm)(k), ViewOf(c, k))
    requires ViewOf(c, k).w.cm.stamp.Some? && !ViewOf(c, k).w.cm.foreign
    ensures StoredAt(tk, c, k, ViewOf(c, k).w.cm.stamp.value.built.hash)
  {
    hide PassOk, WakeOk, MonitorOk, PipelineOk, TruthOk, LibrariesOf, SecretsOf, Compiles, ContentHash;
    var stamp := ViewOf(c, k).w.cm.stamp.value;
    BuildIsCoherent(tk, k, stamp.spec, stamp.libs, stamp.built);
  }

  lemma {:induction false} RecordedIsStored(
    tk: Toolkit, sm: bool, states: seq<State>, sts: seq<ClusterStep>, i: nat, k: Key, hash: string)
    requires Runs(tk, sm, states, sts) && i <= |sts| && hash in ViewOf(states[i], k).w.audit.stored
    ensures StoredBy(tk, states, i, k, hash)
  {
    hide Inv, ViewOf, Next, ClusterNext, Projected, Settings, StoredAt;
    if i == 0 {
      InitialViews(states[0], k);
    } else {
      var s := Settings(tk, sm);
      assert ClusterTook(s, states, sts, i - 1);
      StepProjects(s, states[i - 1], sts[i - 1], k);
      ReachableIsGood(tk, sm, states, sts, i, k);
      match Projected(sts[i - 1], k) {
        case Some(step) => StepStoresRecorded(s(k), ViewOf(states[i - 1], k), step);
        case None =>
      }
      if hash in ViewOf(states[i - 1], k).w.audit.stored {
        RecordedIsStored(tk, sm, states, sts, i - 1, k, hash);
      } else {
        StampedIsStored(tk, sm, states[i], k);
      }
    }
  }

  /** Pipeline order, in terms of the objects: in every run, the hash a status reports, and the
      annotation of a Deployment that is ours, is the hash of data the ConfigMap held then or
      earlier. */
  lemma HashesAreOfStoredData(
    tk: Toolkit, sm: bool, states: seq<State>, sts: seq<ClusterStep>, i: nat, k: Key, hash: string)
    requires Runs(tk, sm, states, sts) && i <= |sts| && hash != ""
    requires || (k in states[i].locals && states[i].locals[k].mon.Some?
                 && states[i].locals[k].mon.value.status.configHash == hash)
             || (&& Ours(states[i].deployments, ResourceKey(k))
                 && var pod := states[i].deployments[ResourceKey(k)].obj.value.podAnnotations;
                    ANNOTATION_CONFIG_HASH in pod && pod[ANNOTATION_CONFIG_HASH] == hash)
    ensures StoredBy(tk, states, i, k, hash)
  {
    hide ClusterTook, InitialCluster, StoredBy, PassOk, WakeOk, LibrariesOf, SecretsOf, Compiles, TruthOk;
    ReachableIsGood(tk, sm, states, sts, i, k);
    if Ours(states[i].deployments, ResourceKey(k)) {
      var stamp := states[i].deployments[ResourceKey(k)].stamp.value;
      BuildIsCoherent(tk, k, stamp.spec, stamp.libs, stamp.built);
    }
    assert hash in ViewOf(states[i], k).w.audit.stored;
    RecordedIsStored(tk, sm, states, sts, i, k, hash);
  }

  // ---- isolation ----

  /** The slot of an object that we applied and nobody touched since. */
  predicate Ours<T>(m: map<Key, Slot<T>>, k: Key) {
    k in m && m[k].stamp.Some? && !m[k].foreign && m[k].obj.Some?
  }

  /** In every reachable state the stored Deployment and Service of one monitor select the
      stored pods of another of the namespace exactly when the two are one. */
  lemma PodsAreNotShared(tk: Toolkit, sm: bool, states: seq<State>, sts: seq<ClusterStep>, i: nat, j: Key, k: Key)
    requires Runs(tk, sm, states, sts) && i <= |sts| && j.namespace == k.namespace
    requires Ours(states[i].deployments, ResourceKey(j)) && Ours(states[i].services, ResourceKey(j))
    requires Ours(states[i].deployments, ResourceKey(k))
    ensures var c := states[i];
            var pods := c.deployments[ResourceKey(k)].obj.value.podLabels;
            && (Matches(c.deployments[ResourceKey(j)].obj.value.selector, pods) <==> j == k)
            && (Matches(c.services[ResourceKey(j)].obj.value.selector, pods) <==> j == k)
  {
    hide Compiles, Inv, LibrariesOf, SecretsOf, Matches, ClusterTook, InitialCluster;
    ReachableIsGood(tk, sm, states, sts, i, j);
    ReachableIsGood(tk, sm, states, sts, i, k);
    StoredSelectors(tk, sm, states[i], j);
    StoredSelectors(tk, sm, states[i], k);
    var user := StoredPodLabels(tk, sm, states[i], k);
    SelectorIsolates(j.name, k.name, user);
  }

  lemma StoredSelectors(tk: Toolkit, sm: bool, c: State, k: Key)
    requires Inv(Settings(tk, sm)(k), ViewOf(c, k))
    ensures Ours(c.deployments, ResourceKey(k)) ==>
              c.deployments[ResourceKey(k)].obj.value.selector == Selector(k.name)
    ensures Ours(c.services, ResourceKey(k)) ==>
              c.services[ResourceKey(k)].obj.value.selector == Selector(k.name)
  {
    hide PassOk, WakeOk, MonitorOk, PipelineOk, TruthOk, LibrariesOf, SecretsOf, Compiles, Selector;
    if Ours(c.deployments, ResourceKey(k)) {
      var stamp := c.deployments[ResourceKey(k)].stamp.value;
      BuildSelectors(tk, k, stamp.spec, stamp.libs, stamp.built);
    }
    if Ours(c.services, ResourceKey(k)) {
      var stamp := c.services[ResourceKey(k)].stamp.value;
      BuildSelectors(tk, k, stamp.spec, stamp.libs, stamp.built);
    }
  }

  lemma StoredPodLabels(tk: Toolkit, sm: bool, c: State, k: Key) returns (user: StringMap)
    requires Inv(Settings(tk, sm)(k), ViewOf(c, k)) && Ours(c.deployments, ResourceKey(k))
    ensures c.deployments[ResourceKey(k)].obj.value.podLabels == MergeLabels(SystemLabels(k.name), user)
  {
    hide PassOk, WakeOk, MonitorOk, PipelineOk, TruthOk, LibrariesOf, SecretsOf, Compiles, MergeLabels, SystemLabels;
    var stamp := c.deployments[ResourceKey(k)].stamp.value;
    BuildSelectors(tk, k, stamp.spec, stamp.libs, stamp.built);
    user := stamp.spec.podMetadata.labels;
  }
}
