/** All monitors of a cluster at once: one store, one queue, one pass per key at a time. */
module Cluster {
  import opened Prelude
  import opened Api
  import opened Labels
  import opened Children
  import opened ConfigMaps
  import opened Compiler
  import opened Machine
  import opened Invariants
  import opened Safety

  /** What belongs to one monitor key alone. */
  datatype Local = Local(
    mon: Option<Monitor>,
    versions: nat,
    podsReady: bool,
    dirty: bool,
    timer: bool,
    audit: Audit,
    pass: Pass)

  /** Objects are stored under namespace and name, whoever generated them. */
  datatype State = State(
    locals: map<Key, Local>,
    libs: map<Key, Library>,
    secrets: set<Key>,
    configMaps: map<Key, Slot<ConfigMap>>,
    deployments: map<Key, Slot<Deployment>>,
    services: map<Key, Slot<Service>>,
    serviceMonitors: map<Key, Slot<ServiceMonitor>>)

  const NO_LOCAL := Local(None, 0, false, false, false, Audit(0, 0, {}, {}, []), Idle)

  function Get<V>(m: map<Key, V>, k: Key, default: V): V {
    if k in m then m[k] else default
  }

  function Empty<T>(): Slot<T> { Slot(None, None, false) }

  function ConfigMapKey(k: Key): Key { Key(k.namespace, ConfigMapName(k.name)) }

  function ResourceKey(k: Key): Key { Key(k.namespace, ResourceName(k.name)) }

  function LibrariesOf(c: State, namespace: string): map<string, Library> {
    map key | key in c.libs && key.namespace == namespace :: key.name := c.libs[key]
  }

  function SecretsOf(c: State, namespace: string): set<string> {
    set key | key in c.secrets && key.namespace == namespace :: key.name
  }

  /** The cluster as the passes of one key see it. */
  function ViewOf(c: State, k: Key): View {
    var l := Get(c.locals, k, NO_LOCAL);
    View(
      World(l.mon, l.versions, LibrariesOf(c, k.namespace), SecretsOf(c, k.namespace),
            Get(c.configMaps, ConfigMapKey(k), Empty()), Get(c.deployments, ResourceKey(k), Empty()),
            Get(c.services, ResourceKey(k), Empty()), Get(c.serviceMonitors, ResourceKey(k), Empty()),
            l.podsReady, l.dirty, l.timer, l.audit),
      l.pass)
  }

  function LocalOf(v: View): Local {
    Local(v.w.mon, v.w.versions, v.w.podsReady, v.w.dirty, v.w.timer, v.w.audit, v.pass)
  }

  /** Writes back what a step of one key did: its own record, and objects under the names it
      generates. */
  function Put(c: State, k: Key, v: View): State {
    c.(locals := c.locals[k := LocalOf(v)],
       configMaps := c.configMaps[ConfigMapKey(k) := v.w.cm],
       deployments := c.deployments[ResourceKey(k) := v.w.dep],
       services := c.services[ResourceKey(k) := v.w.svc],
       serviceMonitors := c.serviceMonitors[ResourceKey(k) := v.w.sm])
  }

  datatype ClusterStep =
    | Of(key: Key, step: Step)
    | SetLibrary(key: Key, lib: Option<Library>)
    | SetSecret(key: Key, present: bool)
    | CrashOperator

  /** Libraries and secrets belong to a namespace, not to a monitor. */
  predicate IsLocal(step: Step) {
    step.Env? ==> !step.e.PutLibrary? && !step.e.DropLibrary? && !step.e.PutSecret? && !step.e.DropSecret?
  }

  predicate Wakes(c: State, lib: Key, k: Key) {
    && k in c.locals && c.locals[k].mon.Some?
    && k.namespace == lib.namespace && References(c.locals[k].mon.value, lib.name)
  }

  function ClusterNext(settings: Key -> Setting, c: State, st: ClusterStep): State {
    match st
    case Of(k, step) => if IsLocal(step) then Put(c, k, Next(settings(k), ViewOf(c, k), step)) else c
    case SetLibrary(key, lib) =>
      c.(libs := if lib.Some? then c.libs[key := lib.value] else c.libs - {key},
         locals := map k | k in c.locals ::
                     if Wakes(c, key, k) then c.locals[k].(dirty := true) else c.locals[k])
    case SetSecret(key, present) =>
      c.(secrets := if present then c.secrets + {key} else c.secrets - {key})
    case CrashOperator =>
      c.(locals := map k | k in c.locals ::
                     c.locals[k].(dirty := c.locals[k].mon.Some?, timer := false, pass := Idle))
  }

  ghost function ClusterRun(settings: Key -> Setting, c: State, sts: seq<ClusterStep>): State {
    if sts == [] then c
    else ClusterNext(settings, ClusterRun(settings, c, sts[..|sts| - 1]), sts[|sts| - 1])
  }

  /** The states and steps of a run of the cluster. */
  ghost predicate IsClusterRun(settings: Key -> Setting, states: seq<State>, sts: seq<ClusterStep>) {
    |states| == |sts| + 1 && forall i | 0 <= i < |sts| :: ClusterTook(settings, states, sts, i)
  }

  ghost predicate ClusterTook(settings: Key -> Setting, states: seq<State>, sts: seq<ClusterStep>, i: nat)
    requires i < |sts| && |states| == |sts| + 1
  {
    states[i + 1] == ClusterNext(settings, states[i], sts[i])
  }

  // ---- every key runs the machine ----

  /** What a cluster step is to one key. */
  function Projected(st: ClusterStep, k: Key): Option<Step> {
    match st
    case Of(j, step) => if j == k && IsLocal(step) then Some(step) else None
    case SetLibrary(key, lib) =>
      if key.namespace != k.namespace then None
      else if lib.Some? then Some(Env(PutLibrary(key.name, lib.value)))
      else Some(Env(DropLibrary(key.name)))
    case SetSecret(key, present) =>
      if key.namespace != k.namespace then None
      else Some(Env(if present then PutSecret(key.name) else DropSecret(key.name)))
    case CrashOperator => Some(Crash)
  }

  lemma PutGet(c: State, k: Key, v: View)
    requires v.w.libs == LibrariesOf(c, k.namespace) && v.w.secrets == SecretsOf(c, k.namespace)
    ensures ViewOf(Put(c, k, v), k) == v
  {
    assert LibrariesOf(Put(c, k, v), k.namespace) == LibrariesOf(c, k.namespace);
  }

  lemma SecretsDependOnSecrets(c: State, d: State, namespace: string)
    requires c.secrets == d.secrets
    ensures SecretsOf(c, namespace) == SecretsOf(d, namespace)
  {}

  lemma LibrariesDependOnLibraries(c: State, d: State, namespace: string)
    requires c.libs == d.libs
    ensures LibrariesOf(c, namespace) == LibrariesOf(d, namespace)
  {}

  lemma PutElsewhere(c: State, j: Key, k: Key, v: View)
    requires j != k
    ensures ViewOf(Put(c, j, v), k) == ViewOf(c, k)
  {
    hide LibrariesOf, SecretsOf, LocalOf;
    ResourceNameInjective(j.name, k.name);
    LibrariesDependOnLibraries(Put(c, j, v), c, k.namespace);
    SecretsDependOnSecrets(Put(c, j, v), c, k.namespace);
  }

  lemma LocalStepKeepsShared(s: Setting, v: View, step: Step)
    requires IsLocal(step)
    ensures Next(s, v, step).w.libs == v.w.libs && Next(s, v, step).w.secrets == v.w.secrets
  {
    if step.Env? {
      LocalEnvKeepsShared(v.w, step.e);
    } else if step.Call? && v.pass.At? {
      hide ApiCall, StoreAfter;
      CallWrites(s, v.w, v.pass.id, v.pass.pc, v.pass.mon, v.pass.libs, step.o);
      WritesKeepShared(v.w, v.pass.id, v.pass.pc, v.pass.mon, v.pass.libs, step.o);
    } else {
      hide Mark, EnvNext, ApiCall;
      OtherStepsWriteNothing(s, v, step);
    }
  }

  lemma WritesKeepShared(w: World, id: nat, pc: Pc, m: Monitor, libs: seq<Library>, o: Outcome)
    ensures var after := StoreAfter(w, id, pc, m, libs, o); after.libs == w.libs && after.secrets == w.secrets
  {
    hide WithoutOurs, HasOurs;
  }

  lemma LocalEnvKeepsShared(w: World, e: EnvStep)
    requires !e.PutLibrary? && !e.DropLibrary? && !e.PutSecret? && !e.DropSecret?
    ensures EnvNext(w, e).libs == w.libs && EnvNext(w, e).secrets == w.secrets
  {}

  lemma LibraryLookup(c: State, namespace: string, n: string)
    ensures n in LibrariesOf(c, namespace) <==> Key(namespace, n) in c.libs
    ensures n in LibrariesOf(c, namespace) ==> LibrariesOf(c, namespace)[n] == c.libs[Key(namespace, n)]
  {
    assert Key(namespace, n).name == n;
  }

  lemma LibrariesAfter(c: State, d: State, key: Key, lib: Option<Library>, namespace: string)
    requires d.libs == if lib.Some? then c.libs[key := lib.value] else c.libs - {key}
    ensures LibrariesOf(d, namespace) ==
            if key.namespace != namespace then LibrariesOf(c, namespace)
            else if lib.Some? then LibrariesOf(c, namespace)[key.name := lib.value]
            else LibrariesOf(c, namespace) - {key.name}
  {
    hide LibrariesOf;
    var before, after := LibrariesOf(c, namespace), LibrariesOf(d, namespace);
    var expected := if key.namespace != namespace then before
                    else if lib.Some? then before[key.name := lib.value] else before - {key.name};
    forall n
      ensures n in after <==> n in expected
      ensures n in after ==> after[n] == expected[n]
    {
      LibraryLookup(c, namespace, n);
      LibraryLookup(d, namespace, n);
    }
  }

  lemma LibraryProjects(settings: Key -> Setting, c: State, key: Key, lib: Option<Library>, k: Key)
    ensures var st := SetLibrary(key, lib);
            ViewOf(ClusterNext(settings, c, st), k) ==
            match Projected(st, k)
            case Some(step) => Next(settings(k), ViewOf(c, k), step)
            case None => ViewOf(c, k)
  {
    hide LibrariesOf, SecretsOf, ConfigMapKey, ResourceKey;
    var after := ClusterNext(settings, c, SetLibrary(key, lib));
    LibrariesAfter(c, after, key, lib, k.namespace);
    assert after.secrets == c.secrets;
    SecretsDependOnSecrets(c, after, k.namespace);
  }

  lemma SecretLookup(c: State, namespace: string, n: string)
    ensures n in SecretsOf(c, namespace) <==> Key(namespace, n) in c.secrets
  {
    assert Key(namespace, n).name == n;
  }

  lemma SecretsAfter(c: State, d: State, key: Key, present: bool, namespace: string)
    requires d.secrets == if present then c.secrets + {key} else c.secrets - {key}
    ensures SecretsOf(d, namespace) ==
            if key.namespace != namespace then SecretsOf(c, namespace)
            else if present then SecretsOf(c, namespace) + {key.name}
            else SecretsOf(c, namespace) - {key.name}
  {
    hide SecretsOf;
    forall n ensures n in SecretsOf(d, namespace) <==>
                     if key == Key(namespace, n) then present else n in SecretsOf(c, namespace)
    {
      SecretLookup(c, namespace, n);
      SecretLookup(d, namespace, n);
    }
  }

  lemma SecretProjects(settings: Key -> Setting, c: State, key: Key, present: bool, k: Key)
    ensures var st := SetSecret(key, present);
            ViewOf(ClusterNext(settings, c, st), k) ==
            match Projected(st, k)
            case Some(step) => Next(settings(k), ViewOf(c, k), step)
            case None => ViewOf(c, k)
  {
    hide LibrariesOf, SecretsOf, ConfigMapKey, ResourceKey;
    var after := ClusterNext(settings, c, SetSecret(key, present));
    SecretsAfter(c, after, key, present, k.namespace);
    LibrariesDependOnLibraries(c, after, k.namespace);
  }

  /** Every step of the cluster is, for each key, one step of the machine or none. */
  lemma StepProjects(settings: Key -> Setting, c: State, st: ClusterStep, k: Key)
    ensures ViewOf(ClusterNext(settings, c, st), k) ==
            match Projected(st, k)
            case Some(step) => Next(settings(k), ViewOf(c, k), step)
            case None => ViewOf(c, k)
  {
    match st
    case Of(j, step) =>
      hide Next;
      if IsLocal(step) {
        var v := Next(settings(j), ViewOf(c, j), step);
        LocalStepKeepsShared(settings(j), ViewOf(c, j), step);
        if j == k { PutGet(c, k, v); } else { PutElsewhere(c, j, k, v); }
      }
    case SetLibrary(key, lib) => LibraryProjects(settings, c, key, lib, k);
    case SetSecret(key, present) => SecretProjects(settings, c, key, present, k);
    case CrashOperator =>
      assert LibrariesOf(ClusterNext(settings, c, st), k.namespace) == LibrariesOf(c, k.namespace);
  }

  ghost function ProjectedRun(sts: seq<ClusterStep>, k: Key): seq<Step> {
    if sts == [] then [] else
      var front := ProjectedRun(sts[..|sts| - 1], k);
      match Projected(sts[|sts| - 1], k)
      case Some(step) => front + [step]
      case None => front
  }

  /** Every run of the cluster is, for each key, a run of the machine: what holds of every
      machine run holds of every monitor in every cluster run. */
  lemma {:induction false} RunProjects(settings: Key -> Setting, c: State, sts: seq<ClusterStep>, k: Key)
    ensures ViewOf(ClusterRun(settings, c, sts), k) == Run(settings(k), ViewOf(c, k), ProjectedRun(sts, k))
  {
    hide ClusterNext, Next, ViewOf;
    if sts != [] {
      var front, st := sts[..|sts| - 1], sts[|sts| - 1];
      RunProjects(settings, c, front, k);
      StepProjects(settings, ClusterRun(settings, c, front), st, k);
      var steps := ProjectedRun(front, k);
      match Projected(st, k) {
        case Some(step) => assert (steps + [step])[..|steps|] == steps;
        case None =>
      }
    }
  }

  // ---- monitors do not interfere ----

  lemma PutsCommute(c: State, j: Key, v: View, k: Key, u: View)
    requires j != k
    ensures Put(Put(c, j, v), k, u) == Put(Put(c, k, u), j, v)
  {
    ResourceNameInjective(j.name, k.name);
    assert ConfigMapKey(j) != ConfigMapKey(k) && ResourceKey(j) != ResourceKey(k);
    UpdatesCommute(c.locals, j, LocalOf(v), k, LocalOf(u));
    UpdatesCommute(c.configMaps, ConfigMapKey(j), v.w.cm, ConfigMapKey(k), u.w.cm);
    UpdatesCommute(c.deployments, ResourceKey(j), v.w.dep, ResourceKey(k), u.w.dep);
    UpdatesCommute(c.services, ResourceKey(j), v.w.svc, ResourceKey(k), u.w.svc);
    UpdatesCommute(c.serviceMonitors, ResourceKey(j), v.w.sm, ResourceKey(k), u.w.sm);
  }

  lemma UpdatesCommute<V>(m: map<Key, V>, a: Key, x: V, b: Key, y: V)
    requires a != b
    ensures m[a := x][b := y] == m[b := y][a := x]
  {}

  predicate IsLocalTo(st: ClusterStep, k: Key) {
    st.Of? && st.key == k && IsLocal(st.step)
  }

  lemma StepsCommute(settings: Key -> Setting, c: State, a: ClusterStep, j: Key, b: ClusterStep, k: Key)
    requires j != k && IsLocalTo(a, j) && IsLocalTo(b, k)
    ensures ClusterNext(settings, ClusterNext(settings, c, a), b) ==
            ClusterNext(settings, ClusterNext(settings, c, b), a)
  {
    hide Next, Put, ViewOf;
    var v, u := Next(settings(j), ViewOf(c, j), a.step), Next(settings(k), ViewOf(c, k), b.step);
    PutElsewhere(c, j, k, v);
    PutElsewhere(c, k, j, u);
    PutsCommute(c, j, v, k, u);
  }

  lemma {:induction false} StepPassesRun(
    settings: Key -> Setting, c: State, a: ClusterStep, j: Key, sts: seq<ClusterStep>, k: Key)
    requires j != k && IsLocalTo(a, j) && forall st | st in sts :: IsLocalTo(st, k)
    ensures ClusterNext(settings, ClusterRun(settings, c, sts), a) ==
            ClusterRun(settings, ClusterNext(settings, c, a), sts)
  {
    hide ClusterNext;
    if sts != [] {
      var front, st := sts[..|sts| - 1], sts[|sts| - 1];
      assert st in sts && forall x | x in front :: x in sts;
      StepPassesRun(settings, c, a, j, front, k);
      StepsCommute(settings, ClusterRun(settings, c, front), a, j, st, k);
    }
  }

  function OnlyOf(sts: seq<ClusterStep>, k: Key): (r: seq<ClusterStep>)
    ensures forall st | st in r :: st in sts && st.Of? && st.key == k
  {
    if sts == [] then [] else
      var front, st := OnlyOf(sts[..|sts| - 1], k), sts[|sts| - 1];
      assert st in sts && forall x | x in sts[..|sts| - 1] :: x in sts;
      if st.Of? && st.key == k then front + [st] else front
  }

  /** Any interleaving of the steps of two monitors leaves the whole store as running one
      monitor after the other does. */
  lemma {:induction false} InterleavingIsInvisible(
    settings: Key -> Setting, c: State, sts: seq<ClusterStep>, j: Key, k: Key)
    requires j != k && forall st | st in sts :: IsLocalTo(st, j) || IsLocalTo(st, k)
    ensures ClusterRun(settings, c, sts) ==
            ClusterRun(settings, ClusterRun(settings, c, OnlyOf(sts, j)), OnlyOf(sts, k))
  {
    hide ClusterNext;
    if sts != [] {
      var front, st := sts[..|sts| - 1], sts[|sts| - 1];
      assert st in sts && forall x | x in front :: x in sts;
      InterleavingIsInvisible(settings, c, front, j, k);
      var js, ks := OnlyOf(front, j), OnlyOf(front, k);
      if st.key == k {
        assert OnlyOf(sts, j) == js && OnlyOf(sts, k) == ks + [st];
        assert (ks + [st])[..|ks|] == ks;
      } else {
        assert OnlyOf(sts, j) == js + [st] && OnlyOf(sts, k) == ks;
        assert (js + [st])[..|js|] == js;
        StepPassesRun(settings, ClusterRun(settings, c, js), st, j, ks, k);
      }
    }
  }

  // ---- libraryToMonitors ----

  datatype Item = Item(key: Key, spec: MonitorSpec)

  function Matching(items: seq<Item>, lib: string): seq<Key> {
    if items == [] then [] else
      var front, item := Matching(items[..|items| - 1], lib), items[|items| - 1];
      if lib in item.spec.metrics.fromLibraries then front + [item.key] else front
  }

  /** `items` is what List returned for the library's namespace. */
  method LibraryToMonitors(items: seq<Item>, lib: Key) returns (requests: seq<Key>)
    ensures requests == Matching(items, lib.name)
  {
    requests := [];
    for i := 0 to |items|
      invariant requests == Matching(items[..i], lib.name)
    {
      var m := items[i];
      var refs := m.spec.metrics.fromLibraries;
      ghost var before := requests;
      assert items[..i + 1][..i] == items[..i];
      for j := 0 to |refs|
        invariant requests == before && lib.name !in refs[..j]
      {
        if refs[j] == lib.name {
          requests := requests + [m.key];
          break;
        }
        assert refs[..j + 1] == refs[..j] + [refs[j]];
      }
      assert lib.name !in refs ==> requests == before;
      assert refs[..|refs|] == refs;
    }
    assert items[..|items|] == items;
  }

  /** `items` lists the monitors of a namespace, each once. */
  ghost predicate ListsMonitors(items: seq<Item>, c: State, namespace: string) {
    && (forall i, j | 0 <= i < j < |items| :: items[i].key != items[j].key)
    && (forall item | item in items ::
          && item.key.namespace == namespace && item.key in c.locals
          && c.locals[item.key].mon.Some? && c.locals[item.key].mon.value.spec == item.spec)
    && (forall k | k in c.locals && k.namespace == namespace && c.locals[k].mon.Some? ::
          exists item :: item in items && item.key == k)
  }

  lemma {:induction false} MatchingIsExact(items: seq<Item>, lib: string)
    ensures forall k :: k in Matching(items, lib) <==>
                        exists item :: item in items && item.key == k && lib in item.spec.metrics.fromLibraries
    ensures (forall i, j | 0 <= i < j < |items| :: items[i].key != items[j].key) ==>
              forall i, j | 0 <= i < j < |Matching(items, lib)| :: Matching(items, lib)[i] != Matching(items, lib)[j]
  {
    if items != [] {
      var front, last := items[..|items| - 1], items[|items| - 1];
      MatchingIsExact(front, lib);
      assert items == front + [last];
      forall k ensures k in Matching(items, lib) <==>
                       exists item :: item in items && item.key == k && lib in item.spec.metrics.fromLibraries
      {
        assert last in items;
        if item :| item in front && item.key == k && lib in item.spec.metrics.fromLibraries {
          assert item in items;
        }
      }
      if forall i, j | 0 <= i < j < |items| :: items[i].key != items[j].key {
        assert forall item | item in front :: item.key != last.key;
        assert last.key !in Matching(front, lib);
      }
    }
  }

  /** The requests are the monitors the library event must wake, each once. */
  lemma RequestsAreTheWoken(items: seq<Item>, c: State, lib: Key)
    requires ListsMonitors(items, c, lib.namespace)
    ensures forall k :: k in Matching(items, lib.name) <==> Wakes(c, lib, k)
    ensures forall i, j | 0 <= i < j < |Matching(items, lib.name)| ::
              Matching(items, lib.name)[i] != Matching(items, lib.name)[j]
  {
    MatchingIsExact(items, lib.name);
  }

  /** What the next pass would build from, if it can. */
  function Inputs(w: World): Option<(MonitorSpec, seq<Library>)> {
    if w.mon.None? then None else
      match Resolve(w.libs, w.mon.value.spec.metrics.fromLibraries)
      case None => None
      case Some(libs) => Some((w.mon.value.spec, libs))
  }

  predicate MayBuild(s: Setting, w: World, r: Option<Built>) {
    Inputs(w).Some? && s.builds(Inputs(w).value.0, Inputs(w).value.1, r)
  }

  /** Dependency soundness: if putting or dropping a library changes what a monitor's pass
      would build from, or whether it could, and so if it changes what it may build, that
      monitor is woken. */
  lemma DependenciesAreWoken(
    settings: Key -> Setting, c: State, lib: Key, value: Option<Library>, k: Key, r: Option<Built>)
    ensures var before, after := ViewOf(c, k).w, ViewOf(ClusterNext(settings, c, SetLibrary(lib, value)), k).w;
            && (Inputs(after) != Inputs(before) ==> Wakes(c, lib, k) && after.dirty)
            && (MayBuild(settings(k), after, r) != MayBuild(settings(k), before, r) ==> Wakes(c, lib, k) && after.dirty)
  {
    LibraryProjects(settings, c, lib, value, k);
    hide ClusterNext, ViewOf, Resolve;
    UnreferencedIsHarmless(ViewOf(c, k).w, lib.name, value);
    MonitorIsListed(c, k);
  }

  lemma UnreferencedIsHarmless(w: World, n: string, value: Option<Library>)
    ensures var e := if value.Some? then PutLibrary(n, value.value) else DropLibrary(n);
            Inputs(EnvNext(w, e)) == Inputs(w)
            || (w.mon.Some? && References(w.mon.value, n) && EnvNext(w, e).dirty)
  {
    var e := if value.Some? then PutLibrary(n, value.value) else DropLibrary(n);
    if w.mon.Some? && !References(w.mon.value, n) {
      ResolveAgrees(w.libs, EnvNext(w, e).libs, w.mon.value.spec.metrics.fromLibraries);
    }
  }

  lemma MonitorIsListed(c: State, k: Key)
    ensures ViewOf(c, k).w.mon.Some? ==>
              k in c.locals && c.locals[k].mon == ViewOf(c, k).w.mon
  {}
}
