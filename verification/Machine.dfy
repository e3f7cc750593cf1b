/** The monitor reconciler as a step machine, seen from one monitor key: the API objects it
    reads and writes, its place in the work queue, and the pass in progress. One step is one
    API call of the pass with the computation that follows it, or one act of the outside. */
module Machine {
  import opened Prelude
  import opened Api
  import opened Conditions
  import opened Children
  import opened ConfigMaps
  import opened Compiler

  const FINALIZER := "pgpilot.io/finalizer"
  const MAX_TRIES: nat := 5  // retry.DefaultRetry.Steps

  /** `builds` says what steps 3 to 6b may come to; everything below holds for any such
      relation. */
  datatype Setting = Setting(
    key: Key,
    builds: (MonitorSpec, seq<Library>, Option<Built>) -> bool,
    serviceMonitorEnabled: bool)

  /** The operator's own. */
  ghost function SettingOf(tk: Toolkit, key: Key, serviceMonitors: bool): Setting {
    Setting(key, (spec, libs, r) => Compiles(tk, key, spec, libs, r), serviceMonitors)
  }

  // ---- state ----

  datatype Status = Status(
    ready: bool,
    observedGeneration: nat,
    configHash: string,
    lastReconciled: nat,
    conditions: seq<Condition>)

  datatype Monitor = Monitor(
    uid: nat,
    version: nat,
    generation: nat,
    spec: MonitorSpec,
    finalizers: seq<string>,
    deleting: bool,
    status: Status)

  /** Who applied an object last, and from what. */
  datatype Stamp = Stamp(pass: nat, spec: MonitorSpec, libs: seq<Library>, built: Built)

  /** A child object as stored. `stamp` and `foreign` (somebody else wrote it since) are
      bookkeeping that no step reads. */
  datatype Slot<T> = Slot(obj: Option<T>, stamp: Option<Stamp>, foreign: bool)

  /** More bookkeeping: passes begun, the pass behind `status.configHash`, the hashes of all
      data ever stored in the ConfigMap and of all annotations ever stored on the Deployment,
      and the events recorded for the current incarnation. Only `passes` names a pass. */
  datatype Audit = Audit(
    passes: nat,
    hashBy: nat,
    stored: set<string>,
    annotated: set<string>,
    events: seq<string>)

  datatype World = World(
    mon: Option<Monitor>,
    versions: nat,
    libs: map<string, Library>,
    secrets: set<string>,
    cm: Slot<ConfigMap>,
    dep: Slot<Deployment>,
    svc: Slot<Service>,
    sm: Slot<ServiceMonitor>,
    podsReady: bool,
    dirty: bool,
    timer: bool,
    audit: Audit)

  /** The API call a pass is about to make; `Build` is the local work of steps 3 to 6b. */
  datatype Pc =
    | RemoveFinalizer
    | AddFinalizer
    | GetSecret
    | GetLibrary
    | Build
    | ApplyConfigMap(b: Built)
    | ApplyDeployment(b: Built)
    | ApplyService(b: Built)
    | ApplyServiceMonitor(b: Built)
    | GetDeployment(b: Built)
    | PatchGet(tries: nat, final: bool)
    | PatchUpdate(tries: nat, final: bool, latest: Monitor)

  datatype Result = Done | RequeueAfter(seconds: nat) | Error {
    /** A zero delay asks for nothing. */
    predicate Requeues() { Error? || (RequeueAfter? && seconds > 0) }
  }

  /** `mon` is the pass's own copy, whose status it edits; `libs` the libraries read so far. */
  datatype Pass =
    | Idle
    | Begun(id: nat)
    | At(id: nat, pc: Pc, mon: Monitor, libs: seq<Library>)
    | Returned(id: nat, result: Result)

  datatype View = View(w: World, pass: Pass)

  // ---- steps ----

  /** A call is accepted, refused, or carried out with its reply lost. */
  datatype Reply = Accepted | Refused | Lost

  /** `echo` says whether the watch event of the pass's own write reaches the queue: always,
      as the controller is wired, but nothing below depends on it. `built` is what the local
      work came to, if this is the step that does it. */
  datatype Outcome = Outcome(reply: Reply, now: nat, echo: bool, built: Option<Built>) {
    predicate Ok() { reply.Accepted? }
  }

  datatype EnvStep =
    | Create(newSpec: MonitorSpec, newFinalizers: seq<string>)
    | EditSpec(newSpec: MonitorSpec)
    | EditMetadata(newFinalizers: seq<string>)
    | Delete
    | PutLibrary(name: string, lib: Library)
    | DropLibrary(name: string)
    | PutSecret(name: string)
    | DropSecret(name: string)
    | SetPodsReady(ready: bool)
    | DisturbConfigMap(configMap: Option<ConfigMap>)
    | DisturbDeployment(deployment: Option<Deployment>)
    | DisturbService(service: Option<Service>)
    | DisturbServiceMonitor(serviceMonitor: Option<ServiceMonitor>)
    | FireTimer

  datatype Step = Env(e: EnvStep) | Take | Call(o: Outcome) | Finish | Crash

  predicate HasOurs(fs: seq<string>) { FINALIZER in fs }

  /** controllerutil.RemoveFinalizer. */
  function WithoutOurs(fs: seq<string>): seq<string> {
    if fs == [] then []
    else if fs[0] == FINALIZER then WithoutOurs(fs[1..])
    else [fs[0]] + WithoutOurs(fs[1..])
  }

  predicate References(m: Monitor, name: string) { name in m.spec.metrics.fromLibraries }

  /** Stores a changed monitor under a fresh version; the watch event wakes the key. */
  function StoreMonitor(w: World, m: Monitor): World {
    w.(mon := Some(m.(version := w.versions + 1)), versions := w.versions + 1, dirty := true)
  }

  const NO_STATUS := Status(false, 0, "", 0, [])

  /** Nobody but the operator adds or removes its finalizer on a stored object. */
  function EnvNext(w: World, e: EnvStep): World {
    match e
    case Create(spec, fs) =>
      if w.mon.Some? then w else
        var m := Monitor(w.versions + 1, 0, 1, spec, fs, false, NO_STATUS);
        StoreMonitor(w, m).(audit := w.audit.(hashBy := 0, events := []))
    case EditSpec(spec) =>
      if w.mon.None? || w.mon.value.spec == spec then w
      else StoreMonitor(w, w.mon.value.(spec := spec, generation := w.mon.value.generation + 1))
    case EditMetadata(fs) =>
      if w.mon.None? || HasOurs(w.mon.value.finalizers) != HasOurs(fs) then w
      else if w.mon.value.deleting && fs == [] then w.(mon := None, dirty := true)
      else StoreMonitor(w, w.mon.value.(finalizers := fs))
    case Delete =>
      if w.mon.None? || w.mon.value.deleting then w
      else if w.mon.value.finalizers == [] then w.(mon := None, dirty := true)
      else StoreMonitor(w, w.mon.value.(deleting := true, generation := w.mon.value.generation + 1))
    case PutLibrary(n, lib) => LibraryEvent(w.(libs := w.libs[n := lib]), n)
    case DropLibrary(n) => LibraryEvent(w.(libs := w.libs - {n}), n)
    case PutSecret(n) => w.(secrets := w.secrets + {n})
    case DropSecret(n) => w.(secrets := w.secrets - {n})
    case SetPodsReady(r) => if w.podsReady == r then w else w.(podsReady := r, dirty := true)
    case DisturbConfigMap(x) => w.(cm := w.cm.(obj := x, foreign := true), dirty := true)
    case DisturbDeployment(x) => w.(dep := w.dep.(obj := x, foreign := true), dirty := true)
    case DisturbService(x) => w.(svc := w.svc.(obj := x, foreign := true), dirty := true)
    case DisturbServiceMonitor(x) => w.(sm := w.sm.(obj := x, foreign := true), dirty := true)
    case FireTimer => if w.timer then w.(timer := false, dirty := true) else w
  }

  /** libraryToMonitors, for this monitor; List is taken to succeed. */
  function LibraryEvent(w: World, name: string): World {
    if w.mon.Some? && References(w.mon.value, name) then w.(dirty := true) else w
  }

  /** The work queue: a key that is dirty is handed to a worker only while no pass for it is
      running; a pass that ended in an error or asked for a delay leaves a delayed re-add behind; a restarted
      operator lists, and so wakes, every monitor. */
  function Next(s: Setting, v: View, step: Step): View {
    match step
    case Env(e) => v.(w := EnvNext(v.w, e))
    case Take =>
      if v.w.dirty && v.pass.Idle? then
        View(v.w.(dirty := false, audit := v.w.audit.(passes := v.w.audit.passes + 1)),
             Begun(v.w.audit.passes + 1))
      else v
    case Call(o) =>
      (match v.pass
       case Begun(id) => GetMonitorCall(v.w, id, o)
       case At(id, pc, m, libs) => ApiCall(s, v.w, id, pc, m, libs, o)
       case _ => v)
    case Finish =>
      (match v.pass
       case Returned(_, r) => View(v.w.(timer := v.w.timer || r.Requeues()), Idle)
       case _ => v)
    case Crash => View(v.w.(dirty := v.w.mon.Some?, timer := false), Idle)
  }

  ghost function Run(s: Setting, v: View, steps: seq<Step>): View {
    if steps == [] then v
    else Next(s, Run(s, v, steps[..|steps| - 1]), steps[|steps| - 1])
  }

  /** The states and steps of a run, one after the other. */
  ghost predicate IsRun(s: Setting, trace: seq<View>, steps: seq<Step>) {
    |trace| == |steps| + 1 && forall i | 0 <= i < |steps| :: Took(s, trace, steps, i)
  }

  ghost predicate Took(s: Setting, trace: seq<View>, steps: seq<Step>, i: nat)
    requires i < |steps| && |trace| == |steps| + 1
  {
    trace[i + 1] == Next(s, trace[i], steps[i])
  }

  lemma {:induction false} RunOfTrace(s: Setting, trace: seq<View>, steps: seq<Step>, i: nat)
    requires IsRun(s, trace, steps) && i <= |steps|
    ensures trace[i] == Run(s, trace[0], steps[..i])
  {
    hide Next;
    if i > 0 {
      RunOfTrace(s, trace, steps, i - 1);
      assert Took(s, trace, steps, i - 1);
      assert steps[..i][..i - 1] == steps[..i - 1];
    }
  }

  // ---- the pass ----

  /** setCondition on the pass's copy. */
  function Mark(m: Monitor, kind: string, status: bool, reason: string, message: string, now: nat): Monitor {
    m.(status := m.status.(conditions :=
      Set(m.status.conditions, Condition(kind, status, reason, message, m.generation, now))))
  }

  function Emit(w: World, reason: string): World {
    w.(audit := w.audit.(events := w.audit.events + [reason]))
  }

  function GetMonitorCall(w: World, id: nat, o: Outcome): View {
    if !o.Ok() then View(w, Returned(id, Error))
    else if w.mon.None? then View(w, Returned(id, Done))
    else
      var m := w.mon.value;
      if m.deleting then
        View(w, if HasOurs(m.finalizers) then At(id, RemoveFinalizer, m, []) else Returned(id, Done))
      else if HasOurs(m.finalizers) then AfterFinalizer(w, id, m, o.now)
      else View(w, At(id, AddFinalizer, m, []))
  }

  /** validateCredentials, up to its API call. */
  function AfterFinalizer(w: World, id: nat, m: Monitor, now: nat): View {
    var db := m.spec.database;
    if db.Inline() then AfterCredentials(w, id, InlineFound(m, now))
    else if db.credentialsSecret.Some? then View(w, At(id, GetSecret, m, []))
    else View(w, At(id, PatchGet(MAX_TRIES, false), NoCredentials(m, now), []))
  }

  function InlineFound(m: Monitor, now: nat): Monitor {
    Mark(m, "DatabaseReachable", true, "InlineCredentials", "Inline username/password configured", now)
  }

  function NoCredentials(m: Monitor, now: nat): Monitor {
    Mark(m, "Ready", false, "NoCredentials",
         "spec.database has no inline username/password and no credentialsSecret", now)
  }

  function AfterCredentials(w: World, id: nat, m: Monitor): View {
    View(w, At(id, if m.spec.metrics.fromLibraries == [] then Build else GetLibrary, m, []))
  }

  function SecretFound(m: Monitor, secret: string, now: nat): Monitor {
    Mark(m, "DatabaseReachable", true, "CredentialsFound", "Credentials secret " + secret + " exists", now)
  }

  function SecretNotFound(m: Monitor, secret: string, now: nat): Monitor {
    Mark(Mark(m, "Ready", false, "SecretNotFound", "Secret " + secret + " not found", now),
         "DatabaseReachable", false, "SecretNotFound", "Credentials secret " + secret + " not found", now)
  }

  function LibraryMissing(m: Monitor, name: string, now: nat): Monitor {
    Mark(m, "Ready", false, "LibraryResolveFailed", "library " + name, now)
  }

  function ConfigStored(m: Monitor, key: Key, hash: Digest, now: nat): Monitor {
    var marked := Mark(m, "ConfigGenerated", true, "ConfigMapUpdated",
                       "ConfigMap " + Labels.ConfigMapName(key.name) + " up to date (hash=" + hash[..12] + ")", now);
    marked.(status := marked.status.(configHash := hash))
  }

  function Observed(m: Monitor, ready: bool, now: nat): Monitor {
    var seen := m.(status := m.status.(ready := ready, observedGeneration := m.generation, lastReconciled := now));
    if ready then Mark(seen, "Ready", true, "PodRunning", "pgwatch pod running and scraping", now)
    else Mark(seen, "Ready", false, "PodNotReady", "pgwatch pod is not ready yet", now)
  }

  function ReadinessEvent(w: World, was: bool, ready: bool): World {
    if ready && !was then Emit(w, "PodRunning")
    else if !ready && was then Emit(w, "PodNotReady")
    else w
  }

  /** A forced server-side apply: the operator's fields become exactly `obj`. */
  function Apply<T>(slot: Slot<T>, obj: T, stamp: Stamp): Slot<T> {
    Slot(Some(obj), Some(stamp), false)
  }

  /** An own write wakes the key if it changed anything and its event is delivered. */
  predicate Woken(w: World, changed: bool, o: Outcome) { w.dirty || (changed && o.echo) }

  /** Optimistic concurrency: an update lands only on the version it was read at. */
  predicate UpdateLands(w: World, read: Monitor) {
    w.mon.Some? && w.mon.value.version == read.version
  }

  function WriteBack(w: World, m: Monitor, o: Outcome): World {
    w.(mon := Some(m.(version := w.versions + 1)), versions := w.versions + 1, dirty := w.dirty || o.echo)
  }

  // What the API server does with each write. A finalizer update sends the whole object that
  // was read, and the server ignores its status; a status update sends only the status.

  function FinalizersWritten(w: World, m: Monitor, fs: seq<string>, o: Outcome): World {
    if o.reply.Refused? || !UpdateLands(w, m) then w
    else if m.deleting && fs == [] then w.(mon := None, dirty := w.dirty || o.echo)
    else WriteBack(w, m.(finalizers := fs, status := w.mon.value.status), o)
  }

  function ConfigMapWritten(w: World, stamp: Stamp, b: Built, o: Outcome): World {
    if o.reply.Refused? then w else
      w.(cm := Apply(w.cm, b.configMap, stamp), dirty := Woken(w, w.cm.obj != Some(b.configMap), o),
         audit := w.audit.(stored := w.audit.stored + {b.hash}))
  }

  function DeploymentWritten(w: World, stamp: Stamp, b: Built, o: Outcome): World {
    if o.reply.Refused? || b.deployment.None? then w else
      w.(dep := Apply(w.dep, b.deployment.value, stamp), dirty := Woken(w, w.dep.obj != b.deployment, o),
         audit := w.audit.(annotated := w.audit.annotated + {b.hash}))
  }

  function ServiceWritten(w: World, stamp: Stamp, b: Built, o: Outcome): World {
    if o.reply.Refused? then w else
      w.(svc := Apply(w.svc, b.service, stamp), dirty := Woken(w, w.svc.obj != Some(b.service), o))
  }

  function ServiceMonitorWritten(w: World, stamp: Stamp, b: Built, o: Outcome): World {
    if o.reply.Refused? then w else
      w.(sm := Apply(w.sm, b.serviceMonitor, stamp), dirty := Woken(w, w.sm.obj != Some(b.serviceMonitor), o))
  }

  /** A write that changes nothing gives the object no new version and no event. */
  function StatusWritten(w: World, id: nat, m: Monitor, final: bool, latest: Monitor, o: Outcome): World {
    if o.reply.Refused? || !UpdateLands(w, latest) then w else
      var written := if w.mon.value.status == m.status then w else WriteBack(w, w.mon.value.(status := m.status), o);
      if final then written.(audit := written.audit.(hashBy := id)) else written
  }

  // One function for each call a pass can make.

  function RemoveFinalizerCall(w: World, id: nat, m: Monitor, o: Outcome): View {
    View(FinalizersWritten(w, m, WithoutOurs(m.finalizers), o),
         Returned(id, if o.Ok() && UpdateLands(w, m) then Done else Error))
  }

  function AddFinalizerCall(w: World, id: nat, m: Monitor, o: Outcome): View {
    var after := FinalizersWritten(w, m, m.finalizers + [FINALIZER], o);
    if o.Ok() && UpdateLands(w, m) && after.mon.Some? then AfterFinalizer(after, id, after.mon.value, o.now)
    else View(after, Returned(id, Error))
  }

  function GetSecretCall(w: World, id: nat, m: Monitor, o: Outcome): View {
    var secret := if m.spec.database.credentialsSecret.Some? then m.spec.database.credentialsSecret.value.name else "";
    if o.Ok() && secret in w.secrets then AfterCredentials(w, id, SecretFound(m, secret, o.now))
    else View(Emit(w, "SecretNotFound"), At(id, PatchGet(MAX_TRIES, false), SecretNotFound(m, secret, o.now), []))
  }

  /** A pass is at this call only while references are left to read. */
  function GetLibraryCall(w: World, id: nat, m: Monitor, libs: seq<Library>, o: Outcome): View {
    var refs := m.spec.metrics.fromLibraries;
    if |libs| >= |refs| then View(w, Returned(id, Error))
    else if o.Ok() && refs[|libs|] in w.libs then
      var more := libs + [w.libs[refs[|libs|]]];
      View(w, At(id, if |more| == |refs| then Build else GetLibrary, m, more))
    else
      View(Emit(w, "LibraryResolveFailed"),
           At(id, PatchGet(MAX_TRIES, false), LibraryMissing(m, refs[|libs|], o.now), []))
  }

  /** A result that the builders cannot have is a pass cut short. */
  function BuildCall(s: Setting, w: World, id: nat, m: Monitor, libs: seq<Library>, o: Outcome): View {
    View(w, if o.built.Some? && s.builds(m.spec, libs, o.built) then At(id, ApplyConfigMap(o.built.value), m, libs)
            else Returned(id, Error))
  }

  function ApplyConfigMapCall(
    s: Setting, w: World, id: nat, b: Built, m: Monitor, libs: seq<Library>, o: Outcome): View
  {
    var after := ConfigMapWritten(w, Stamp(id, m.spec, libs, b), b, o);
    if !o.Ok() then View(after, Returned(id, Error))
    else View(if m.status.configHash != b.hash then Emit(after, "ConfigMapUpdated") else after,
              At(id, ApplyDeployment(b), ConfigStored(m, s.key, b.hash, o.now), libs))
  }

  function ApplyDeploymentCall(w: World, id: nat, b: Built, m: Monitor, libs: seq<Library>, o: Outcome): View {
    View(DeploymentWritten(w, Stamp(id, m.spec, libs, b), b, o),
         if !o.Ok() || b.deployment.None? then Returned(id, Error) else At(id, ApplyService(b), m, libs))
  }

  function ApplyServiceCall(
    s: Setting, w: World, id: nat, b: Built, m: Monitor, libs: seq<Library>, o: Outcome): View
  {
    View(ServiceWritten(w, Stamp(id, m.spec, libs, b), b, o),
         if !o.Ok() then Returned(id, Error)
         else At(id, if s.serviceMonitorEnabled then ApplyServiceMonitor(b) else GetDeployment(b), m, libs))
  }

  function ApplyServiceMonitorCall(w: World, id: nat, b: Built, m: Monitor, libs: seq<Library>, o: Outcome): View {
    View(ServiceMonitorWritten(w, Stamp(id, m.spec, libs, b), b, o),
         if !o.Ok() then Returned(id, Error) else At(id, GetDeployment(b), m, libs))
  }

  function GetDeploymentCall(w: World, id: nat, m: Monitor, libs: seq<Library>, o: Outcome): View {
    if !o.Ok() || w.dep.obj.None? then View(w, Returned(id, Error))
    else View(ReadinessEvent(w, m.status.ready, w.podsReady),
              At(id, PatchGet(MAX_TRIES, true), Observed(m, w.podsReady, o.now), libs))
  }

  function PatchGetCall(
    w: World, id: nat, tries: nat, final: bool, m: Monitor, libs: seq<Library>, o: Outcome): View
  {
    View(w, if o.Ok() && w.mon.Some? then At(id, PatchUpdate(tries, final, w.mon.value), m, libs)
            else Returned(id, PatchResult(final, false, m.status.ready)))
  }

  function PatchUpdateCall(
    w: World, id: nat, tries: nat, final: bool, latest: Monitor, m: Monitor, libs: seq<Library>, o: Outcome): View
  {
    View(StatusWritten(w, id, m, final, latest, o),
         if o.Ok() && UpdateLands(w, latest) then Returned(id, PatchResult(final, true, m.status.ready))
         else if o.Ok() && w.mon.Some? && tries > 1 then At(id, PatchGet(tries - 1, final), m, libs)
         else Returned(id, PatchResult(final, false, m.status.ready)))
  }

  function ApiCall(
    s: Setting, w: World, id: nat, pc: Pc, m: Monitor, libs: seq<Library>, o: Outcome): View
  {
    match pc
    case RemoveFinalizer => RemoveFinalizerCall(w, id, m, o)
    case AddFinalizer => AddFinalizerCall(w, id, m, o)
    case GetSecret => GetSecretCall(w, id, m, o)
    case GetLibrary => GetLibraryCall(w, id, m, libs, o)
    case Build => BuildCall(s, w, id, m, libs, o)
    case ApplyConfigMap(b) => ApplyConfigMapCall(s, w, id, b, m, libs, o)
    case ApplyDeployment(b) => ApplyDeploymentCall(w, id, b, m, libs, o)
    case ApplyService(b) => ApplyServiceCall(s, w, id, b, m, libs, o)
    case ApplyServiceMonitor(b) => ApplyServiceMonitorCall(w, id, b, m, libs, o)
    case GetDeployment(_) => GetDeploymentCall(w, id, m, libs, o)
    case PatchGet(tries, final) => PatchGetCall(w, id, tries, final, m, libs, o)
    case PatchUpdate(tries, final, latest) => PatchUpdateCall(w, id, tries, final, latest, m, libs, o)
  }

  /** Early exits ignore whether their status write landed; the last step does not. */
  function PatchResult(final: bool, written: bool, ready: bool): Result {
    if !final then RequeueAfter(30)
    else if !written then Error
    else if ready then Done
    else RequeueAfter(15)
  }
}
