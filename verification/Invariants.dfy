/** What every step of the machine keeps. */
module Invariants {
  import opened Prelude
  import opened Api
  import opened Conditions
  import opened ConfigMaps
  import opened Compiler
  import opened Machine

  // ---- the store ----

  function By<T>(slot: Slot<T>): nat { if slot.stamp.Some? then slot.stamp.value.pass else 0 }

  ghost predicate MonitorOk(w: World) {
    w.mon.Some? ==>
      var m := w.mon.value;
      && 1 <= m.version <= w.versions
      && 1 <= m.generation
      && m.status.observedGeneration <= m.generation
      && IsMap(m.status.conditions)
      && (m.status.configHash == "" || m.status.configHash in w.audit.annotated)
  }

  ghost predicate Faithful<T>(slot: Slot<T>, part: Option<T>) {
    part.Some? && (!slot.foreign ==> slot.obj == part)
  }

  /** The stamp names a build of the spec and libraries it names. */
  ghost predicate StampOk<T>(s: Setting, slot: Slot<T>) {
    slot.stamp.Some? ==> var x := slot.stamp.value; s.builds(x.spec, x.libs, Some(x.built))
  }

  /** An object nobody else touched is part of the build its stamp names. */
  ghost predicate SlotsOk(s: Setting, w: World) {
    && StampOk(s, w.cm) && StampOk(s, w.dep) && StampOk(s, w.svc) && StampOk(s, w.sm)
    && (w.cm.stamp.Some? ==> Faithful(w.cm, Some(w.cm.stamp.value.built.configMap)))
    && (w.dep.stamp.Some? ==> Faithful(w.dep, w.dep.stamp.value.built.deployment))
    && (w.svc.stamp.Some? ==> Faithful(w.svc, Some(w.svc.stamp.value.built.service)))
    && (w.sm.stamp.Some? ==> Faithful(w.sm, Some(w.sm.stamp.value.built.serviceMonitor)))
  }

  /** ConfigMap before Deployment before status; every hash ever put on the Deployment is
      recorded. */
  ghost predicate PipelineOk(w: World) {
    && w.audit.hashBy <= By(w.dep) <= By(w.cm) <= w.audit.passes
    && w.audit.annotated <= w.audit.stored
    && (w.dep.stamp.Some? ==> w.dep.stamp.value.built.hash in w.audit.annotated)
  }

  /** The stored object was last applied by us from `spec`. */
  predicate From<T>(slot: Slot<T>, spec: MonitorSpec) {
    slot.stamp.Some? && slot.stamp.value.spec == spec
  }

  ghost predicate AllFrom(s: Setting, w: World, spec: MonitorSpec) {
    && From(w.cm, spec) && From(w.dep, spec) && From(w.svc, spec)
    && (s.serviceMonitorEnabled ==> From(w.sm, spec))
  }

  /** An observed generation that is current is the truth about every child. */
  ghost predicate TruthOk(s: Setting, w: World) {
    w.mon.Some? && w.mon.value.status.observedGeneration == w.mon.value.generation ==> AllFrom(s, w, w.mon.value.spec)
  }

  ghost predicate StoreOk(s: Setting, w: World) {
    MonitorOk(w) && SlotsOk(s, w) && PipelineOk(w) && TruthOk(s, w)
  }

  // ---- what the conditions say ----

  /** There is one condition of this type, and it says this of the current generation. */
  predicate Says(m: Monitor, kind: string, status: bool, reason: string) {
    var found := Lookup(m.status.conditions, kind);
    |found| == 1 && found[0].status == status && found[0].reason == reason && found[0].generation == m.generation
  }

  predicate SaysReachable(m: Monitor) {
    Says(m, "DatabaseReachable", true,
         if m.spec.database.username != "" && m.spec.database.password != "" then "InlineCredentials"
         else "CredentialsFound")
  }

  predicate SaysGenerated(m: Monitor) { Says(m, "ConfigGenerated", true, "ConfigMapUpdated") }

  predicate SaysReadiness(m: Monitor, ready: bool) {
    if ready then Says(m, "Ready", true, "PodRunning") else Says(m, "Ready", false, "PodNotReady")
  }

  /** The three conditions a full pass leaves, in agreement with `status.ready`. */
  predicate Announces(m: Monitor) {
    SaysReachable(m) && SaysGenerated(m) && SaysReadiness(m, m.status.ready)
  }

  // ---- the pass ----

  /** A copy whose version is still stored is the stored object. */
  ghost predicate Snapshot(w: World, m: Monitor) {
    && m.version <= w.versions
    && (UpdateLands(w, m) ==> w.mon.value == m)
  }

  /** After the finalizer is committed the object cannot go away or change incarnation. */
  ghost predicate Holds(w: World, m: Monitor) {
    && w.mon.Some?
    && var stored := w.mon.value;
       && stored.uid == m.uid
       && HasOurs(stored.finalizers)
       && stored.status.observedGeneration <= m.generation <= stored.generation
       && (m.generation == stored.generation ==> m.spec == stored.spec && m.deleting == stored.deleting)
       && !m.deleting
       && IsMap(m.status.conditions)
  }

  /** Until its last step a pass carries the status fields it read. */
  ghost predicate Carries(w: World, m: Monitor)
    requires w.mon.Some?
  {
    && m.status.observedGeneration == w.mon.value.status.observedGeneration
    && m.status.ready == w.mon.value.status.ready
  }

  ghost predicate Applied<T>(w: World, slot: Slot<T>, stamp: Stamp) {
    slot.stamp == Some(stamp) && (!w.dirty ==> !slot.foreign)
  }

  /** How far the children have been applied by this pass. */
  ghost predicate Progress(s: Setting, w: World, stamp: Stamp, stage: nat) {
    && (stage >= 1 ==> Applied(w, w.cm, stamp))
    && (stage >= 2 ==> Applied(w, w.dep, stamp))
    && (stage >= 3 ==> Applied(w, w.svc, stamp))
    && (stage >= 4 && s.serviceMonitorEnabled ==> Applied(w, w.sm, stamp))
  }

  ghost predicate Building(s: Setting, w: World, id: nat, m: Monitor, libs: seq<Library>, b: Built, stage: nat) {
    && Holds(w, m) && Carries(w, m)
    && m.spec.database.HasCredentials() && SaysReachable(m)
    && (stage >= 1 ==> SaysGenerated(m))
    && |libs| == |m.spec.metrics.fromLibraries|
    && s.builds(m.spec, libs, Some(b))
    && Progress(s, w, Stamp(id, m.spec, libs, b), stage)
    && (stage == 0 ==> m.status.configHash == w.mon.value.status.configHash)
    && (stage >= 1 ==> m.status.configHash == b.hash && b.hash in w.audit.stored)
    && (stage >= 2 ==> b.hash in w.audit.annotated)
  }

  ghost predicate Patching(s: Setting, w: World, id: nat, m: Monitor, libs: seq<Library>, final: bool) {
    && Holds(w, m)
    && (!final ==> Carries(w, m) && m.status.configHash == w.mon.value.status.configHash)
    && (final ==>
          && w.cm.stamp.Some?
          && var b := w.cm.stamp.value.built;
             && s.builds(m.spec, libs, Some(b)) && b.hash in w.audit.annotated
             && m.status.configHash == b.hash
             && m.status.observedGeneration == m.generation && Announces(m)
             && |libs| == |m.spec.metrics.fromLibraries|
             && Progress(s, w, Stamp(id, m.spec, libs, b), 4))
  }

  ghost predicate AtOk(s: Setting, w: World, id: nat, pc: Pc, m: Monitor, libs: seq<Library>) {
    match pc
    case RemoveFinalizer => Snapshot(w, m) && m.deleting && HasOurs(m.finalizers)
    case AddFinalizer => Snapshot(w, m) && !m.deleting && !HasOurs(m.finalizers)
    case GetSecret =>
      && Holds(w, m) && Carries(w, m) && m.status.configHash == w.mon.value.status.configHash
      && m.spec.database.credentialsSecret.Some? && !m.spec.database.Inline() && libs == []
    case GetLibrary =>
      && Holds(w, m) && Carries(w, m) && m.status.configHash == w.mon.value.status.configHash
      && m.spec.database.HasCredentials() && SaysReachable(m) && |libs| < |m.spec.metrics.fromLibraries|
    case Build =>
      && Holds(w, m) && Carries(w, m) && m.status.configHash == w.mon.value.status.configHash
      && m.spec.database.HasCredentials() && SaysReachable(m) && |libs| == |m.spec.metrics.fromLibraries|
    case ApplyConfigMap(b) => Building(s, w, id, m, libs, b, 0)
    case ApplyDeployment(b) => Building(s, w, id, m, libs, b, 1)
    case ApplyService(b) => Building(s, w, id, m, libs, b, 2)
    case ApplyServiceMonitor(b) => Building(s, w, id, m, libs, b, 3) && s.serviceMonitorEnabled
    case GetDeployment(b) => Building(s, w, id, m, libs, b, 4)
    case PatchGet(tries, final) => Patching(s, w, id, m, libs, final) && 1 <= tries <= MAX_TRIES
    case PatchUpdate(tries, final, latest) =>
      Patching(s, w, id, m, libs, final) && 1 <= tries <= MAX_TRIES && Snapshot(w, latest)
  }

  ghost predicate PassOk(s: Setting, v: View) {
    match v.pass
    case Idle => true
    case Begun(id) => id == v.w.audit.passes
    case At(id, pc, m, libs) => id == v.w.audit.passes && AtOk(s, v.w, id, pc, m, libs)
    case Returned(id, _) => id == v.w.audit.passes
  }

  // ---- the queue ----

  function Resolve(libs: map<string, Library>, refs: seq<string>): Option<seq<Library>> {
    if forall r | r in refs :: r in libs
    then Some(seq(|refs|, i requires 0 <= i < |refs| => assert refs[i] in refs; libs[refs[i]]))
    else None
  }

  ghost predicate ReadsCurrent(w: World, refs: seq<string>, libs: seq<Library>) {
    |libs| <= |refs| && forall i | 0 <= i < |libs| :: refs[i] in w.libs && w.libs[refs[i]] == libs[i]
  }

  predicate IsFinal(pc: Pc) {
    (pc.PatchGet? || pc.PatchUpdate?) && pc.final
  }

  /** What a pass has read so far is what is stored now. */
  ghost predicate Current(w: World, pc: Pc, m: Monitor, libs: seq<Library>)
    requires w.mon.Some?
  {
    && m.generation == w.mon.value.generation
    && m.spec == w.mon.value.spec
    && m.deleting == w.mon.value.deleting
    && ReadsCurrent(w, m.spec.metrics.fromLibraries, libs)
    && (IsFinal(pc) ==> m.status.ready == w.podsReady)
  }

  /** The stored objects are the parts of one build. */
  ghost predicate Shows(s: Setting, w: World, b: Built) {
    && b.deployment.Some?
    && w.cm.obj == Some(b.configMap) && w.dep.obj == b.deployment && w.svc.obj == Some(b.service)
    && (s.serviceMonitorEnabled ==> w.sm.obj == Some(b.serviceMonitor))
  }

  /** Nothing is left to do for this monitor, its children being those of the build `b`. */
  ghost predicate ConvergedTo(s: Setting, w: World, b: Built) {
    && w.mon.Some?
    && var m := w.mon.value;
       var libs := Resolve(w.libs, m.spec.metrics.fromLibraries);
       && libs.Some? && s.builds(m.spec, libs.value, Some(b)) && Shows(s, w, b)
       && m.status.observedGeneration == m.generation
       && m.status.configHash == b.hash
       && m.status.ready && w.podsReady && Announces(m)
  }

  ghost predicate Converged(s: Setting, w: World) {
    exists b :: ConvergedTo(s, w, b)
  }

  ghost predicate Settled(s: Setting, w: World) {
    w.mon.Some? ==>
      if w.mon.value.deleting then !HasOurs(w.mon.value.finalizers) else Converged(s, w)
  }

  /** No lost wake-up: a key the queue has forgotten is settled, and a running pass that
      nobody has asked to repeat has read nothing stale. */
  ghost predicate WakeOk(s: Setting, v: View) {
    v.w.mon.Some? && !v.w.dirty ==>
      match v.pass
      case Idle => v.w.timer || Settled(s, v.w)
      case Begun(_) => true
      case At(_, pc, m, libs) => Current(v.w, pc, m, libs)
      case Returned(_, r) => !r.Requeues() ==> Settled(s, v.w)
  }

  ghost predicate Inv(s: Setting, v: View) {
    StoreOk(s, v.w) && PassOk(s, v) && WakeOk(s, v)
  }

  // ---- initial state ----

  ghost predicate Init(v: View) {
    && v.pass.Idle?
    && v.w.mon.None? && v.w.cm.stamp.None? && v.w.dep.stamp.None? && v.w.svc.stamp.None? && v.w.sm.stamp.None?
    && !v.w.timer && !v.w.dirty
    && v.w.audit == Audit(0, 0, {}, {}, [])
  }

  lemma InitIsGood(s: Setting, v: View)
    requires Init(v)
    ensures Inv(s, v)
  {}

  // ---- the outside ----

  /** Others may write an object, but not who we say applied it. */
  ghost predicate Disturbed<T>(before: Slot<T>, after: Slot<T>) {
    after.stamp == before.stamp && (after == before || after.foreign)
  }

  lemma EnvDisturbs(w: World, e: EnvStep)
    ensures var after := EnvNext(w, e);
            && Disturbed(w.cm, after.cm) && Disturbed(w.dep, after.dep)
            && Disturbed(w.svc, after.svc) && Disturbed(w.sm, after.sm)
            && after.audit.passes == w.audit.passes && after.audit.hashBy <= w.audit.hashBy
            && after.audit.annotated == w.audit.annotated && after.audit.stored == w.audit.stored
  {
    hide HasOurs, References;
  }

  lemma EnvKeepsSlots(s: Setting, w: World, e: EnvStep)
    requires SlotsOk(s, w) && PipelineOk(w)
    ensures SlotsOk(s, EnvNext(w, e)) && PipelineOk(EnvNext(w, e))
  {
    hide EnvNext;
    EnvDisturbs(w, e);
  }

  lemma EnvKeepsTruth(s: Setting, w: World, e: EnvStep)
    requires MonitorOk(w) && TruthOk(s, w)
    ensures MonitorOk(EnvNext(w, e)) && TruthOk(s, EnvNext(w, e))
  {
    hide HasOurs, References, IsMap;
    assert MonitorOk(EnvNext(w, e)) by { NewMonitorIsOk(); }
  }

  lemma NewMonitorIsOk()
    ensures IsMap(NO_STATUS.conditions)
  {}

  lemma EnvKeepsStore(s: Setting, w: World, e: EnvStep)
    requires StoreOk(s, w)
    ensures StoreOk(s, EnvNext(w, e))
  {
    hide EnvNext, SlotsOk, PipelineOk, MonitorOk, TruthOk;
    EnvKeepsSlots(s, w, e);
    EnvKeepsTruth(s, w, e);
  }

  lemma EnvKeepsHolds(w: World, e: EnvStep, m: Monitor)
    requires Holds(w, m)
    ensures var after := EnvNext(w, e);
            Holds(after, m) && after.mon.value.status == w.mon.value.status
  {}

  lemma EnvKeepsSnapshot(w: World, e: EnvStep, m: Monitor)
    requires Snapshot(w, m)
    ensures Snapshot(EnvNext(w, e), m)
  {}

  lemma EnvKeepsProgress(s: Setting, w: World, e: EnvStep, stamp: Stamp, stage: nat)
    requires Progress(s, w, stamp, stage)
    ensures Progress(s, EnvNext(w, e), stamp, stage)
  {}

  lemma EnvKeepsAudit(w: World, e: EnvStep)
    ensures var a := EnvNext(w, e).audit;
            a.passes == w.audit.passes && a.stored == w.audit.stored && a.annotated == w.audit.annotated
  {}

  lemma EnvKeepsBuilding(
    s: Setting, w: World, e: EnvStep, id: nat, m: Monitor, libs: seq<Library>, b: Built, stage: nat)
    requires Building(s, w, id, m, libs, b, stage)
    ensures Building(s, EnvNext(w, e), id, m, libs, b, stage)
  {
    EnvKeepsHolds(w, e, m);
    EnvKeepsProgress(s, w, e, Stamp(id, m.spec, libs, b), stage);
    EnvKeepsAudit(w, e);
  }

  lemma EnvKeepsPatching(
    s: Setting, w: World, e: EnvStep, id: nat, m: Monitor, libs: seq<Library>, final: bool)
    requires Patching(s, w, id, m, libs, final)
    ensures Patching(s, EnvNext(w, e), id, m, libs, final)
  {
    EnvKeepsHolds(w, e, m);
    EnvKeepsAudit(w, e);
    if final {
      EnvDisturbs(w, e);
      EnvKeepsProgress(s, w, e, Stamp(id, m.spec, libs, w.cm.stamp.value.built), 4);
    }
  }

  lemma EnvKeepsPass(s: Setting, v: View, e: EnvStep)
    requires PassOk(s, v)
    ensures PassOk(s, View(EnvNext(v.w, e), v.pass))
  {
    EnvKeepsAudit(v.w, e);
    if v.pass.At? {
      var At(id, pc, m, libs) := v.pass;
      match pc {
        case RemoveFinalizer => EnvKeepsSnapshot(v.w, e, m);
        case AddFinalizer => EnvKeepsSnapshot(v.w, e, m);
        case GetSecret => EnvKeepsHolds(v.w, e, m);
        case GetLibrary => EnvKeepsHolds(v.w, e, m);
        case Build => EnvKeepsHolds(v.w, e, m);
        case ApplyConfigMap(b) => EnvKeepsBuilding(s, v.w, e, id, m, libs, b, 0);
        case ApplyDeployment(b) => EnvKeepsBuilding(s, v.w, e, id, m, libs, b, 1);
        case ApplyService(b) => EnvKeepsBuilding(s, v.w, e, id, m, libs, b, 2);
        case ApplyServiceMonitor(b) => EnvKeepsBuilding(s, v.w, e, id, m, libs, b, 3);
        case GetDeployment(b) => EnvKeepsBuilding(s, v.w, e, id, m, libs, b, 4);
        case PatchGet(_, final) => EnvKeepsPatching(s, v.w, e, id, m, libs, final);
        case PatchUpdate(_, final, latest) =>
          EnvKeepsPatching(s, v.w, e, id, m, libs, final);
          EnvKeepsSnapshot(v.w, e, latest);
      }
    }
  }

  lemma ResolveAgrees(a: map<string, Library>, b: map<string, Library>, refs: seq<string>)
    requires forall r | r in refs :: (r in a <==> r in b) && (r in a ==> a[r] == b[r])
    ensures Resolve(a, refs) == Resolve(b, refs)
  {
    if forall r | r in refs :: r in a {
      assert Resolve(a, refs).value == Resolve(b, refs).value;
    }
  }

  lemma ReadsResolve(w: World, refs: seq<string>, libs: seq<Library>)
    requires ReadsCurrent(w, refs, libs) && |libs| == |refs|
    ensures Resolve(w.libs, refs) == Some(libs)
  {
    forall r | r in refs ensures r in w.libs {
      var i :| 0 <= i < |refs| && refs[i] == r;
      assert w.libs[refs[i]] == libs[i];
    }
    assert Resolve(w.libs, refs).value == libs;
  }

  /** An act of the outside that wakes nobody leaves all a pass reads as it was. */
  lemma SilentEnv(w: World, e: EnvStep)
    requires w.mon.Some? && EnvNext(w, e).mon.Some? && !EnvNext(w, e).dirty
    ensures var after := EnvNext(w, e);
            var refs := w.mon.value.spec.metrics.fromLibraries;
            && !w.dirty && after.mon == w.mon && after.podsReady == w.podsReady && after.timer == w.timer
            && after.cm == w.cm && after.dep == w.dep && after.svc == w.svc && after.sm == w.sm
            && (forall r | r in refs ::
                  (r in w.libs <==> r in after.libs) && (r in w.libs ==> w.libs[r] == after.libs[r]))
  {}

  lemma CreationWakes(w: World, e: EnvStep)
    ensures w.mon.None? && EnvNext(w, e).mon.Some? ==> EnvNext(w, e).dirty
  {}

  lemma EnvKeepsWake(s: Setting, v: View, e: EnvStep)
    requires WakeOk(s, v)
    ensures WakeOk(s, View(EnvNext(v.w, e), v.pass))
  {
    hide EnvNext, Converged, Resolve;
    var after := EnvNext(v.w, e);
    CreationWakes(v.w, e);
    if v.w.mon.Some? && after.mon.Some? && !after.dirty {
      SilentEnv(v.w, e);
      var refs := v.w.mon.value.spec.metrics.fromLibraries;
      ResolveAgrees(v.w.libs, after.libs, refs);
      SilenceKeepsConverged(s, v.w, after);
    }
  }

  lemma SilenceKeepsConverged(s: Setting, w: World, after: World)
    requires w.mon.Some? && after.mon == w.mon && after.podsReady == w.podsReady
    requires after.cm == w.cm && after.dep == w.dep && after.svc == w.svc && after.sm == w.sm
    requires var refs := w.mon.value.spec.metrics.fromLibraries; Resolve(w.libs, refs) == Resolve(after.libs, refs)
    ensures Converged(s, w) ==> Converged(s, after)
  {
    hide Resolve;
    if Converged(s, w) {
      var b :| ConvergedTo(s, w, b);
      assert ConvergedTo(s, after, b);
    }
  }

  // ---- the queue's own steps ----

  lemma QueueKeepsInv(s: Setting, v: View, step: Step)
    requires Inv(s, v) && (step.Take? || step.Finish? || step.Crash?)
    ensures Inv(s, Next(s, v, step))
  {}

  // ---- the pass's steps ----

  /** A pass edits nothing of its copy but the status; here, nothing but the conditions. */
  ghost predicate Edits(m: Monitor, n: Monitor) {
    n == m.(status := m.status.(conditions := n.status.conditions)) && IsMap(n.status.conditions)
  }

  lemma MarkEdits(m: Monitor, kind: string, status: bool, reason: string, message: string, now: nat)
    requires IsMap(m.status.conditions)
    ensures Edits(m, Mark(m, kind, status, reason, message, now))
  {
    SetKeepsMap(m.status.conditions, Condition(kind, status, reason, message, m.generation, now));
  }

  lemma AnnouncementCarries(m: Monitor, n: Monitor)
    requires Announces(m)
    ensures n.status == m.status && n.generation == m.generation && n.spec == m.spec ==> Announces(n)
  {}

  lemma MarkSays(m: Monitor, kind: string, status: bool, reason: string, message: string, now: nat)
    requires IsMap(m.status.conditions)
    ensures Says(Mark(m, kind, status, reason, message, now), kind, status, reason)
  {
    hide Lookup, Set;
    SetIsKeyedUpdate(m.status.conditions, Condition(kind, status, reason, message, m.generation, now), kind);
  }

  lemma MarkKeeps(
    m: Monitor, kind: string, status: bool, reason: string, message: string, now: nat,
    other: string, otherStatus: bool, otherReason: string)
    requires IsMap(m.status.conditions) && other != kind && Says(m, other, otherStatus, otherReason)
    ensures Says(Mark(m, kind, status, reason, message, now), other, otherStatus, otherReason)
  {
    hide Lookup, Set;
    SetIsKeyedUpdate(m.status.conditions, Condition(kind, status, reason, message, m.generation, now), other);
  }

  lemma KindsAreDistinct()
    ensures "DatabaseReachable" != "ConfigGenerated" && "ConfigGenerated" != "Ready" && "Ready" != "DatabaseReachable"
  {
    assert "DatabaseReachable"[0] == 'D' && "ConfigGenerated"[0] == 'C' && "Ready"[0] == 'R';
  }

  /** What validateCredentials and the library step tell of the current generation. */
  lemma CredentialMarksSay(m: Monitor, name: string, now: nat)
    requires IsMap(m.status.conditions)
    ensures Says(InlineFound(m, now), "DatabaseReachable", true, "InlineCredentials")
    ensures Says(SecretFound(m, name, now), "DatabaseReachable", true, "CredentialsFound")
    ensures Says(SecretNotFound(m, name, now), "DatabaseReachable", false, "SecretNotFound")
    ensures Says(SecretNotFound(m, name, now), "Ready", false, "SecretNotFound")
    ensures Says(NoCredentials(m, now), "Ready", false, "NoCredentials")
    ensures Says(LibraryMissing(m, name, now), "Ready", false, "LibraryResolveFailed")
  {
    hide Says, Mark;
    KindsAreDistinct();
    MarkSays(m, "DatabaseReachable", true, "InlineCredentials", "Inline username/password configured", now);
    MarkSays(m, "DatabaseReachable", true, "CredentialsFound", "Credentials secret " + name + " exists", now);
    MarkSays(m, "Ready", false, "NoCredentials",
             "spec.database has no inline username/password and no credentialsSecret", now);
    MarkSays(m, "Ready", false, "LibraryResolveFailed", "library " + name, now);
    var text, missing := "Secret " + name + " not found", "Credentials secret " + name + " not found";
    var once := Mark(m, "Ready", false, "SecretNotFound", text, now);
    MarkSays(m, "Ready", false, "SecretNotFound", text, now);
    MarkEdits(m, "Ready", false, "SecretNotFound", text, now);
    MarkSays(once, "DatabaseReachable", false, "SecretNotFound", missing, now);
    MarkKeeps(once, "DatabaseReachable", false, "SecretNotFound", missing, now, "Ready", false, "SecretNotFound");
  }

  /** Step 4 says that the configuration was generated, and takes nothing back. */
  lemma ConfigStoredSays(m: Monitor, key: Key, hash: Digest, now: nat)
    requires IsMap(m.status.conditions)
    ensures SaysGenerated(ConfigStored(m, key, hash, now))
    ensures SaysReachable(m) ==> SaysReachable(ConfigStored(m, key, hash, now))
  {
    KindsAreDistinct();
    var text := "ConfigMap " + Labels.ConfigMapName(key.name) + " up to date (hash=" + hash[..12] + ")";
    var marked := Mark(m, "ConfigGenerated", true, "ConfigMapUpdated", text, now);
    var n := ConfigStored(m, key, hash, now);
    assert n.status.conditions == marked.status.conditions && n.generation == marked.generation && n.spec == m.spec;
    hide Mark, ConfigStored, Lookup;
    MarkSays(m, "ConfigGenerated", true, "ConfigMapUpdated", text, now);
    if SaysReachable(m) {
      var reason := if m.spec.database.username != "" && m.spec.database.password != "" then "InlineCredentials"
                    else "CredentialsFound";
      MarkKeeps(m, "ConfigGenerated", true, "ConfigMapUpdated", text, now, "DatabaseReachable", true, reason);
    }
  }

  /** Step 7 says of `Ready` what it has seen, and takes nothing back. */
  lemma ObservedSays(m: Monitor, ready: bool, now: nat)
    requires IsMap(m.status.conditions)
    ensures SaysReadiness(Observed(m, ready, now), ready)
    ensures Observed(m, ready, now).status.ready == ready
    ensures SaysReachable(m) ==> SaysReachable(Observed(m, ready, now))
    ensures SaysGenerated(m) ==> SaysGenerated(Observed(m, ready, now))
  {
    KindsAreDistinct();
    var seen := m.(status := m.status.(ready := ready, observedGeneration := m.generation, lastReconciled := now));
    var reason, text := if ready then "PodRunning" else "PodNotReady",
                        if ready then "pgwatch pod running and scraping" else "pgwatch pod is not ready yet";
    assert Observed(m, ready, now) == Mark(seen, "Ready", ready, reason, text, now) by { hide Set; }
    assert seen.status.conditions == m.status.conditions && seen.generation == m.generation && seen.spec == m.spec;
    assert Observed(m, ready, now).spec == m.spec && Observed(m, ready, now).status.ready == ready by { hide Set; }
    hide Mark, Observed, Lookup;
    MarkSays(seen, "Ready", ready, reason, text, now);
    if SaysReachable(m) {
      var found := if m.spec.database.username != "" && m.spec.database.password != "" then "InlineCredentials"
                   else "CredentialsFound";
      MarkKeeps(seen, "Ready", ready, reason, text, now, "DatabaseReachable", true, found);
    }
    if SaysGenerated(m) {
      MarkKeeps(seen, "Ready", ready, reason, text, now, "ConfigGenerated", true, "ConfigMapUpdated");
    }
  }

  lemma CredentialMarks(m: Monitor, secret: string, now: nat)
    requires IsMap(m.status.conditions)
    ensures Edits(m, InlineFound(m, now)) && Edits(m, NoCredentials(m, now))
    ensures Edits(m, SecretFound(m, secret, now)) && Edits(m, SecretNotFound(m, secret, now))
    ensures Edits(m, LibraryMissing(m, secret, now))
  {
    MarkEdits(m, "DatabaseReachable", true, "InlineCredentials", "Inline username/password configured", now);
    MarkEdits(m, "Ready", false, "NoCredentials",
              "spec.database has no inline username/password and no credentialsSecret", now);
    MarkEdits(m, "DatabaseReachable", true, "CredentialsFound", "Credentials secret " + secret + " exists", now);
    MarkEdits(m, "Ready", false, "LibraryResolveFailed", "library " + secret, now);
    var text := "Secret " + secret + " not found";
    MarkEdits(m, "Ready", false, "SecretNotFound", text, now);
    MarkEdits(Mark(m, "Ready", false, "SecretNotFound", text, now),
              "DatabaseReachable", false, "SecretNotFound", "Credentials secret " + secret + " not found", now);
  }

  /** An early exit goes on to write the status. */
  lemma EarlyExitIsGood(s: Setting, w: World, id: nat, m: Monitor, n: Monitor, pc: Pc)
    requires Holds(w, m) && Carries(w, m) && m.status.configHash == w.mon.value.status.configHash
    requires id == w.audit.passes && Edits(m, n) && !IsFinal(pc)
    requires !w.dirty ==> Current(w, pc, m, [])
    ensures var after := View(w, At(id, PatchGet(MAX_TRIES, false), n, []));
            PassOk(s, after) && WakeOk(s, after)
  {}

  /** The ways a pass can go on once its finalizer is known to be stored. */
  lemma AfterFinalizerIsGood(s: Setting, w: World, id: nat, m: Monitor, now: nat)
    requires Holds(w, m) && Carries(w, m) && m.status.configHash == w.mon.value.status.configHash
    requires id == w.audit.passes
    requires !w.dirty ==> Current(w, GetSecret, m, [])
    ensures var after := AfterFinalizer(w, id, m, now);
            after.w == w && PassOk(s, after) && WakeOk(s, after)
  {
    hide Says;
    var db := m.spec.database;
    CredentialMarks(m, "", now);
    CredentialMarksSay(m, "", now);
    if db.Inline() {
      AfterCredentialsIsGood(s, w, id, m, InlineFound(m, now));
    } else if db.credentialsSecret.None? {
      EarlyExitIsGood(s, w, id, m, NoCredentials(m, now), GetSecret);
    }
  }

  lemma AfterCredentialsIsGood(s: Setting, w: World, id: nat, m: Monitor, n: Monitor)
    requires Holds(w, m) && Carries(w, m) && m.status.configHash == w.mon.value.status.configHash
    requires m.spec.database.HasCredentials() && id == w.audit.passes && Edits(m, n) && SaysReachable(n)
    requires !w.dirty ==> Current(w, GetSecret, m, [])
    ensures var after := AfterCredentials(w, id, n);
            after.w == w && PassOk(s, after) && WakeOk(s, after)
  {}

  /** `Inv` while a pass is at a call. */
  ghost predicate Good(s: Setting, w: World, id: nat, pc: Pc, m: Monitor, libs: seq<Library>) {
    && StoreOk(s, w)
    && id == w.audit.passes && AtOk(s, w, id, pc, m, libs)
    && (w.mon.Some? && !w.dirty ==> Current(w, pc, m, libs))
  }

  lemma GetMonitorIsGood(s: Setting, w: World, id: nat, o: Outcome)
    requires StoreOk(s, w) && id == w.audit.passes
    ensures Inv(s, GetMonitorCall(w, id, o))
  {
    hide Says, SlotsOk, PipelineOk, TruthOk;
    if o.Ok() && w.mon.Some? {
      var m := w.mon.value;
      if !m.deleting && HasOurs(m.finalizers) {
        AfterFinalizerIsGood(s, w, id, m, o.now);
      }
    }
  }

  lemma FinalizersKeepStore(s: Setting, w: World, m: Monitor, fs: seq<string>, o: Outcome)
    requires StoreOk(s, w) && Snapshot(w, m)
    ensures StoreOk(s, FinalizersWritten(w, m, fs, o))
  {
    hide HasOurs, IsMap, Faithful, StampOk;
  }

  lemma {:induction false} WithoutOursDrops(fs: seq<string>)
    ensures !HasOurs(WithoutOurs(fs))
  {
    if fs != [] { WithoutOursDrops(fs[1..]); }
  }

  lemma RemoveFinalizerIsGood(s: Setting, w: World, id: nat, m: Monitor, libs: seq<Library>, o: Outcome)
    requires Good(s, w, id, RemoveFinalizer, m, libs)
    ensures Inv(s, RemoveFinalizerCall(w, id, m, o))
  {
    hide SlotsOk, PipelineOk, TruthOk, Converged;
    WithoutOursDrops(m.finalizers);
    FinalizersKeepStore(s, w, m, WithoutOurs(m.finalizers), o);
  }

  lemma AddFinalizerIsGood(s: Setting, w: World, id: nat, m: Monitor, libs: seq<Library>, o: Outcome)
    requires Good(s, w, id, AddFinalizer, m, libs)
    ensures Inv(s, AddFinalizerCall(w, id, m, o))
  {
    hide Says, SlotsOk, PipelineOk, TruthOk;
    var after := FinalizersWritten(w, m, m.finalizers + [FINALIZER], o);
    FinalizersKeepStore(s, w, m, m.finalizers + [FINALIZER], o);
    if o.Ok() && UpdateLands(w, m) {
      assert HasOurs(m.finalizers + [FINALIZER]);
      AfterFinalizerIsGood(s, after, id, after.mon.value, o.now);
    }
  }

  lemma EmitKeepsStore(s: Setting, w: World, reason: string)
    requires StoreOk(s, w)
    ensures StoreOk(s, Emit(w, reason))
  {}

  lemma GetSecretIsGood(s: Setting, w: World, id: nat, m: Monitor, libs: seq<Library>, o: Outcome)
    requires Good(s, w, id, GetSecret, m, libs)
    ensures Inv(s, GetSecretCall(w, id, m, o))
  {
    hide Says, SlotsOk, PipelineOk, TruthOk, MonitorOk;
    hide AfterCredentials, SecretFound, SecretNotFound, InlineFound, NoCredentials, LibraryMissing;
    var secret := m.spec.database.credentialsSecret.value.name;
    CredentialMarks(m, secret, o.now);
    CredentialMarksSay(m, secret, o.now);
    EmitKeepsStore(s, w, "SecretNotFound");
    if o.Ok() && secret in w.secrets {
      AfterCredentialsIsGood(s, w, id, m, SecretFound(m, secret, o.now));
    } else {
      EarlyExitIsGood(s, Emit(w, "SecretNotFound"), id, m, SecretNotFound(m, secret, o.now), GetSecret);
    }
  }

  lemma GetLibraryIsGood(s: Setting, w: World, id: nat, m: Monitor, libs: seq<Library>, o: Outcome)
    requires Good(s, w, id, GetLibrary, m, libs)
    ensures Inv(s, GetLibraryCall(w, id, m, libs, o))
  {
    hide Says, SlotsOk, PipelineOk, TruthOk, MonitorOk;
    hide SecretFound, SecretNotFound, InlineFound, NoCredentials, LibraryMissing;
    var refs := m.spec.metrics.fromLibraries;
    CredentialMarks(m, refs[|libs|], o.now);
    EmitKeepsStore(s, w, "LibraryResolveFailed");
    if o.Ok() && refs[|libs|] in w.libs {
      var more := libs + [w.libs[refs[|libs|]]];
      assert !w.dirty ==> ReadsCurrent(w, refs, more);
    } else {
      EarlyExitIsGood(s, Emit(w, "LibraryResolveFailed"), id, m,
                      LibraryMissing(m, refs[|libs|], o.now), GetLibrary);
    }
  }

  lemma BuildIsGood(s: Setting, w: World, id: nat, m: Monitor, libs: seq<Library>, o: Outcome)
    requires Good(s, w, id, Build, m, libs)
    ensures Inv(s, BuildCall(s, w, id, m, libs, o))
  {
    hide SlotsOk, PipelineOk, TruthOk, MonitorOk, Settled, Says;
  }

  lemma ConfigMark(m: Monitor, key: Key, hash: Digest, now: nat)
    requires IsMap(m.status.conditions)
    ensures Edits(m.(status := m.status.(configHash := hash)), ConfigStored(m, key, hash, now))
  {
    MarkEdits(m, "ConfigGenerated", true, "ConfigMapUpdated",
              "ConfigMap " + Labels.ConfigMapName(key.name) + " up to date (hash=" + hash[..12] + ")", now);
  }

  lemma ConfigMapKeepsStore(
    s: Setting, w: World, id: nat, m: Monitor, libs: seq<Library>, b: Built, o: Outcome)
    requires Good(s, w, id, ApplyConfigMap(b), m, libs)
    ensures StoreOk(s, ConfigMapWritten(w, Stamp(id, m.spec, libs, b), b, o))
  {}

  lemma ApplyConfigMapIsGood(
    s: Setting, w: World, id: nat, b: Built, m: Monitor, libs: seq<Library>, o: Outcome)
    requires Good(s, w, id, ApplyConfigMap(b), m, libs)
    ensures Inv(s, ApplyConfigMapCall(s, w, id, b, m, libs, o))
  {
    var after := ConfigMapWritten(w, Stamp(id, m.spec, libs, b), b, o);
    hide Says;
    ConfigMark(m, s.key, b.hash, o.now);
    ConfigStoredSays(m, s.key, b.hash, o.now);
    ConfigMapKeepsStore(s, w, id, m, libs, b, o);
    EmitKeepsStore(s, after, "ConfigMapUpdated");
    if o.Ok() {
      ConfigMapApplied(s, w, id, b, m, libs, o, ConfigStored(m, s.key, b.hash, o.now));
    }
  }

  lemma ConfigMapApplied(
    s: Setting, w: World, id: nat, b: Built, m: Monitor, libs: seq<Library>, o: Outcome, n: Monitor)
    requires Good(s, w, id, ApplyConfigMap(b), m, libs) && o.Ok()
    requires Edits(m.(status := m.status.(configHash := b.hash)), n) && SaysReachable(n) && SaysGenerated(n)
    ensures var after := ConfigMapWritten(w, Stamp(id, m.spec, libs, b), b, o);
            var next, noted := View(after, At(id, ApplyDeployment(b), n, libs)),
                               View(Emit(after, "ConfigMapUpdated"), At(id, ApplyDeployment(b), n, libs));
            PassOk(s, next) && WakeOk(s, next) && PassOk(s, noted) && WakeOk(s, noted)
  {
    hide Says, IsMap;
  }

  lemma DeploymentKeepsStore(
    s: Setting, w: World, id: nat, b: Built, m: Monitor, libs: seq<Library>, o: Outcome)
    requires Good(s, w, id, ApplyDeployment(b), m, libs)
    ensures StoreOk(s, DeploymentWritten(w, Stamp(id, m.spec, libs, b), b, o))
  {}

  lemma ApplyDeploymentIsGood(
    s: Setting, w: World, id: nat, b: Built, m: Monitor, libs: seq<Library>, o: Outcome)
    requires Good(s, w, id, ApplyDeployment(b), m, libs)
    ensures Inv(s, ApplyDeploymentCall(w, id, b, m, libs, o))
  {
    hide SlotsOk, PipelineOk, TruthOk, MonitorOk, Settled, Says;
    DeploymentKeepsStore(s, w, id, b, m, libs, o);
  }

  lemma ServiceKeepsStore(
    s: Setting, w: World, id: nat, b: Built, m: Monitor, libs: seq<Library>, o: Outcome)
    requires Good(s, w, id, ApplyService(b), m, libs)
    ensures StoreOk(s, ServiceWritten(w, Stamp(id, m.spec, libs, b), b, o))
  {}

  lemma ApplyServiceIsGood(
    s: Setting, w: World, id: nat, b: Built, m: Monitor, libs: seq<Library>, o: Outcome)
    requires Good(s, w, id, ApplyService(b), m, libs)
    ensures Inv(s, ApplyServiceCall(s, w, id, b, m, libs, o))
  {
    hide SlotsOk, PipelineOk, TruthOk, MonitorOk, Settled, Says;
    ServiceKeepsStore(s, w, id, b, m, libs, o);
  }

  lemma ServiceMonitorKeepsStore(
    s: Setting, w: World, id: nat, b: Built, m: Monitor, libs: seq<Library>, o: Outcome)
    requires Good(s, w, id, ApplyServiceMonitor(b), m, libs)
    ensures StoreOk(s, ServiceMonitorWritten(w, Stamp(id, m.spec, libs, b), b, o))
  {}

  lemma ApplyServiceMonitorIsGood(
    s: Setting, w: World, id: nat, b: Built, m: Monitor, libs: seq<Library>, o: Outcome)
    requires Good(s, w, id, ApplyServiceMonitor(b), m, libs)
    ensures Inv(s, ApplyServiceMonitorCall(w, id, b, m, libs, o))
  {
    hide SlotsOk, PipelineOk, TruthOk, MonitorOk, Settled, Says;
    ServiceMonitorKeepsStore(s, w, id, b, m, libs, o);
  }

  lemma GetDeploymentIsGood(
    s: Setting, w: World, id: nat, b: Built, m: Monitor, libs: seq<Library>, o: Outcome)
    requires Good(s, w, id, GetDeployment(b), m, libs)
    ensures Inv(s, GetDeploymentCall(w, id, m, libs, o))
  {
    hide SlotsOk, PipelineOk, TruthOk, MonitorOk;
    var seen := m.(status := m.status.(
      ready := w.podsReady, observedGeneration := m.generation, lastReconciled := o.now));
    hide Says;
    ObservedSays(m, w.podsReady, o.now);
    MarkEdits(seen, "Ready", true, "PodRunning", "pgwatch pod running and scraping", o.now);
    MarkEdits(seen, "Ready", false, "PodNotReady", "pgwatch pod is not ready yet", o.now);
    EmitKeepsStore(s, w, "PodRunning");
    EmitKeepsStore(s, w, "PodNotReady");
  }

  lemma PatchGetIsGood(
    s: Setting, w: World, id: nat, tries: nat, final: bool, m: Monitor, libs: seq<Library>, o: Outcome)
    requires Good(s, w, id, PatchGet(tries, final), m, libs)
    ensures Inv(s, PatchGetCall(w, id, tries, final, m, libs, o))
  {
    hide SlotsOk, PipelineOk, TruthOk, Settled;
  }

  lemma StatusKeepsStore(
    s: Setting, w: World, id: nat, tries: nat, final: bool, latest: Monitor, m: Monitor, libs: seq<Library>, o: Outcome)
    requires Good(s, w, id, PatchUpdate(tries, final, latest), m, libs)
    ensures StoreOk(s, StatusWritten(w, id, m, final, latest, o))
  {}

  lemma PatchUpdateIsGood(
    s: Setting, w: World, id: nat, tries: nat, final: bool, latest: Monitor, m: Monitor, libs: seq<Library>, o: Outcome)
    requires Good(s, w, id, PatchUpdate(tries, final, latest), m, libs)
    ensures Inv(s, PatchUpdateCall(w, id, tries, final, latest, m, libs, o))
  {
    StatusKeepsStore(s, w, id, tries, final, latest, m, libs, o);
    StatusKeepsPass(s, w, id, tries, final, latest, m, libs, o);
    StatusKeepsWake(s, w, id, tries, final, latest, m, libs, o);
  }

  lemma StatusKeepsPass(
    s: Setting, w: World, id: nat, tries: nat, final: bool, latest: Monitor, m: Monitor, libs: seq<Library>, o: Outcome)
    requires Good(s, w, id, PatchUpdate(tries, final, latest), m, libs)
    ensures PassOk(s, PatchUpdateCall(w, id, tries, final, latest, m, libs, o))
  {
    hide SlotsOk, PipelineOk, TruthOk, Current, Says, IsMap;
  }

  /** The status written by an undisturbed last step closes the loop: everything has converged. */
  lemma StatusKeepsWake(
    s: Setting, w: World, id: nat, tries: nat, final: bool, latest: Monitor, m: Monitor, libs: seq<Library>, o: Outcome)
    requires Good(s, w, id, PatchUpdate(tries, final, latest), m, libs)
    ensures WakeOk(s, PatchUpdateCall(w, id, tries, final, latest, m, libs, o))
  {
    hide PipelineOk, TruthOk, Says, StampOk, IsMap;
    if final && !w.dirty {
      ReadsResolve(w, m.spec.metrics.fromLibraries, libs);
      var after, b := PatchUpdateCall(w, id, tries, final, latest, m, libs, o).w, w.cm.stamp.value.built;
      assert Shows(s, w, b);
      if after.mon.Some? { AnnouncementCarries(m, after.mon.value); }
      assert m.status.ready && UpdateLands(w, latest) && !o.reply.Refused? && !after.dirty ==> ConvergedTo(s, after, b);
    }
  }

  lemma CallKeepsInv(s: Setting, w: World, id: nat, pc: Pc, m: Monitor, libs: seq<Library>, o: Outcome)
    requires Good(s, w, id, pc, m, libs)
    ensures Inv(s, ApiCall(s, w, id, pc, m, libs, o))
  {
    hide Inv, Good, RemoveFinalizerCall, AddFinalizerCall, GetSecretCall, GetLibraryCall, BuildCall;
    hide ApplyConfigMapCall;
    hide ApplyDeploymentCall, ApplyServiceCall, ApplyServiceMonitorCall, GetDeploymentCall;
    hide PatchGetCall, PatchUpdateCall;
    match pc
    case RemoveFinalizer => RemoveFinalizerIsGood(s, w, id, m, libs, o);
    case AddFinalizer => AddFinalizerIsGood(s, w, id, m, libs, o);
    case GetSecret => GetSecretIsGood(s, w, id, m, libs, o);
    case GetLibrary => GetLibraryIsGood(s, w, id, m, libs, o);
    case Build => BuildIsGood(s, w, id, m, libs, o);
    case ApplyConfigMap(b) => ApplyConfigMapIsGood(s, w, id, b, m, libs, o);
    case ApplyDeployment(b) => ApplyDeploymentIsGood(s, w, id, b, m, libs, o);
    case ApplyService(b) => ApplyServiceIsGood(s, w, id, b, m, libs, o);
    case ApplyServiceMonitor(b) => ApplyServiceMonitorIsGood(s, w, id, b, m, libs, o);
    case GetDeployment(b) => GetDeploymentIsGood(s, w, id, b, m, libs, o);
    case PatchGet(tries, final) => PatchGetIsGood(s, w, id, tries, final, m, libs, o);
    case PatchUpdate(tries, final, latest) => PatchUpdateIsGood(s, w, id, tries, final, latest, m, libs, o);
  }

  lemma StepKeepsInv(s: Setting, v: View, step: Step)
    requires Inv(s, v)
    ensures Inv(s, Next(s, v, step))
  {
    hide StoreOk, AtOk, Current, ApiCall, GetMonitorCall, EnvNext, Settled;
    match step
    case Env(e) =>
      EnvKeepsStore(s, v.w, e);
      EnvKeepsPass(s, v, e);
      EnvKeepsWake(s, v, e);
    case Call(o) =>
      if v.pass.Begun? {
        GetMonitorIsGood(s, v.w, v.pass.id, o);
      } else if v.pass.At? {
        CallKeepsInv(s, v.w, v.pass.id, v.pass.pc, v.pass.mon, v.pass.libs, o);
      }
    case _ => QueueKeepsInv(s, v, step);
  }

  lemma {:induction false} RunKeepsInv(s: Setting, v: View, steps: seq<Step>)
    requires Inv(s, v)
    ensures Inv(s, Run(s, v, steps))
  {
    hide Inv, Next;
    if steps != [] {
      RunKeepsInv(s, v, steps[..|steps| - 1]);
      StepKeepsInv(s, Run(s, v, steps[..|steps| - 1]), steps[|steps| - 1]);
    }
  }

  lemma {:induction false} EveryStateIsGood(s: Setting, trace: seq<View>, steps: seq<Step>, i: nat)
    requires IsRun(s, trace, steps) && Init(trace[0]) && i <= |steps|
    ensures Inv(s, trace[i])
  {
    hide Inv, Next;
    InitIsGood(s, trace[0]);
    RunOfTrace(s, trace, steps, i);
    RunKeepsInv(s, trace[0], steps[..i]);
  }
}
