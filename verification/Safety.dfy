/** What the invariants say about every run, in the reconciler's own terms. */
module Safety {
  import opened Prelude
  import opened Api
  import opened Conditions
  import opened Children
  import opened ConfigMaps
  import opened Compiler
  import opened Machine
  import opened Invariants

  // ---- no lost wake-up ----

  /** Nobody is going to look at this key again. */
  predicate Quiet(v: View) {
    !v.w.dirty && !v.w.timer && v.pass.Idle?
  }

  /** In every reachable state a key that nobody is going to look at again needs no look: a
      deleting monitor has lost our finalizer, and any other has all its references resolved,
      every child part of one build of the stored spec and the stored libraries, a
      current observed generation, the right hash and a true readiness. */
  lemma NoLostWakeUp(s: Setting, trace: seq<View>, steps: seq<Step>, i: nat)
    requires IsRun(s, trace, steps) && Init(trace[0]) && i <= |steps|
    requires Quiet(trace[i]) && trace[i].w.mon.Some?
    ensures if trace[i].w.mon.value.deleting then !HasOurs(trace[i].w.mon.value.finalizers)
            else Converged(s, trace[i].w)
  {
    EveryStateIsGood(s, trace, steps, i);
  }

  /** While a pass runs and the key is not dirty, everything it has read is still stored. */
  lemma RunningPassIsCurrent(s: Setting, trace: seq<View>, steps: seq<Step>, i: nat)
    requires IsRun(s, trace, steps) && Init(trace[0]) && i <= |steps|
    requires trace[i].pass.At? && trace[i].w.mon.Some? && !trace[i].w.dirty
    ensures Current(trace[i].w, trace[i].pass.pc, trace[i].pass.mon, trace[i].pass.libs)
  {
    EveryStateIsGood(s, trace, steps, i);
  }

  // ---- observedGeneration ----

  /** We applied `slot` last, as part of a build of the spec with the libraries of some
      moment; unless somebody else has written the object since, it is that part still. */
  ghost predicate BuiltFrom<T>(s: Setting, slot: Slot<T>, part: Built -> Option<T>, spec: MonitorSpec) {
    exists libs, b :: s.builds(spec, libs, Some(b)) && part(b).Some? && (slot.foreign || slot.obj == part(b))
  }

  function ConfigMapPart(b: Built): Option<ConfigMap> { Some(b.configMap) }

  function DeploymentPart(b: Built): Option<Deployment> { b.deployment }

  function ServicePart(b: Built): Option<Service> { Some(b.service) }

  function ServiceMonitorPart(b: Built): Option<ServiceMonitor> { Some(b.serviceMonitor) }

  lemma StampedIsBuilt<T>(s: Setting, slot: Slot<T>, part: Built -> Option<T>, spec: MonitorSpec)
    requires slot.stamp.Some? && slot.stamp.value.spec == spec
    requires StampOk(s, slot) && Faithful(slot, part(slot.stamp.value.built))
    ensures BuiltFrom(s, slot, part, spec)
  {}

  lemma ObservedGenerationIsTruthful(s: Setting, trace: seq<View>, steps: seq<Step>, i: nat)
    requires IsRun(s, trace, steps) && Init(trace[0]) && i <= |steps| && trace[i].w.mon.Some?
    ensures var w, m := trace[i].w, trace[i].w.mon.value;
            && m.status.observedGeneration <= m.generation
            && (m.status.observedGeneration == m.generation ==>
                  && BuiltFrom(s, w.cm, ConfigMapPart, m.spec)
                  && BuiltFrom(s, w.dep, DeploymentPart, m.spec)
                  && BuiltFrom(s, w.svc, ServicePart, m.spec)
                  && (s.serviceMonitorEnabled ==> BuiltFrom(s, w.sm, ServiceMonitorPart, m.spec)))
  {
    hide BuiltFrom;
    EveryStateIsGood(s, trace, steps, i);
    var w := trace[i].w;
    if w.mon.value.status.observedGeneration == w.mon.value.generation {
      var spec := w.mon.value.spec;
      StampedIsBuilt(s, w.cm, ConfigMapPart, spec);
      StampedIsBuilt(s, w.dep, DeploymentPart, spec);
      StampedIsBuilt(s, w.svc, ServicePart, spec);
      if s.serviceMonitorEnabled {
        StampedIsBuilt(s, w.sm, ServiceMonitorPart, spec);
      }
    }
  }

  ghost predicate SameIncarnation(a: World, b: World) {
    a.mon.Some? && b.mon.Some? && a.mon.value.uid == b.mon.value.uid
  }

  /** What a call writes, whatever the pass then does. */
  function StoreAfter(w: World, id: nat, pc: Pc, m: Monitor, libs: seq<Library>, o: Outcome): World {
    match pc
    case RemoveFinalizer => FinalizersWritten(w, m, WithoutOurs(m.finalizers), o)
    case AddFinalizer => FinalizersWritten(w, m, m.finalizers + [FINALIZER], o)
    case ApplyConfigMap(b) => ConfigMapWritten(w, Stamp(id, m.spec, libs, b), b, o)
    case ApplyDeployment(b) => DeploymentWritten(w, Stamp(id, m.spec, libs, b), b, o)
    case ApplyService(b) => ServiceWritten(w, Stamp(id, m.spec, libs, b), b, o)
    case ApplyServiceMonitor(b) => ServiceMonitorWritten(w, Stamp(id, m.spec, libs, b), b, o)
    case PatchUpdate(_, final, latest) => StatusWritten(w, id, m, final, latest, o)
    case _ => w
  }

  /** The two worlds differ in the audit at most. */
  predicate OnlyAudit(a: World, b: World) { b == a.(audit := b.audit) }

  lemma EmitIsAudit(w: World, reason: string)
    ensures OnlyAudit(w, Emit(w, reason))
  {}

  lemma ReadsWriteNothing(s: Setting, w: World, id: nat, m: Monitor, libs: seq<Library>, o: Outcome)
    ensures OnlyAudit(w, GetSecretCall(w, id, m, o).w)
    ensures OnlyAudit(w, GetLibraryCall(w, id, m, libs, o).w)
    ensures OnlyAudit(w, BuildCall(s, w, id, m, libs, o).w)
    ensures OnlyAudit(w, GetDeploymentCall(w, id, m, libs, o).w)
  {
    hide Emit, SecretFound, SecretNotFound, LibraryMissing, Observed;
    EmitIsAudit(w, "SecretNotFound");
    EmitIsAudit(w, "LibraryResolveFailed");
    EmitIsAudit(w, "PodRunning");
    EmitIsAudit(w, "PodNotReady");
  }

  lemma AfterFinalizerReads(w: World, id: nat, m: Monitor, now: nat)
    ensures AfterFinalizer(w, id, m, now).w == w
  {
    hide InlineFound, NoCredentials;
  }

  lemma FinalizerCallWrites(s: Setting, w: World, id: nat, pc: Pc, m: Monitor, libs: seq<Library>, o: Outcome)
    requires pc.RemoveFinalizer? || pc.AddFinalizer?
    ensures ApiCall(s, w, id, pc, m, libs, o).w == StoreAfter(w, id, pc, m, libs, o)
  {
    hide AfterFinalizer, FinalizersWritten, GetSecretCall, GetLibraryCall, BuildCall, ApplyConfigMapCall;
    hide ApplyDeploymentCall, ApplyServiceCall, ApplyServiceMonitorCall, GetDeploymentCall;
    hide PatchGetCall, PatchUpdateCall;
    var after := FinalizersWritten(w, m, m.finalizers + [FINALIZER], o);
    if after.mon.Some? { AfterFinalizerReads(after, id, after.mon.value, o.now); }
  }

  lemma CallWrites(s: Setting, w: World, id: nat, pc: Pc, m: Monitor, libs: seq<Library>, o: Outcome)
    ensures var after := ApiCall(s, w, id, pc, m, libs, o).w;
            after == StoreAfter(w, id, pc, m, libs, o).(audit := after.audit)
  {
    if pc.GetSecret? || pc.GetLibrary? || pc.Build? || pc.GetDeployment? {
      hide GetSecretCall, GetLibraryCall, BuildCall, GetDeploymentCall;
      ReadsWriteNothing(s, w, id, m, libs, o);
    } else if pc.RemoveFinalizer? || pc.AddFinalizer? {
      hide ApiCall, StoreAfter;
      FinalizerCallWrites(s, w, id, pc, m, libs, o);
    } else {
      hide RemoveFinalizerCall, AddFinalizerCall, GetSecretCall, GetLibraryCall, BuildCall;
      hide GetDeploymentCall, PatchGetCall;
      hide FinalizersWritten, ConfigMapWritten, DeploymentWritten, ServiceWritten, ServiceMonitorWritten, StatusWritten;
      hide ConfigStored, Emit;
      EmitIsAudit(StoreAfter(w, id, pc, m, libs, o), "ConfigMapUpdated");
    }
  }

  lemma StepRaisesGenerations(s: Setting, v: View, step: Step)
    requires Inv(s, v) && SameIncarnation(v.w, Next(s, v, step).w)
    ensures v.w.mon.value.status.observedGeneration <= Next(s, v, step).w.mon.value.status.observedGeneration
    ensures v.w.mon.value.generation <= Next(s, v, step).w.mon.value.generation
  {
    if step.Env? {
      EnvEditsAreNarrow(v.w, step.e);
    } else {
      hide Inv, Next;
      PassWritesAreNarrow(s, v, step);
    }
  }

  /** An incarnation that is no longer stored; its uid will not come back. */
  predicate Gone(w: World, uid: nat) {
    uid <= w.versions && (w.mon.None? || w.mon.value.uid != uid)
  }

  lemma GoneStays(s: Setting, v: View, step: Step, uid: nat)
    requires Inv(s, v) && Gone(v.w, uid)
    ensures Gone(Next(s, v, step).w, uid)
  {
    hide Inv;
    if step.Env? {
      EnvKeepsGone(v.w, step.e, uid);
    } else {
      hide Next;
      PassWritesAreNarrow(s, v, step);
    }
  }

  lemma EnvKeepsGone(w: World, e: EnvStep, uid: nat)
    requires Gone(w, uid)
    ensures Gone(EnvNext(w, e), uid)
  {}

  /** A stored uid is one of the versions handed out. */
  ghost predicate UidOk(w: World) { w.mon.Some? ==> w.mon.value.uid <= w.versions }

  lemma UidStaysOk(s: Setting, v: View, step: Step)
    requires Inv(s, v) && UidOk(v.w)
    ensures UidOk(Next(s, v, step).w)
  {
    hide Inv;
    if step.Env? {
      EnvKeepsUid(v.w, step.e);
    } else {
      hide Next;
      PassWritesAreNarrow(s, v, step);
    }
  }

  lemma EnvKeepsUid(w: World, e: EnvStep)
    requires UidOk(w)
    ensures UidOk(EnvNext(w, e))
  {}

  lemma {:induction false} UidsAreOk(s: Setting, trace: seq<View>, steps: seq<Step>, i: nat)
    requires IsRun(s, trace, steps) && Init(trace[0]) && i <= |steps|
    ensures UidOk(trace[i].w)
  {
    hide Inv, Next;
    if i > 0 {
      UidsAreOk(s, trace, steps, i - 1);
      EveryStateIsGood(s, trace, steps, i - 1);
      assert Took(s, trace, steps, i - 1);
      UidStaysOk(s, trace[i - 1], steps[i - 1]);
    }
  }

  lemma {:induction false} IncarnationIsStretch(
    s: Setting, trace: seq<View>, steps: seq<Step>, i: nat, j: nat, uid: nat)
    requires IsRun(s, trace, steps) && Init(trace[0]) && i <= j <= |steps| && Gone(trace[i].w, uid)
    ensures Gone(trace[j].w, uid)
  {
    hide Inv, Next, Gone;
    if i < j {
      IncarnationIsStretch(s, trace, steps, i, j - 1, uid);
      EveryStateIsGood(s, trace, steps, j - 1);
      assert Took(s, trace, steps, j - 1);
      GoneStays(s, trace[j - 1], steps[j - 1], uid);
    }
  }

  /** Over a whole run, at whatever distance: while it is the same incarnation, neither the
      generation nor the observed generation ever falls. */
  lemma {:induction false} ObservedGenerationNeverFalls(
    s: Setting, trace: seq<View>, steps: seq<Step>, i: nat, j: nat)
    requires IsRun(s, trace, steps) && Init(trace[0]) && i <= j <= |steps|
    requires SameIncarnation(trace[i].w, trace[j].w)
    ensures trace[i].w.mon.value.status.observedGeneration <= trace[j].w.mon.value.status.observedGeneration
    ensures trace[i].w.mon.value.generation <= trace[j].w.mon.value.generation
    decreases j - i
  {
    hide Inv, Next;
    if i < j {
      var uid := trace[i].w.mon.value.uid;
      UidsAreOk(s, trace, steps, i);
      assert Took(s, trace, steps, i);
      EveryStateIsGood(s, trace, steps, i);
      UidsAreOk(s, trace, steps, i + 1);
      VersionsGrow(s, trace[i], steps[i]);
      if !SameIncarnation(trace[i].w, trace[i + 1].w) {
        IncarnationIsStretch(s, trace, steps, i + 1, j, uid);
        assert false;
      }
      StepRaisesGenerations(s, trace[i], steps[i]);
      ObservedGenerationNeverFalls(s, trace, steps, i + 1, j);
    }
  }

  lemma VersionsGrow(s: Setting, v: View, step: Step)
    requires Inv(s, v)
    ensures v.w.versions <= Next(s, v, step).w.versions
  {
    hide Inv;
    if step.Env? {
      EnvVersionsGrow(v.w, step.e);
    } else {
      hide Next;
      PassWritesAreNarrow(s, v, step);
    }
  }

  lemma EnvVersionsGrow(w: World, e: EnvStep)
    ensures w.versions <= EnvNext(w, e).versions
  {}

  lemma EnvEditsAreNarrow(w: World, e: EnvStep)
    requires SameIncarnation(w, EnvNext(w, e)) && w.mon.value.version <= w.versions
    ensures EnvNext(w, e).mon.value.status == w.mon.value.status
    ensures w.mon.value.generation <= EnvNext(w, e).mon.value.generation
    ensures w.mon.value.deleting ==> EnvNext(w, e).mon.value.deleting
    ensures HasOurs(w.mon.value.finalizers) == HasOurs(EnvNext(w, e).mon.value.finalizers)
  {}

  // ---- pipeline order ----

  /** Status behind Deployment behind ConfigMap, also after crashes and lost replies; no hash
      is ever annotated or reported before data with that hash was stored. */
  lemma PipelineOrder(s: Setting, trace: seq<View>, steps: seq<Step>, i: nat)
    requires IsRun(s, trace, steps) && Init(trace[0]) && i <= |steps|
    ensures var w := trace[i].w;
            && w.audit.hashBy <= By(w.dep) <= By(w.cm) <= w.audit.passes
            && w.audit.annotated <= w.audit.stored
            && (w.mon.Some? && w.mon.value.status.configHash != "" ==>
                  w.mon.value.status.configHash in w.audit.annotated)
  {
    EveryStateIsGood(s, trace, steps, i);
  }

  // ---- deletion and finalizers ----

  /** Some child was applied by this step. */
  predicate AppliesChild(a: World, b: World) {
    a.cm.stamp != b.cm.stamp || a.dep.stamp != b.dep.stamp || a.svc.stamp != b.svc.stamp || a.sm.stamp != b.sm.stamp
  }

  /** `at` finds the elements of `kept`, one after the other, in `all`. */
  ghost predicate Embeds(kept: seq<string>, all: seq<string>, at: seq<nat>) {
    && |at| == |kept|
    && (forall i | 0 <= i < |at| :: at[i] < |all| && all[at[i]] == kept[i])
    && (forall i, j | 0 <= i < j < |at| :: at[i] < at[j])
  }

  ghost predicate InOrder(kept: seq<string>, all: seq<string>) {
    exists at :: Embeds(kept, all, at)
  }

  /** Everybody else's finalizers are there as often as before and in the same order. */
  ghost predicate ForeignKept(was: seq<string>, now: seq<string>) {
    && (forall f | f != FINALIZER :: multiset(now)[f] == multiset(was)[f])
    && (InOrder(now, was) || InOrder(was, now))
  }

  /** A pass never touches spec, generation, deletion mark or anybody else's finalizer, adds
      its own only to a live object, removes it only from one being deleted, and lets an object
      go only when it was being deleted and no finalizer but ours was on it. */
  ghost predicate Narrow(a: World, b: World) {
    if a.mon.None? then b.mon.None?
    else
      var was := a.mon.value;
      if b.mon.None? then
        was.deleting && FINALIZER in was.finalizers && forall f | f in was.finalizers :: f == FINALIZER
      else
        var now := b.mon.value;
        && now.uid == was.uid && now.spec == was.spec
        && now.generation == was.generation && now.deleting == was.deleting
        && ForeignKept(was.finalizers, now.finalizers)
        && (FINALIZER in now.finalizers && FINALIZER !in was.finalizers ==> !was.deleting)
        && (FINALIZER in was.finalizers && FINALIZER !in now.finalizers ==> was.deleting)
        && was.status.observedGeneration <= now.status.observedGeneration
  }

  lemma KeptAsIs(fs: seq<string>)
    ensures ForeignKept(fs, fs)
  {
    assert Embeds(fs, fs, seq(|fs|, i => i));
  }

  lemma KeptBesideOurs(fs: seq<string>)
    ensures ForeignKept(fs, fs + [FINALIZER])
  {
    assert Embeds(fs, fs + [FINALIZER], seq(|fs|, i => i));
  }

  function Shifted(at: seq<nat>): (r: seq<nat>)
    ensures |r| == |at| && forall i | 0 <= i < |at| :: r[i] == at[i] + 1
  {
    seq(|at|, i requires 0 <= i < |at| => at[i] + 1)
  }

  lemma EmbedsBehind(kept: seq<string>, all: seq<string>, at: seq<nat>, x: string)
    requires Embeds(kept, all, at)
    ensures Embeds(kept, [x] + all, Shifted(at))
    ensures Embeds([x] + kept, [x] + all, [0] + Shifted(at))
  {
    hide Shifted;
  }

  lemma {:induction false} OthersAreCounted(fs: seq<string>, f: string)
    requires f != FINALIZER
    ensures multiset(WithoutOurs(fs))[f] == multiset(fs)[f]
  {
    if fs != [] {
      OthersAreCounted(fs[1..], f);
      assert fs == [fs[0]] + fs[1..];
    }
  }

  /** RemoveFinalizer strikes out ours, wherever and however often it stands, and nothing else. */
  lemma {:induction false} OursIsStruckOut(fs: seq<string>) returns (at: seq<nat>)
    ensures Embeds(WithoutOurs(fs), fs, at)
  {
    at := [];
    if fs != [] {
      var tail := OursIsStruckOut(fs[1..]);
      hide Embeds, Shifted;
      EmbedsBehind(WithoutOurs(fs[1..]), fs[1..], tail, fs[0]);
      assert fs == [fs[0]] + fs[1..];
      at := if fs[0] == FINALIZER then Shifted(tail) else [0] + Shifted(tail);
    }
  }

  lemma KeptWithoutOurs(fs: seq<string>)
    ensures FINALIZER !in WithoutOurs(fs)
    ensures ForeignKept(fs, WithoutOurs(fs))
    ensures WithoutOurs(fs) == [] ==> forall f | f in fs :: f == FINALIZER
  {
    hide WithoutOurs;
    WithoutOursDrops(fs);
    var at := OursIsStruckOut(fs);
    forall f | f != FINALIZER ensures multiset(WithoutOurs(fs))[f] == multiset(fs)[f] {
      OthersAreCounted(fs, f);
    }
    if WithoutOurs(fs) == [] {
      forall f | f in fs ensures f == FINALIZER {
        assert multiset(fs)[f] > 0;
      }
    }
  }

  lemma FinalizersStayNarrow(s: Setting, w: World, id: nat, pc: Pc, m: Monitor, libs: seq<Library>, o: Outcome)
    requires AtOk(s, w, id, pc, m, libs) && (pc.RemoveFinalizer? || pc.AddFinalizer?)
    ensures Narrow(w, StoreAfter(w, id, pc, m, libs, o))
    ensures w.versions <= StoreAfter(w, id, pc, m, libs, o).versions
  {
    hide ForeignKept, WithoutOurs;
    if w.mon.Some? { KeptAsIs(w.mon.value.finalizers); }
    KeptBesideOurs(m.finalizers);
    KeptWithoutOurs(m.finalizers);
    assert FINALIZER in m.finalizers + [FINALIZER];
  }

  lemma AppliesKeepMonitor(w: World, id: nat, pc: Pc, m: Monitor, libs: seq<Library>, o: Outcome)
    requires !pc.RemoveFinalizer? && !pc.AddFinalizer? && !pc.PatchUpdate?
    ensures StoreAfter(w, id, pc, m, libs, o).mon == w.mon && StoreAfter(w, id, pc, m, libs, o).versions == w.versions
  {
    hide FinalizersWritten, StatusWritten;
  }

  lemma StatusStaysNarrow(
    s: Setting, w: World, id: nat, tries: nat, final: bool, latest: Monitor, m: Monitor, libs: seq<Library>, o: Outcome)
    requires AtOk(s, w, id, PatchUpdate(tries, final, latest), m, libs)
    ensures Narrow(w, StatusWritten(w, id, m, final, latest, o))
    ensures w.versions <= StatusWritten(w, id, m, final, latest, o).versions
  {
    hide Progress, HasOurs, ForeignKept, IsMap;
    KeptAsIs(w.mon.value.finalizers);
  }

  lemma WritesAreNarrow(s: Setting, w: World, id: nat, pc: Pc, m: Monitor, libs: seq<Library>, o: Outcome)
    requires AtOk(s, w, id, pc, m, libs)
    ensures Narrow(w, StoreAfter(w, id, pc, m, libs, o))
    ensures w.versions <= StoreAfter(w, id, pc, m, libs, o).versions
  {
    if w.mon.Some? { KeptAsIs(w.mon.value.finalizers); }
    if pc.RemoveFinalizer? || pc.AddFinalizer? {
      hide AtOk, Narrow, StoreAfter;
      FinalizersStayNarrow(s, w, id, pc, m, libs, o);
    } else if pc.PatchUpdate? {
      hide Narrow, AtOk, FinalizersWritten, StatusWritten;
      StatusStaysNarrow(s, w, id, pc.tries, pc.final, pc.latest, m, libs, o);
    } else {
      hide AtOk, StoreAfter, ForeignKept;
      AppliesKeepMonitor(w, id, pc, m, libs, o);
    }
  }

  lemma OthersKeepStatus(w: World, id: nat, pc: Pc, m: Monitor, libs: seq<Library>, o: Outcome)
    requires !pc.PatchUpdate? && w.mon.Some? && StoreAfter(w, id, pc, m, libs, o).mon.Some?
    ensures StoreAfter(w, id, pc, m, libs, o).mon.value.status == w.mon.value.status
  {
    hide WithoutOurs, HasOurs;
  }

  /** A status is written only on the object as fetched, and is exactly the pass's own. */
  lemma StatusIsOwn(s: Setting, w: World, id: nat, pc: Pc, m: Monitor, libs: seq<Library>, o: Outcome)
    requires AtOk(s, w, id, pc, m, libs)
    requires var after := StoreAfter(w, id, pc, m, libs, o);
             w.mon.Some? && after.mon.Some? && after.mon.value.status != w.mon.value.status
    ensures pc.PatchUpdate? && w.mon == Some(pc.latest)
    ensures StoreAfter(w, id, pc, m, libs, o).mon.value ==
            pc.latest.(status := m.status, version := w.versions + 1)
    ensures StoreAfter(w, id, pc, m, libs, o).versions == w.versions + 1
  {
    hide Holds, Building, Patching;
    if !pc.PatchUpdate? {
      hide StoreAfter, AtOk;
      OthersKeepStatus(w, id, pc, m, libs, o);
    } else {
      hide FinalizersWritten, ConfigMapWritten, DeploymentWritten, ServiceWritten, ServiceMonitorWritten;
    }
  }

  lemma AppliesUnderFinalizer(s: Setting, w: World, id: nat, pc: Pc, m: Monitor, libs: seq<Library>, o: Outcome)
    requires AtOk(s, w, id, pc, m, libs) && AppliesChild(w, StoreAfter(w, id, pc, m, libs, o))
    ensures Holds(w, m) && StoreAfter(w, id, pc, m, libs, o).mon == w.mon
  {
    hide Progress;
  }

  lemma EnvAppliesNothing(w: World, e: EnvStep)
    ensures !AppliesChild(w, EnvNext(w, e))
  {}

  lemma OtherStepsWriteNothing(s: Setting, v: View, step: Step)
    requires !(v.pass.At? && step.Call?)
    ensures !AppliesChild(v.w, Next(s, v, step).w)
    ensures !step.Env? ==> Next(s, v, step).w.mon == v.w.mon && Next(s, v, step).w.versions == v.w.versions
  {
    hide Mark, InlineFound, NoCredentials, EnvNext;
    if step.Env? { EnvAppliesNothing(v.w, step.e); }
  }

  lemma StepAppliesUnderFinalizer(s: Setting, v: View, step: Step)
    requires Inv(s, v) && AppliesChild(v.w, Next(s, v, step).w)
    ensures v.pass.At? && v.w.mon.Some?
    ensures v.w.mon.value.uid == v.pass.mon.uid && HasOurs(v.w.mon.value.finalizers)
    ensures Next(s, v, step).w.mon == v.w.mon
  {
    hide StoreOk, WakeOk, AtOk, ApiCall, GetMonitorCall, EnvNext, StoreAfter;
    if v.pass.At? && step.Call? {
      CallWrites(s, v.w, v.pass.id, v.pass.pc, v.pass.mon, v.pass.libs, step.o);
      AppliesUnderFinalizer(s, v.w, v.pass.id, v.pass.pc, v.pass.mon, v.pass.libs, step.o);
    } else {
      OtherStepsWriteNothing(s, v, step);
    }
  }

  /** In every run children are applied only for the stored incarnation, and only while it
      carries our finalizer. */
  lemma ChildrenOnlyUnderFinalizer(s: Setting, trace: seq<View>, steps: seq<Step>, i: nat)
    requires IsRun(s, trace, steps) && Init(trace[0]) && i < |steps|
    requires AppliesChild(trace[i].w, trace[i + 1].w)
    ensures trace[i].pass.At? && trace[i].w.mon.Some?
    ensures trace[i].w.mon.value.uid == trace[i].pass.mon.uid && HasOurs(trace[i].w.mon.value.finalizers)
    ensures trace[i + 1].w.mon == trace[i].w.mon
  {
    hide Inv, Next;
    EveryStateIsGood(s, trace, steps, i);
    assert Took(s, trace, steps, i);
    StepAppliesUnderFinalizer(s, trace[i], steps[i]);
  }

  lemma PassWritesAreNarrow(s: Setting, v: View, step: Step)
    requires Inv(s, v) && !step.Env?
    ensures var after := Next(s, v, step).w;
            && Narrow(v.w, after) && v.w.versions <= after.versions
            && (v.w.mon.Some? && after.mon.Some? && after.mon.value.status != v.w.mon.value.status ==>
                  && v.pass.At? && v.pass.pc.PatchUpdate? && v.w.mon == Some(v.pass.pc.latest)
                  && after.mon.value == v.pass.pc.latest.(status := v.pass.mon.status, version := after.versions))
  {
    hide StoreOk, WakeOk, AtOk, ApiCall, GetMonitorCall, EnvNext, StoreAfter;
    if v.pass.At? && step.Call? {
      var At(id, pc, m, libs) := v.pass;
      var after := StoreAfter(v.w, id, pc, m, libs, step.o);
      CallWrites(s, v.w, id, pc, m, libs, step.o);
      WritesAreNarrow(s, v.w, id, pc, m, libs, step.o);
      if v.w.mon.Some? && after.mon.Some? && after.mon.value.status != v.w.mon.value.status {
        StatusIsOwn(s, v.w, id, pc, m, libs, step.o);
      }
    } else {
      OtherStepsWriteNothing(s, v, step);
      if v.w.mon.Some? { KeptAsIs(v.w.mon.value.finalizers); }
    }
  }

  /** In every run, whatever others do in between: a step that is not the outside's touches
      neither spec nor metadata beyond our finalizer, and a status it writes is the pass's own,
      on top of the version stored at that instant. */
  lemma OperatorWritesAreNarrow(s: Setting, trace: seq<View>, steps: seq<Step>, i: nat)
    requires IsRun(s, trace, steps) && Init(trace[0]) && i < |steps| && !steps[i].Env?
    ensures Narrow(trace[i].w, trace[i + 1].w)
    ensures var v, after := trace[i], trace[i + 1].w;
            v.w.mon.Some? && after.mon.Some? && after.mon.value.status != v.w.mon.value.status ==>
              && v.pass.At? && v.pass.pc.PatchUpdate? && v.w.mon == Some(v.pass.pc.latest)
              && after.mon.value == v.pass.pc.latest.(status := v.pass.mon.status, version := after.versions)
  {
    hide Inv, Next, Narrow;
    EveryStateIsGood(s, trace, steps, i);
    assert Took(s, trace, steps, i);
    PassWritesAreNarrow(s, trace[i], steps[i]);
  }

  /** An incarnation that is gone, or is being deleted without our finalizer. */
  predicate Released(w: World, uid: nat) {
    && uid <= w.versions
    && (w.mon.None? || w.mon.value.uid != uid || (w.mon.value.deleting && !HasOurs(w.mon.value.finalizers)))
  }

  lemma ReleasedStays(s: Setting, v: View, step: Step, uid: nat)
    requires Inv(s, v) && Released(v.w, uid)
    ensures Released(Next(s, v, step).w, uid)
  {
    hide Inv;
    if step.Env? {
      EnvKeepsReleased(v.w, step.e, uid);
    } else {
      hide Next;
      PassWritesAreNarrow(s, v, step);
    }
  }

  lemma EnvKeepsReleased(w: World, e: EnvStep, uid: nat)
    requires Released(w, uid)
    ensures Released(EnvNext(w, e), uid)
  {}

  /** Once our finalizer is off an incarnation, no later step of any run applies a child for it. */
  lemma {:induction false} NothingAfterRelease(s: Setting, v: View, steps: seq<Step>, last: Step, uid: nat)
    requires Inv(s, v) && Released(v.w, uid)
    ensures Released(Run(s, v, steps).w, uid)
    ensures var u := Run(s, v, steps);
            AppliesChild(u.w, Next(s, u, last).w) ==> u.pass.At? && u.pass.mon.uid != uid
  {
    hide Inv, Next;
    if steps != [] {
      var front := steps[..|steps| - 1];
      NothingAfterRelease(s, v, front, last, uid);
      RunKeepsInv(s, v, front);
      ReleasedStays(s, Run(s, v, front), steps[|steps| - 1], uid);
    }
    RunKeepsInv(s, v, steps);
    var u := Run(s, v, steps);
    if AppliesChild(u.w, Next(s, u, last).w) {
      StepAppliesUnderFinalizer(s, u, last);
    }
  }
}
