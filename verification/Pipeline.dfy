/** Where the hashes come from: the one a status reports, and the ones ever stored. */
module Pipeline {
  import opened Prelude
  import opened Api
  import opened Conditions
  import opened ConfigMaps
  import opened Compiler
  import opened Machine
  import opened Invariants
  import opened Safety

  // ---- the reported hash is the one its pass compiled ----

  /** The hash a pass has compiled, while it still needs it. */
  function CompiledHash(pass: Pass): Option<string> {
    if !pass.At? then None
    else match pass.pc
         case ApplyConfigMap(b) => Some(b.hash)
         case ApplyDeployment(b) => Some(b.hash)
         case ApplyService(b) => Some(b.hash)
         case ApplyServiceMonitor(b) => Some(b.hash)
         case GetDeployment(b) => Some(b.hash)
         case _ => if IsFinal(pass.pc) then Some(pass.mon.status.configHash) else None
  }

  predicate Compiling(v: View, id: nat, hash: string) {
    v.pass.At? && v.pass.id == id && v.pass.pc.ApplyConfigMap? && v.pass.pc.b.hash == hash
  }

  ghost predicate CompiledBy(trace: seq<View>, i: nat, id: nat, hash: string)
    requires i < |trace|
  {
    exists j | 0 <= j <= i :: Compiling(trace[j], id, hash)
  }

  function Reported(w: World): string { if w.mon.Some? then w.mon.value.status.configHash else "" }

  /** All a step does to the hash in the making and the hash reported. */
  ghost predicate HashEffect(v: View, u: View) {
    && (CompiledHash(u.pass).Some? && !u.pass.pc.ApplyConfigMap? ==>
          v.pass.At? && v.pass.id == u.pass.id && CompiledHash(v.pass) == CompiledHash(u.pass))
    && (CompiledHash(u.pass).Some? && u.pass.pc.ApplyConfigMap? ==> Compiling(u, u.pass.id, u.pass.pc.b.hash))
    && (Reported(u.w) != "" ==>
          || (Reported(v.w) == Reported(u.w) && v.w.audit.hashBy == u.w.audit.hashBy)
          || (v.pass.At? && v.pass.id == u.w.audit.hashBy && CompiledHash(v.pass) == Some(Reported(u.w))))
  }

  lemma EnvHashEffect(w: World, e: EnvStep, pass: Pass)
    ensures HashEffect(View(w, pass), View(EnvNext(w, e), pass))
  {}

  lemma EmitKeepsHash(w: World, reason: string)
    ensures Reported(Emit(w, reason)) == Reported(w) && Emit(w, reason).audit.hashBy == w.audit.hashBy
  {}

  lemma EarlyHashEffect(s: Setting, w: World, id: nat, pc: Pc, m: Monitor, libs: seq<Library>, o: Outcome)
    requires pc.GetSecret? || pc.GetLibrary? || pc.Build?
    ensures HashEffect(View(w, At(id, pc, m, libs)), ApiCall(s, w, id, pc, m, libs, o))
  {
    hide Emit, SecretFound, SecretNotFound, LibraryMissing, RemoveFinalizerCall, AddFinalizerCall, ApplyConfigMapCall;
    hide ApplyDeploymentCall, ApplyServiceCall, ApplyServiceMonitorCall, GetDeploymentCall;
    hide PatchGetCall, PatchUpdateCall;
    EmitKeepsHash(w, "SecretNotFound");
    EmitKeepsHash(w, "LibraryResolveFailed");
  }

  lemma FinalizerHashEffect(s: Setting, w: World, id: nat, pc: Pc, m: Monitor, libs: seq<Library>, o: Outcome)
    requires pc.RemoveFinalizer? || pc.AddFinalizer?
    ensures HashEffect(View(w, At(id, pc, m, libs)), ApiCall(s, w, id, pc, m, libs, o))
  {
    hide InlineFound, NoCredentials, WithoutOurs, HasOurs, GetSecretCall, GetLibraryCall, BuildCall, ApplyConfigMapCall;
    hide ApplyDeploymentCall, ApplyServiceCall, ApplyServiceMonitorCall, GetDeploymentCall;
    hide PatchGetCall, PatchUpdateCall;
  }

  lemma ApplyHashEffect(s: Setting, w: World, id: nat, pc: Pc, m: Monitor, libs: seq<Library>, o: Outcome)
    requires pc.ApplyConfigMap? || pc.ApplyDeployment? || pc.ApplyService? || pc.ApplyServiceMonitor?
    ensures HashEffect(View(w, At(id, pc, m, libs)), ApiCall(s, w, id, pc, m, libs, o))
  {
    hide Emit, ConfigStored, RemoveFinalizerCall, AddFinalizerCall, GetSecretCall, GetLibraryCall, BuildCall;
    hide GetDeploymentCall, PatchGetCall, PatchUpdateCall;
    if pc.ApplyConfigMap? {
      EmitKeepsHash(ConfigMapWritten(w, Stamp(id, m.spec, libs, pc.b), pc.b, o), "ConfigMapUpdated");
    }
  }

  lemma ReportHashEffect(s: Setting, w: World, id: nat, b: Built, m: Monitor, libs: seq<Library>, o: Outcome)
    requires m.status.configHash == b.hash
    ensures HashEffect(View(w, At(id, GetDeployment(b), m, libs)), GetDeploymentCall(w, id, m, libs, o))
  {
    hide Emit, Set;
    EmitKeepsHash(w, "PodRunning");
    EmitKeepsHash(w, "PodNotReady");
  }

  lemma PatchHashEffect(s: Setting, w: World, id: nat, pc: Pc, m: Monitor, libs: seq<Library>, o: Outcome)
    requires pc.PatchGet? || pc.PatchUpdate?
    requires !pc.final ==> w.mon.Some? && m.status.configHash == Reported(w)
    ensures HashEffect(View(w, At(id, pc, m, libs)), ApiCall(s, w, id, pc, m, libs, o))
  {
    hide RemoveFinalizerCall, AddFinalizerCall, GetSecretCall, GetLibraryCall, BuildCall, ApplyConfigMapCall;
    hide ApplyDeploymentCall, ApplyServiceCall, ApplyServiceMonitorCall, GetDeploymentCall;
  }

  lemma ApiCallReports(s: Setting, w: World, id: nat, b: Built, m: Monitor, libs: seq<Library>, o: Outcome)
    ensures ApiCall(s, w, id, GetDeployment(b), m, libs, o) == GetDeploymentCall(w, id, m, libs, o)
  {
    hide GetDeploymentCall;
  }

  lemma CallHashEffect(s: Setting, w: World, id: nat, pc: Pc, m: Monitor, libs: seq<Library>, o: Outcome)
    requires AtOk(s, w, id, pc, m, libs)
    ensures HashEffect(View(w, At(id, pc, m, libs)), ApiCall(s, w, id, pc, m, libs, o))
  {
    hide ApiCall, HashEffect, Progress;
    match pc
    case RemoveFinalizer => FinalizerHashEffect(s, w, id, pc, m, libs, o);
    case AddFinalizer => FinalizerHashEffect(s, w, id, pc, m, libs, o);
    case GetSecret => EarlyHashEffect(s, w, id, pc, m, libs, o);
    case GetLibrary => EarlyHashEffect(s, w, id, pc, m, libs, o);
    case Build => EarlyHashEffect(s, w, id, pc, m, libs, o);
    case GetDeployment(b) =>
      ReportHashEffect(s, w, id, b, m, libs, o);
      ApiCallReports(s, w, id, b, m, libs, o);
    case PatchGet(_, _) => PatchHashEffect(s, w, id, pc, m, libs, o);
    case PatchUpdate(_, _, _) => PatchHashEffect(s, w, id, pc, m, libs, o);
    case _ => ApplyHashEffect(s, w, id, pc, m, libs, o);
  }

  lemma StepHashEffect(s: Setting, v: View, step: Step)
    requires Inv(s, v)
    ensures HashEffect(v, Next(s, v, step))
  {
    hide StoreOk, WakeOk, AtOk, ApiCall, EnvNext;
    match step
    case Env(e) =>
      hide HashEffect;
      EnvHashEffect(v.w, e, v.pass);
    case Call(o) =>
      if v.pass.At? {
        hide HashEffect;
        CallHashEffect(s, v.w, v.pass.id, v.pass.pc, v.pass.mon, v.pass.libs, o);
      } else {
        hide InlineFound, NoCredentials;
      }
    case _ =>
  }

  ghost predicate Traced(trace: seq<View>, i: nat)
    requires i < |trace|
  {
    && (CompiledHash(trace[i].pass).Some? ==>
          CompiledBy(trace, i, trace[i].pass.id, CompiledHash(trace[i].pass).value))
    && (Reported(trace[i].w) != "" ==> CompiledBy(trace, i, trace[i].w.audit.hashBy, Reported(trace[i].w)))
  }

  lemma {:induction false} HashesAreTraced(s: Setting, trace: seq<View>, steps: seq<Step>, i: nat)
    requires IsRun(s, trace, steps) && Init(trace[0]) && i <= |steps|
    ensures Traced(trace, i)
  {
    if i > 0 {
      hide Inv, Next, Compiling, CompiledHash;
      HashesAreTraced(s, trace, steps, i - 1);
      EveryStateIsGood(s, trace, steps, i - 1);
      assert Took(s, trace, steps, i - 1);
      StepHashEffect(s, trace[i - 1], steps[i - 1]);
      CompilingIsAtCall(trace[i]);
    }
  }

  lemma CompilingIsAtCall(v: View)
    ensures CompiledHash(v.pass).Some? ==> v.pass.At?
    ensures v.pass.At? && v.pass.pc.ApplyConfigMap? ==> CompiledHash(v.pass) == Some(v.pass.pc.b.hash)
  {}

  /** A reported hash is the one that the pass behind it, named by `hashBy`, came to apply. */
  lemma ReportedHashIsOfItsPass(s: Setting, trace: seq<View>, steps: seq<Step>, i: nat)
    requires IsRun(s, trace, steps) && Init(trace[0]) && i <= |steps|
    requires trace[i].w.mon.Some? && trace[i].w.mon.value.status.configHash != ""
    ensures CompiledBy(trace, i, trace[i].w.audit.hashBy, trace[i].w.mon.value.status.configHash)
  {
    HashesAreTraced(s, trace, steps, i);
  }

  // ---- what was ever stored ----

  /** The record of stored hashes grows only with the ConfigMap that was stored. */
  ghost predicate StoresRecorded(s: Setting, a: World, b: World) {
    || b.audit.stored == a.audit.stored
    || (&& b.cm.stamp.Some? && !b.cm.foreign
        && b.audit.stored == a.audit.stored + {b.cm.stamp.value.built.hash})
  }

  lemma CallStoresRecorded(s: Setting, w: World, id: nat, pc: Pc, m: Monitor, libs: seq<Library>, o: Outcome)
    ensures StoresRecorded(s, w, StoreAfter(w, id, pc, m, libs, o))
  {
    hide WithoutOurs;
  }

  lemma CallKeepsRecord(s: Setting, w: World, id: nat, pc: Pc, m: Monitor, libs: seq<Library>, o: Outcome)
    ensures ApiCall(s, w, id, pc, m, libs, o).w.audit.stored == StoreAfter(w, id, pc, m, libs, o).audit.stored
  {
    hide Mark, InlineFound, NoCredentials, SecretFound, SecretNotFound, LibraryMissing, ConfigStored, Observed;
    hide FinalizersWritten, ConfigMapWritten, DeploymentWritten, ServiceWritten, ServiceMonitorWritten, StatusWritten;
    if pc.AddFinalizer? {
      var after := FinalizersWritten(w, m, m.finalizers + [FINALIZER], o);
      if after.mon.Some? { AfterFinalizerReads(after, id, after.mon.value, o.now); }
    }
    if pc.GetSecret? || pc.GetLibrary? || pc.GetDeployment? || pc.Build? || pc.PatchGet? {
      assert StoreAfter(w, id, pc, m, libs, o) == w;
    }
  }

  lemma StepStoresRecorded(s: Setting, v: View, step: Step)
    ensures StoresRecorded(s, v.w, Next(s, v, step).w)
  {
    hide ApiCall, EnvNext, StoreAfter, AfterFinalizer;
    match step
    case Env(e) => EnvDisturbs(v.w, e);
    case Call(o) =>
      if v.pass.At? {
        var At(id, pc, m, libs) := v.pass;
        CallWrites(s, v.w, id, pc, m, libs, o);
        CallStoresRecorded(s, v.w, id, pc, m, libs, o);
        CallKeepsRecord(s, v.w, id, pc, m, libs, o);
      } else if v.pass.Begun? {
        if v.w.mon.Some? { AfterFinalizerReads(v.w, v.pass.id, v.w.mon.value, o.now); }
      }
    case _ =>
  }
}
