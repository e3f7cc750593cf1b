/** Transition times of the monitor's conditions. */
module Transitions {
  import opened Prelude
  import opened Api
  import opened Conditions
  import opened ConfigMaps
  import opened Compiler
  import opened Machine
  import opened Invariants
  import opened Safety

  /** Between two lists, a type that keeps its status keeps its transition time. */
  ghost predicate Steady(before: seq<Condition>, after: seq<Condition>) {
    forall kind :: SteadyAt(before, after, kind)
  }

  predicate SteadyAt(before: seq<Condition>, after: seq<Condition>, kind: string) {
    var b, a := Lookup(before, kind), Lookup(after, kind);
    b != [] ==> a != [] && (a[0].status == b[0].status ==> a[0].since == b[0].since)
  }

  ghost predicate Untouched(before: seq<Condition>, after: seq<Condition>, kinds: set<string>) {
    forall kind | kind in kinds :: Lookup(after, kind) == Lookup(before, kind)
  }

  /** The condition types a pass has yet to set. */
  function KindsLeft(pc: Pc): set<string> {
    match pc
    case GetSecret => {"DatabaseReachable", "ConfigGenerated", "Ready"}
    case GetLibrary => {"ConfigGenerated", "Ready"}
    case Build => {"ConfigGenerated", "Ready"}
    case ApplyConfigMap(_) => {"ConfigGenerated", "Ready"}
    case ApplyDeployment(_) => {"Ready"}
    case ApplyService(_) => {"Ready"}
    case ApplyServiceMonitor(_) => {"Ready"}
    case GetDeployment(_) => {"Ready"}
    case _ => {}
  }

  /** A pass's copy is steady against the stored status, and equal to it where the pass has
      yet to write. */
  ghost predicate CopySteady(stored: seq<Condition>, copy: seq<Condition>, kinds: set<string>) {
    IsMap(stored) && IsMap(copy) && Steady(stored, copy) && Untouched(stored, copy, kinds)
  }

  predicate CopiesStatus(pc: Pc) { !pc.RemoveFinalizer? && !pc.AddFinalizer? }

  ghost predicate SteadyPass(v: View) {
    v.pass.At? && CopiesStatus(v.pass.pc) ==>
      v.w.mon.Some? && CopySteady(v.w.mon.value.status.conditions, v.pass.mon.status.conditions, KindsLeft(v.pass.pc))
  }

  lemma CopyOfItself(cs: seq<Condition>, kinds: set<string>)
    requires IsMap(cs)
    ensures CopySteady(cs, cs, kinds)
  {}

  lemma SetIsSteady(stored: seq<Condition>, copy: seq<Condition>, kinds: set<string>, c: Condition)
    requires CopySteady(stored, copy, kinds) && c.kind in kinds
    ensures CopySteady(stored, Set(copy, c), kinds - {c.kind})
  {
    hide Lookup, Set;
    SetKeepsMap(copy, c);
    forall kind ensures SteadyAt(stored, Set(copy, c), kind)
                ensures kind != c.kind ==> Lookup(Set(copy, c), kind) == Lookup(copy, kind)
    {
      SetIsKeyedUpdate(copy, c, kind);
      assert SteadyAt(stored, copy, kind);
    }
  }

  lemma FewerKinds(stored: seq<Condition>, copy: seq<Condition>, more: set<string>, fewer: set<string>)
    requires CopySteady(stored, copy, more) && fewer <= more
    ensures CopySteady(stored, copy, fewer)
  {}

  lemma KindsDiffer()
    ensures "DatabaseReachable" != "ConfigGenerated" && "ConfigGenerated" != "Ready" && "Ready" != "DatabaseReachable"
  {
    assert "DatabaseReachable"[0] == 'D' && "ConfigGenerated"[0] == 'C' && "Ready"[0] == 'R';
  }

  const AFTER_CREDENTIALS := {"ConfigGenerated", "Ready"}

  lemma CredentialsMarkIsSteady(stored: seq<Condition>, copy: seq<Condition>, c: Condition)
    requires CopySteady(stored, copy, KindsLeft(GetSecret)) && c.kind == "DatabaseReachable"
    ensures CopySteady(stored, Set(copy, c), AFTER_CREDENTIALS)
  {
    hide CopySteady, Set;
    KindsDiffer();
    SetIsSteady(stored, copy, KindsLeft(GetSecret), c);
    FewerKinds(stored, Set(copy, c), KindsLeft(GetSecret) - {c.kind}, AFTER_CREDENTIALS);
  }

  lemma LastMarkIsSteady(stored: seq<Condition>, copy: seq<Condition>, kinds: set<string>, c: Condition)
    requires CopySteady(stored, copy, kinds) && c.kind == "Ready" && "Ready" in kinds
    ensures CopySteady(stored, Set(copy, c), {})
  {
    hide CopySteady, Set;
    SetIsSteady(stored, copy, kinds, c);
    FewerKinds(stored, Set(copy, c), kinds - {c.kind}, {});
  }

  lemma SecretNotFoundIsSteady(stored: seq<Condition>, copy: seq<Condition>, c: Condition, d: Condition)
    requires CopySteady(stored, copy, KindsLeft(GetSecret)) && c.kind == "Ready" && d.kind == "DatabaseReachable"
    ensures CopySteady(stored, Set(Set(copy, c), d), {})
  {
    hide CopySteady, Set;
    KindsDiffer();
    var once, kinds := Set(copy, c), KindsLeft(GetSecret) - {c.kind};
    SetIsSteady(stored, copy, KindsLeft(GetSecret), c);
    SetIsSteady(stored, once, kinds, d);
    FewerKinds(stored, Set(once, d), kinds - {d.kind}, {});
  }

  lemma SteadyAfterCredentials(w: World, id: nat, m: Monitor)
    requires w.mon.Some? && CopySteady(w.mon.value.status.conditions, m.status.conditions, AFTER_CREDENTIALS)
    ensures SteadyPass(AfterCredentials(w, id, m))
  {
    hide CopySteady;
  }

  lemma InlineIsSteady(m: Monitor, now: nat)
    requires IsMap(m.status.conditions)
    ensures CopySteady(m.status.conditions, InlineFound(m, now).status.conditions, AFTER_CREDENTIALS)
  {
    hide CopySteady, Set;
    CopyOfItself(m.status.conditions, KindsLeft(GetSecret));
    CredentialsMarkIsSteady(m.status.conditions, m.status.conditions,
      Condition("DatabaseReachable", true, "InlineCredentials", "Inline username/password configured",
                m.generation, now));
  }

  lemma NoCredentialsIsSteady(m: Monitor, now: nat)
    requires IsMap(m.status.conditions)
    ensures CopySteady(m.status.conditions, NoCredentials(m, now).status.conditions, {})
  {
    hide CopySteady, Set;
    CopyOfItself(m.status.conditions, KindsLeft(GetSecret));
    LastMarkIsSteady(m.status.conditions, m.status.conditions, KindsLeft(GetSecret),
      Condition("Ready", false, "NoCredentials",
                "spec.database has no inline username/password and no credentialsSecret", m.generation, now));
  }

  lemma SteadyAfterFinalizer(w: World, id: nat, m: Monitor, now: nat)
    requires w.mon == Some(m) && IsMap(m.status.conditions)
    ensures SteadyPass(AfterFinalizer(w, id, m, now))
  {
    hide CopySteady, InlineFound, NoCredentials, AfterCredentials;
    if m.spec.database.Inline() {
      InlineIsSteady(m, now);
      SteadyAfterCredentials(w, id, InlineFound(m, now));
    } else if m.spec.database.credentialsSecret.Some? {
      CopyOfItself(m.status.conditions, KindsLeft(GetSecret));
    } else {
      NoCredentialsIsSteady(m, now);
    }
  }

  lemma CopyHolds(s: Setting, w: World, id: nat, pc: Pc, m: Monitor, libs: seq<Library>)
    requires AtOk(s, w, id, pc, m, libs) && CopiesStatus(pc)
    ensures Holds(w, m)
  {
    hide Progress;
  }

  lemma GetSecretIsSteady(w: World, id: nat, m: Monitor, o: Outcome)
    requires SteadyPass(View(w, At(id, GetSecret, m, [])))
    ensures SteadyPass(GetSecretCall(w, id, m, o))
  {
    hide CopySteady, Set, AfterCredentials;
    var cs, copy := w.mon.value.status.conditions, m.status.conditions;
    var secret := if m.spec.database.credentialsSecret.Some? then m.spec.database.credentialsSecret.value.name else "";
    if o.Ok() && secret in w.secrets {
      CredentialsMarkIsSteady(cs, copy, Condition("DatabaseReachable", true, "CredentialsFound",
                                                  "Credentials secret " + secret + " exists", m.generation, o.now));
      SteadyAfterCredentials(w, id, SecretFound(m, secret, o.now));
    } else {
      SecretNotFoundIsSteady(cs, copy,
        Condition("Ready", false, "SecretNotFound", "Secret " + secret + " not found", m.generation, o.now),
        Condition("DatabaseReachable", false, "SecretNotFound", "Credentials secret " + secret + " not found",
                  m.generation, o.now));
    }
  }

  lemma GetLibraryIsSteady(w: World, id: nat, m: Monitor, libs: seq<Library>, o: Outcome)
    requires SteadyPass(View(w, At(id, GetLibrary, m, libs)))
    ensures SteadyPass(GetLibraryCall(w, id, m, libs, o))
  {
    hide CopySteady, Set;
    var refs := m.spec.metrics.fromLibraries;
    if |libs| < |refs| {
      LastMarkIsSteady(w.mon.value.status.conditions, m.status.conditions, AFTER_CREDENTIALS,
        Condition("Ready", false, "LibraryResolveFailed", "library " + refs[|libs|], m.generation, o.now));
    }
  }

  lemma ApplyConfigMapIsSteady(
    s: Setting, w: World, id: nat, b: Built, m: Monitor, libs: seq<Library>, o: Outcome)
    requires SteadyPass(View(w, At(id, ApplyConfigMap(b), m, libs)))
    ensures SteadyPass(ApplyConfigMapCall(s, w, id, b, m, libs, o))
  {
    hide CopySteady, Set;
    KindsDiffer();
    var cs, copy := w.mon.value.status.conditions, m.status.conditions;
    var c := Condition("ConfigGenerated", true, "ConfigMapUpdated",
                       "ConfigMap " + Labels.ConfigMapName(s.key.name) + " up to date (hash=" + b.hash[..12] + ")",
                       m.generation, o.now);
    SetIsSteady(cs, copy, AFTER_CREDENTIALS, c);
    FewerKinds(cs, Set(copy, c), AFTER_CREDENTIALS - {c.kind}, {"Ready"});
  }

  lemma GetDeploymentIsSteady(w: World, id: nat, b: Built, m: Monitor, libs: seq<Library>, o: Outcome)
    requires SteadyPass(View(w, At(id, GetDeployment(b), m, libs)))
    ensures SteadyPass(GetDeploymentCall(w, id, m, libs, o))
  {
    hide CopySteady, Set;
    var c := if w.podsReady then
               Condition("Ready", true, "PodRunning", "pgwatch pod running and scraping", m.generation, o.now)
             else Condition("Ready", false, "PodNotReady", "pgwatch pod is not ready yet", m.generation, o.now);
    LastMarkIsSteady(w.mon.value.status.conditions, m.status.conditions, {"Ready"}, c);
  }

  lemma AddFinalizerIsSteady(w: World, id: nat, m: Monitor, o: Outcome)
    requires MonitorOk(w)
    ensures SteadyPass(AddFinalizerCall(w, id, m, o))
  {
    hide AfterFinalizer, CopySteady;
    var after := FinalizersWritten(w, m, m.finalizers + [FINALIZER], o);
    if o.Ok() && UpdateLands(w, m) && after.mon.Some? {
      SteadyAfterFinalizer(after, id, after.mon.value, o.now);
    }
  }

  /** The calls that set no condition. */
  lemma PlainCallIsSteady(s: Setting, w: World, id: nat, pc: Pc, m: Monitor, libs: seq<Library>, o: Outcome)
    requires SteadyPass(View(w, At(id, pc, m, libs)))
    requires !pc.GetSecret? && !pc.GetLibrary? && !pc.ApplyConfigMap? && !pc.GetDeployment? && !pc.AddFinalizer?
    ensures SteadyPass(ApiCall(s, w, id, pc, m, libs, o))
  {
    hide CopySteady, AddFinalizerCall, GetSecretCall, GetLibraryCall, ApplyConfigMapCall, GetDeploymentCall;
    hide FinalizersWritten;
  }

  lemma CallKeepsSteady(s: Setting, w: World, id: nat, pc: Pc, m: Monitor, libs: seq<Library>, o: Outcome)
    requires MonitorOk(w) && AtOk(s, w, id, pc, m, libs) && SteadyPass(View(w, At(id, pc, m, libs)))
    ensures SteadyPass(ApiCall(s, w, id, pc, m, libs, o))
  {
    if pc.GetSecret? {
      assert libs == [];
      hide SteadyPass, GetSecretCall;
      GetSecretIsSteady(w, id, m, o);
    } else if pc.GetLibrary? {
      hide SteadyPass, GetLibraryCall;
      GetLibraryIsSteady(w, id, m, libs, o);
    } else if pc.ApplyConfigMap? {
      hide SteadyPass, ApplyConfigMapCall;
      ApplyConfigMapIsSteady(s, w, id, pc.b, m, libs, o);
    } else if pc.GetDeployment? {
      hide SteadyPass, GetDeploymentCall;
      GetDeploymentIsSteady(w, id, pc.b, m, libs, o);
    } else if pc.AddFinalizer? {
      hide SteadyPass, AddFinalizerCall;
      AddFinalizerIsSteady(w, id, m, o);
    } else {
      hide SteadyPass, ApiCall, AtOk, MonitorOk;
      PlainCallIsSteady(s, w, id, pc, m, libs, o);
    }
  }

  lemma StepKeepsSteady(s: Setting, v: View, step: Step)
    requires Inv(s, v) && SteadyPass(v)
    ensures SteadyPass(Next(s, v, step))
  {
    if v.pass.At? {
      var At(id, pc, m, libs) := v.pass;
      if step.Call? {
        hide SteadyPass, ApiCall, WakeOk;
        CallKeepsSteady(s, v.w, id, pc, m, libs, step.o);
      } else if step.Env? && CopiesStatus(pc) {
        hide CopySteady, EnvNext, WakeOk, StoreOk;
        CopyHolds(s, v.w, id, pc, m, libs);
        EnvKeepsHolds(v.w, step.e, m);
      } else {
        hide CopySteady, Inv;
      }
    } else if v.pass.Begun? && step.Call? {
      hide AfterFinalizer, CopySteady, WakeOk, SlotsOk, TruthOk, PipelineOk;
      if v.w.mon.Some? { SteadyAfterFinalizer(v.w, v.pass.id, v.w.mon.value, step.o.now); }
    } else {
      hide CopySteady, Inv, EnvNext;
    }
  }

  lemma {:induction false} EveryPassIsSteady(s: Setting, trace: seq<View>, steps: seq<Step>, i: nat)
    requires IsRun(s, trace, steps) && Init(trace[0]) && i <= |steps|
    ensures SteadyPass(trace[i])
  {
    if i > 0 {
      hide Inv, Next, SteadyPass;
      EveryPassIsSteady(s, trace, steps, i - 1);
      EveryStateIsGood(s, trace, steps, i - 1);
      assert Took(s, trace, steps, i - 1);
      StepKeepsSteady(s, trace[i - 1], steps[i - 1]);
    }
  }

  lemma SteadyOfItself(cs: seq<Condition>)
    ensures Steady(cs, cs)
  {}

  /** In every run, while an incarnation lives: its conditions are a map, no type disappears,
      and the transition time of a type moves only in a step that flips its status. */
  lemma TransitionTimesAreHonest(s: Setting, trace: seq<View>, steps: seq<Step>, i: nat)
    requires IsRun(s, trace, steps) && Init(trace[0]) && i < |steps|
    requires SameIncarnation(trace[i].w, trace[i + 1].w)
    ensures IsMap(trace[i + 1].w.mon.value.status.conditions)
    ensures Steady(trace[i].w.mon.value.status.conditions, trace[i + 1].w.mon.value.status.conditions)
  {
    hide Next, Steady;
    EveryStateIsGood(s, trace, steps, i);
    EveryStateIsGood(s, trace, steps, i + 1);
    EveryPassIsSteady(s, trace, steps, i);
    assert Took(s, trace, steps, i);
    SteadyOfItself(trace[i].w.mon.value.status.conditions);
    if steps[i].Env? {
      NextOfEnv(s, trace[i], steps[i].e);
      EnvEditsAreNarrow(trace[i].w, steps[i].e);
    } else {
      PassWritesAreNarrow(s, trace[i], steps[i]);
    }
  }

  lemma NextOfEnv(s: Setting, v: View, e: EnvStep)
    ensures Next(s, v, Env(e)).w == EnvNext(v.w, e)
  {
    hide EnvNext;
  }
}
