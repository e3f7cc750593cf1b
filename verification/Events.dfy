/** Readiness events, and how long a pass can take. */
module Events {
  import opened Prelude
  import opened Api
  import opened Conditions
  import opened ConfigMaps
  import opened Compiler
  import opened Machine
  import opened Invariants
  import opened Safety

  // ---- PodRunning and PodNotReady alternate ----

  /** The readiness the events tell: `None` once the strict alternation, which starts with
      PodRunning, has been broken. */
  function Told(events: seq<string>): Option<bool> {
    if events == [] then Some(false) else
      var before, e := Told(events[..|events| - 1]), events[|events| - 1];
      if before.None? then None
      else if e == "PodRunning" then (if before.value then None else Some(true))
      else if e == "PodNotReady" then (if before.value then Some(false) else None)
      else before
  }

  lemma ToldAfter(events: seq<string>, e: string)
    ensures Told(events + [e]) ==
            match Told(events)
            case None => None
            case Some(r) =>
              if e == "PodRunning" then (if r then None else Some(true))
              else if e == "PodNotReady" then (if r then Some(false) else None)
              else Some(r)
  {
    assert (events + [e])[..|events|] == events;
  }

  lemma NeutralEvents(w: World)
    ensures Told(Emit(w, "SecretNotFound").audit.events) == Told(w.audit.events)
    ensures Told(Emit(w, "LibraryResolveFailed").audit.events) == Told(w.audit.events)
    ensures Told(Emit(w, "ConfigMapUpdated").audit.events) == Told(w.audit.events)
  {
    ToldAfter(w.audit.events, "SecretNotFound");
    ToldAfter(w.audit.events, "LibraryResolveFailed");
    ToldAfter(w.audit.events, "ConfigMapUpdated");
  }

  /** The `ready` a pass is about to write, between step 7 and its status write. */
  function Pending(v: View): Option<bool> {
    if v.pass.At? && IsFinal(v.pass.pc) then Some(v.pass.mon.status.ready) else None
  }

  /** The step at which step 7 records a readiness event. */
  predicate TellsReadiness(v: View, step: Step) {
    && v.pass.At? && v.pass.pc.GetDeployment? && step.Call? && step.o.Ok()
    && v.w.dep.obj.Some? && v.w.podsReady != v.pass.mon.status.ready
  }

  /** The step loses a status write that would have changed the stored `ready`. */
  predicate LosesFlip(v: View, step: Step) {
    && v.w.mon.Some? && Pending(v) == Some(!v.w.mon.value.status.ready)
    && match step
       case Crash => true
       case Call(o) =>
         if v.pass.pc.PatchUpdate? then
           o.reply.Refused? || (!UpdateLands(v.w, v.pass.pc.latest) && (!o.Ok() || v.pass.pc.tries <= 1))
         else !o.Ok()
       case _ => false
  }

  /** All a step does to the told, the stored and the pending readiness of an incarnation. */
  ghost predicate Effect(v: View, step: Step, u: View)
    requires v.w.mon.Some? && u.w.mon.Some?
  {
    var told, stored, pending := Told(v.w.audit.events), v.w.mon.value.status.ready, Pending(v);
    var told', stored', pending' := Told(u.w.audit.events), u.w.mon.value.status.ready, Pending(u);
    if TellsReadiness(v, step) then
      && pending.None? && pending' == Some(!stored) && stored' == stored
      && told' == if told == Some(stored) then Some(!stored) else None
    else if LosesFlip(v, step) then
      pending'.None? && stored' == stored && told' == told
    else
      && told' == told
      && (pending'.Some? ==> stored' == stored && (pending' == pending || (pending.None? && pending'.value == stored)))
      && (pending'.None? && pending.None? ==> stored' == stored)
      && (pending'.None? && pending.Some? ==> stored' == pending.value)
  }

  lemma EnvKeepsHistory(w: World, e: EnvStep)
    ensures w.mon.Some? ==> EnvNext(w, e).audit.events == w.audit.events
    ensures w.mon.Some? && EnvNext(w, e).mon.Some? ==> EnvNext(w, e).mon.value.status == w.mon.value.status
    ensures w.mon.None? && EnvNext(w, e).mon.Some? ==>
              EnvNext(w, e).audit.events == [] && !EnvNext(w, e).mon.value.status.ready
  {}

  lemma FinalizerEffect(s: Setting, w: World, id: nat, pc: Pc, m: Monitor, libs: seq<Library>, o: Outcome)
    requires pc.RemoveFinalizer? || pc.AddFinalizer?
    requires w.mon.Some? && ApiCall(s, w, id, pc, m, libs, o).w.mon.Some?
    ensures Effect(View(w, At(id, pc, m, libs)), Call(o), ApiCall(s, w, id, pc, m, libs, o))
  {
    hide Told, InlineFound, NoCredentials, WithoutOurs, HasOurs;
  }

  lemma NeutralEffect(s: Setting, w: World, id: nat, pc: Pc, m: Monitor, libs: seq<Library>, o: Outcome)
    requires pc.GetSecret? || pc.GetLibrary? || pc.Build? || pc.ApplyConfigMap?
    requires w.mon.Some?
    ensures Effect(View(w, At(id, pc, m, libs)), Call(o), ApiCall(s, w, id, pc, m, libs, o))
  {
    hide Told, Emit, SecretFound, SecretNotFound, LibraryMissing, ConfigStored;
    hide RemoveFinalizerCall, AddFinalizerCall, ApplyDeploymentCall, ApplyServiceCall, ApplyServiceMonitorCall;
    hide GetDeploymentCall, PatchGetCall, PatchUpdateCall;
    EmitIsAudit(w, "SecretNotFound");
    EmitIsAudit(w, "LibraryResolveFailed");
    NeutralEvents(w);
    if pc.ApplyConfigMap? {
      var after := ConfigMapWritten(w, Stamp(id, m.spec, libs, pc.b), pc.b, o);
      EmitIsAudit(after, "ConfigMapUpdated");
      NeutralEvents(after);
    }
  }

  lemma ApplyEffect(s: Setting, w: World, id: nat, pc: Pc, m: Monitor, libs: seq<Library>, o: Outcome)
    requires pc.ApplyDeployment? || pc.ApplyService? || pc.ApplyServiceMonitor?
    requires w.mon.Some?
    ensures Effect(View(w, At(id, pc, m, libs)), Call(o), ApiCall(s, w, id, pc, m, libs, o))
  {
    hide Told, RemoveFinalizerCall, AddFinalizerCall, GetSecretCall, GetLibraryCall, BuildCall, ApplyConfigMapCall;
    hide GetDeploymentCall, PatchGetCall, PatchUpdateCall;
  }

  lemma ObservationEffect(s: Setting, w: World, id: nat, b: Built, m: Monitor, libs: seq<Library>, o: Outcome)
    requires w.mon.Some? && m.status.ready == w.mon.value.status.ready
    ensures Effect(View(w, At(id, GetDeployment(b), m, libs)), Call(o), GetDeploymentCall(w, id, m, libs, o))
  {
    hide Told, Mark;
    ToldAfter(w.audit.events, "PodRunning");
    ToldAfter(w.audit.events, "PodNotReady");
    ObservedReadiness(m, w.podsReady, o.now);
  }

  lemma ObservedReadiness(m: Monitor, ready: bool, now: nat)
    ensures Observed(m, ready, now).status.ready == ready
  {
    hide Set;
  }

  lemma PatchEffect(s: Setting, w: World, id: nat, pc: Pc, m: Monitor, libs: seq<Library>, o: Outcome)
    requires pc.PatchGet? || pc.PatchUpdate?
    requires w.mon.Some? && (!pc.final ==> m.status.ready == w.mon.value.status.ready)
    ensures ApiCall(s, w, id, pc, m, libs, o).w.mon.Some?
    ensures Effect(View(w, At(id, pc, m, libs)), Call(o), ApiCall(s, w, id, pc, m, libs, o))
  {
    hide Told, RemoveFinalizerCall, AddFinalizerCall, GetSecretCall, GetLibraryCall, BuildCall, ApplyConfigMapCall;
    hide ApplyDeploymentCall, ApplyServiceCall, ApplyServiceMonitorCall, GetDeploymentCall;
  }

  lemma CallEffect(s: Setting, w: World, id: nat, pc: Pc, m: Monitor, libs: seq<Library>, o: Outcome)
    requires AtOk(s, w, id, pc, m, libs) && w.mon.Some? && ApiCall(s, w, id, pc, m, libs, o).w.mon.Some?
    ensures Effect(View(w, At(id, pc, m, libs)), Call(o), ApiCall(s, w, id, pc, m, libs, o))
  {
    hide ApiCall, Effect, Progress;
    match pc
    case RemoveFinalizer => FinalizerEffect(s, w, id, pc, m, libs, o);
    case AddFinalizer => FinalizerEffect(s, w, id, pc, m, libs, o);
    case GetSecret => NeutralEffect(s, w, id, pc, m, libs, o);
    case GetLibrary => NeutralEffect(s, w, id, pc, m, libs, o);
    case Build => NeutralEffect(s, w, id, pc, m, libs, o);
    case ApplyConfigMap(_) => NeutralEffect(s, w, id, pc, m, libs, o);
    case ApplyDeployment(_) => ApplyEffect(s, w, id, pc, m, libs, o);
    case ApplyService(_) => ApplyEffect(s, w, id, pc, m, libs, o);
    case ApplyServiceMonitor(_) => ApplyEffect(s, w, id, pc, m, libs, o);
    case GetDeployment(b) =>
      ObservationEffect(s, w, id, b, m, libs, o);
      ApiCallIsObservation(s, w, id, b, m, libs, o);
    case PatchGet(_, _) => PatchEffect(s, w, id, pc, m, libs, o);
    case PatchUpdate(_, _, _) => PatchEffect(s, w, id, pc, m, libs, o);
  }

  lemma ApiCallIsObservation(s: Setting, w: World, id: nat, b: Built, m: Monitor, libs: seq<Library>, o: Outcome)
    ensures ApiCall(s, w, id, GetDeployment(b), m, libs, o) == GetDeploymentCall(w, id, m, libs, o)
  {
    hide GetDeploymentCall;
  }

  lemma StepEffect(s: Setting, v: View, step: Step)
    requires Inv(s, v) && v.w.mon.Some? && Next(s, v, step).w.mon.Some?
    ensures Effect(v, step, Next(s, v, step))
  {
    hide StoreOk, WakeOk, AtOk, ApiCall, EnvNext, Told;
    match step
    case Env(e) => EnvKeepsHistory(v.w, e);
    case Call(o) =>
      if v.pass.At? {
        hide Effect;
        CallEffect(s, v.w, v.pass.id, v.pass.pc, v.pass.mon, v.pass.libs, o);
      } else {
        hide InlineFound, NoCredentials;
      }
    case _ =>
  }

  /** The events tell what is stored, or, between step 7 and its status write, what is about
      to be. */
  ghost predicate Abreast(v: View) {
    v.w.mon.Some? ==>
      Told(v.w.audit.events) == if Pending(v).Some? then Pending(v) else Some(v.w.mon.value.status.ready)
  }

  /** The events are one flip ahead of what is stored, and no write is coming. */
  ghost predicate Ahead(v: View) {
    && v.w.mon.Some? && Told(v.w.audit.events) == Some(!v.w.mon.value.status.ready)
    && (Pending(v).None? || Pending(v).value == v.w.mon.value.status.ready)
  }

  predicate Lives(v: View, uid: nat) { v.w.mon.Some? && v.w.mon.value.uid == uid }

  /** A flip of this incarnation was lost before moment `i`. */
  ghost predicate FlipLost(trace: seq<View>, steps: seq<Step>, i: nat, uid: nat)
    requires |trace| == |steps| + 1 && i <= |steps|
  {
    exists a | 0 <= a < i :: Lives(trace[a], uid) && LosesFlip(trace[a], steps[a])
  }

  /** And after that, still before `i`, a readiness event was recorded. */
  ghost predicate ToldAfterLoss(trace: seq<View>, steps: seq<Step>, i: nat, uid: nat)
    requires |trace| == |steps| + 1 && i <= |steps|
  {
    exists b | 0 <= b < i :: FlipLost(trace, steps, b, uid) && TellsReadiness(trace[b], steps[b])
  }

  /** Where the events of the incarnation stored at `i` stand, as the run's past decides. */
  ghost predicate StandsRight(trace: seq<View>, steps: seq<Step>, i: nat)
    requires |trace| == |steps| + 1 && i <= |steps|
  {
    trace[i].w.mon.Some? ==>
      var uid := trace[i].w.mon.value.uid;
      if ToldAfterLoss(trace, steps, i, uid) then Told(trace[i].w.audit.events).None?
      else if FlipLost(trace, steps, i, uid) then Ahead(trace[i])
      else Abreast(trace[i])
  }

  lemma PastGrows(trace: seq<View>, steps: seq<Step>, i: nat, uid: nat)
    requires |trace| == |steps| + 1 && i < |steps|
    ensures FlipLost(trace, steps, i + 1, uid) <==>
            FlipLost(trace, steps, i, uid) || (Lives(trace[i], uid) && LosesFlip(trace[i], steps[i]))
    ensures ToldAfterLoss(trace, steps, i + 1, uid) <==>
            || ToldAfterLoss(trace, steps, i, uid)
            || (FlipLost(trace, steps, i, uid) && TellsReadiness(trace[i], steps[i]))
  {
    hide LosesFlip, TellsReadiness;
  }

  /** One step of the same incarnation. */
  lemma StandingSteps(v: View, step: Step, u: View)
    requires v.w.mon.Some? && u.w.mon.Some? && Effect(v, step, u)
    ensures Told(v.w.audit.events).None? ==> Told(u.w.audit.events).None?
    ensures Ahead(v) ==> !LosesFlip(v, step)
    ensures Ahead(v) ==> if TellsReadiness(v, step) then Told(u.w.audit.events).None? else Ahead(u)
    ensures Abreast(v) ==> if LosesFlip(v, step) then Ahead(u) else Abreast(u)
    ensures TellsReadiness(v, step) ==> !LosesFlip(v, step)
  {
    hide Told;
  }

  /** A new incarnation starts with no events, under a uid nobody has had. */
  lemma Birth(s: Setting, v: View, step: Step)
    requires Inv(s, v) && v.w.mon.None? && Next(s, v, step).w.mon.Some?
    ensures Abreast(Next(s, v, step)) && Next(s, v, step).w.mon.value.uid > v.w.versions
  {
    if step.Env? {
      hide StoreOk, WakeOk, Progress;
      EnvKeepsHistory(v.w, step.e);
    } else {
      hide Inv, Next;
      PassWritesAreNarrow(s, v, step);
    }
  }

  lemma {:induction false} VersionsGrowOver(s: Setting, trace: seq<View>, steps: seq<Step>, i: nat, j: nat)
    requires IsRun(s, trace, steps) && Init(trace[0]) && i <= j <= |steps|
    ensures trace[i].w.versions <= trace[j].w.versions
  {
    hide Inv, Next;
    if i < j {
      VersionsGrowOver(s, trace, steps, i, j - 1);
      EveryStateIsGood(s, trace, steps, j - 1);
      assert Took(s, trace, steps, j - 1);
      VersionsGrow(s, trace[j - 1], steps[j - 1]);
    }
  }

  lemma NewUidIsNew(s: Setting, trace: seq<View>, steps: seq<Step>, i: nat, uid: nat)
    requires IsRun(s, trace, steps) && Init(trace[0]) && i <= |steps| && uid > trace[i].w.versions
    ensures forall a | 0 <= a <= i :: !Lives(trace[a], uid)
  {
    forall a | 0 <= a <= i ensures !Lives(trace[a], uid) {
      UidsAreOk(s, trace, steps, a);
      VersionsGrowOver(s, trace, steps, a, i);
    }
  }

  lemma {:induction false} EventsStandRight(s: Setting, trace: seq<View>, steps: seq<Step>, i: nat)
    requires IsRun(s, trace, steps) && Init(trace[0]) && i <= |steps|
    ensures StandsRight(trace, steps, i)
  {
    hide Inv, Next, Told, Effect, FlipLost, ToldAfterLoss, LosesFlip, TellsReadiness, Ahead, Abreast;
    if i > 0 {
      var v, step, u := trace[i - 1], steps[i - 1], trace[i];
      EventsStandRight(s, trace, steps, i - 1);
      EveryStateIsGood(s, trace, steps, i - 1);
      assert Took(s, trace, steps, i - 1);
      if u.w.mon.Some? {
        var uid := u.w.mon.value.uid;
        PastGrows(trace, steps, i - 1, uid);
        if v.w.mon.None? {
          Birth(s, v, step);
          NewUidIsNew(s, trace, steps, i - 1, uid);
          NothingLostYet(trace, steps, i - 1, uid);
        } else {
          SurvivorIsSame(s, v, step);
          StepEffect(s, v, step);
          StandingSteps(v, step, u);
        }
      }
    }
  }

  lemma NothingLostYet(trace: seq<View>, steps: seq<Step>, i: nat, uid: nat)
    requires |trace| == |steps| + 1 && i <= |steps| && forall a | 0 <= a <= i :: !Lives(trace[a], uid)
    ensures !FlipLost(trace, steps, i, uid) && !ToldAfterLoss(trace, steps, i, uid)
  {}

  lemma SurvivorIsSame(s: Setting, v: View, step: Step)
    requires Inv(s, v) && v.w.mon.Some? && Next(s, v, step).w.mon.Some?
    ensures v.w.mon.value.uid == Next(s, v, step).w.mon.value.uid
  {
    if step.Env? {
      hide Inv;
    } else {
      hide Inv, Next;
      PassWritesAreNarrow(s, v, step);
    }
  }

  /** In every run the readiness events of an incarnation strictly alternate, starting with
      PodRunning, unless a status write that follows step 7 and would have flipped `ready` was
      lost and another readiness event came after it. Exactly then they do not. */
  lemma ReadinessAlternatesIff(s: Setting, trace: seq<View>, steps: seq<Step>, i: nat)
    requires IsRun(s, trace, steps) && Init(trace[0]) && i <= |steps| && trace[i].w.mon.Some?
    ensures Told(trace[i].w.audit.events).None? <==>
            ToldAfterLoss(trace, steps, i, trace[i].w.mon.value.uid)
  {
    hide Told, FlipLost, ToldAfterLoss;
    EventsStandRight(s, trace, steps, i);
  }

  /** In particular they alternate in every run that loses no such write. */
  lemma ReadinessAlternates(s: Setting, trace: seq<View>, steps: seq<Step>, i: nat)
    requires IsRun(s, trace, steps) && Init(trace[0]) && i <= |steps| && trace[i].w.mon.Some?
    requires forall k | 0 <= k < i :: !LosesFlip(trace[k], steps[k])
    ensures Told(trace[i].w.audit.events).Some?
  {
    hide Told, LosesFlip;
    ReadinessAlternatesIff(s, trace, steps, i);
  }

  // ---- a run in which they do not alternate ----

  const GRANTED := Outcome(Accepted, 0, false, None)

  lemma Extend(s: Setting, trace: seq<View>, steps: seq<Step>, step: Step)
    returns (longer: seq<View>, more: seq<Step>)
    requires IsRun(s, trace, steps)
    ensures IsRun(s, longer, more) && longer[0] == trace[0]
    ensures longer[|more|] == Next(s, trace[|steps|], step)
  {
    hide Next;
    longer, more := trace + [Next(s, trace[|steps|], step)], steps + [step];
    forall i | 0 <= i < |more| ensures Took(s, longer, more, i) {
      if i < |steps| { assert Took(s, trace, steps, i); }
    }
  }

  /** A live monitor that is not ready, with so much told. */
  ghost predicate MonitorAwaits(w: World, spec: MonitorSpec, told: bool) {
    && w.mon.Some? && w.mon.value.spec == spec && w.mon.value.finalizers == [FINALIZER] && !w.mon.value.deleting
    && !w.mon.value.status.ready && Told(w.audit.events) == Some(told)
  }

  /** A pass for such a monitor, about to make a call. */
  ghost predicate Midway(v: View, pc: Pc, spec: MonitorSpec, told: bool) {
    && v.pass.At? && v.pass.pc == pc && v.pass.mon.spec == spec && v.pass.libs == [] && !v.pass.mon.status.ready
    && MonitorAwaits(v.w, spec, told)
  }

  /** From a queued key to the build. */
  lemma WalkToBuild(s: Setting, trace: seq<View>, steps: seq<Step>, spec: MonitorSpec, told: bool)
    returns (longer: seq<View>, more: seq<Step>)
    requires IsRun(s, trace, steps) && spec.database.Inline() && spec.metrics.fromLibraries == []
    requires trace[|steps|].pass.Idle? && trace[|steps|].w.dirty && MonitorAwaits(trace[|steps|].w, spec, told)
    ensures IsRun(s, longer, more) && longer[0] == trace[0] && Midway(longer[|more|], Build, spec, told)
    ensures longer[|more|].w.podsReady == trace[|steps|].w.podsReady
  {
    hide Told, Set, Took;
    longer, more := Extend(s, trace, steps, Take);
    longer, more := Extend(s, longer, more, Call(GRANTED));
  }

  /** From the build past the ConfigMap. */
  lemma WalkToDeployment(s: Setting, trace: seq<View>, steps: seq<Step>, spec: MonitorSpec, told: bool, b: Built)
    returns (longer: seq<View>, more: seq<Step>)
    requires IsRun(s, trace, steps) && Midway(trace[|steps|], Build, spec, told) && s.builds(spec, [], Some(b))
    ensures IsRun(s, longer, more) && longer[0] == trace[0]
    ensures Midway(longer[|more|], ApplyDeployment(b), spec, told)
    ensures longer[|more|].w.podsReady == trace[|steps|].w.podsReady
  {
    hide Told, Set, Took, Emit;
    var v := trace[|steps|];
    var stored := ConfigMapWritten(v.w, Stamp(v.pass.id, spec, [], b), b, GRANTED);
    NeutralEvents(stored);
    EmitIsAudit(stored, "ConfigMapUpdated");
    longer, more := Extend(s, trace, steps, Call(GRANTED.(built := Some(b))));
    longer, more := Extend(s, longer, more, Call(GRANTED));
  }

  /** From there to step 7. */
  lemma WalkToReport(s: Setting, trace: seq<View>, steps: seq<Step>, spec: MonitorSpec, told: bool, b: Built)
    returns (longer: seq<View>, more: seq<Step>)
    requires IsRun(s, trace, steps) && Midway(trace[|steps|], ApplyDeployment(b), spec, told)
    requires b.deployment.Some? && !s.serviceMonitorEnabled
    ensures IsRun(s, longer, more) && longer[0] == trace[0]
    ensures Midway(longer[|more|], GetDeployment(b), spec, told) && longer[|more|].w.dep.obj.Some?
    ensures longer[|more|].w.podsReady == trace[|steps|].w.podsReady
  {
    hide Told, Took;
    longer, more := Extend(s, trace, steps, Call(GRANTED));
    longer, more := Extend(s, longer, more, Call(GRANTED));
  }

  /** Step 7 finds the pods ready. */
  lemma WalkToTold(s: Setting, trace: seq<View>, steps: seq<Step>, spec: MonitorSpec, told: bool, b: Built)
    returns (longer: seq<View>, more: seq<Step>)
    requires IsRun(s, trace, steps)
    requires Midway(trace[|steps|], GetDeployment(b), spec, told)
    requires trace[|steps|].w.dep.obj.Some? && trace[|steps|].w.podsReady
    ensures IsRun(s, longer, more) && longer[0] == trace[0] && longer[|more|].w.podsReady
    ensures !told ==> MonitorAwaits(longer[|more|].w, spec, true)
    ensures told ==> longer[|more|].w.mon.Some? && Told(longer[|more|].w.audit.events).None?
  {
    hide Told, Mark, Took;
    ToldAfter(trace[|steps|].w.audit.events, "PodRunning");
    longer, more := Extend(s, trace, steps, Call(GRANTED));
  }

  /** The condition of `ReadinessAlternatesIff` is met by a run: the operator crashes between
      step 7 and its status write, and the next pass tells PodRunning again. */
  lemma SomeRunRepeats(s: Setting, spec: MonitorSpec, b: Built) returns (trace: seq<View>, steps: seq<Step>)
    requires spec.database.Inline() && spec.metrics.fromLibraries == []
    requires s.builds(spec, [], Some(b)) && b.deployment.Some? && !s.serviceMonitorEnabled
    ensures IsRun(s, trace, steps) && Init(trace[0])
    ensures trace[|steps|].w.mon.Some? && Told(trace[|steps|].w.audit.events).None?
  {
    hide IsRun, Told;
    trace, steps := Genesis(s, spec);
    trace, steps := WalkToBuild(s, trace, steps, spec, false);
    trace, steps := WalkToDeployment(s, trace, steps, spec, false, b);
    trace, steps := WalkToReport(s, trace, steps, spec, false, b);
    trace, steps := WalkToTold(s, trace, steps, spec, false, b);
    trace, steps := Extend(s, trace, steps, Crash);
    trace, steps := WalkToBuild(s, trace, steps, spec, true);
    trace, steps := WalkToDeployment(s, trace, steps, spec, true, b);
    trace, steps := WalkToReport(s, trace, steps, spec, true, b);
    trace, steps := WalkToTold(s, trace, steps, spec, true, b);
  }

  /** The pods, left by an earlier incarnation, are ready; a monitor is created. */
  lemma Genesis(s: Setting, spec: MonitorSpec) returns (trace: seq<View>, steps: seq<Step>)
    ensures IsRun(s, trace, steps) && Init(trace[0])
    ensures var u := trace[|steps|]; u.pass.Idle? && u.w.dirty && u.w.podsReady && MonitorAwaits(u.w, spec, false)
  {
    var nothing := World(None, 0, map[], {}, Slot(None, None, false), Slot(None, None, false), Slot(None, None, false),
                         Slot(None, None, false), true, false, false, Audit(0, 0, {}, {}, []));
    trace, steps := [View(nothing, Idle)], [];
    trace, steps := Extend(s, trace, steps, Env(Create(spec, [FINALIZER])));
  }

  // ---- warnings ----

  /** The troubleshooting page promises events on transitions only. That holds of the readiness
      events; a failed read of the Secret is told every time, while `DatabaseReachable` makes a
      transition only if it was absent or true. */
  lemma SecretWarningIsRepeated(w: World, id: nat, m: Monitor, o: Outcome)
    requires m.spec.database.credentialsSecret.Some? && IsMap(m.status.conditions)
    requires !(o.Ok() && m.spec.database.credentialsSecret.value.name in w.secrets)
    ensures var after := GetSecretCall(w, id, m, o);
            && after.w.audit.events == w.audit.events + ["SecretNotFound"]
            && after.pass.At?
            && var was, now := Lookup(m.status.conditions, "DatabaseReachable"),
                               Lookup(after.pass.mon.status.conditions, "DatabaseReachable");
               && |now| == 1 && !now[0].status
               && now[0].since == if was == [] || was[0].status then o.now else was[0].since
  {
    hide Set, Lookup;
    var name := m.spec.database.credentialsSecret.value.name;
    var c := Condition("Ready", false, "SecretNotFound", "Secret " + name + " not found", m.generation, o.now);
    var d := Condition("DatabaseReachable", false, "SecretNotFound", "Credentials secret " + name + " not found",
                       m.generation, o.now);
    assert c.kind != d.kind by { assert c.kind[0] == 'R' && d.kind[0] == 'D'; }
    SetKeepsMap(m.status.conditions, c);
    SetIsKeyedUpdate(m.status.conditions, c, d.kind);
    SetIsKeyedUpdate(Set(m.status.conditions, c), d, d.kind);
  }

  /** So is a failed read of a library, while `Ready` makes a transition only if it was absent
      or true. */
  lemma LibraryWarningIsRepeated(w: World, id: nat, m: Monitor, libs: seq<Library>, o: Outcome)
    requires IsMap(m.status.conditions) && |libs| < |m.spec.metrics.fromLibraries|
    requires !(o.Ok() && m.spec.metrics.fromLibraries[|libs|] in w.libs)
    ensures var after := GetLibraryCall(w, id, m, libs, o);
            && after.w.audit.events == w.audit.events + ["LibraryResolveFailed"]
            && after.pass.At?
            && var was, now := Lookup(m.status.conditions, "Ready"), Lookup(after.pass.mon.status.conditions, "Ready");
               && |now| == 1 && !now[0].status
               && now[0].since == if was == [] || was[0].status then o.now else was[0].since
  {
    hide Set, Lookup;
    var c := Condition("Ready", false, "LibraryResolveFailed", "library " + m.spec.metrics.fromLibraries[|libs|],
                       m.generation, o.now);
    SetIsKeyedUpdate(m.status.conditions, c, c.kind);
  }

  // ---- a pass ends ----

  /** API calls left to a pass, at most. */
  function CallsLeft(v: View): nat {
    match v.pass
    case Begun(_) => 19 + (if v.w.mon.Some? then |v.w.mon.value.spec.metrics.fromLibraries| else 0)
    case At(_, pc, m, libs) => CallsFrom(pc, |m.spec.metrics.fromLibraries|, |libs|)
    case _ => 0
  }

  function CallsFrom(pc: Pc, refs: nat, read: nat): nat {
    match pc
    case RemoveFinalizer => 1
    case AddFinalizer => 18 + refs
    case GetSecret => 17 + refs
    case GetLibrary => 16 + (if read < refs then refs - read else 1)
    case Build => 16
    case ApplyConfigMap(_) => 15
    case ApplyDeployment(_) => 14
    case ApplyService(_) => 13
    case ApplyServiceMonitor(_) => 12
    case GetDeployment(_) => 11
    case PatchGet(tries, _) => 2 * tries
    case PatchUpdate(tries, _, _) => if tries == 0 then 0 else 2 * tries - 1
  }

  lemma LeftAfterFinalizer(w: World, id: nat, m: Monitor, now: nat)
    ensures CallsLeft(AfterFinalizer(w, id, m, now)) <= 17 + |m.spec.metrics.fromLibraries|
  {
    hide Set;
  }

  lemma LeftAfterCredentials(w: World, id: nat, m: Monitor, secret: string, now: nat)
    ensures CallsLeft(AfterCredentials(w, id, SecretFound(m, secret, now))) <= 16 + |m.spec.metrics.fromLibraries|
  {
    hide Set;
  }

  lemma FinalizerUpdateKeepsSpec(w: World, m: Monitor, fs: seq<string>, o: Outcome)
    requires o.Ok() && UpdateLands(w, m) && FinalizersWritten(w, m, fs, o).mon.Some?
    ensures FinalizersWritten(w, m, fs, o).mon.value.spec == m.spec
  {}

  lemma AddFinalizerShrinks(w: World, id: nat, m: Monitor, o: Outcome)
    ensures CallsLeft(AddFinalizerCall(w, id, m, o)) <= 17 + |m.spec.metrics.fromLibraries|
  {
    hide AfterFinalizer, FinalizersWritten;
    var after := FinalizersWritten(w, m, m.finalizers + [FINALIZER], o);
    if o.Ok() && UpdateLands(w, m) && after.mon.Some? {
      FinalizerUpdateKeepsSpec(w, m, m.finalizers + [FINALIZER], o);
      LeftAfterFinalizer(after, id, after.mon.value, o.now);
    }
  }

  lemma GetSecretShrinks(w: World, id: nat, m: Monitor, o: Outcome)
    ensures CallsLeft(GetSecretCall(w, id, m, o)) <= 16 + |m.spec.metrics.fromLibraries|
  {
    hide AfterCredentials, SecretFound, SecretNotFound;
    var secret := if m.spec.database.credentialsSecret.Some? then m.spec.database.credentialsSecret.value.name else "";
    LeftAfterCredentials(w, id, m, secret, o.now);
    MarksKeepSpec(m, secret, o.now);
  }

  lemma MarksKeepSpec(m: Monitor, name: string, now: nat)
    ensures SecretNotFound(m, name, now).spec == m.spec && LibraryMissing(m, name, now).spec == m.spec
  {
    hide Set;
  }

  lemma GetLibraryShrinks(w: World, id: nat, m: Monitor, libs: seq<Library>, o: Outcome)
    requires |libs| < |m.spec.metrics.fromLibraries|
    ensures CallsLeft(GetLibraryCall(w, id, m, libs, o)) < 16 + |m.spec.metrics.fromLibraries| - |libs|
  {
    hide LibraryMissing;
  }

  lemma ApiCallShrinks(s: Setting, w: World, id: nat, pc: Pc, m: Monitor, libs: seq<Library>, o: Outcome)
    requires pc.GetLibrary? ==> |libs| < |m.spec.metrics.fromLibraries|
    requires pc.PatchGet? || pc.PatchUpdate? ==> pc.tries >= 1
    ensures CallsLeft(ApiCall(s, w, id, pc, m, libs, o)) < CallsLeft(View(w, At(id, pc, m, libs)))
  {
    hide AddFinalizerCall, GetSecretCall, GetLibraryCall, Mark, ConfigStored, Observed;
    hide FinalizersWritten, StatusWritten, ConfigMapWritten, DeploymentWritten, ServiceWritten, ServiceMonitorWritten;
    match pc {
      case AddFinalizer => AddFinalizerShrinks(w, id, m, o);
      case GetSecret => GetSecretShrinks(w, id, m, o);
      case GetLibrary => GetLibraryShrinks(w, id, m, libs, o);
      case _ =>
    }
  }

  lemma CallsAreDue(s: Setting, w: World, id: nat, pc: Pc, m: Monitor, libs: seq<Library>)
    requires AtOk(s, w, id, pc, m, libs)
    ensures pc.GetLibrary? ==> |libs| < |m.spec.metrics.fromLibraries|
    ensures pc.PatchGet? || pc.PatchUpdate? ==> pc.tries >= 1
  {
    hide Holds, Building, Patching;
  }

  /** Every call brings a pass closer to its end, whatever its reply and whatever others have
      written in between; the outside cannot push it back. */
  lemma CallsShrink(s: Setting, v: View, o: Outcome)
    requires Inv(s, v) && (v.pass.Begun? || v.pass.At?)
    ensures CallsLeft(Next(s, v, Call(o))) < CallsLeft(v)
  {
    hide StoreOk, WakeOk, AtOk, AfterFinalizer, ApiCall;
    if v.pass.Begun? {
      if v.w.mon.Some? { LeftAfterFinalizer(v.w, v.pass.id, v.w.mon.value, o.now); }
    } else {
      hide CallsLeft;
      CallsAreDue(s, v.w, v.pass.id, v.pass.pc, v.pass.mon, v.pass.libs);
      ApiCallShrinks(s, v.w, v.pass.id, v.pass.pc, v.pass.mon, v.pass.libs, o);
    }
  }

  function Calls(steps: seq<Step>): nat {
    if steps == [] then 0
    else Calls(steps[..|steps| - 1]) + (if steps[|steps| - 1].Call? then 1 else 0)
  }

  /** Under any interleaving with other writers a pass that is past its first read returns
      after a bounded number of its own calls; in particular patchStatus fetches and writes at
      most five times. */
  lemma {:induction false} PassEnds(s: Setting, v: View, steps: seq<Step>)
    requires Inv(s, v) && (v.pass.At? || v.pass.Returned?)
    requires forall step | step in steps :: step.Env? || step.Call?
    ensures var u := Run(s, v, steps);
            && (u.pass.At? || u.pass.Returned?)
            && (u.pass.At? ==> CallsLeft(u) + Calls(steps) <= CallsLeft(v))
    ensures Calls(steps) >= CallsLeft(v) ==> Run(s, v, steps).pass.Returned?
  {
    hide Inv;
    if steps != [] {
      var front, step := steps[..|steps| - 1], steps[|steps| - 1];
      assert forall x | x in front :: x in steps;
      PassEnds(s, v, front);
      RunKeepsInv(s, v, front);
      var u := Run(s, v, front);
      assert step in steps;
      if step.Call? {
        CallStaysInPass(s, u, step.o);
        if u.pass.At? { CallsShrink(s, u, step.o); }
      }
      hide Next;
      RunKeepsInv(s, v, steps);
    } else {
      hide Next;
    }
    CallsArePositive(s, Run(s, v, steps));
  }

  lemma CallStaysInPass(s: Setting, v: View, o: Outcome)
    requires v.pass.At? || v.pass.Returned?
    ensures var u := Next(s, v, Call(o)); u.pass.At? || u.pass.Returned?
  {
    hide Mark;
  }

  lemma CallsArePositive(s: Setting, v: View)
    requires Inv(s, v)
    ensures v.pass.At? ==> CallsLeft(v) >= 1
  {
    hide StoreOk, WakeOk, Holds, Progress, Building, Patching;
  }
}
