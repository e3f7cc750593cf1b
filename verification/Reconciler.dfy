/** The reconciler's procedures, statement by statement, with the outside let loose before
    every API call. Each is proved to walk the step machine: whatever it does is a run. */
module Reconciler {
  import opened Prelude
  import opened Api
  import opened Labels
  import opened Children
  import opened ConfigMaps
  import opened Compiler
  import opened Machine

  datatype Fetched<T> = Found(value: T) | NotFound | Unavailable

  datatype Written<T> = Updated(value: T) | Conflict | Gone | Failed

  class MonitorReconciler {
    const tk: Toolkit
    const key: Key
    const serviceMonitors: bool
    ghost const s: Setting
    var w: World                // the API objects, the queue and the event log
    ghost var pass: Pass        // where the machine's pass is
    ghost var origin: View
    ghost var trace: seq<Step>  // what has happened since `origin`

    constructor (tk: Toolkit, key: Key, serviceMonitors: bool, w: World)
      ensures Valid() && this.w == w && pass == Idle && trace == []
      ensures this.tk == tk && this.key == key && this.serviceMonitors == serviceMonitors
    {
      this.tk, this.key, this.serviceMonitors := tk, key, serviceMonitors;
      this.s := SettingOf(tk, key, serviceMonitors);
      this.w, this.pass, this.origin, this.trace := w, Idle, View(w, Idle), [];
    }

    ghost predicate Valid()
      reads this
    {
      s == SettingOf(tk, key, serviceMonitors) && View(w, pass) == Run(s, origin, trace)
    }

    /** Only the outside and this pass have moved since. */
    twostate predicate Walked()
      reads this
    {
      && Valid() && origin == old(origin)
      && old(trace) <= trace
      && forall i | |old(trace)| <= i < |trace| :: trace[i].Env? || trace[i].Call?
    }

    ghost method Record(step: Step)
      requires s == SettingOf(tk, key, serviceMonitors)
      requires View(w, pass) == Next(s, Run(s, origin, trace), step)
      modifies this`trace
      ensures Valid() && trace == old(trace) + [step]
    {
      trace := trace + [step];
      assert trace[..|trace| - 1] == old(trace);
    }

    /** Other writers act, any number of times. */
    method Yield()
      requires Valid()
      modifies this`w, this`trace
      ensures Walked()
    {
      var acts: seq<EnvStep> := *;
      for i := 0 to |acts|
        invariant Walked()
      {
        w := EnvNext(w, acts[i]);
        Record(Env(acts[i]));
      }
    }

    /** The machine makes the call the code has just made. */
    ghost method Advance(before: View, o: Outcome)
      requires s == SettingOf(tk, key, serviceMonitors)
      requires before == Run(s, origin, trace) && before.pass == pass
      requires w == Next(s, before, Call(o)).w
      modifies this`trace, this`pass
      ensures Valid() && trace == old(trace) + [Call(o)]
      ensures pass == Next(s, before, Call(o)).pass
    {
      pass := Next(s, before, Call(o)).pass;
      Record(Call(o));
    }

    method RecordEvent(reason: string)
      modifies this`w
      ensures w == Emit(old(w), reason)
    {
      w := w.(audit := w.audit.(events := w.audit.events + [reason]));
    }

    // ---- the API server; `before` is the moment the call arrives ----

    method GetMonitor() returns (r: Fetched<Monitor>, o: Outcome, ghost before: View)
      requires Valid()
      modifies this`w, this`trace
      ensures Walked() && before == View(w, pass)
      ensures r == if !o.Ok() then Unavailable else if w.mon.None? then NotFound else Found(w.mon.value)
    {
      Yield();
      o := *;
      before := View(w, pass);
      if !o.Ok() {
        r := Unavailable;
      } else if w.mon.None? {
        r := NotFound;
      } else {
        r := Found(w.mon.value);
      }
    }

    method UpdateMonitor(m: Monitor, fs: seq<string>)
      returns (r: Written<Monitor>, o: Outcome, ghost before: View)
      requires Valid()
      modifies this`w, this`trace
      ensures origin == old(origin) && old(trace) <= trace && before == Run(s, origin, trace) && before.pass == pass
      ensures forall i | |old(trace)| <= i < |trace| :: trace[i].Env? || trace[i].Call?
      ensures w == FinalizersWritten(before.w, m, fs, o)
      ensures o.Ok() && UpdateLands(before.w, m) && w.mon.Some? ==> r == Updated(w.mon.value)
      ensures r.Updated? <==> o.Ok() && UpdateLands(before.w, m)
    {
      Yield();
      o := *;
      before := View(w, pass);
      if o.reply.Refused? {
        return Failed, o, before;
      }
      if w.mon.None? {
        return Gone, o, before;
      }
      if w.mon.value.version != m.version {
        return Conflict, o, before;
      }
      if m.deleting && fs == [] {
        w := w.(mon := None, dirty := w.dirty || o.echo);
      } else {
        var stored := m.(finalizers := fs, status := w.mon.value.status, version := w.versions + 1);
        w := w.(mon := Some(stored), versions := w.versions + 1, dirty := w.dirty || o.echo);
      }
      if !o.Ok() {
        r := Failed;
      } else {
        r := Updated(if w.mon.Some? then w.mon.value else m);
      }
    }

    /** `final` only tells the audit which pass reported the hash. */
    method UpdateStatus(latest: Monitor, m: Monitor, final: bool, id: nat)
      returns (r: Written<()>, o: Outcome, ghost before: View)
      requires Valid()
      modifies this`w, this`trace
      ensures origin == old(origin) && old(trace) <= trace && before == Run(s, origin, trace) && before.pass == pass
      ensures forall i | |old(trace)| <= i < |trace| :: trace[i].Env? || trace[i].Call?
      ensures w == StatusWritten(before.w, id, m, final, latest, o)
      ensures r == if !o.Ok() then Failed
                   else if before.w.mon.None? then Gone
                   else if !UpdateLands(before.w, latest) then Conflict
                   else Updated(())
    {
      Yield();
      o := *;
      before := View(w, pass);
      if o.reply.Refused? {
        return Failed, o, before;
      }
      if w.mon.Some? && w.mon.value.version == latest.version {
        if w.mon.value.status != m.status {
          w := w.(mon := Some(w.mon.value.(status := m.status, version := w.versions + 1)),
                  versions := w.versions + 1, dirty := w.dirty || o.echo);
        }
        if final {
          w := w.(audit := w.audit.(hashBy := id));
        }
        r := if o.Ok() then Updated(()) else Failed;
      } else if !o.Ok() {
        r := Failed;
      } else {
        r := if w.mon.None? then Gone else Conflict;
      }
    }

    method GetSecret(name: string) returns (found: bool, o: Outcome, ghost before: View)
      requires Valid()
      modifies this`w, this`trace
      ensures Walked() && before == View(w, pass)
      ensures found == (o.Ok() && name in w.secrets)
    {
      Yield();
      o := *;
      before := View(w, pass);
      found := o.Ok() && name in w.secrets;
    }

    method GetLibrary(name: string) returns (r: Option<Library>, o: Outcome, ghost before: View)
      requires Valid()
      modifies this`w, this`trace
      ensures Walked() && before == View(w, pass)
      ensures r == if o.Ok() && name in w.libs then Some(w.libs[name]) else None
    {
      Yield();
      o := *;
      before := View(w, pass);
      if o.Ok() && name in w.libs {
        r := Some(w.libs[name]);
      } else {
        r := None;
      }
    }

    // ---- patchStatus ----

    /** Fetches and writes until the write meets the version it fetched, five times at most. */
    method PatchStatus(monitor: Monitor, final: bool, id: nat) returns (written: bool)
      requires Valid() && pass.At? && pass.id == id && pass.mon == monitor && pass.pc == PatchGet(MAX_TRIES, final)
      modifies this`w, this`pass, this`trace
      ensures Walked()
      ensures pass == Returned(id, PatchResult(final, written, monitor.status.ready))
    {
      hide Run, Next, StatusWritten;
      var tries: nat := 5;
      ghost var libs := pass.libs;
      while true
        invariant Walked() && 1 <= tries <= MAX_TRIES
        invariant pass == At(id, PatchGet(tries, final), monitor, libs)
        decreases tries
      {
        var latest, o, before := GetMonitor();
        NextPatchGet(s, before.w, id, tries, final, monitor, libs, o);
        Advance(before, o);
        if !latest.Found? {
          return false;
        }
        var reply;
        reply, o, before := UpdateStatus(latest.value, monitor, final, id);
        NextPatchUpdate(s, before.w, id, tries, final, latest.value, monitor, libs, o);
        Advance(before, o);
        match reply {
          case Updated(_) => return true;
          case Conflict =>
            if tries == 1 {
              return false;
            }
            tries := tries - 1;
          case Gone => return false;
          case Failed => return false;
        }
      }
    }

    // ---- server-side apply; `stamp` is bookkeeping ----

    method ApplyConfigMap(obj: ConfigMap, hash: Digest, stamp: Stamp)
      returns (ok: bool, o: Outcome, ghost before: View)
      requires Valid()
      modifies this`w, this`trace
      ensures Pending(before) && ok == o.Ok()
      ensures forall b: Built | b.configMap == obj && b.hash == hash :: w == ConfigMapWritten(before.w, stamp, b, o)
    {
      Yield();
      o := *;
      before := View(w, pass);
      ok := o.Ok();
      if !o.reply.Refused? {
        var changed := w.cm.obj != Some(obj);
        w := w.(cm := Slot(Some(obj), Some(stamp), false), dirty := w.dirty || (changed && o.echo),
                audit := w.audit.(stored := w.audit.stored + {hash}));
      }
    }

    method ApplyDeployment(obj: Deployment, hash: Digest, stamp: Stamp)
      returns (ok: bool, o: Outcome, ghost before: View)
      requires Valid()
      modifies this`w, this`trace
      ensures Pending(before) && ok == o.Ok()
      ensures forall b: Built | b.deployment == Some(obj) && b.hash == hash ::
                w == DeploymentWritten(before.w, stamp, b, o)
    {
      Yield();
      o := *;
      before := View(w, pass);
      ok := o.Ok();
      if !o.reply.Refused? {
        var changed := w.dep.obj != Some(obj);
        w := w.(dep := Slot(Some(obj), Some(stamp), false), dirty := w.dirty || (changed && o.echo),
                audit := w.audit.(annotated := w.audit.annotated + {hash}));
      }
    }

    method ApplyService(obj: Service, stamp: Stamp) returns (ok: bool, o: Outcome, ghost before: View)
      requires Valid()
      modifies this`w, this`trace
      ensures Pending(before) && ok == o.Ok()
      ensures forall b: Built | b.service == obj :: w == ServiceWritten(before.w, stamp, b, o)
    {
      Yield();
      o := *;
      before := View(w, pass);
      ok := o.Ok();
      if !o.reply.Refused? {
        var changed := w.svc.obj != Some(obj);
        w := w.(svc := Slot(Some(obj), Some(stamp), false), dirty := w.dirty || (changed && o.echo));
      }
    }

    method ApplyServiceMonitor(obj: ServiceMonitor, stamp: Stamp)
      returns (ok: bool, o: Outcome, ghost before: View)
      requires Valid()
      modifies this`w, this`trace
      ensures Pending(before) && ok == o.Ok()
      ensures forall b: Built | b.serviceMonitor == obj :: w == ServiceMonitorWritten(before.w, stamp, b, o)
    {
      Yield();
      o := *;
      before := View(w, pass);
      ok := o.Ok();
      if !o.reply.Refused? {
        var changed := w.sm.obj != Some(obj);
        w := w.(sm := Slot(Some(obj), Some(stamp), false), dirty := w.dirty || (changed && o.echo));
      }
    }

    method GetDeployment() returns (r: Fetched<bool>, o: Outcome, ghost before: View)
      requires Valid()
      modifies this`w, this`trace
      ensures Walked() && before == View(w, pass)
      ensures r == if !o.Ok() then Unavailable else if w.dep.obj.None? then NotFound else Found(w.podsReady)
    {
      Yield();
      o := *;
      before := View(w, pass);
      if !o.Ok() {
        r := Unavailable;
      } else if w.dep.obj.None? {
        r := NotFound;
      } else {
        r := Found(w.podsReady);
      }
    }

    /** A call has been made that the machine has yet to make. */
    twostate predicate Pending(before: View)
      reads this
    {
      && origin == old(origin) && before == Run(s, origin, trace) && before.pass == pass
      && old(trace) <= trace
      && forall i | |old(trace)| <= i < |trace| :: trace[i].Env? || trace[i].Call?
    }

    // ---- Reconcile ----

    /** Step 1. The credentials source is looked at when the finalizer is known to be stored. */
    method ValidateCredentials(monitor: Monitor, id: nat, now: nat) returns (m: Monitor, ok: bool)
      requires Valid() && pass == AfterFinalizer(w, id, monitor, now).pass
      modifies this`w, this`pass, this`trace
      ensures Walked()
      ensures pass == if ok then AfterCredentials(w, id, m).pass else Returned(id, RequeueAfter(30))
      ensures ok ==> m.spec.database.HasCredentials()
    {
      hide Run, AfterCredentials, Mark, Next;
      var db := monitor.spec.database;
      if db.username != "" && db.password != "" {
        m := Mark(monitor, "DatabaseReachable", true, "InlineCredentials", "Inline username/password configured", now);
        MarksKeepSpec(monitor, "", now);
        return m, true;
      } else if db.credentialsSecret.Some? {
        m, ok := CheckSecret(monitor, id);
      } else {
        m := Mark(monitor, "Ready", false, "NoCredentials",
                  "spec.database has no inline username/password and no credentialsSecret", now);
        var _ := PatchStatus(m, false, id);
        return m, false;
      }
    }

    /** The case of a referenced Secret. */
    method CheckSecret(monitor: Monitor, id: nat) returns (m: Monitor, ok: bool)
      requires Valid() && pass == At(id, Pc.GetSecret, monitor, []) && monitor.spec.database.credentialsSecret.Some?
      modifies this`w, this`pass, this`trace
      ensures Walked()
      ensures pass == if ok then AfterCredentials(w, id, m).pass else Returned(id, RequeueAfter(30))
      ensures ok ==> m.spec == monitor.spec
    {
      hide Run, AfterCredentials, Mark, Next;
      var name := monitor.spec.database.credentialsSecret.value.name;
      var found, o, before := GetSecret(name);
      NextGetSecret(s, before.w, id, monitor, o);
      if !found {
        m := Mark(monitor, "Ready", false, "SecretNotFound", "Secret " + name + " not found", o.now);
        var message := "Credentials secret " + name + " not found";
        m := Mark(m, "DatabaseReachable", false, "SecretNotFound", message, o.now);
        RecordEvent("SecretNotFound");
        Advance(before, o);
        var _ := PatchStatus(m, false, id);
        return m, false;
      }
      var message := "Credentials secret " + name + " exists";
      m := Mark(monitor, "DatabaseReachable", true, "CredentialsFound", message, o.now);
      MarksKeepSpec(monitor, name, o.now);
      AfterCredentialsReads(w, id, m);
      Advance(before, o);
      return m, true;
    }

    /** Step 2. On failure the call that failed is still to be recorded. */
    method ResolveLibraries(monitor: Monitor, id: nat)
      returns (libs: Option<seq<Library>>, missing: string, o: Outcome, ghost before: View)
      requires Valid() && pass == AfterCredentials(w, id, monitor).pass
      modifies this`w, this`pass, this`trace
      ensures Pending(before) && before.w == w
      ensures libs.Some? ==> Valid() && pass == At(id, Pc.Build, monitor, libs.value)
      ensures libs.None? ==>
                && pass.At?
                && GetLibraryCall(w, id, monitor, pass.libs, o) ==
                   View(Emit(w, "LibraryResolveFailed"),
                        At(id, PatchGet(MAX_TRIES, false), LibraryMissing(monitor, missing, o.now), []))
                && pass == At(id, Pc.GetLibrary, monitor, pass.libs)
    {
      hide Run, LibraryMissing;
      var refs := monitor.spec.metrics.fromLibraries;
      o := Outcome(Accepted, 0, false, None);
      if refs == [] {
        return Some([]), "", o, View(w, pass);
      }
      var read: seq<Library> := [];
      for i := 0 to |refs|
        invariant Walked() && |read| == i
        invariant pass == if i < |refs| then At(id, Pc.GetLibrary, monitor, read)
                          else At(id, Pc.Build, monitor, read)
      {
        var lib;
        lib, o, before := GetLibrary(refs[i]);
        if lib.None? {
          return None, refs[i], o, before;
        }
                Advance(before, o);
        read := read + [lib.value];
      }
      return Some(read), "", o, View(w, pass);
    }

    /** Steps 3 to 7: the build, the children in order, then what the Deployment says, then the
        status. */
    method ApplyChildren(monitor: Monitor, libs: seq<Library>, id: nat) returns (result: Result)
      requires Valid() && pass == At(id, Build, monitor, libs) && monitor.spec.database.HasCredentials()
      modifies this`w, this`pass, this`trace
      ensures Walked() && pass == Returned(id, result)
    {
      hide Run, Next, Compiles;
      var built := BuildAll(tk, key, monitor.spec, libs);
      ghost var worked := Outcome(Accepted, 0, false, built);
      NextBuild(s, w, id, monitor, libs, worked);
      Advance(View(w, pass), worked);
      if built.None? {
        return Error;
      }
      BuiltHasDeployment(tk, key, monitor.spec, libs, built.value);
      result := ApplyBuilt(built.value, monitor, libs, id);
    }

    /** Step 4, and on. */
    method ApplyBuilt(b: Built, monitor: Monitor, libs: seq<Library>, id: nat) returns (result: Result)
      requires Valid() && pass == At(id, Pc.ApplyConfigMap(b), monitor, libs) && b.deployment.Some?
      requires b.configMap.key.name == ConfigMapName(key.name)
      modifies this`w, this`pass, this`trace
      ensures Walked() && pass == Returned(id, result)
    {
      hide Run, Next, Mark, ConfigMapWritten;
      var m, stamp := monitor, Stamp(id, monitor.spec, libs, b);
      var ok, o, before := ApplyConfigMap(b.configMap, b.hash, stamp);
      NextApplyConfigMap(s, before.w, id, b, m, libs, o);
      if !ok {
        Advance(before, o);
        return Error;
      }
      m := Mark(m, "ConfigGenerated", true, "ConfigMapUpdated",
                "ConfigMap " + b.configMap.key.name + " up to date (hash=" + b.hash[..12] + ")", o.now);
      if monitor.status.configHash != b.hash {
        RecordEvent("ConfigMapUpdated");
        m := m.(status := m.status.(configHash := b.hash));
      }
      StoredIsSpelledOut(monitor, m, key, b, o.now);
      Advance(before, o);
      result := ApplyRest(b, m, libs, id);
    }

    /** Steps 5 to 6b. */
    method ApplyRest(b: Built, m: Monitor, libs: seq<Library>, id: nat) returns (result: Result)
      requires Valid() && pass == At(id, Pc.ApplyDeployment(b), m, libs) && b.deployment.Some?
      modifies this`w, this`pass, this`trace
      ensures Walked() && pass == Returned(id, result)
    {
      hide Run, Next, DeploymentWritten, ServiceWritten, ServiceMonitorWritten;
      var stamp := Stamp(id, m.spec, libs, b);
      var ok, o, before := ApplyDeployment(b.deployment.value, b.hash, stamp);
      NextApplyDeployment(s, before.w, id, b, m, libs, o);
      Advance(before, o);
      if !ok {
        return Error;
      }

      ok, o, before := ApplyService(b.service, stamp);
      NextApplyService(s, before.w, id, b, m, libs, o);
      Advance(before, o);
      if !ok {
        return Error;
      }

      if serviceMonitors {
        ok, o, before := ApplyServiceMonitor(b.serviceMonitor, stamp);
        NextApplyServiceMonitor(s, before.w, id, b, m, libs, o);
        Advance(before, o);
        if !ok {
          return Error;
        }
      }
      result := ReportReadiness(b, m, libs, id);
    }

    /** Step 7. */
    method ReportReadiness(ghost b: Built, monitor: Monitor, ghost libs: seq<Library>, id: nat)
      returns (result: Result)
      requires Valid() && pass == At(id, Pc.GetDeployment(b), monitor, libs)
      modifies this`w, this`pass, this`trace
      ensures Walked() && pass == Returned(id, result)
    {
      hide Run, Next, Mark;
      var current, o, before := GetDeployment();
      NextGetDeployment(s, before.w, id, b, monitor, libs, o);
      if !current.Found? {
        Advance(before, o);
        return Error;
      }
      var wasReady, ready := monitor.status.ready, current.value;
      var m := monitor.(status := monitor.status.(
        ready := ready, observedGeneration := monitor.generation, lastReconciled := o.now));
      if ready {
        m := Mark(m, "Ready", true, "PodRunning", "pgwatch pod running and scraping", o.now);
        if !wasReady {
          RecordEvent("PodRunning");
        }
      } else {
        m := Mark(m, "Ready", false, "PodNotReady", "pgwatch pod is not ready yet", o.now);
        if wasReady {
          RecordEvent("PodNotReady");
        }
      }
      ObservedIsReady(monitor, ready, o.now);
      Advance(before, o);
      var written := PatchStatus(m, true, id);
      if !written {
        return Error;
      }
      result := if ready then Done else RequeueAfter(15);
    }

    method Reconcile(id: nat) returns (result: Result)
      requires Valid() && pass == Begun(id)
      modifies this`w, this`pass, this`trace
      ensures Walked() && pass == Returned(id, result)
    {
      hide Run, Next, AfterFinalizer, FinalizersWritten;
      var got, o, before := GetMonitor();
      NextGetMonitor(s, before.w, id, o);
      AfterFinalizerReads(w, id, o.now);
      Advance(before, o);
      if !got.Found? {
        return if got.NotFound? then Done else Error;
      }
      var monitor := got.value;
      if monitor.deleting {
        if HasOurs(monitor.finalizers) {
          result := DropFinalizer(monitor, id);
          return;
        }
        return Done;
      }
      var now := o.now;
      if !HasOurs(monitor.finalizers) {
        var reply;
        reply, o, before := UpdateMonitor(monitor, monitor.finalizers + ["pgpilot.io/finalizer"]);
        NextAddFinalizer(s, before.w, id, monitor, o);
        FinalizerIsStored(before.w, monitor, o);
        AfterFinalizerReads(w, id, o.now);
        Advance(before, o);
        if !reply.Updated? {
          return Error;
        }
        monitor, now := reply.value, o.now;
      }
      result := ReconcileLive(monitor, id, now);
    }

    /** From step 1 on. */
    method ReconcileLive(monitor: Monitor, id: nat, now: nat) returns (result: Result)
      requires Valid() && pass == AfterFinalizer(w, id, monitor, now).pass
      modifies this`w, this`pass, this`trace
      ensures Walked() && pass == Returned(id, result)
    {
      hide Run, Next, AfterFinalizer, AfterCredentials, Mark;
      var m, ok := ValidateCredentials(monitor, id, now);
      if !ok {
        return RequeueAfter(30);
      }
      var libs, missing, o, before := ResolveLibraries(m, id);
      if libs.None? {
        NextGetLibrary(s, before.w, id, m, pass.libs, o);
        m := Mark(m, "Ready", false, "LibraryResolveFailed", "library " + missing, o.now);
        RecordEvent("LibraryResolveFailed");
        Advance(before, o);
        var _ := PatchStatus(m, false, id);
        return RequeueAfter(30);
      }
      result := ApplyChildren(m, libs.value, id);
    }

    method DropFinalizer(monitor: Monitor, id: nat) returns (result: Result)
      requires Valid() && pass == At(id, RemoveFinalizer, monitor, [])
      modifies this`w, this`pass, this`trace
      ensures Walked() && pass == Returned(id, result)
    {
      hide Next, FinalizersWritten;
      var reply, o, before := UpdateMonitor(monitor, WithoutOurs(monitor.finalizers));
      NextRemoveFinalizer(s, before.w, id, monitor, o);
      Advance(before, o);
      result := if reply.Updated? then Done else Error;
    }

    /** A worker takes the key off the queue, reconciles it and reports back. */
    method ProcessNextItem()
      requires Valid() && pass == Idle && w.dirty
      modifies this`w, this`pass, this`trace
      ensures Valid() && origin == old(origin) && old(trace) <= trace && pass == Idle
    {
      hide EnvNext, GetMonitorCall, ApiCall;
      ghost var before := View(w, pass);
      w := w.(dirty := false, audit := w.audit.(passes := w.audit.passes + 1));
      pass := Begun(w.audit.passes);
      Record(Take);
      var result := Reconcile(w.audit.passes);
      before := View(w, pass);
      var again := match result
        case Done => false
        case Error => true
        case RequeueAfter(seconds) => seconds > 0;
      w := w.(timer := w.timer || again);
      pass := Idle;
      Record(Finish);
    }
  }

  lemma AfterCredentialsReads(w: World, id: nat, m: Monitor)
    ensures AfterCredentials(w, id, m).w == w
  {}

  lemma MarksKeepSpec(m: Monitor, name: string, now: nat)
    ensures InlineFound(m, now).spec == m.spec && SecretFound(m, name, now).spec == m.spec
  {}

  lemma BuiltHasDeployment(tk: Toolkit, key: Key, spec: MonitorSpec, libs: seq<Library>, b: Built)
    requires Compiles(tk, key, spec, libs, Some(b)) && spec.database.HasCredentials()
    ensures b.deployment.Some? && b.configMap.key.name == ConfigMapName(key.name)
  {
    hide DataOf, ContentHash;
  }

  lemma NextBuild(s: Setting, w: World, id: nat, m: Monitor, libs: seq<Library>, o: Outcome)
    ensures Next(s, View(w, At(id, Build, m, libs)), Call(o)) == BuildCall(s, w, id, m, libs, o)
  {
    hide BuildCall;
  }

  lemma NextGetMonitor(s: Setting, w: World, id: nat, o: Outcome)
    ensures Next(s, View(w, Begun(id)), Call(o)) == GetMonitorCall(w, id, o)
  {
    hide GetMonitorCall;
  }

  lemma NextRemoveFinalizer(s: Setting, w: World, id: nat, m: Monitor, o: Outcome)
    ensures Next(s, View(w, At(id, RemoveFinalizer, m, [])), Call(o)) == RemoveFinalizerCall(w, id, m, o)
  {
    hide RemoveFinalizerCall;
  }

  lemma NextAddFinalizer(s: Setting, w: World, id: nat, m: Monitor, o: Outcome)
    ensures Next(s, View(w, At(id, AddFinalizer, m, [])), Call(o)) == AddFinalizerCall(w, id, m, o)
  {
    hide AddFinalizerCall;
  }

  lemma NextGetLibrary(s: Setting, w: World, id: nat, m: Monitor, libs: seq<Library>, o: Outcome)
    ensures Next(s, View(w, At(id, GetLibrary, m, libs)), Call(o)) == GetLibraryCall(w, id, m, libs, o)
  {
    hide GetLibraryCall;
  }

  lemma NextApplyConfigMap(s: Setting, w: World, id: nat, b: Built, m: Monitor, libs: seq<Library>, o: Outcome)
    ensures Next(s, View(w, At(id, ApplyConfigMap(b), m, libs)), Call(o)) == ApplyConfigMapCall(s, w, id, b, m, libs, o)
  {
    hide ApplyConfigMapCall;
  }

  lemma NextApplyDeployment(s: Setting, w: World, id: nat, b: Built, m: Monitor, libs: seq<Library>, o: Outcome)
    ensures Next(s, View(w, At(id, ApplyDeployment(b), m, libs)), Call(o)) == ApplyDeploymentCall(w, id, b, m, libs, o)
  {
    hide ApplyDeploymentCall;
  }

  lemma NextApplyService(s: Setting, w: World, id: nat, b: Built, m: Monitor, libs: seq<Library>, o: Outcome)
    ensures Next(s, View(w, At(id, ApplyService(b), m, libs)), Call(o)) == ApplyServiceCall(s, w, id, b, m, libs, o)
  {
    hide ApplyServiceCall;
  }

  lemma NextApplyServiceMonitor(s: Setting, w: World, id: nat, b: Built, m: Monitor, libs: seq<Library>, o: Outcome)
    ensures Next(s, View(w, At(id, ApplyServiceMonitor(b), m, libs)), Call(o)) ==
            ApplyServiceMonitorCall(w, id, b, m, libs, o)
  {
    hide ApplyServiceMonitorCall;
  }

  lemma NextGetDeployment(s: Setting, w: World, id: nat, b: Built, m: Monitor, libs: seq<Library>, o: Outcome)
    ensures Next(s, View(w, At(id, GetDeployment(b), m, libs)), Call(o)) == GetDeploymentCall(w, id, m, libs, o)
  {
    hide GetDeploymentCall;
  }

  lemma StoredIsSpelledOut(m: Monitor, n: Monitor, key: Key, b: Built, now: nat)
    requires b.configMap.key.name == ConfigMapName(key.name)
    requires var text := "ConfigMap " + b.configMap.key.name + " up to date (hash=" + b.hash[..12] + ")";
             var marked := Mark(m, "ConfigGenerated", true, "ConfigMapUpdated", text, now);
             n == marked || n == marked.(status := marked.status.(configHash := b.hash))
    requires m.status.configHash == b.hash || n.status.configHash == b.hash
    ensures n == ConfigStored(m, key, b.hash, now) && n.spec == m.spec
  {}

  lemma ObservedIsReady(m: Monitor, ready: bool, now: nat)
    ensures Observed(m, ready, now).status.ready == ready
  {}

  lemma FinalizerIsStored(w: World, m: Monitor, o: Outcome)
    ensures o.Ok() && UpdateLands(w, m) ==> FinalizersWritten(w, m, m.finalizers + [FINALIZER], o).mon.Some?
  {}

  lemma AfterFinalizerReads(w: World, id: nat, now: nat)
    ensures w.mon.Some? ==> AfterFinalizer(w, id, w.mon.value, now).w == w
  {
    hide Mark;
  }

  lemma NextPatchGet(
    s: Setting, w: World, id: nat, tries: nat, final: bool, m: Monitor, libs: seq<Library>, o: Outcome)
    ensures Next(s, View(w, At(id, PatchGet(tries, final), m, libs)), Call(o)) ==
            PatchGetCall(w, id, tries, final, m, libs, o)
  {
    hide PatchGetCall;
  }

  lemma NextPatchUpdate(
    s: Setting, w: World, id: nat, tries: nat, final: bool, latest: Monitor, m: Monitor, libs: seq<Library>, o: Outcome)
    ensures Next(s, View(w, At(id, PatchUpdate(tries, final, latest), m, libs)), Call(o)) ==
            PatchUpdateCall(w, id, tries, final, latest, m, libs, o)
  {
    hide PatchUpdateCall;
  }

  lemma NextGetSecret(s: Setting, w: World, id: nat, m: Monitor, o: Outcome)
    ensures Next(s, View(w, At(id, GetSecret, m, [])), Call(o)) == GetSecretCall(w, id, m, o)
  {
    hide GetSecretCall;
  }
}
