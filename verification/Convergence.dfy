/** An undisturbed pass: the atomic assignment it amounts to, and why a second one is idle. */
module Convergence {
  import opened Prelude
  import opened Api
  import opened Conditions
  import opened ConfigMaps
  import opened Compiler
  import opened Machine
  import opened Invariants
  import opened Events

  /** What each call of a pass meets, by where the pass stands. No pass stands anywhere twice,
      so any sequence of outcomes can be given in this way. */
  type Replies = Pass -> Outcome

  ghost predicate Granted(r: Replies) { forall p :: r(p).Ok() }

  ghost predicate Echoed(r: Replies) { forall p :: r(p).echo }

  /** The local work comes to `b`. */
  ghost predicate Brings(r: Replies, b: Built) {
    forall p: Pass | p.At? && p.pc.Build? :: r(p).built == Some(b)
  }

  /** All the calls of one pass, with nobody in between. */
  ghost function Drive(s: Setting, v: View, r: Replies): (u: View)
    requires Inv(s, v)
    ensures Inv(s, u)
    decreases CallsLeft(v)
  {
    if v.pass.Begun? || v.pass.At? then
      CallsShrink(s, v, r(v.pass));
      StepKeepsInv(s, v, Call(r(v.pass)));
      Drive(s, Next(s, v, Call(r(v.pass))), r)
    else v
  }

  lemma Unfold(s: Setting, v: View, r: Replies)
    requires Inv(s, v)
    ensures Inv(s, Next(s, v, Call(r(v.pass))))
    ensures v.pass.Begun? || v.pass.At? ==> Drive(s, v, r) == Drive(s, Next(s, v, Call(r(v.pass))), r)
    ensures v.pass.Idle? || v.pass.Returned? ==> Drive(s, v, r) == v
  {
    hide Inv, Next;
    StepKeepsInv(s, v, Call(r(v.pass)));
  }

  // ---- the pass as one assignment, last stage first ----

  function Patched(w: World, id: nat, m: Monitor, libs: seq<Library>, r: Replies): World
    requires w.mon.Some?
  {
    StatusWritten(w, id, m, true, w.mon.value, r(At(id, PatchUpdate(MAX_TRIES, true, w.mon.value), m, libs)))
  }

  function Reported(w: World, id: nat, b: Built, m: Monitor, libs: seq<Library>, r: Replies): World
    requires w.mon.Some?
  {
    var o := r(At(id, GetDeployment(b), m, libs));
    Patched(ReadinessEvent(w, m.status.ready, w.podsReady), id, Observed(m, w.podsReady, o.now), libs, r)
  }

  function WithServiceMonitor(
    s: Setting, w: World, id: nat, b: Built, m: Monitor, libs: seq<Library>, r: Replies): World
    requires w.mon.Some?
  {
    var o := r(At(id, ApplyServiceMonitor(b), m, libs));
    Reported(if s.serviceMonitorEnabled then ServiceMonitorWritten(w, Stamp(id, m.spec, libs, b), b, o) else w,
             id, b, m, libs, r)
  }

  function WithDeployment(s: Setting, w: World, id: nat, b: Built, m: Monitor, libs: seq<Library>, r: Replies): World
    requires w.mon.Some?
  {
    var stamp := Stamp(id, m.spec, libs, b);
    var deployed := DeploymentWritten(w, stamp, b, r(At(id, ApplyDeployment(b), m, libs)));
    var served := ServiceWritten(deployed, stamp, b, r(At(id, ApplyService(b), m, libs)));
    WithServiceMonitor(s, served, id, b, m, libs, r)
  }

  function Assigned(s: Setting, w: World, id: nat, b: Built, m: Monitor, libs: seq<Library>, r: Replies): World
    requires w.mon.Some?
  {
    var o := r(At(id, ApplyConfigMap(b), m, libs));
    var stored := ConfigMapWritten(w, Stamp(id, m.spec, libs, b), b, o);
    var noted := if m.status.configHash != b.hash then Emit(stored, "ConfigMapUpdated") else stored;
    WithDeployment(s, noted, id, b, ConfigStored(m, s.key, b.hash, o.now), libs, r)
  }

  lemma DrivePatch(s: Setting, w: World, id: nat, m: Monitor, libs: seq<Library>, r: Replies)
    requires Inv(s, View(w, At(id, PatchGet(MAX_TRIES, true), m, libs))) && Granted(r) && w.mon.Some?
    ensures Drive(s, View(w, At(id, PatchGet(MAX_TRIES, true), m, libs)), r) ==
            View(Patched(w, id, m, libs, r), Returned(id, PatchResult(true, true, m.status.ready)))
  {
    hide Inv, StatusWritten, Drive;
    var v := View(w, At(id, PatchGet(MAX_TRIES, true), m, libs));
    Unfold(s, v, r);
    var u := View(w, At(id, PatchUpdate(MAX_TRIES, true, w.mon.value), m, libs));
    assert Next(s, v, Call(r(v.pass))) == u;
    Unfold(s, u, r);
    Unfold(s, Next(s, u, Call(r(u.pass))), r);
  }

  lemma DriveReport(s: Setting, w: World, id: nat, b: Built, m: Monitor, libs: seq<Library>, r: Replies)
    requires Inv(s, View(w, At(id, GetDeployment(b), m, libs))) && Granted(r) && w.mon.Some? && w.dep.obj.Some?
    ensures Drive(s, View(w, At(id, GetDeployment(b), m, libs)), r) ==
            View(Reported(w, id, b, m, libs, r), Returned(id, PatchResult(true, true, w.podsReady)))
  {
    hide Inv, Patched, Drive, Mark;
    var v := View(w, At(id, GetDeployment(b), m, libs));
    var o := r(v.pass);
    Unfold(s, v, r);
    var noted, seen := ReadinessEvent(w, m.status.ready, w.podsReady), Observed(m, w.podsReady, o.now);
    assert Next(s, v, Call(o)) == View(noted, At(id, PatchGet(MAX_TRIES, true), seen, libs));
    DrivePatch(s, noted, id, seen, libs, r);
    ObservedReadiness(m, w.podsReady, o.now);
  }

  lemma DriveServiceMonitor(s: Setting, w: World, id: nat, b: Built, m: Monitor, libs: seq<Library>, r: Replies)
    requires Inv(s, View(w, At(id, ApplyServiceMonitor(b), m, libs))) && s.serviceMonitorEnabled
    requires Granted(r) && w.mon.Some? && w.dep.obj.Some?
    ensures Drive(s, View(w, At(id, ApplyServiceMonitor(b), m, libs)), r) ==
            View(WithServiceMonitor(s, w, id, b, m, libs, r), Returned(id, PatchResult(true, true, w.podsReady)))
  {
    hide Inv, Reported, Drive;
    var v := View(w, At(id, ApplyServiceMonitor(b), m, libs));
    Unfold(s, v, r);
    var after := ServiceMonitorWritten(w, Stamp(id, m.spec, libs, b), b, r(v.pass));
    assert Next(s, v, Call(r(v.pass))) == View(after, At(id, GetDeployment(b), m, libs));
    DriveReport(s, after, id, b, m, libs, r);
  }

  lemma DriveService(s: Setting, w: World, id: nat, b: Built, m: Monitor, libs: seq<Library>, r: Replies)
    requires Inv(s, View(w, At(id, ApplyService(b), m, libs)))
    requires Granted(r) && w.mon.Some? && w.dep.obj.Some?
    ensures var served := ServiceWritten(w, Stamp(id, m.spec, libs, b), b, r(At(id, ApplyService(b), m, libs)));
            Drive(s, View(w, At(id, ApplyService(b), m, libs)), r) ==
            View(WithServiceMonitor(s, served, id, b, m, libs, r), Returned(id, PatchResult(true, true, w.podsReady)))
  {
    hide Inv, Reported, Drive, ServiceMonitorWritten;
    var v := View(w, At(id, ApplyService(b), m, libs));
    Unfold(s, v, r);
    var after := ServiceWritten(w, Stamp(id, m.spec, libs, b), b, r(v.pass));
    if s.serviceMonitorEnabled {
      assert Next(s, v, Call(r(v.pass))) == View(after, At(id, ApplyServiceMonitor(b), m, libs));
      DriveServiceMonitor(s, after, id, b, m, libs, r);
    } else {
      assert Next(s, v, Call(r(v.pass))) == View(after, At(id, GetDeployment(b), m, libs));
      DriveReport(s, after, id, b, m, libs, r);
    }
  }

  lemma DriveDeployment(s: Setting, w: World, id: nat, b: Built, m: Monitor, libs: seq<Library>, r: Replies)
    requires Inv(s, View(w, At(id, ApplyDeployment(b), m, libs)))
    requires Granted(r) && w.mon.Some? && b.deployment.Some?
    ensures Drive(s, View(w, At(id, ApplyDeployment(b), m, libs)), r) ==
            View(WithDeployment(s, w, id, b, m, libs, r), Returned(id, PatchResult(true, true, w.podsReady)))
  {
    hide Inv, Drive, ServiceWritten, WithServiceMonitor;
    var v := View(w, At(id, ApplyDeployment(b), m, libs));
    Unfold(s, v, r);
    var after := DeploymentWritten(w, Stamp(id, m.spec, libs, b), b, r(v.pass));
    assert Next(s, v, Call(r(v.pass))) == View(after, At(id, ApplyService(b), m, libs));
    DriveService(s, after, id, b, m, libs, r);
  }

  lemma DriveConfigMap(s: Setting, w: World, id: nat, b: Built, m: Monitor, libs: seq<Library>, r: Replies)
    requires Inv(s, View(w, At(id, ApplyConfigMap(b), m, libs)))
    requires Granted(r) && w.mon.Some? && b.deployment.Some?
    ensures Drive(s, View(w, At(id, ApplyConfigMap(b), m, libs)), r) ==
            View(Assigned(s, w, id, b, m, libs, r), Returned(id, PatchResult(true, true, w.podsReady)))
  {
    hide Inv, Drive, WithDeployment, Set;
    var v := View(w, At(id, ApplyConfigMap(b), m, libs));
    var o := r(v.pass);
    Unfold(s, v, r);
    var stored := ConfigMapWritten(w, Stamp(id, m.spec, libs, b), b, o);
    var noted := if m.status.configHash != b.hash then Emit(stored, "ConfigMapUpdated") else stored;
    var n := ConfigStored(m, s.key, b.hash, o.now);
    assert Next(s, v, Call(o)) == View(noted, At(id, ApplyDeployment(b), n, libs));
    DriveDeployment(s, noted, id, b, n, libs, r);
  }

  lemma DriveBuild(s: Setting, w: World, id: nat, b: Built, m: Monitor, libs: seq<Library>, r: Replies)
    requires Inv(s, View(w, At(id, Build, m, libs))) && s.builds(m.spec, libs, Some(b))
    requires Granted(r) && Brings(r, b) && w.mon.Some? && b.deployment.Some?
    ensures Drive(s, View(w, At(id, Build, m, libs)), r) ==
            View(Assigned(s, w, id, b, m, libs, r), Returned(id, PatchResult(true, true, w.podsReady)))
  {
    hide Inv, Drive, Assigned;
    var v := View(w, At(id, Build, m, libs));
    Unfold(s, v, r);
    assert Next(s, v, Call(r(v.pass))) == View(w, At(id, ApplyConfigMap(b), m, libs));
    DriveConfigMap(s, w, id, b, m, libs, r);
  }

  lemma {:induction false} DriveLibraries(
    s: Setting, w: World, id: nat, m: Monitor, read: seq<Library>, all: seq<Library>, r: Replies)
    requires Inv(s, View(w, At(id, GetLibrary, m, read))) && Granted(r)
    requires Resolve(w.libs, m.spec.metrics.fromLibraries) == Some(all)
    requires |read| < |all| && read == all[..|read|]
    ensures Inv(s, View(w, At(id, Build, m, all)))
    ensures Drive(s, View(w, At(id, GetLibrary, m, read)), r) == Drive(s, View(w, At(id, Build, m, all)), r)
    decreases |all| - |read|
  {
    hide Inv, Drive, Set;
    var refs := m.spec.metrics.fromLibraries;
    assert refs[|read|] in refs;
    var more := read + [w.libs[refs[|read|]]];
    assert more == all[..|read| + 1];
    var v := View(w, At(id, GetLibrary, m, read));
    Unfold(s, v, r);
    if |more| == |all| {
      assert more == all;
      assert Next(s, v, Call(r(v.pass))) == View(w, At(id, Build, m, all));
    } else {
      assert Next(s, v, Call(r(v.pass))) == View(w, At(id, GetLibrary, m, more));
      DriveLibraries(s, w, id, m, more, all, r);
    }
  }

  // ---- the whole pass ----

  ghost predicate Available(s: Setting, w: World, m: Monitor, libs: seq<Library>, b: Built) {
    && m.spec.database.HasCredentials()
    && (!m.spec.database.Inline() ==> m.spec.database.credentialsSecret.value.name in w.secrets)
    && Resolve(w.libs, m.spec.metrics.fromLibraries) == Some(libs)
    && s.builds(m.spec, libs, Some(b)) && b.deployment.Some?
  }

  function CredentialsMarked(m: Monitor, now: nat): Monitor {
    if m.spec.database.Inline() || m.spec.database.credentialsSecret.None? then InlineFound(m, now)
    else SecretFound(m, m.spec.database.credentialsSecret.value.name, now)
  }

  /** When the credentials are looked at: with the call before, or with the Secret's read. */
  function CredentialsTime(id: nat, m: Monitor, now: nat, r: Replies): nat {
    if m.spec.database.Inline() then now else r(At(id, GetSecret, m, [])).now
  }

  lemma DriveFromCredentials(
    s: Setting, w: World, id: nat, m: Monitor, now: nat, libs: seq<Library>, b: Built, r: Replies)
    requires Inv(s, AfterFinalizer(w, id, m, now)) && Granted(r) && Brings(r, b) && w.mon.Some?
    requires Available(s, w, m, libs, b)
    ensures Drive(s, AfterFinalizer(w, id, m, now), r) ==
            View(Assigned(s, w, id, b, CredentialsMarked(m, CredentialsTime(id, m, now, r)), libs, r),
                 Returned(id, PatchResult(true, true, w.podsReady)))
  {
    hide Inv, Drive, Set, Assigned;
    var v, n := AfterFinalizer(w, id, m, now), CredentialsMarked(m, CredentialsTime(id, m, now, r));
    if !m.spec.database.Inline() {
      assert v == View(w, At(id, GetSecret, m, []));
      Unfold(s, v, r);
      assert Next(s, v, Call(r(v.pass))) == AfterCredentials(w, id, n);
    }
    var refs := m.spec.metrics.fromLibraries;
    if refs == [] {
      assert libs == [];
      assert AfterCredentials(w, id, n) == View(w, At(id, Build, n, libs));
    } else {
      assert AfterCredentials(w, id, n) == View(w, At(id, GetLibrary, n, []));
      DriveLibraries(s, w, id, n, [], libs, r);
    }
    DriveBuild(s, w, id, b, n, libs, r);
  }

  /** What the pass makes of the monitor's finalizers, and the clock it then reads. */
  function Claimed(w: World, id: nat, m: Monitor, r: Replies): World {
    if HasOurs(m.finalizers) then w
    else FinalizersWritten(w, m, m.finalizers + [FINALIZER], r(At(id, AddFinalizer, m, [])))
  }

  function ClaimTime(id: nat, m: Monitor, r: Replies): nat {
    if HasOurs(m.finalizers) then r(Begun(id)).now else r(At(id, AddFinalizer, m, [])).now
  }

  /** The stepwise pass is the atomic assignment: finalizer, children, status. */
  lemma PassIsAssignment(s: Setting, v: View, libs: seq<Library>, b: Built, r: Replies)
    requires Inv(s, v) && v.pass.Begun? && v.w.mon.Some? && !v.w.mon.value.deleting && Granted(r) && Brings(r, b)
    requires Available(s, v.w, v.w.mon.value, libs, b)
    ensures var id, m := v.pass.id, v.w.mon.value;
            var w, now := Claimed(v.w, id, m, r), ClaimTime(id, m, r);
            && w.mon.Some?
            && var n := CredentialsMarked(w.mon.value, CredentialsTime(id, w.mon.value, now, r));
               Drive(s, v, r) ==
               View(Assigned(s, w, id, b, n, libs, r), Returned(id, PatchResult(true, true, v.w.podsReady)))
  {
    hide Inv, Drive, Set, Assigned, AfterFinalizer;
    var m, id := v.w.mon.value, v.pass.id;
    Unfold(s, v, r);
    if HasOurs(m.finalizers) {
      DriveFromCredentials(s, v.w, id, m, ClaimTime(id, m, r), libs, b, r);
    } else {
      var u := View(v.w, At(id, AddFinalizer, m, []));
      assert Next(s, v, Call(r(v.pass))) == u;
      Unfold(s, u, r);
      var w := Claimed(v.w, id, m, r);
      assert Next(s, u, Call(r(u.pass))) == AfterFinalizer(w, id, w.mon.value, ClaimTime(id, m, r));
      DriveFromCredentials(s, w, id, w.mon.value, ClaimTime(id, m, r), libs, b, r);
    }
  }

  /** The clock as a pass reads it at its three marks. */
  datatype Times = Times(credentials: nat, config: nat, report: nat)

  /** The status a full pass leaves behind. */
  function FinalStatus(s: Setting, m: Monitor, hash: Digest, ready: bool, t: Times): Status {
    Observed(ConfigStored(CredentialsMarked(m, t.credentials), s.key, hash, t.config), ready, t.report).status
  }

  predicate PartsDiffer(s: Setting, w: World, b: Built) {
    || w.cm.obj != Some(b.configMap) || w.dep.obj != b.deployment || w.svc.obj != Some(b.service)
    || (s.serviceMonitorEnabled && w.sm.obj != Some(b.serviceMonitor))
  }

  /** Everything an undisturbed stretch of a pass did to the world, beside its bookkeeping. */
  ghost predicate Leaves(s: Setting, w: World, b: Built, status: Status, r: Replies, u: World)
    requires w.mon.Some?
  {
    && Shows(s, u, b) && (!s.serviceMonitorEnabled ==> u.sm == w.sm)
    && u.libs == w.libs && u.secrets == w.secrets && u.podsReady == w.podsReady && u.timer == w.timer
    && u.mon.Some? && u.mon.value == w.mon.value.(version := u.mon.value.version, status := status)
    && (u.dirty ==> w.dirty || PartsDiffer(s, w, b) || status != w.mon.value.status)
    && (Echoed(r) && (PartsDiffer(s, w, b) || status != w.mon.value.status) ==> u.dirty)
    && (w.dirty ==> u.dirty)
  }

  lemma PatchEffects(w: World, id: nat, m: Monitor, libs: seq<Library>, r: Replies)
    requires w.mon.Some? && Granted(r)
    ensures var u := Patched(w, id, m, libs, r);
            && u == w.(mon := u.mon, versions := u.versions, dirty := u.dirty, audit := u.audit)
            && u.mon.Some? && u.mon.value == w.mon.value.(version := u.mon.value.version, status := m.status)
            && (u.dirty ==> w.dirty || m.status != w.mon.value.status)
            && (Echoed(r) && m.status != w.mon.value.status ==> u.dirty) && (w.dirty ==> u.dirty)
  {}

  lemma ReportEffects(s: Setting, w: World, id: nat, b: Built, m: Monitor, libs: seq<Library>, r: Replies)
    requires w.mon.Some? && Granted(r)
    ensures var u, t := Reported(w, id, b, m, libs, r), r(At(id, GetDeployment(b), m, libs)).now;
            var status := Observed(m, w.podsReady, t).status;
            && u == w.(mon := u.mon, versions := u.versions, dirty := u.dirty, audit := u.audit)
            && u.mon.Some? && u.mon.value == w.mon.value.(version := u.mon.value.version, status := status)
            && (u.dirty ==> w.dirty || status != w.mon.value.status)
            && (Echoed(r) && status != w.mon.value.status ==> u.dirty) && (w.dirty ==> u.dirty)
  {
    hide Patched, Observed;
    var noted := ReadinessEvent(w, m.status.ready, w.podsReady);
    PatchEffects(noted, id, Observed(m, w.podsReady, r(At(id, GetDeployment(b), m, libs)).now), libs, r);
  }

  lemma DeploymentEffects(s: Setting, w: World, id: nat, b: Built, m: Monitor, libs: seq<Library>, r: Replies)
    requires w.mon.Some? && Granted(r) && b.deployment.Some? && w.cm.obj == Some(b.configMap)
    ensures var t := r(At(id, GetDeployment(b), m, libs)).now;
            Leaves(s, w, b, Observed(m, w.podsReady, t).status, r, WithDeployment(s, w, id, b, m, libs, r))
  {
    hide Observed, Reported;
    var stamp := Stamp(id, m.spec, libs, b);
    var deployed := DeploymentWritten(w, stamp, b, r(At(id, ApplyDeployment(b), m, libs)));
    var served := ServiceWritten(deployed, stamp, b, r(At(id, ApplyService(b), m, libs)));
    var watched := if s.serviceMonitorEnabled
                   then ServiceMonitorWritten(served, stamp, b, r(At(id, ApplyServiceMonitor(b), m, libs))) else served;
    ReportEffects(s, watched, id, b, m, libs, r);
  }

  lemma AssignmentEffects(s: Setting, w: World, id: nat, b: Built, m: Monitor, libs: seq<Library>, r: Replies)
    returns (config: nat, report: nat)
    requires w.mon.Some? && Granted(r) && b.deployment.Some?
    ensures Leaves(s, w, b, Observed(ConfigStored(m, s.key, b.hash, config), w.podsReady, report).status, r,
                   Assigned(s, w, id, b, m, libs, r))
  {
    hide ConfigStored, Observed, WithDeployment;
    var o := r(At(id, ApplyConfigMap(b), m, libs));
    var stored := ConfigMapWritten(w, Stamp(id, m.spec, libs, b), b, o);
    var noted := if m.status.configHash != b.hash then Emit(stored, "ConfigMapUpdated") else stored;
    var n := ConfigStored(m, s.key, b.hash, o.now);
    config, report := o.now, r(At(id, GetDeployment(b), n, libs)).now;
    DeploymentEffects(s, noted, id, b, n, libs, r);
  }

  lemma ClaimEffect(w: World, id: nat, m: Monitor, r: Replies)
    requires w.mon == Some(m) && Granted(r)
    requires !m.deleting
    ensures var c := Claimed(w, id, m, r);
            && c.mon.Some?
            && c == w.(mon := c.mon, versions := c.versions, dirty := c.dirty)
            && c.mon.value == m.(
                 version := c.mon.value.version,
                 finalizers := if HasOurs(m.finalizers) then m.finalizers else m.finalizers + [FINALIZER])
            && (HasOurs(m.finalizers) ==> c == w)
  {}

  lemma StatusIgnoresClaim(s: Setting, m: Monitor, n: Monitor, hash: Digest, ready: bool, t: Times)
    requires n == m.(version := n.version, finalizers := n.finalizers)
    ensures FinalStatus(s, n, hash, ready, t) == FinalStatus(s, m, hash, ready, t)
  {
    hide Set;
  }

  /** From any state of the children (each may have been disturbed at will) one undisturbed
      pass makes every child part of the build of the stored spec and libraries, and touches
      nothing else but the finalizer and the status. */
  lemma PassConverges(s: Setting, v: View, libs: seq<Library>, b: Built, r: Replies) returns (t: Times)
    requires Inv(s, v) && v.pass.Begun? && v.w.mon.Some? && !v.w.mon.value.deleting && Granted(r) && Brings(r, b)
    requires Available(s, v.w, v.w.mon.value, libs, b)
    ensures var w, m := Drive(s, v, r).w, v.w.mon.value;
            && Shows(s, w, b) && (!s.serviceMonitorEnabled ==> w.sm == v.w.sm)
            && w.libs == v.w.libs && w.secrets == v.w.secrets && w.podsReady == v.w.podsReady && w.timer == v.w.timer
            && w.mon.Some?
            && w.mon.value == m.(
                 version := w.mon.value.version,
                 finalizers := if HasOurs(m.finalizers) then m.finalizers else m.finalizers + [FINALIZER],
                 status := FinalStatus(s, m, b.hash, v.w.podsReady, t))
            && Announces(w.mon.value) && w.mon.value.status.ready == v.w.podsReady
            && w.mon.value.status.observedGeneration == m.generation && w.mon.value.status.configHash == b.hash
    ensures HasOurs(v.w.mon.value.finalizers) ==>
              Leaves(s, v.w, b, FinalStatus(s, v.w.mon.value, b.hash, v.w.podsReady, t), r, Drive(s, v, r).w)
  {
    hide Inv, Set, Drive, Assigned, CredentialsMarked, ConfigStored, Observed, Available, Brings, Granted, Echoed, Says;
    var id, m := v.pass.id, v.w.mon.value;
    var w := Claimed(v.w, id, m, r);
    PassIsAssignment(s, v, libs, b, r);
    AvailableHasDeployment(s, v.w, m, libs, b);
    ClaimEffect(v.w, id, m, r);
    var credentials := CredentialsTime(id, w.mon.value, ClaimTime(id, m, r), r);
    var config, report := AssignmentEffects(s, w, id, b, CredentialsMarked(w.mon.value, credentials), libs, r);
    t := Times(credentials, config, report);
    StatusIgnoresClaim(s, m, w.mon.value, b.hash, v.w.podsReady, t);
    AvailableFacts(s, v, libs, b);
    FinalStatusAnnounces(s, m, Drive(s, v, r).w.mon.value, b.hash, v.w.podsReady, t);
    FinalStatusHash(s, m, b.hash, v.w.podsReady, t);
  }

  lemma FinalStatusHash(s: Setting, m: Monitor, hash: Digest, ready: bool, t: Times)
    ensures FinalStatus(s, m, hash, ready, t).configHash == hash
  {
    hide Set;
  }

  lemma AvailableFacts(s: Setting, v: View, libs: seq<Library>, b: Built)
    requires Inv(s, v) && v.w.mon.Some? && Available(s, v.w, v.w.mon.value, libs, b)
    ensures IsMap(v.w.mon.value.status.conditions) && v.w.mon.value.spec.database.HasCredentials()
  {}

  lemma FinalStatusAnnounces(s: Setting, m: Monitor, n: Monitor, hash: Digest, ready: bool, t: Times)
    requires IsMap(m.status.conditions) && m.spec.database.HasCredentials()
    requires n.status == FinalStatus(s, m, hash, ready, t) && n.generation == m.generation && n.spec == m.spec
    ensures Announces(n) && n.status.ready == ready && n.status.observedGeneration == n.generation
  {
    hide Says, Set;
    var secret := if m.spec.database.credentialsSecret.Some? then m.spec.database.credentialsSecret.value.name else "";
    var a := CredentialsMarked(m, t.credentials);
    CredentialMarks(m, secret, t.credentials);
    CredentialMarksSay(m, secret, t.credentials);
    var b := ConfigStored(a, s.key, hash, t.config);
    ConfigMark(a, s.key, hash, t.config);
    ConfigStoredSays(a, s.key, hash, t.config);
    var c := Observed(b, ready, t.report);
    ObservedSays(b, ready, t.report);
    assert c.generation == m.generation && c.spec == m.spec && c.status.observedGeneration == m.generation;
    AnnouncementCarries(c, n);
  }

  lemma AvailableHasDeployment(s: Setting, w: World, m: Monitor, libs: seq<Library>, b: Built)
    requires Available(s, w, m, libs, b)
    ensures b.deployment.Some?
  {}

  // ---- a second pass is idle ----

  /** `c` is in the list, whatever its transition time. */
  ghost predicate Present(cs: seq<Condition>, c: Condition) {
    var i := IndexOf(cs, c.kind);
    i < |cs| && cs[i].(since := c.since) == c
  }

  lemma SetMakesPresent(cs: seq<Condition>, c: Condition, later: nat)
    ensures Present(Set(cs, c), c.(since := later))
  {
    var i, r := IndexOf(cs, c.kind), Set(cs, c);
    assert r[i].kind == c.kind && forall j | 0 <= j < i :: r[j].kind != c.kind;
  }

  lemma PresentIsFixed(cs: seq<Condition>, c: Condition)
    requires Present(cs, c)
    ensures Set(cs, c) == cs
  {}

  lemma OtherKeepsPresent(cs: seq<Condition>, c: Condition, d: Condition)
    requires Present(cs, c) && d.kind != c.kind
    ensures Present(Set(cs, d), c)
  {
    var i, r := IndexOf(cs, c.kind), Set(cs, d);
    assert r[i] == cs[i] && forall j | 0 <= j < i :: r[j].kind != c.kind;
  }

  /** Three conditions of different types: set once, setting them again is invisible. */
  lemma ThreeSetsSettle(
    cs: seq<Condition>, a: Condition, b: Condition, c: Condition, later: nat, later': nat, later'': nat)
    requires a.kind != b.kind && b.kind != c.kind && a.kind != c.kind
    ensures var r := Set(Set(Set(cs, a), b), c);
            Set(Set(Set(r, a.(since := later)), b.(since := later')), c.(since := later'')) == r
  {
    hide Set, Present;
    var x := Set(cs, a);
    var y := Set(x, b);
    var r := Set(y, c);
    var a', b', c' := a.(since := later), b.(since := later'), c.(since := later'');
    SetMakesPresent(cs, a, later);
    OtherKeepsPresent(x, a', b);
    OtherKeepsPresent(y, a', c);
    PresentIsFixed(r, a');
    SetMakesPresent(x, b, later');
    OtherKeepsPresent(y, b', c);
    PresentIsFixed(r, b');
    SetMakesPresent(y, c, later'');
    PresentIsFixed(r, c');
  }

  /** Writing the final status over itself moves nothing but `lastReconciled`. */
  lemma FinalStatusSettles(s: Setting, m: Monitor, n: Monitor, hash: Digest, ready: bool, t: Times, u: Times)
    requires n.spec == m.spec && n.generation == m.generation
    requires n.status == FinalStatus(s, m, hash, ready, t)
    ensures FinalStatus(s, n, hash, ready, u) == n.status.(lastReconciled := u.report)
  {
    hide Set;
    var name := Labels.ConfigMapName(s.key.name);
    var a := CredentialsCondition(m, t.credentials);
    var b := Condition("ConfigGenerated", true, "ConfigMapUpdated",
                       "ConfigMap " + name + " up to date (hash=" + hash[..12] + ")", m.generation, t.config);
    var c := ReadyCondition(m, ready, t.report);
    assert a.kind != b.kind && b.kind != c.kind && a.kind != c.kind by {
      assert "DatabaseReachable"[0] == 'D' && "ConfigGenerated"[0] == 'C' && "Ready"[0] == 'R';
    }
    ThreeSetsSettle(m.status.conditions, a, b, c, u.credentials, u.config, u.report);
  }

  function ReadyCondition(m: Monitor, ready: bool, now: nat): Condition {
    if ready then Condition("Ready", true, "PodRunning", "pgwatch pod running and scraping", m.generation, now)
    else Condition("Ready", false, "PodNotReady", "pgwatch pod is not ready yet", m.generation, now)
  }

  function CredentialsCondition(m: Monitor, now: nat): Condition {
    if m.spec.database.Inline() || m.spec.database.credentialsSecret.None? then
      Condition("DatabaseReachable", true, "InlineCredentials", "Inline username/password configured",
                m.generation, now)
    else
      Condition("DatabaseReachable", true, "CredentialsFound",
                "Credentials secret " + m.spec.database.credentialsSecret.value.name + " exists", m.generation, now)
  }

  /** The pass is over, something wakes the key, and the next pass begins. */
  function NextPass(s: Setting, v: View): View {
    var finished := Next(s, v, Finish);
    Next(s, finished.(w := finished.w.(dirty := true)), Take)
  }

  lemma NextPassIsGood(s: Setting, v: View)
    requires Inv(s, v) && v.pass.Returned?
    ensures Inv(s, NextPass(s, v))
    ensures var u := NextPass(s, v);
            && u.pass == Begun(v.w.audit.passes + 1)
            && u.w == v.w.(dirty := false, timer := u.w.timer, audit := u.w.audit)
  {
    hide StoreOk;
    StepKeepsInv(s, v, Finish);
    var finished := Next(s, v, Finish);
    var awake := finished.(w := finished.w.(dirty := true));
    WakingKeepsStore(s, finished.w);
    StepKeepsInv(s, awake, Take);
  }

  lemma WakingKeepsStore(s: Setting, w: World)
    requires StoreOk(s, w)
    ensures StoreOk(s, w.(dirty := true))
  {}

  predicate SameChildren(a: World, b: World) {
    a.cm.obj == b.cm.obj && a.dep.obj == b.dep.obj && a.svc.obj == b.svc.obj && a.sm.obj == b.sm.obj
  }

  /** A second pass over what a pass left behind changes no child exactly when the two builds
      agree. */
  lemma SecondPassRebuilds(s: Setting, v: View, libs: seq<Library>, b: Built, c: Built, r: Replies, q: Replies)
    returns (t: Times, u: Times)
    requires Inv(s, v) && v.pass.Begun? && v.w.mon.Some? && !v.w.mon.value.deleting
    requires Granted(r) && Brings(r, b) && Granted(q) && Brings(q, c)
    requires Available(s, v.w, v.w.mon.value, libs, b) && Available(s, v.w, v.w.mon.value, libs, c)
    ensures var done := Drive(s, v, r);
            && done.pass.Returned? && Inv(s, NextPass(s, done))
            && var first, next := done.w, NextPass(s, done);
               var second := Drive(s, next, q).w;
               && (SameChildren(first, second) <==> !PartsDiffer(s, first, c))
               && first.mon.Some? && HasOurs(first.mon.value.finalizers)
               && first.mon.value.spec == v.w.mon.value.spec && first.mon.value.generation == v.w.mon.value.generation
               && first.mon.value.status == FinalStatus(s, v.w.mon.value, b.hash, v.w.podsReady, t)
               && next.w == first.(dirty := false, timer := next.w.timer, audit := next.w.audit)
               && Shows(s, first, b)
               && Leaves(s, next.w, c, FinalStatus(s, first.mon.value, c.hash, v.w.podsReady, u), q, second)
  {
    hide Inv, Drive, FinalStatus, Resolve, NextPass, Granted, Brings;
    PassIsAssignment(s, v, libs, b, r);
    t := PassConverges(s, v, libs, b, r);
    var done := Drive(s, v, r);
    NextPassIsGood(s, done);
    assert HasOurs(done.w.mon.value.finalizers);
    u := PassConverges(s, NextPass(s, done), libs, c, q);
  }

  /** Idempotence: if the two builds agree, as they must where the build is a function of spec
      and libraries, a second pass changes no child and, of the monitor, only `lastReconciled`.
      Its own status write therefore wakes the key again exactly when the clock, which the API
      stores in whole seconds, has moved on. */
  lemma SecondPassIsIdle(s: Setting, v: View, libs: seq<Library>, b: Built, r: Replies, q: Replies)
    requires Inv(s, v) && v.pass.Begun? && v.w.mon.Some? && !v.w.mon.value.deleting
    requires Granted(r) && Brings(r, b) && Granted(q) && Brings(q, b)
    requires Available(s, v.w, v.w.mon.value, libs, b)
    ensures var done := Drive(s, v, r);
            && done.pass.Returned? && Inv(s, NextPass(s, done))
            && var first, second := done.w, Drive(s, NextPass(s, done), q).w;
               && SameChildren(first, second)
               && first.mon.Some? && second.mon.Some?
               && var last, now := first.mon.value.status.lastReconciled, second.mon.value.status.lastReconciled;
                  && second.mon.value == first.mon.value.(
                       version := second.mon.value.version,
                       status := first.mon.value.status.(lastReconciled := now))
                  && (second.dirty ==> now != last)
                  && (Echoed(q) && now != last ==> second.dirty)
  {
    hide Inv, Drive, FinalStatus, Available, NextPass, Granted, Brings, Echoed;
    var t, u := SecondPassRebuilds(s, v, libs, b, b, r, q);
    FinalStatusSettles(s, v.w.mon.value, Drive(s, v, r).w.mon.value, b.hash, v.w.podsReady, t, u);
  }
}
