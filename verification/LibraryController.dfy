/** internal/controller/pgpilotmetriclibrary_controller.go: the library's status, its step
    machine under interference, and why its own writes cannot keep it busy. */
module LibraryController {
  import opened Prelude
  import opened Api
  import opened Conditions

  datatype LibraryStatus = LibraryStatus(observedGeneration: nat, conditions: seq<Condition>)

  datatype StoredLibrary = StoredLibrary(version: nat, generation: nat, spec: Library, status: LibraryStatus)

  /** One library key: the object, its place in the queue, the delayed re-add. */
  datatype Store = Store(obj: Option<StoredLibrary>, versions: nat, dirty: bool, timer: bool)

  datatype LibraryPass = Resting | Started | Holding(lib: StoredLibrary) | Ended(ok: bool)

  datatype LibraryView = LibraryView(w: Store, pass: LibraryPass)

  datatype LibraryReply = Granted | Rejected | ReplyLost

  datatype LibraryStep =
    | Write(spec: Library)
    | Touch
    | Erase
    | Tick
    | Begin
    | Fetch(ok: bool)
    | WriteStatus(reply: LibraryReply, now: nat, echo: bool)
    | End
    | Restart

  function ValidCondition(spec: Library, generation: nat, now: nat): Condition {
    if spec.metrics != [] then
      Condition("Valid", true, "Valid", "Library contains metric definitions", generation, now)
    else
      Condition("Valid", false, "Empty", "Library has no metric definitions", generation, now)
  }

  function StatusOf(lib: StoredLibrary, now: nat): LibraryStatus {
    LibraryStatus(lib.generation, Set(lib.status.conditions, ValidCondition(lib.spec, lib.generation, now)))
  }

  function Stored(w: Store, lib: StoredLibrary): Store {
    w.(obj := Some(lib.(version := w.versions + 1)), versions := w.versions + 1)
  }

  predicate Fresh(w: Store, read: StoredLibrary) {
    w.obj.Some? && w.obj.value.version == read.version
  }

  /** A status update meets the version that was read or fails; an identical one is no write. */
  function StatusUpdated(w: Store, read: StoredLibrary, status: LibraryStatus, reply: LibraryReply, echo: bool): Store {
    if reply.Rejected? || !Fresh(w, read) || w.obj.value.status == status then w
    else Stored(w, w.obj.value.(status := status)).(dirty := w.dirty || echo)
  }

  function NextOfLibrary(v: LibraryView, step: LibraryStep): LibraryView {
    match step
    case Write(spec) =>
      if v.w.obj.None? then
        v.(w := Stored(v.w, StoredLibrary(0, 1, spec, LibraryStatus(0, []))).(dirty := true))
      else if v.w.obj.value.spec == spec then v
      else
        v.(w := Stored(v.w, v.w.obj.value.(spec := spec, generation := v.w.obj.value.generation + 1)).(dirty := true))
    case Touch => if v.w.obj.None? then v else v.(w := Stored(v.w, v.w.obj.value).(dirty := true))
    case Erase => v.(w := v.w.(obj := None, dirty := true))
    case Tick => v.(w := v.w.(timer := false, dirty := v.w.dirty || v.w.timer))
    case Begin => if v.w.dirty && v.pass.Resting? then LibraryView(v.w.(dirty := false), Started) else v
    case Fetch(ok) =>
      if !v.pass.Started? then v
      else if !ok then v.(pass := Ended(false))
      else v.(pass := if v.w.obj.None? then Ended(true) else Holding(v.w.obj.value))
    case WriteStatus(reply, now, echo) =>
      if !v.pass.Holding? then v
      else LibraryView(StatusUpdated(v.w, v.pass.lib, StatusOf(v.pass.lib, now), reply, echo),
                       Ended(reply.Granted? && Fresh(v.w, v.pass.lib)))
    case End => if v.pass.Ended? then LibraryView(v.w.(timer := v.w.timer || !v.pass.ok), Resting) else v
    case Restart => LibraryView(v.w.(dirty := v.w.obj.Some?, timer := false), Resting)
  }

  ghost function RunOfLibrary(v: LibraryView, steps: seq<LibraryStep>): LibraryView {
    if steps == [] then v
    else NextOfLibrary(RunOfLibrary(v, steps[..|steps| - 1]), steps[|steps| - 1])
  }

  // ---- invariant ----

  /** The one condition this controller sets says whether the library has metrics. */
  ghost predicate TellsTruth(lib: StoredLibrary) {
    var found := Lookup(lib.status.conditions, "Valid");
    |found| == 1 && found[0].status == (lib.spec.metrics != []) && found[0].generation == lib.generation
  }

  ghost predicate LibraryOk(lib: StoredLibrary) {
    && 1 <= lib.generation && lib.status.observedGeneration <= lib.generation
    && IsMap(lib.status.conditions)
    && (lib.status.observedGeneration == lib.generation ==> TellsTruth(lib))
  }

  ghost predicate UpToDate(w: Store) {
    w.obj.Some? ==> w.obj.value.status.observedGeneration == w.obj.value.generation
  }

  ghost predicate LibraryInv(v: LibraryView) {
    && (v.w.obj.Some? ==> LibraryOk(v.w.obj.value) && v.w.obj.value.version <= v.w.versions)
    && (v.pass.Holding? ==>
          && LibraryOk(v.pass.lib) && v.pass.lib.version <= v.w.versions
          && (Fresh(v.w, v.pass.lib) ==> v.w.obj == Some(v.pass.lib)))
    && (v.w.obj.Some? && !v.w.dirty ==>
          match v.pass
          case Resting => v.w.timer || UpToDate(v.w)
          case Started => true
          case Holding(lib) => v.w.obj == Some(lib)
          case Ended(ok) => ok ==> UpToDate(v.w))
  }

  lemma StatusOfIsTrue(lib: StoredLibrary, now: nat, version: nat)
    requires LibraryOk(lib)
    ensures LibraryOk(lib.(status := StatusOf(lib, now), version := version))
  {
    var c := ValidCondition(lib.spec, lib.generation, now);
    SetKeepsMap(lib.status.conditions, c);
    SetIsKeyedUpdate(lib.status.conditions, c, "Valid");
  }

  lemma LibraryStepKeepsInv(v: LibraryView, step: LibraryStep)
    requires LibraryInv(v)
    ensures LibraryInv(NextOfLibrary(v, step))
  {
    hide Set, StatusOf, Lookup;
    if step.WriteStatus? && v.pass.Holding? {
      StatusOfIsTrue(v.pass.lib, step.now, v.w.versions + 1);
      StatusOfIsTrue(v.pass.lib, step.now, v.pass.lib.version);
      StatusObserves(v.pass.lib, step.now);
    }
  }

  lemma StatusObserves(lib: StoredLibrary, now: nat)
    ensures StatusOf(lib, now).observedGeneration == lib.generation
  {}

  lemma {:induction false} LibraryRunKeepsInv(v: LibraryView, steps: seq<LibraryStep>)
    requires LibraryInv(v)
    ensures LibraryInv(RunOfLibrary(v, steps))
  {
    hide LibraryInv, NextOfLibrary;
    if steps != [] {
      LibraryRunKeepsInv(v, steps[..|steps| - 1]);
      LibraryStepKeepsInv(RunOfLibrary(v, steps[..|steps| - 1]), steps[|steps| - 1]);
    }
  }

  const NOTHING_YET := LibraryView(Store(None, 0, false, false), Resting)

  /** Over every run: the conditions stay a map, a current observed generation is the truth
      about the stored spec, and a key nobody is going to look at again is up to date. */
  lemma LibraryStatusIsTruthful(steps: seq<LibraryStep>)
    ensures var v := RunOfLibrary(NOTHING_YET, steps);
            v.w.obj.Some? ==>
              var lib := v.w.obj.value;
              && IsMap(lib.status.conditions)
              && lib.status.observedGeneration <= lib.generation
              && (lib.status.observedGeneration == lib.generation ==> TellsTruth(lib))
              && (v.pass.Resting? && !v.w.dirty && !v.w.timer ==>
                    lib.status.observedGeneration == lib.generation && TellsTruth(lib))
  {
    LibraryRunKeepsInv(NOTHING_YET, steps);
  }

  /** The transition time moves only when the library becomes empty or stops being so. */
  lemma TransitionsAreReal(v: LibraryView, step: LibraryStep)
    requires LibraryInv(v)
    requires var after := NextOfLibrary(v, step);
             && v.w.obj.Some? && after.w.obj.Some?
             && Lookup(v.w.obj.value.status.conditions, "Valid") != []
    ensures var before, now := Lookup(v.w.obj.value.status.conditions, "Valid"),
                               Lookup(NextOfLibrary(v, step).w.obj.value.status.conditions, "Valid");
            && now != []
            && (now[0].since != before[0].since ==> now[0].status != before[0].status)
  {
    hide Lookup, Set;
    if step.WriteStatus? && v.pass.Holding? {
      var lib := v.pass.lib;
      SetIsKeyedUpdate(lib.status.conditions, ValidCondition(lib.spec, lib.generation, step.now), "Valid");
    }
  }

  // ---- the fixed point ----

  /** A pass over a library whose status is already its own writes the identical status,
      whatever the clock says. */
  lemma StatusIsFixedPoint(lib: StoredLibrary, now: nat, later: nat, version: nat)
    requires IsMap(lib.status.conditions)
    ensures var written := lib.(status := StatusOf(lib, now), version := version);
            StatusOf(written, later) == written.status
  {
    SetIsIdempotent(lib.status.conditions, ValidCondition(lib.spec, lib.generation, now), later);
  }

  ghost function UndisturbedPass(v: LibraryView, now: nat, echo: bool): LibraryView {
    NextOfLibrary(
      NextOfLibrary(
        NextOfLibrary(
          NextOfLibrary(v, Begin),
          Fetch(true)),
        WriteStatus(Granted, now, echo)),
      End)
  }

  /** Self-triggering ends: left alone, the controller goes idle after at most two passes, at
      whatever times, and the second one leaves the stored library untouched. There is a second
      one exactly when the first wrote something and its event is delivered. */
  lemma TwoPassesAreEnough(v: LibraryView, now: nat, later: nat, echo: bool)
    requires LibraryInv(v) && v.pass.Resting? && v.w.dirty
    ensures var one := UndisturbedPass(v, now, echo);
            var two := UndisturbedPass(one, later, echo);
            && one.pass.Resting? && two.pass.Resting?
            && !two.w.dirty && (one.w.dirty <==> echo && one.w.obj != v.w.obj)
            && two.w.obj == one.w.obj && two.w.versions == one.w.versions
            && one.w.timer == v.w.timer && two.w.timer == v.w.timer
  {
    hide Set, StatusOf, LibraryOk;
    if v.w.obj.Some? {
      var lib := v.w.obj.value;
      assert IsMap(lib.status.conditions) by { LibraryIsMap(lib); }
      StatusIsFixedPoint(lib, now, later, v.w.versions + 1);
      StatusIsFixedPoint(lib, now, later, lib.version);
    }
  }

  lemma LibraryIsMap(lib: StoredLibrary)
    requires LibraryOk(lib)
    ensures IsMap(lib.status.conditions)
  {}

  // ---- the procedure ----

  class LibraryReconciler {
    var w: Store
    ghost var pass: LibraryPass
    ghost var origin: LibraryView
    ghost var trace: seq<LibraryStep>

    constructor (w: Store)
      ensures Valid() && this.w == w && pass == Resting && trace == []
    {
      this.w, this.pass, this.origin, this.trace := w, Resting, LibraryView(w, Resting), [];
    }

    ghost predicate Valid()
      reads this
    {
      LibraryView(w, pass) == RunOfLibrary(origin, trace)
    }

    ghost method Record(step: LibraryStep)
      requires LibraryView(w, pass) == NextOfLibrary(RunOfLibrary(origin, trace), step)
      modifies this`trace
      ensures Valid() && trace == old(trace) + [step]
    {
      trace := trace + [step];
      assert trace[..|trace| - 1] == old(trace);
    }

    /** Other writers act, any number of times. */
    method Yield()
      requires Valid()
      modifies this`w, this`trace
      ensures Valid() && old(trace) <= trace
    {
      var acts: seq<LibraryStep> := *;
      for i := 0 to |acts|
        invariant Valid() && old(trace) <= trace
      {
        if acts[i].Write? || acts[i].Touch? || acts[i].Erase? {
          w := NextOfLibrary(LibraryView(w, Resting), acts[i]).w;
          Record(acts[i]);
        }
      }
    }

    /** Reads the library, sets its condition and observed generation, writes the status on
        the version it read. */
    method Reconcile() returns (ok: bool)
      requires Valid() && pass == Started
      modifies this
      ensures Valid() && origin == old(origin) && old(trace) <= trace && pass == Ended(ok)
    {
      hide Set, RunOfLibrary;
      Yield();
      var fetched: bool := *;
      pass := if !fetched then Ended(false) else if w.obj.None? then Ended(true) else Holding(w.obj.value);
      Record(Fetch(fetched));
      if !fetched {
        return false;
      }
      if w.obj.None? {
        return true;
      }
      var lib := w.obj.value;

      var valid := |lib.spec.metrics| > 0;
      var now: nat := *;
      var status, reason, message := true, "Valid", "Library contains metric definitions";
      if !valid {
        status, reason, message := false, "Empty", "Library has no metric definitions";
      }
      var conditions := Set(lib.status.conditions, Condition("Valid", status, reason, message, lib.generation, now));
      var written := LibraryStatus(lib.generation, conditions);

      Yield();
      var reply: LibraryReply, echo: bool := *, *;
      ok := reply.Granted? && Fresh(w, lib);
      w := StatusUpdated(w, lib, written, reply, echo);
      pass := Ended(ok);
      Record(WriteStatus(reply, now, echo));
    }
  }
}
