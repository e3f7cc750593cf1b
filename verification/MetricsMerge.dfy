/** internal/builder/metrics_merge.go: libraries in order, then inline metrics, last one wins. */
module MetricsMerge {
  import opened Prelude
  import opened Api
  import opened Text

  const DEFAULT_INTERVAL := 60
  const SECOND := 1_000_000_000

  datatype MetricDef = MetricDef(
    sqls: map<int, string>,
    gauges: seq<string>,
    isInstanceLevel: bool,
    nodeStatus: string,
    description: string)

  datatype Merged = Merged(preset: string, intervals: map<string, int>, definitions: map<string, MetricDef>)

  // ---- one metric ----

  /** Go converts a float to int by truncating toward zero. */
  function WholeSeconds(nanoseconds: int): int {
    if nanoseconds < 0 then -((-nanoseconds) / SECOND) else nanoseconds / SECOND
  }

  function IntervalSeconds(duration: Option<int>): int {
    var interval := if duration.Some? then WholeSeconds(duration.value) else DEFAULT_INTERVAL;
    if interval <= 0 then DEFAULT_INTERVAL else interval
  }

  lemma IntervalIsPositive(duration: Option<int>)
    ensures var r := IntervalSeconds(duration);
            && r >= 1
            && (duration.None? || duration.value < 1_000_000_000 ==> r == 60)
            && (duration.Some? && duration.value >= 1_000_000_000 ==>
                  r * 1_000_000_000 <= duration.value < (r + 1) * 1_000_000_000)
  {}

  /** `r` keeps exactly the entries whose key is an integer, each under its integer, with
      the SQL text of some key that parses to it. */
  ghost predicate Versions(sqls: map<string, string>, r: map<int, string>) {
    && (forall k | k in sqls && Atoi(k).Some? :: Atoi(k).value in r)
    && (forall v | v in r :: exists k :: k in sqls && Atoi(k) == Some(v) && sqls[k] == r[v])
  }

  /** No two keys that parse to one integer carry different SQL. */
  ghost predicate Unambiguous(sqls: map<string, string>) {
    forall k, l | k in sqls && l in sqls && Atoi(k).Some? && Atoi(k) == Atoi(l) :: sqls[k] == sqls[l]
  }

  ghost predicate Lists(order: seq<string>, keys: set<string>) {
    && Elements(order) == keys
    && (forall i, j | 0 <= i < j < |order| :: order[i] != order[j])
  }

  /** What the loop over `md.SQLs` leaves behind when the map is visited in `order`. */
  ghost function Visit(sqls: map<string, string>, order: seq<string>): map<int, string>
    requires forall k | k in order :: k in sqls
  {
    if order == [] then map[] else
      var before, k := Visit(sqls, order[..|order| - 1]), order[|order| - 1];
      if Atoi(k).Some? then before[Atoi(k).value := sqls[k]] else before
  }

  lemma {:induction false} VisitExtends(sqls: map<string, string>, order: seq<string>)
    requires forall k | k in order :: k in sqls
    ensures forall k | k in order && Atoi(k).Some? :: Atoi(k).value in Visit(sqls, order)
    ensures forall v | v in Visit(sqls, order) ::
              exists k :: k in sqls && Atoi(k) == Some(v) && sqls[k] == Visit(sqls, order)[v]
  {
    if order != [] {
      var front, last := order[..|order| - 1], order[|order| - 1];
      VisitExtends(sqls, front);
      assert order == front + [last];
      assert last in sqls;
    }
  }

  lemma VersionsAreUnique(sqls: map<string, string>, r: map<int, string>, s: map<int, string>)
    requires Unambiguous(sqls) && Versions(sqls, r) && Versions(sqls, s)
    ensures r == s
  {
    forall v ensures v in r <==> v in s {}
    forall v | v in r ensures r[v] == s[v] {
      var k :| k in sqls && Atoi(k) == Some(v) && sqls[k] == r[v];
      var l :| l in sqls && Atoi(l) == Some(v) && sqls[l] == s[v];
    }
  }

  ghost function OrderEndingWith(keys: set<string>, k: string): (order: seq<string>)
    requires k in keys
    ensures Lists(order, keys) && order != [] && order[|order| - 1] == k
  {
    var front := Sorted(keys - {k});
    AscendingIsDistinct(front);
    assert k !in Elements(front);
    var order := front + [k];
    assert forall x :: x in order <==> x in front || x == k;
    assert forall x | x in front :: x in Elements(front);
    assert Elements(order) == Elements(front) + {k};
    order
  }

  lemma AscendingIsDistinct(s: seq<string>)
    requires Ascending(s)
    ensures forall i, j | 0 <= i < j < |s| :: s[i] != s[j]
  {
    forall i, j | 0 <= i < j < |s| ensures s[i] != s[j] { LessIsTotal(s[i], s[j]); }
  }

  lemma VisitLists(sqls: map<string, string>, order: seq<string>)
    requires Lists(order, sqls.Keys)
    ensures forall k | k in order :: k in sqls
    ensures Versions(sqls, Visit(sqls, order))
  {
    assert forall k | k in order :: k in Elements(order);
    assert forall k | k in sqls :: k in Elements(order);
    VisitExtends(sqls, order);
  }

  lemma LastVisitedWins(sqls: map<string, string>, order: seq<string>, k: string)
    requires Lists(order, sqls.Keys) && order != [] && order[|order| - 1] == k && Atoi(k).Some?
    ensures forall x | x in order :: x in sqls
    ensures Atoi(k).value in Visit(sqls, order) && Visit(sqls, order)[Atoi(k).value] == sqls[k]
  {
    VisitLists(sqls, order);
  }

  /** Ambiguous keys let two visiting orders leave different results. */
  lemma TwoOrders(sqls: map<string, string>) returns (p: seq<string>, q: seq<string>)
    requires !Unambiguous(sqls)
    ensures Lists(p, sqls.Keys) && Lists(q, sqls.Keys)
    ensures forall k | k in p || k in q :: k in sqls
    ensures Visit(sqls, p) != Visit(sqls, q)
  {
    hide Lists, Visit, Atoi;
    var k, l :| k in sqls && l in sqls && Atoi(k).Some? && Atoi(k) == Atoi(l) && sqls[k] != sqls[l];
    p, q := OrderEndingWith(sqls.Keys, k), OrderEndingWith(sqls.Keys, l);
    LastVisitedWins(sqls, p, k);
    LastVisitedWins(sqls, q, l);
  }

  /** Go's map iteration order is invisible exactly when the version keys are unambiguous. */
  lemma OrderIsInvisibleIff(sqls: map<string, string>)
    ensures Unambiguous(sqls) <==>
            forall p, q | Lists(p, sqls.Keys) && Lists(q, sqls.Keys) :: Visit(sqls, p) == Visit(sqls, q)
  {
    hide Visit, Unambiguous, Versions;
    forall p, q | Unambiguous(sqls) && Lists(p, sqls.Keys) && Lists(q, sqls.Keys)
      ensures Visit(sqls, p) == Visit(sqls, q)
    {
      VisitLists(sqls, p);
      VisitLists(sqls, q);
      VersionsAreUnique(sqls, Visit(sqls, p), Visit(sqls, q));
    }
    if !Unambiguous(sqls) {
      var p, q := TwoOrders(sqls);
    }
  }

  /** A key that does not parse, or whose SQL is the one `r` keeps. */
  predicate Agrees(sqls: map<string, string>, r: map<int, string>, k: string)
    requires k in sqls
  {
    Atoi(k).None? || (Atoi(k).value in r && r[Atoi(k).value] == sqls[k])
  }

  lemma {:induction false} AgreeingKeysWin(
    sqls: map<string, string>, r: map<int, string>, front: seq<string>, tail: seq<string>)
    requires forall k | k in front || k in tail :: k in sqls
    requires forall k | k in tail :: Agrees(sqls, r, k)
    ensures forall k | k in front + tail :: k in sqls
    ensures forall k | k in tail && Atoi(k).Some? ::
              Atoi(k).value in Visit(sqls, front + tail) && Visit(sqls, front + tail)[Atoi(k).value] == sqls[k]
  {
    if tail != [] {
      var init, last := tail[..|tail| - 1], tail[|tail| - 1];
      assert tail == init + [last];
      AgreeingKeysWin(sqls, r, front, init);
      var order := front + tail;
      assert order[..|order| - 1] == front + init && order[|order| - 1] == last;
      assert forall k | k in order :: k in sqls;
      forall k | k in tail && Atoi(k).Some?
        ensures Atoi(k).value in Visit(sqls, order) && Visit(sqls, order)[Atoi(k).value] == sqls[k]
      {
        assert Agrees(sqls, r, k) && Agrees(sqls, r, last);
        assert k == last || k in init;
      }
    }
  }

  lemma ListingsJoin(front: seq<string>, tail: seq<string>, a: set<string>, b: set<string>)
    requires Lists(front, a) && Lists(tail, b) && a !! b
    ensures Lists(front + tail, a + b)
  {
    assert forall k :: (k in front <==> k in Elements(front)) && (k in tail <==> k in Elements(tail));
    assert forall k :: k in front + tail <==> k in front || k in tail;
    assert Elements(front + tail) == a + b;
    forall i, j | 0 <= i < j < |front + tail| ensures (front + tail)[i] != (front + tail)[j] {
      if i < |front| <= j {
        assert front[i] in a && tail[j - |front|] in b;
      }
    }
  }

  lemma SortedLists(keys: set<string>)
    ensures Lists(Sorted(keys), keys)
  {
    AscendingIsDistinct(Sorted(keys));
  }

  /** Whatever `Versions` admits, some order of visiting the map leaves behind. */
  lemma VersionsAreReached(sqls: map<string, string>, r: map<int, string>) returns (order: seq<string>)
    requires Versions(sqls, r)
    ensures Lists(order, sqls.Keys) && (forall k | k in order :: k in sqls) && Visit(sqls, order) == r
  {
    hide Lists, Sorted, Visit, Atoi;
    var agreeing := set k | k in sqls && Agrees(sqls, r, k);
    var front, tail := Sorted(sqls.Keys - agreeing), Sorted(agreeing);
    SortedLists(sqls.Keys - agreeing);
    SortedLists(agreeing);
    ListingsJoin(front, tail, sqls.Keys - agreeing, agreeing);
    order := front + tail;
    assert (sqls.Keys - agreeing) + agreeing == sqls.Keys;
    assert forall k | k in front :: k in Elements(front);
    assert forall k | k in tail :: k in Elements(tail);
    AgreeingKeysWin(sqls, r, front, tail);
    VisitLists(sqls, order);
    var visited := Visit(sqls, order);
    forall v | v in r ensures v in visited && visited[v] == r[v] {
      var k :| k in sqls && Atoi(k) == Some(v) && sqls[k] == r[v];
      assert k in Elements(tail);
    }
    forall v | v in visited ensures v in r {
      var k :| k in sqls && Atoi(k) == Some(v) && sqls[k] == visited[v];
    }
    assert visited == r;
  }

  /** One legal outcome, fixed so that compilation is a function: the keys visited in order. */
  ghost function Canonical(sqls: map<string, string>): (r: map<int, string>)
    ensures Versions(sqls, r)
  {
    AscendingIsDistinct(Sorted(sqls.Keys));
    VisitLists(sqls, Sorted(sqls.Keys));
    Visit(sqls, Sorted(sqls.Keys))
  }

  /** The type's own documentation speaks of a `"*"` key as a fallback; the code drops it. A
      definition keeps some SQL exactly when one of its keys is an integer. */
  lemma SqlSurvivesIff(sqls: map<string, string>, r: map<int, string>)
    requires Versions(sqls, r)
    ensures r != map[] <==> exists k :: k in sqls && Atoi(k).Some?
    ensures sqls.Keys == {"*"} ==> r == map[]
  {
    if !exists k :: k in sqls && Atoi(k).Some? {
      assert forall v :: v !in r;
    }
    assert !IsDigit('*') && "*"[0] == '*';
    assert Atoi("*").None?;
  }

  /** `d` says what the user's metric says. */
  ghost predicate Renders(md: MetricDefinition, d: MetricDef) {
    && Versions(md.sqls, d.sqls)
    && d.gauges == md.gauges && d.isInstanceLevel == md.isInstanceLevel && d.description == md.description
    && (md.masterOnly ==> d.nodeStatus == "primary")
    && (!md.masterOnly && md.standbyOnly ==> d.nodeStatus == "standby")
    && (!md.masterOnly && !md.standbyOnly ==> d.nodeStatus == "")
  }

  ghost function Render(md: MetricDefinition): (d: MetricDef)
    ensures Renders(md, d)
  {
    var nodeStatus := if md.masterOnly then "primary" else if md.standbyOnly then "standby" else "";
    MetricDef(Canonical(md.sqls), md.gauges, md.isInstanceLevel, nodeStatus, md.description)
  }

  /** The SQL under a version that some key writes in decimal is that key's, where no other key
      that writes the version carries different SQL. */
  lemma VersionIsKept(sqls: map<string, string>, r: map<int, string>, key: string, version: nat)
    requires Versions(sqls, r) && key in sqls && Numeral(key, version) && version <= 9_223_372_036_854_775_807
    requires forall other | other in sqls && Writes(other, version) :: sqls[other] == sqls[key]
    ensures version in r && r[version] == sqls[key]
  {
    hide Numeral, Writes, Atoi;
    AtoiReads(key, version);
    var other :| other in sqls && Atoi(other) == Some(version as int) && sqls[other] == r[version];
    AtoiIff(other, version);
  }

  /** No version is kept that no key writes. */
  lemma NoVersionIsInvented(sqls: map<string, string>, r: map<int, string>, version: int)
    requires Versions(sqls, r) && version in r
    ensures exists key :: key in sqls && Writes(key, version) && sqls[key] == r[version]
  {
    hide Writes, Atoi;
    var key :| key in sqls && Atoi(key) == Some(version) && sqls[key] == r[version];
    AtoiIff(key, version);
  }

  // ---- last one wins ----

  ghost predicate IsLast(defs: seq<MetricDefinition>, i: int) {
    0 <= i < |defs| && forall j | i < j < |defs| :: defs[j].name != defs[i].name
  }

  function NamesOf(defs: seq<MetricDefinition>): set<string> {
    set md | md in defs :: md.name
  }

  /** Both maps hold exactly the names that occur, each with the values of its last occurrence. */
  ghost predicate LastWins(
    defs: seq<MetricDefinition>, intervals: map<string, int>, definitions: map<string, MetricDef>)
  {
    && intervals.Keys == definitions.Keys == NamesOf(defs)
    && (forall i | IsLast(defs, i) ::
          && defs[i].name in intervals
          && intervals[defs[i].name] == IntervalSeconds(defs[i].interval)
          && Renders(defs[i], definitions[defs[i].name]))
  }

  /** Every entry that is not shadowed is unambiguous. */
  ghost predicate Determined(defs: seq<MetricDefinition>) {
    forall i | IsLast(defs, i) :: Unambiguous(defs[i].sqls)
  }

  lemma {:induction false} LastOccurrence(defs: seq<MetricDefinition>, name: string) returns (i: nat)
    requires exists md :: md in defs && md.name == name
    ensures IsLast(defs, i) && defs[i].name == name
  {
    var n := |defs| - 1;
    if defs[n].name == name {
      i := n;
    } else {
      assert defs == defs[..n] + [defs[n]];
      i := LastOccurrence(defs[..n], name);
    }
  }

  lemma LastWinsIsUnique(
    defs: seq<MetricDefinition>,
    i: map<string, int>, d: map<string, MetricDef>, j: map<string, int>, e: map<string, MetricDef>)
    requires LastWins(defs, i, d) && LastWins(defs, j, e)
    ensures i == j
    ensures Determined(defs) ==> d == e
  {
    hide Versions, Unambiguous;
    forall name | name in i
      ensures i[name] == j[name] && (Determined(defs) ==> d[name] == e[name])
    {
      var n := LastOccurrence(defs, name);
      if Determined(defs) {
        VersionsAreUnique(defs[n].sqls, d[name].sqls, e[name].sqls);
      }
    }
  }

  lemma NamesGrow(defs: seq<MetricDefinition>, md: MetricDefinition)
    ensures NamesOf(defs + [md]) == NamesOf(defs) + {md.name}
  {
    var more := defs + [md];
    forall n | n in NamesOf(defs) + {md.name} ensures n in NamesOf(more) {
      if n == md.name {
        assert md in more;
      } else {
        var x :| x in defs && x.name == n;
        assert x in more;
      }
    }
  }

  lemma LastGrows(defs: seq<MetricDefinition>, md: MetricDefinition, k: int)
    requires IsLast(defs + [md], k)
    ensures if k < |defs| then IsLast(defs, k) && (defs + [md])[k] == defs[k] && defs[k].name != md.name
            else (defs + [md])[k] == md
  {
    var more := defs + [md];
    if k < |defs| {
      assert more[|defs|] == md;
      assert forall j | k < j < |defs| :: more[j] == defs[j];
    }
  }

  lemma LastWinsStep(
    defs: seq<MetricDefinition>, i: map<string, int>, d: map<string, MetricDef>,
    md: MetricDefinition, rendered: MetricDef)
    requires LastWins(defs, i, d) && Renders(md, rendered)
    ensures LastWins(defs + [md], i[md.name := IntervalSeconds(md.interval)], d[md.name := rendered])
  {
    hide Renders, IntervalSeconds, NamesOf, IsLast;
    NamesGrow(defs, md);
    forall k | IsLast(defs + [md], k)
      ensures 0 <= k < |defs + [md]|
      ensures var x := (defs + [md])[k];
              && x.name in i[md.name := IntervalSeconds(md.interval)]
              && i[md.name := IntervalSeconds(md.interval)][x.name] == IntervalSeconds(x.interval)
              && Renders(x, d[md.name := rendered][x.name])
    {
      LastIsIndex(defs + [md], k);
      LastGrows(defs, md, k);
    }
  }

  lemma LastIsIndex(defs: seq<MetricDefinition>, k: int)
    requires IsLast(defs, k)
    ensures 0 <= k < |defs|
  {}

  ghost function IntervalsOf(defs: seq<MetricDefinition>): map<string, int> {
    if defs == [] then map[] else
      var md := defs[|defs| - 1];
      IntervalsOf(defs[..|defs| - 1])[md.name := IntervalSeconds(md.interval)]
  }

  ghost function DefinitionsOf(defs: seq<MetricDefinition>): map<string, MetricDef> {
    if defs == [] then map[] else
      var md := defs[|defs| - 1];
      DefinitionsOf(defs[..|defs| - 1])[md.name := Render(md)]
  }

  lemma NothingIsMerged()
    ensures LastWins([], map[], map[])
  {}

  lemma {:induction false} FoldIsLastWins(defs: seq<MetricDefinition>)
    ensures LastWins(defs, IntervalsOf(defs), DefinitionsOf(defs))
  {
    hide LastWins, Renders, Render, IntervalSeconds;
    NothingIsMerged();
    if defs != [] {
      var front, md := defs[..|defs| - 1], defs[|defs| - 1];
      FoldIsLastWins(front);
      assert defs == front + [md];
      LastWinsStep(front, IntervalsOf(front), DefinitionsOf(front), md, Render(md));
    }
  }

  /** An ambiguous map leaves two different results open. */
  lemma TwoOutcomes(sqls: map<string, string>) returns (r: map<int, string>, t: map<int, string>)
    requires !Unambiguous(sqls)
    ensures Versions(sqls, r) && Versions(sqls, t) && r != t
  {
    hide Lists, Visit, Versions;
    var p, q := TwoOrders(sqls);
    VisitLists(sqls, p);
    VisitLists(sqls, q);
    r, t := Visit(sqls, p), Visit(sqls, q);
  }

  /** Another rendering of a last occurrence is another outcome of the merge. */
  lemma OutcomeWith(
    defs: seq<MetricDefinition>, i: map<string, int>, d: map<string, MetricDef>, n: int, r: map<int, string>)
    requires LastWins(defs, i, d) && IsLast(defs, n) && Versions(defs[n].sqls, r)
    ensures LastWins(defs, i, d[defs[n].name := Render(defs[n]).(sqls := r)])
  {
    hide Versions;
    var other := d[defs[n].name := Render(defs[n]).(sqls := r)];
    assert defs[n] in defs;
    forall k | IsLast(defs, k) ensures Renders(defs[k], other[defs[k].name]) {
      if defs[k].name == defs[n].name {
        assert k == n;
      }
    }
  }

  /** The merge has one outcome, for every order in which Go may visit its maps, exactly when
      every entry that is not shadowed is unambiguous. */
  lemma MergeIsUniqueIff(defs: seq<MetricDefinition>)
    ensures Determined(defs) <==>
            forall i, d, j, e | LastWins(defs, i, d) && LastWins(defs, j, e) :: i == j && d == e
  {
    hide LastWins, Unambiguous, Versions, Render;
    if Determined(defs) {
      forall i, d, j, e | LastWins(defs, i, d) && LastWins(defs, j, e) ensures i == j && d == e {
        LastWinsIsUnique(defs, i, d, j, e);
      }
    } else {
      var n :| IsLast(defs, n) && !Unambiguous(defs[n].sqls);
      var r, t := TwoOutcomes(defs[n].sqls);
      var i, d, name := IntervalsOf(defs), DefinitionsOf(defs), defs[n].name;
      FoldIsLastWins(defs);
      OutcomeWith(defs, i, d, n, r);
      OutcomeWith(defs, i, d, n, t);
      var e, f := d[name := Render(defs[n]).(sqls := r)], d[name := Render(defs[n]).(sqls := t)];
      assert e[name].sqls != f[name].sqls;
      assert LastWins(defs, i, e) && LastWins(defs, i, f) && e != f;
    }
  }

  /** Merging a concatenation is right-biased override. */
  lemma {:induction false} MergeConcatenates(a: seq<MetricDefinition>, b: seq<MetricDefinition>)
    ensures IntervalsOf(a + b) == IntervalsOf(a) + IntervalsOf(b)
    ensures DefinitionsOf(a + b) == DefinitionsOf(a) + DefinitionsOf(b)
    decreases |b|
  {
    hide Render, IntervalSeconds;
    if b == [] {
      assert a + b == a;
    } else {
      var front, md := b[..|b| - 1], b[|b| - 1];
      MergeConcatenates(a, front);
      assert (a + b)[..|a + b| - 1] == a + front && (a + b)[|a + b| - 1] == md;
      OverrideAssociates(IntervalsOf(a), IntervalsOf(front), md.name, IntervalSeconds(md.interval));
      OverrideAssociates(DefinitionsOf(a), DefinitionsOf(front), md.name, Render(md));
    }
  }

  lemma OverrideAssociates<V>(a: map<string, V>, b: map<string, V>, k: string, v: V)
    ensures (a + b)[k := v] == a + b[k := v]
  {}

  /** An entry that a later one of the same name shadows can be deleted. */
  lemma ShadowedEntriesAreDead(a: seq<MetricDefinition>, md: MetricDefinition, b: seq<MetricDefinition>)
    requires exists later :: later in b && later.name == md.name
    ensures IntervalsOf(a + [md] + b) == IntervalsOf(a + b)
    ensures DefinitionsOf(a + [md] + b) == DefinitionsOf(a + b)
  {
    MergeConcatenates(a + [md], b);
    MergeConcatenates(a, b);
    assert (a + [md])[..|a|] == a && (a + [md])[|a|] == md;
    FoldIsLastWins(b);
    OverrideHides(IntervalsOf(a), IntervalsOf(b), md.name, IntervalSeconds(md.interval));
    OverrideHides(DefinitionsOf(a), DefinitionsOf(b), md.name, Render(md));
  }

  lemma OverrideHides<V>(a: map<string, V>, b: map<string, V>, k: string, v: V)
    requires k in b
    ensures a[k := v] + b == a + b
  {}

  // ---- the procedures ----

  class Accumulator {
    var intervals: map<string, int>
    var definitions: map<string, MetricDef>
    ghost var added: seq<MetricDefinition>

    ghost predicate Valid()
      reads this
    {
      LastWins(added, intervals, definitions)
    }

    constructor ()
      ensures Valid() && added == []
    {
      intervals, definitions, added := map[], map[], [];
    }

    method AddMetric(md: MetricDefinition)
      requires Valid()
      modifies this
      ensures Valid() && added == old(added) + [md]
    {
      intervals := intervals[md.name := IntervalSeconds(md.interval)];
      var sqls := ParseVersions(md.sqls);
      var nodeStatus := "";
      if md.masterOnly {
        nodeStatus := "primary";
      } else if md.standbyOnly {
        nodeStatus := "standby";
      }
      var rendered := MetricDef(sqls, md.gauges, md.isInstanceLevel, nodeStatus, md.description);
      definitions := definitions[md.name := rendered];
      LastWinsStep(added, old(intervals), old(definitions), md, rendered);
      added := added + [md];
    }
  }

  /** The loop over `md.SQLs`; `:|` is Go's choice of the next key. */
  method ParseVersions(sqls: map<string, string>) returns (r: map<int, string>)
    ensures Versions(sqls, r)
    ensures exists order :: Lists(order, sqls.Keys) && (forall k | k in order :: k in sqls) && r == Visit(sqls, order)
  {
    r := map[];
    var rest := sqls.Keys;
    ghost var order: seq<string> := [];
    while rest != {}
      invariant rest <= sqls.Keys
      invariant Lists(order, sqls.Keys - rest)
      invariant forall k | k in order :: k in sqls && k !in rest
      invariant r == Visit(sqls, order)
    {
      var k :| k in rest;
      rest := rest - {k};
      assert k !in order;
      ghost var longer := order + [k];
      assert longer[..|longer| - 1] == order;
      assert Elements(longer) == Elements(order) + {k};
      order := longer;
      match Atoi(k) {
        case None =>
        case Some(version) => r := r[version := sqls[k]];
      }
    }
    assert Lists(order, sqls.Keys);
    VisitLists(sqls, order);
  }

  ghost function Flatten(libs: seq<Library>): seq<MetricDefinition> {
    if libs == [] then [] else Flatten(libs[..|libs| - 1]) + libs[|libs| - 1].metrics
  }

  /** Everything a monitor collects beside its preset, in merge order. */
  ghost function UserMetrics(spec: MetricsSpec, libs: seq<Library>): seq<MetricDefinition> {
    Flatten(libs) + spec.custom
  }

  lemma LastInTail(a: seq<MetricDefinition>, b: seq<MetricDefinition>, i: int)
    requires IsLast(b, i)
    ensures IsLast(a + b, |a| + i) && (a + b)[|a| + i] == b[i]
  {}

  lemma LastInFront(a: seq<MetricDefinition>, b: seq<MetricDefinition>, i: int)
    requires IsLast(a, i) && forall md | md in b :: md.name != a[i].name
    ensures IsLast(a + b, i) && (a + b)[i] == a[i]
  {
    forall j | i < j < |a + b| ensures (a + b)[j].name != a[i].name {
      if j >= |a| { assert b[j - |a|] in b; }
    }
  }

  lemma {:induction false} LastInLibrary(libs: seq<Library>, j: nat, i: int) returns (n: int)
    requires j < |libs| && IsLast(libs[j].metrics, i)
    requires forall k, md | j < k < |libs| && md in libs[k].metrics :: md.name != libs[j].metrics[i].name
    ensures IsLast(Flatten(libs), n) && Flatten(libs)[n] == libs[j].metrics[i]
  {
    var front, last := libs[..|libs| - 1], libs[|libs| - 1];
    if j == |libs| - 1 {
      n := |Flatten(front)| + i;
      LastInTail(Flatten(front), last.metrics, i);
    } else {
      assert forall k, md | j < k < |front| && md in front[k].metrics :: md in libs[k].metrics;
      n := LastInLibrary(front, j, i);
      LastInFront(Flatten(front), last.metrics, n);
    }
  }

  /** The name's interval and definition are those of this entry. */
  ghost predicate WonBy(m: Merged, md: MetricDefinition) {
    && md.name in m.intervals && m.intervals[md.name] == IntervalSeconds(md.interval)
    && md.name in m.definitions && Renders(md, m.definitions[md.name])
  }

  /** Nothing is merged that no library and no inline metric has. */
  lemma NothingElseIsMerged(spec: MetricsSpec, libs: seq<Library>, m: Merged, name: string)
    requires Merges(spec, libs, m) && (name in m.intervals || name in m.definitions)
    ensures (exists md :: md in spec.custom && md.name == name)
            || exists j, md :: 0 <= j < |libs| && md in libs[j].metrics && md.name == name
  {
    var md :| md in UserMetrics(spec, libs) && md.name == name;
    if md !in spec.custom {
      FlattenedIsListed(libs, md);
    }
  }

  lemma {:induction false} FlattenedIsListed(libs: seq<Library>, md: MetricDefinition)
    requires md in Flatten(libs)
    ensures exists j :: 0 <= j < |libs| && md in libs[j].metrics
  {
    var front := libs[..|libs| - 1];
    if md in Flatten(front) {
      FlattenedIsListed(front, md);
      var j :| 0 <= j < |front| && md in front[j].metrics;
      assert md in libs[j].metrics;
    } else {
      assert md in libs[|libs| - 1].metrics;
    }
  }

  /** An inline metric beats every library, and the last inline one of its name the others. */
  lemma CustomWins(spec: MetricsSpec, libs: seq<Library>, m: Merged, i: int)
    requires Merges(spec, libs, m) && IsLast(spec.custom, i)
    ensures WonBy(m, spec.custom[i])
  {
    hide Renders;
    LastInTail(Flatten(libs), spec.custom, i);
  }

  /** Where no inline metric has the name, the last library that has it wins, with its last
      entry of the name. */
  lemma LastLibraryWins(spec: MetricsSpec, libs: seq<Library>, m: Merged, j: nat, i: int)
    requires Merges(spec, libs, m) && j < |libs| && IsLast(libs[j].metrics, i)
    requires forall md | md in spec.custom :: md.name != libs[j].metrics[i].name
    requires forall k, md | j < k < |libs| && md in libs[k].metrics :: md.name != libs[j].metrics[i].name
    ensures WonBy(m, libs[j].metrics[i])
  {
    hide Renders, Flatten;
    var n := LastInLibrary(libs, j, i);
    LastInFront(Flatten(libs), spec.custom, n);
  }

  ghost function Merge(spec: MetricsSpec, libs: seq<Library>): Merged {
    var defs := UserMetrics(spec, libs);
    Merged(spec.preset, IntervalsOf(defs), DefinitionsOf(defs))
  }

  /** What MergeMetrics may return. */
  ghost predicate Merges(spec: MetricsSpec, libs: seq<Library>, m: Merged) {
    m.preset == spec.preset && LastWins(UserMetrics(spec, libs), m.intervals, m.definitions)
  }

  lemma MergeIsOutcome(spec: MetricsSpec, libs: seq<Library>)
    ensures Merges(spec, libs, Merge(spec, libs))
  {
    FoldIsLastWins(UserMetrics(spec, libs));
  }

  method MergeMetrics(spec: MetricsSpec, libs: seq<Library>) returns (m: Merged)
    ensures Merges(spec, libs, m)
    ensures Determined(UserMetrics(spec, libs)) ==> m == Merge(spec, libs)
  {
    hide LastWins, Determined, IntervalsOf, DefinitionsOf;
    var acc := new Accumulator();
    for i := 0 to |libs|
      invariant fresh(acc) && acc.Valid() && acc.added == Flatten(libs[..i])
    {
      var lib := libs[i];
      ghost var before := acc.added;
      for j := 0 to |lib.metrics|
        invariant fresh(acc) && acc.Valid() && acc.added == before + lib.metrics[..j]
      {
        acc.AddMetric(lib.metrics[j]);
        assert lib.metrics[..j + 1] == lib.metrics[..j] + [lib.metrics[j]];
      }
      assert lib.metrics[..|lib.metrics|] == lib.metrics;
      assert libs[..i + 1][..i] == libs[..i];
    }
    assert libs[..|libs|] == libs;
    for j := 0 to |spec.custom|
      invariant fresh(acc) && acc.Valid() && acc.added == Flatten(libs) + spec.custom[..j]
    {
      acc.AddMetric(spec.custom[j]);
      assert spec.custom[..j + 1] == spec.custom[..j] + [spec.custom[j]];
    }
    assert spec.custom[..|spec.custom|] == spec.custom;
    m := Merged(spec.preset, acc.intervals, acc.definitions);
    FoldIsLastWins(UserMetrics(spec, libs));
    LastWinsIsUnique(UserMetrics(spec, libs), m.intervals, m.definitions,
                     Merge(spec, libs).intervals, Merge(spec, libs).definitions);
  }
}
