/** internal/builder/configmap.go and pgwatch_builtin.go: the two generated files, the
    connection string and the content hash. */
module ConfigMaps {
  import opened Prelude
  import opened Api
  import opened Text
  import opened Labels
  import opened MetricsMerge
  import opened Children

  // ---- structured files ----

  datatype Source = Source(
    name: string,
    connStr: string,
    kind: string,
    presetMetrics: string,
    customMetrics: map<string, int>,
    isEnabled: bool,
    customTags: StringMap)

  datatype Metric = Metric(
    initSql: string,
    sqls: map<int, string>,
    gauges: seq<string>,
    isInstanceLevel: bool,
    nodeStatus: string,
    storageName: string,
    description: string)

  datatype Preset = Preset(description: string, metrics: map<string, int>)

  datatype MetricsFile = MetricsFile(metrics: map<string, Metric>, presets: map<string, Preset>)

  type Digest = s: string | |s| == 64 witness seq(64, _ => '0')

  /** The three libraries the builder calls and the registry it embeds, as arbitrary inputs:
      the YAML printers with the readers of the other side, SHA-256, pgwatch's metrics.yaml. */
  datatype Toolkit = Toolkit(
    printSources: seq<Source> -> string,
    readSources: string -> Option<seq<Source>>,
    printMetrics: MetricsFile -> string,
    readMetrics: string -> Option<MetricsFile>,
    sha256: string -> Sha,
    builtin: MetricsFile)
  {
    /** Reading back what was printed. */
    ghost predicate PrintsReadably() {
      && (forall s :: readSources(printSources(s)) == Some(s))
      && (forall f :: readMetrics(printMetrics(f)) == Some(f))
    }

    ghost predicate PrintsNoNul() {
      && (forall s :: NUL !in printSources(s))
      && (forall f :: NUL !in printMetrics(f))
    }

    /** A collision: two texts under one digest. */
    predicate Collide(a: string, b: string) {
      a != b && sha256(a) == sha256(b)
    }
  }

  type Sha = s: seq<Byte> | |s| == 32 witness seq(32, _ => 0)

  // ---- sources.yaml ----

  function BuildConnStr(db: DatabaseRef): string {
    var port := if db.port == 0 then 5432 else db.port;
    var sslmode := if db.sslmode == "" then "disable" else db.sslmode;
    "postgresql://" + db.host + ":" + PrintInt(port) + "/" + db.database + "?sslmode=" + sslmode
  }

  /** expandPresetIntoIntervals: the preset's intervals, then the user's over them. */
  method ExpandPreset(builtin: MetricsFile, preset: string, user: map<string, int>)
    returns (r: Option<map<string, int>>)
    ensures r.None? <==> preset !in builtin.presets
    ensures r == ExpandedPreset(builtin, preset, user)
  {
    if preset !in builtin.presets {
      return None;
    }
    var out: map<string, int> := map[];
    out := out + builtin.presets[preset].metrics;
    out := out + user;
    assert out == builtin.presets[preset].metrics + user;
    r := Some(out);
  }

  function ExpandedPreset(builtin: MetricsFile, preset: string, user: map<string, int>): Option<map<string, int>> {
    if preset in builtin.presets then Some(builtin.presets[preset].metrics + user) else None
  }

  function SourceOf(builtin: MetricsFile, name: string, db: DatabaseRef, merged: Merged): Option<Source> {
    var src := Source(name, BuildConnStr(db), "postgres", "", map[], true, db.customTags);
    if merged.preset != "" && |merged.intervals| > 0 then
      match ExpandedPreset(builtin, merged.preset, merged.intervals)
      case Some(expanded) => Some(src.(customMetrics := expanded))
      case None => None
    else if merged.preset != "" then Some(src.(presetMetrics := merged.preset))
    else if |merged.intervals| > 0 then Some(src.(customMetrics := merged.intervals))
    else Some(src)
  }

  method RenderSources(tk: Toolkit, name: string, db: DatabaseRef, merged: Merged) returns (r: Option<string>)
    ensures r == match SourceOf(tk.builtin, name, db, merged)
                 case Some(src) => Some(tk.printSources([src]))
                 case None => None
  {
    var src := Source(name, BuildConnStr(db), "postgres", "", map[], true, db.customTags);
    if merged.preset != "" && |merged.intervals| > 0 {
      var expanded := ExpandPreset(tk.builtin, merged.preset, merged.intervals);
      if expanded.None? {
        return None;
      }
      src := src.(customMetrics := expanded.value);
    } else if merged.preset != "" {
      src := src.(presetMetrics := merged.preset);
    } else if |merged.intervals| > 0 {
      src := src.(customMetrics := merged.intervals);
    }
    r := Some(tk.printSources([src]));
  }

  // ---- metrics.yaml ----

  function MetricOf(d: MetricDef): Metric {
    Metric("", d.sqls, d.gauges, d.isInstanceLevel, d.nodeStatus, "", d.description)
  }

  /** The file's entry says, field by field, what the definition says, and no more. */
  predicate CarriesOver(d: MetricDef, x: Metric) {
    && x.sqls == d.sqls && x.gauges == d.gauges && x.isInstanceLevel == d.isInstanceLevel
    && x.nodeStatus == d.nodeStatus && x.description == d.description
    && x.initSql == "" && x.storageName == ""
  }

  /** The user's definitions; beside them the built-in registry if a preset is named, and
      nothing otherwise. */
  predicate FileSays(builtin: MetricsFile, merged: Merged, file: MetricsFile) {
    && (forall n | n in merged.definitions :: n in file.metrics && CarriesOver(merged.definitions[n], file.metrics[n]))
    && (forall n | n in file.metrics && n !in merged.definitions ::
          merged.preset != "" && n in builtin.metrics && file.metrics[n] == builtin.metrics[n])
    && (merged.preset != "" ==> forall n | n in builtin.metrics :: n in file.metrics)
    && file.presets == if merged.preset != "" then builtin.presets else map[]
  }

  lemma FileSaysWhatItShould(builtin: MetricsFile, merged: Merged)
    ensures FileSays(builtin, merged, MetricsFileOf(builtin, merged))
  {
    var file := MetricsFileOf(builtin, merged);
    forall n | n in merged.definitions ensures CarriesOver(merged.definitions[n], file.metrics[n]) {}
  }

  /** Built-in entries when a preset is named, the user's definitions over them. */
  function MetricsFileOf(builtin: MetricsFile, merged: Merged): MetricsFile {
    var base := if merged.preset != "" then builtin else MetricsFile(map[], map[]);
    MetricsFile(base.metrics + (map n | n in merged.definitions :: MetricOf(merged.definitions[n])), base.presets)
  }

  /** The user's entries for some of the names. */
  function Overlay(definitions: map<string, MetricDef>, names: set<string>): map<string, Metric> {
    map n | n in definitions && n in names :: MetricOf(definitions[n])
  }

  lemma OverlayGrows(definitions: map<string, MetricDef>, names: set<string>, name: string)
    requires name in definitions
    ensures Overlay(definitions, names + {name}) == Overlay(definitions, names)[name := MetricOf(definitions[name])]
  {}

  lemma OverlayOfNone(definitions: map<string, MetricDef>)
    ensures Overlay(definitions, {}) == map[]
  {}

  lemma OverlaidFile(builtin: MetricsFile, merged: Merged)
    ensures var base := if merged.preset != "" then builtin else MetricsFile(map[], map[]);
            MetricsFileOf(builtin, merged) ==
            MetricsFile(base.metrics + Overlay(merged.definitions, merged.definitions.Keys), base.presets)
  {
    assert Overlay(merged.definitions, merged.definitions.Keys) ==
           map n | n in merged.definitions :: MetricOf(merged.definitions[n]);
  }

  /** renderMetrics visits `merged.Definitions` in Go's order; `:|` is that choice. */
  method RenderMetrics(tk: Toolkit, merged: Merged) returns (text: string)
    ensures text == tk.printMetrics(MetricsFileOf(tk.builtin, merged))
    ensures FileSays(tk.builtin, merged, MetricsFileOf(tk.builtin, merged))
  {
    hide Overlay, MetricsFileOf, FileSays;
    FileSaysWhatItShould(tk.builtin, merged);
    assert Overlay(merged.definitions, {}) == map[] by { OverlayOfNone(merged.definitions); }
    var metrics: map<string, Metric> := map[];
    var presets: map<string, Preset> := map[];
    if merged.preset != "" {
      metrics := metrics + tk.builtin.metrics;
      presets := presets + tk.builtin.presets;
    }
    ghost var base := metrics;
    assert base == (if merged.preset != "" then tk.builtin.metrics else map[]);
    assert presets == (if merged.preset != "" then tk.builtin.presets else map[]);
    ghost var seen: set<string> := {};
    var rest := merged.definitions.Keys;
    while rest != {}
      invariant rest <= merged.definitions.Keys && seen == merged.definitions.Keys - rest
      invariant metrics == base + Overlay(merged.definitions, seen)
    {
      var name :| name in rest;
      OverlayGrows(merged.definitions, seen, name);
      rest, seen := rest - {name}, seen + {name};
      var def := merged.definitions[name];
      var entry := Metric("", def.sqls, def.gauges, def.isInstanceLevel, def.nodeStatus, "", def.description);
      metrics := metrics[name := entry];
    }
    OverlaidFile(tk.builtin, merged);
    assert seen == merged.definitions.Keys;
    text := tk.printMetrics(MetricsFile(metrics, presets));
  }

  // ---- content hash ----

  const NUL: char := 0 as char

  function Entry(key: string, value: string): string {
    key + [NUL] + value + [NUL]
  }

  function Framed(data: StringMap, keys: seq<string>): string
    requires forall k | k in keys :: k in data
  {
    if keys == [] then "" else
      var k := keys[|keys| - 1];
      Framed(data, keys[..|keys| - 1]) + Entry(k, data[k])
  }

  /** The byte stream that is hashed: every entry as key NUL value NUL, keys ascending. */
  ghost function Stream(data: StringMap): string {
    assert forall k | k in Sorted(data.Keys) :: k in Elements(Sorted(data.Keys));
    Framed(data, Sorted(data.Keys))
  }

  ghost function ContentHash(tk: Toolkit, data: StringMap): Digest {
    Hex(tk.sha256(Stream(data)))
  }

  method Swap(a: array<string>, i: nat, j: nat)
    requires i < j < a.Length
    modifies a
    ensures a[..] == old(a[..])[i := old(a[j])][j := old(a[i])]
    ensures Elements(a[..]) == old(Elements(a[..]))
  {
    ghost var before := a[..];
    a[i], a[j] := a[j], a[i];
    forall x ensures x in before <==> x in a[..] {
      if x in before {
        var k :| 0 <= k < |before| && before[k] == x;
        assert a[..][if k == i then j else if k == j then i else k] == x;
      }
      if x in a[..] {
        var k :| 0 <= k < a.Length && a[..][k] == x;
        assert before[if k == i then j else if k == j then i else k] == x;
      }
    }
  }

  ghost predicate Distinct(s: seq<string>) {
    forall i, j | 0 <= i < j < |s| :: s[i] != s[j]
  }

  /** sort.Strings, in place, on keys of a map. */
  method SortStrings(a: array<string>)
    requires Distinct(a[..])
    modifies a
    ensures Ascending(a[..]) && Elements(a[..]) == old(Elements(a[..]))
  {
    for i := 0 to a.Length
      invariant Distinct(a[..]) && Elements(a[..]) == old(Elements(a[..]))
      invariant Ascending(a[..i])
    {
      var j := i;
      while j > 0 && Less(a[j], a[j - 1])
        invariant j <= i
        invariant Distinct(a[..]) && Elements(a[..]) == old(Elements(a[..]))
        invariant forall p, q | 0 <= p < q <= i && q != j :: Less(a[p], a[q])
      {
        Swap(a, j - 1, j);
        j := j - 1;
      }
      SiftedIsAscending(a[..], i, j);
    }
    assert a[..a.Length] == a[..];
  }

  lemma SiftedIsAscending(s: seq<string>, i: nat, j: nat)
    requires j <= i < |s| && Distinct(s)
    requires forall p, q | 0 <= p < q <= i && q != j :: Less(s[p], s[q])
    requires j == 0 || !Less(s[j], s[j - 1])
    ensures Ascending(s[..i + 1])
  {
    if j > 0 {
      LessIsTotal(s[j], s[j - 1]);
      forall p | 0 <= p < j - 1 ensures Less(s[p], s[j]) {
        LessIsTransitive(s[p], s[j - 1], s[j]);
      }
    }
  }

  lemma NoKeys()
    ensures Distinct([]) && Elements([]) == {}
  {}

  /** The slice of keys, filled in Go's map order. */
  method CollectKeys(data: StringMap) returns (keys: array<string>)
    ensures fresh(keys) && Distinct(keys[..]) && Elements(keys[..]) == data.Keys
  {
    keys := new string[|data|];
    var rest := data.Keys;
    var n := 0;
    NoKeys();
    hide Distinct, Elements;
    while rest != {}
      invariant rest <= data.Keys && n + |rest| == |data| == keys.Length && fresh(keys)
      invariant Distinct(keys[..n]) && Elements(keys[..n]) == data.Keys - rest
    {
      var k :| k in rest;
      ghost var listed := keys[..n];
      AppendIsDistinct(listed, k);
      rest := rest - {k};
      keys[n] := k;
      n := n + 1;
      assert keys[..n] == listed + [k];
    }
    assert keys[..n] == keys[..];
  }

  lemma AppendIsDistinct(s: seq<string>, k: string)
    requires Distinct(s) && k !in Elements(s)
    ensures Distinct(s + [k]) && Elements(s + [k]) == Elements(s) + {k}
  {}

  lemma StreamIs(data: StringMap, keys: seq<string>)
    requires Ascending(keys) && Elements(keys) == data.Keys
    ensures forall k | k in keys :: k in data
    ensures Stream(data) == Framed(data, keys)
  {
    assert forall k | k in keys :: k in Elements(keys);
    SortedIs(data.Keys, keys);
  }

  method ComputeContentHash(tk: Toolkit, data: StringMap) returns (hash: Digest)
    ensures hash == ContentHash(tk, data)
  {
    hide Ascending, Elements, Distinct, Stream, Hex;
    var keys := CollectKeys(data);
    SortStrings(keys);
    ghost var sorted := keys[..];
    StreamIs(data, sorted);
    var stream := "";
    for i := 0 to keys.Length
      invariant keys[..] == sorted
      invariant stream == Framed(data, sorted[..i])
    {
      var k := keys[i];
      assert sorted[i] in sorted;
      stream := stream + (k + [0 as char] + data[k] + [0 as char]);
      assert sorted[..i + 1][..i] == sorted[..i];
    }
    assert sorted[..keys.Length] == sorted;
    hash := Hex(tk.sha256(stream));
  }

  // ---- the frame can be read back ----

  /** Splits a stream at its first NUL. */
  function Cut(s: string): Option<(string, string)> {
    if s == [] then None
    else if s[0] == NUL then Some(([], s[1..]))
    else match Cut(s[1..])
         case Some((head, tail)) => Some(([s[0]] + head, tail))
         case None => None
  }

  lemma {:induction false} CutFindsFirst(a: string, b: string)
    requires NUL !in a
    ensures Cut(a + [NUL] + b) == Some((a, b))
  {
    var s := a + [NUL] + b;
    if a == [] {
      assert s[1..] == b;
    } else {
      assert s[0] == a[0] && s[1..] == a[1..] + [NUL] + b;
      CutFindsFirst(a[1..], b);
      assert [a[0]] + a[1..] == a;
    }
  }

  function Decode(s: string): StringMap
    decreases |s|
  {
    match Cut(s)
    case None => map[]
    case Some((key, afterKey)) =>
      CutShrinks(s);
      match Cut(afterKey)
      case None => map[]
      case Some((value, rest)) =>
        CutShrinks(afterKey);
        map[key := value] + Decode(rest)
  }

  lemma {:induction false} CutShrinks(s: string)
    ensures Cut(s).Some? ==> |Cut(s).value.1| < |s|
  {
    if s != [] && s[0] != NUL {
      CutShrinks(s[1..]);
    }
  }

  ghost predicate NulFree(data: StringMap) {
    forall k | k in data :: NUL !in k && NUL !in data[k]
  }

  lemma DecodeEntry(key: string, value: string, rest: string)
    requires NUL !in key && NUL !in value
    ensures Decode(Entry(key, value) + rest) == map[key := value] + Decode(rest)
  {
    var s := Entry(key, value) + rest;
    assert s == key + [NUL] + (value + [NUL] + rest);
    CutFindsFirst(key, value + [NUL] + rest);
    CutFindsFirst(value, rest);
  }

  function Picked(data: StringMap, keys: seq<string>): StringMap
    requires forall k | k in keys :: k in data
  {
    map k | k in keys :: data[k]
  }

  lemma PickedFromFront(data: StringMap, keys: seq<string>)
    requires keys != [] && forall k | k in keys :: k in data
    ensures Picked(data, keys) == map[keys[0] := data[keys[0]]] + Picked(data, keys[1..])
  {
    assert keys == [keys[0]] + keys[1..];
  }

  lemma {:induction false} DecodeReadsFrame(data: StringMap, keys: seq<string>)
    requires NulFree(data) && forall k | k in keys :: k in data
    ensures Decode(Framed(data, keys)) == Picked(data, keys)
  {
    if keys != [] {
      hide Picked, Decode, Framed, Entry;
      FrameFromFront(data, keys);
      DecodeEntry(keys[0], data[keys[0]], Framed(data, keys[1..]));
      DecodeReadsFrame(data, keys[1..]);
      PickedFromFront(data, keys);
    }
  }

  lemma {:induction false} FrameFromFront(data: StringMap, keys: seq<string>)
    requires keys != [] && forall k | k in keys :: k in data
    ensures Framed(data, keys) == Entry(keys[0], data[keys[0]]) + Framed(data, keys[1..])
  {
    var front, last := keys[..|keys| - 1], keys[|keys| - 1];
    if front == [] {
      assert keys[1..] == [];
    } else {
      FrameFromFront(data, front);
      assert front[1..] == keys[1..][..|keys[1..]| - 1];
      Associate(Entry(keys[0], data[keys[0]]), Framed(data, front[1..]), Entry(last, data[last]));
    }
  }

  lemma Associate(a: string, b: string, c: string)
    ensures (a + b) + c == a + (b + c)
  {}

  /** A decoder recovers the map from the hashed stream. */
  lemma DecodeInvertsStream(data: StringMap)
    requires NulFree(data)
    ensures Decode(Stream(data)) == data
  {
    var keys := Sorted(data.Keys);
    assert forall k | k in data :: k in Elements(keys);
    assert forall k | k in keys :: k in Elements(keys);
    DecodeReadsFrame(data, keys);
  }

  /** Two maps share a hash exactly when they are equal or their streams are a collision of
      the digest. */
  lemma HashIdentifiesData(tk: Toolkit, a: StringMap, b: StringMap)
    requires NulFree(a) && NulFree(b)
    ensures ContentHash(tk, a) == ContentHash(tk, b) <==> a == b || tk.Collide(Stream(a), Stream(b))
  {
    hide Stream, Hex, Decode;
    if ContentHash(tk, a) == ContentHash(tk, b) {
      HexInjective(tk.sha256(Stream(a)), tk.sha256(Stream(b)));
    }
    DecodeInvertsStream(a);
    DecodeInvertsStream(b);
  }

  /** The hypothesis on NUL is needed: one entry can imitate two, whatever the digest. */
  lemma NulBreaksTheHash(tk: Toolkit)
    ensures var a := map["k" := "v" + [NUL] + "l" + [NUL] + "w"];
            var b := map["k" := "v", "l" := "w"];
            a != b && ContentHash(tk, a) == ContentHash(tk, b)
  {
    hide Hex, Stream, Framed, Entry;
    var a := map["k" := "v" + [NUL] + "l" + [NUL] + "w"];
    var b := map["k" := "v", "l" := "w"];
    assert "l" in b && "l" !in a;
    StreamIs(a, ["k"]);
    StreamIs(b, ["k", "l"]);
    FrameFromFront(b, ["k", "l"]);
    assert ["k", "l"][1..] == ["l"];
    FrameOfOne(a, "k");
    FrameOfOne(b, "l");
    OneEntryIsTwo();
  }

  lemma OneEntryIsTwo()
    ensures Entry("k", "v" + [NUL] + "l" + [NUL] + "w") == Entry("k", "v") + Entry("l", "w")
  {}

  lemma FrameOfOne(data: StringMap, k: string)
    requires k in data
    ensures Framed(data, [k]) == Entry(k, data[k])
  {
    assert [k][..0] == [];
  }

  lemma SortedIs(keys: set<string>, s: seq<string>)
    requires Ascending(s) && Elements(s) == keys
    ensures Sorted(keys) == s
  {
    AscendingIsUnique(Sorted(keys), s);
  }

  // ---- the ConfigMap ----

  function DataOf(tk: Toolkit, key: Key, db: DatabaseRef, merged: Merged): Option<StringMap> {
    match SourceOf(tk.builtin, key.name, db, merged)
    case None => None
    case Some(src) =>
      var data := map[SOURCES_KEY := tk.printSources([src])];
      Some(if NeedsMetricsFile(merged) then data[METRICS_KEY := tk.printMetrics(MetricsFileOf(tk.builtin, merged))]
           else data)
  }

  function ConfigMapOf(key: Key, data: StringMap): ConfigMap {
    ConfigMap(Key(key.namespace, ConfigMapName(key.name)), SystemLabels(key.name), data)
  }

  lemma ConfigMapSaysWhose(key: Key, data: StringMap)
    ensures ConfigMapOf(key, data).key == Key(key.namespace, "pgpilot-" + key.name + "-config")
    ensures SaysWhose(ConfigMapOf(key, data).labels, key.name)
  {
    hide SaysWhose, SystemLabels;
    SystemLabelsAre(key.name);
  }

  method BuildConfigMap(tk: Toolkit, key: Key, spec: MonitorSpec, merged: Merged)
    returns (r: Option<(ConfigMap, Digest)>)
    ensures r == match DataOf(tk, key, spec.database, merged)
                 case Some(data) => Some((ConfigMapOf(key, data), ContentHash(tk, data)))
                 case None => None
  {
    var sources := RenderSources(tk, key.name, spec.database, merged);
    if sources.None? {
      return None;
    }
    var data := map[SOURCES_KEY := sources.value];
    if merged.preset != "" || |merged.definitions| > 0 {
      var metrics := RenderMetrics(tk, merged);
      data := data[METRICS_KEY := metrics];
    }
    var hash := ComputeContentHash(tk, data);
    r := Some((ConfigMapOf(key, data), hash));
  }

  lemma GeneratedDataIsNulFree(tk: Toolkit, key: Key, db: DatabaseRef, merged: Merged)
    requires tk.PrintsNoNul()
    ensures DataOf(tk, key, db, merged).Some? ==> NulFree(DataOf(tk, key, db, merged).value)
  {
    hide SourceOf, MetricsFileOf;
    assert NUL !in SOURCES_KEY && NUL !in METRICS_KEY;
  }

  // ---- the connection string can be read back ----

  datatype Target = Target(host: string, port: int, database: string, sslmode: string)

  /** Everything before the first of `stops`, and the rest from there on. */
  function Until(s: string, stops: set<char>): (r: (string, string))
    ensures s == r.0 + r.1
    ensures forall c | c in stops :: c !in r.0
    ensures r.1 != [] ==> r.1[0] in stops
  {
    if s == [] || s[0] in stops then ([], s)
    else var (head, tail) := Until(s[1..], stops); ([s[0]] + head, tail)
  }

  lemma {:induction false} UntilFindsFirst(a: string, b: string, stops: set<char>)
    requires forall c | c in stops :: c !in a
    requires b == [] || b[0] in stops
    ensures Until(a + b, stops) == (a, b)
  {
    if a == [] {
      assert a + b == b;
    } else {
      assert (a + b)[0] == a[0] && (a + b)[1..] == a[1..] + b;
      assert a[0] in a;
      UntilFindsFirst(a[1..], b, stops);
      assert [a[0]] + a[1..] == a;
    }
  }

  lemma UntilFindsNone(a: string, stops: set<char>)
    requires forall c | c in stops :: c !in a
    ensures Until(a, stops) == (a, [])
  {
    UntilFindsFirst(a, [], stops);
    assert a + [] == a;
  }

  function AfterPrefix(s: string, prefix: string): Option<string> {
    if prefix <= s then Some(s[|prefix|..]) else None
  }

  predicate Plain(text: string) {
    '/' !in text && '?' !in text && '#' !in text && '@' !in text
  }

  /** What can stand as a host: no delimiter of the generic syntax, and colons only inside one
      pair of brackets around the whole. */
  predicate HostReadsBack(host: string) {
    && Plain(host)
    && (if host != [] && host[0] == '[' then |Until(host, {']'}).1| == 1 else ':' !in host)
  }

  /** The host up to ':' or, if it opens with '[', up to ']', and after a colon the port. */
  function ParseHostPort(text: string): (r: Option<(string, string)>)
    requires Plain(text)
    ensures r.Some? ==> HostReadsBack(r.value.0)
  {
    if text != [] && text[0] == '[' then
      var (inside, close) := Until(text, {']'});
      if close == [] then None
      else
        BracketsClose(inside);
        match AfterPrefix(close[1..], ":")
        case Some(port) => Some((inside + "]", port))
        case None => None
    else
      var (host, rest) := Until(text, {':'});
      match AfterPrefix(rest, ":")
      case Some(port) => Some((host, port))
      case None => None
  }

  lemma BracketsClose(inside: string)
    requires ']' !in inside
    ensures Until(inside + "]", {']'}) == (inside, "]")
  {
    UntilFindsFirst(inside, "]", {']'});
  }

  /** Section 3.2 of RFC 3986: user information up to '@', then host and port. */
  function ParseAuthority(authority: string): (r: Option<(string, string)>)
    requires '/' !in authority && '?' !in authority && '#' !in authority
    ensures r.Some? ==> HostReadsBack(r.value.0)
  {
    var (userInfo, at) := Until(authority, {'@'});
    var hostPort := if at == [] then authority else at[1..];
    if '@' in hostPort then None else ParseHostPort(hostPort)
  }

  /** The split of section 3 of RFC 3986: scheme; authority up to the first '/', '?' or '#';
      path up to '?' or '#'; query up to '#'; and a fragment, which is dropped. */
  function ParseConnStr(s: string): (r: Option<Target>)
    ensures r.Some? ==>
              && HostReadsBack(r.value.host) && r.value.port >= 0
              && '?' !in r.value.database && '#' !in r.value.database && '#' !in r.value.sslmode
  {
    match AfterPrefix(s, "postgresql://")
    case None => None
    case Some(hierarchy) =>
      var (authority, afterAuthority) := Until(hierarchy, {'/', '?', '#'});
      var (path, afterPath) := Until(afterAuthority, {'?', '#'});
      var (query, fragment) := Until(afterPath, {'#'});
      match (ParseAuthority(authority), AfterPrefix(path, "/"), AfterPrefix(query, "?sslmode="))
      case (Some((host, portText)), Some(database), Some(sslmode)) =>
        (match ParseNat(portText)
         case Some(port) => Some(Target(host, port, database, sslmode))
         case None => None)
      case _ => None
  }

  function EffectivePort(db: DatabaseRef): int { if db.port == 0 then 5432 else db.port }

  function EffectiveSslMode(db: DatabaseRef): string { if db.sslmode == "" then "disable" else db.sslmode }

  function EffectiveTarget(db: DatabaseRef): Target {
    Target(db.host, EffectivePort(db), db.database, EffectiveSslMode(db))
  }

  predicate TargetReadsBack(t: Target) {
    && HostReadsBack(t.host) && t.port >= 0
    && '?' !in t.database && '#' !in t.database && '#' !in t.sslmode
  }

  lemma NumbersArePlain(n: nat)
    ensures Plain(":" + PrintNat(n))
  {
    var s := ":" + PrintNat(n);
    forall c | c in s ensures c == ':' || IsDigit(c) {}
  }

  lemma PlainJoins(a: string, b: string)
    requires Plain(a) && Plain(b)
    ensures Plain(a + b)
  {}

  lemma HostPortReadsBack(host: string, text: string)
    requires HostReadsBack(host) && Plain(text) && text != [] && text[0] == ':' && Plain(host + text)
    ensures ParseHostPort(host + text) == Some((host, text[1..]))
  {
    assert AfterPrefix(text, ":") == Some(text[1..]);
    if host != [] && host[0] == '[' {
      var (inside, close) := Until(host, {']'});
      assert close == "]";
      assert host + text == inside + (close + text);
      UntilFindsFirst(inside, close + text, {']'});
      assert (close + text)[1..] == text;
    } else {
      UntilFindsFirst(host, text, {':'});
    }
  }

  lemma AuthorityReadsBack(host: string, text: string)
    requires HostReadsBack(host) && Plain(text) && text != [] && text[0] == ':'
    ensures Plain(host + text)
    ensures ParseAuthority(host + text) == Some((host, text[1..]))
  {
    hide ParseHostPort;
    PlainJoins(host, text);
    UntilFindsNone(host + text, {'@'});
    HostPortReadsBack(host, text);
  }

  lemma ConnStrRoundTrips(db: DatabaseRef)
    requires TargetReadsBack(EffectiveTarget(db))
    ensures ParseConnStr(BuildConnStr(db)) == Some(EffectiveTarget(db))
  {
    hide HostReadsBack, ParseAuthority, PrintNat;
    var text := ":" + PrintNat(EffectivePort(db));
    var authority, path, query := db.host + text, "/" + db.database, "?sslmode=" + EffectiveSslMode(db);
    NumbersArePlain(EffectivePort(db));
    AuthorityReadsBack(db.host, text);
    assert BuildConnStr(db) == "postgresql://" + (authority + (path + query));
    assert AfterPrefix(BuildConnStr(db), "postgresql://") == Some(authority + (path + query));
    UntilFindsFirst(authority, path + query, {'/', '?', '#'});
    UntilFindsFirst(path, query, {'?', '#'});
    UntilFindsNone(query, {'#'});
    assert text[1..] == PrintNat(EffectivePort(db));
    assert path[1..] == db.database && query[|"?sslmode="|..] == EffectiveSslMode(db);
    ParseInvertsPrint(EffectivePort(db));
  }

  /** The effective target is read back exactly when the host is free of '/', '?', '#' and '@'
      and of colons outside brackets, the database of '?' and '#', the sslmode of '#', and the
      port is not negative; a bare IPv6 address is the family that fails. */
  lemma ConnStrRoundTripsIff(db: DatabaseRef)
    ensures ParseConnStr(BuildConnStr(db)) == Some(EffectiveTarget(db)) <==> TargetReadsBack(EffectiveTarget(db))
  {
    if TargetReadsBack(EffectiveTarget(db)) {
      ConnStrRoundTrips(db);
    }
  }

  /** Different effective targets give different strings. */
  lemma ConnStrIdentifiesTarget(a: DatabaseRef, b: DatabaseRef)
    requires TargetReadsBack(EffectiveTarget(a)) && TargetReadsBack(EffectiveTarget(b))
    ensures BuildConnStr(a) == BuildConnStr(b) <==> EffectiveTarget(a) == EffectiveTarget(b)
  {
    ConnStrRoundTrips(a);
    ConnStrRoundTrips(b);
  }
}
