/**
 What the configuration loader accepts: the documents whose entries fit where they stand, none
 of them twice in one place, and the configurations that are usable.
 */
module ConfigAcceptance {
  import opened Common
  import opened Text
  import opened Quoting
  import opened ConfigText
  import opened ConfigDocument
  import GateConfig
  import GateSearch

  // ----- Where an entry stands -----

  predicate Opens(e: Entry)
  {
    e.Header? || e.GateStart?
  }

  /** The last header before an entry; -1 before the first one. */
  function Place(entries: seq<Entry>, i: nat): (h: int)
    requires i <= |entries|
    ensures -1 <= h < i && (h >= 0 ==> Opens(entries[h]))
    ensures forall k :: h < k < i ==> !Opens(entries[k])
  {
    if i == 0 then -1 else if Opens(entries[i - 1]) then i - 1 else Place(entries, i - 1)
  }

  /** A field outside the gates, by its full name, with a value of its kind. */
  predicate SettingFits(name: string, raw: string)
  {
    || (name in ["schema_version", "review.max_files_per_task", "review.max_packet_bytes", "state.retention_days"] && Atoi(raw).Some?)
    || (name in ["baseline", "review.default_provider"] && Unquote(raw).Some?)
    || (name in ["include_ignored", "risk.policy_files"] && ParseStrings(raw).Some?)
    || (name == "include_untracked" && ParseBool(raw).Some?)
  }

  predicate GateFieldFits(name: string, raw: string)
  {
    || (name in ["id", "cwd", "resource_class", "cache_class", "network_class", "redaction_policy"] && Unquote(raw).Some?)
    || (name in ["argv", "env_allowlist", "when_paths", "depends_on", "expected_writes"] && ParseStrings(raw).Some?)
    || (name in ["blocking", "final_always"] && ParseBool(raw).Some?)
    || (name == "timeout_seconds" && Atoi(raw).Some?)
  }

  /** The field is known under the last header before it, and its value can be read. */
  predicate FieldFits(entries: seq<Entry>, i: nat)
    requires i < |entries| && entries[i].Pair?
  {
    var h, key, raw := Place(entries, i), entries[i].key, entries[i].raw;
    if h == -1 then SettingFits(key, raw)
    else if entries[h].Header? then SettingFits(entries[h].section + "." + key, raw)
    else GateFieldFits(key, raw)
  }

  /** A section is opened once and is known; a field fits and is the first of its name since the last header. */
  ghost predicate EntryFits(entries: seq<Entry>, i: nat)
    requires i < |entries|
  {
    match entries[i]
    case Header(section) => section in ["review", "state", "risk"] && forall j :: 0 <= j < i ==> entries[j] != entries[i]
    case Pair(key, _) =>
      FieldFits(entries, i) && forall j :: Place(entries, i) < j < i && entries[j].Pair? ==> entries[j].key != key
    case _ => true
  }

  ghost predicate AllEntriesFit(entries: seq<Entry>, n: nat)
    requires n <= |entries|
  {
    forall i :: 0 <= i < n ==> EntryFits(entries, i)
  }

  // ----- What the reader remembers -----

  function GatesBefore(entries: seq<Entry>, n: nat): (r: nat)
    requires n <= |entries|
  {
    if n == 0 then 0 else GatesBefore(entries, n - 1) + if entries[n - 1].GateStart? then 1 else 0
  }

  lemma {:induction false} GatesGrow(entries: seq<Entry>, m: nat, n: nat)
    requires m <= n <= |entries|
    ensures GatesBefore(entries, m) <= GatesBefore(entries, n)
    ensures m < n && entries[m].GateStart? ==> GatesBefore(entries, m) < GatesBefore(entries, n)
  {
    if m < n {
      GatesGrow(entries, m, n - 1);
    }
  }

  function SectionAt(entries: seq<Entry>, i: nat): string
    requires i <= |entries|
  {
    var h := Place(entries, i);
    if h == -1 then "" else if entries[h].Header? then entries[h].section else "gates"
  }

  function IndexAt(entries: seq<Entry>, i: nat): int
    requires i <= |entries|
  {
    var h := Place(entries, i);
    if h >= 0 && entries[h].GateStart? then GatesBefore(entries, h) else -1
  }

  /** The layer after the first entries of a document. */
  ghost predicate Remembers(entries: seq<Entry>, n: nat, layer: Layer)
    requires n <= |entries|
  {
    && layer.section == SectionAt(entries, n) && layer.gateIndex == IndexAt(entries, n)
    && (layer.gatesReplaced <==> GatesBefore(entries, n) > 0)
    && (layer.gatesReplaced ==> |layer.cfg.gates| == GatesBefore(entries, n))
    && (forall s :: s in layer.seenSections <==> Opened(entries, n, s))
    && forall f :: f in layer.seenFields <==> Given(entries, n, f)
  }

  ghost predicate Opened(entries: seq<Entry>, n: nat, section: string)
    requires n <= |entries|
  {
    exists j :: 0 <= j < n && entries[j] == Header(section)
  }

  ghost predicate Given(entries: seq<Entry>, n: nat, f: (string, int, string))
    requires n <= |entries|
  {
    exists j :: 0 <= j < n && entries[j].Pair? && f == (SectionAt(entries, j), IndexAt(entries, j), entries[j].key)
  }

  lemma PlaceOf(entries: seq<Entry>, i: nat, h: int)
    requires i <= |entries| && -1 <= h < i && (h >= 0 ==> Opens(entries[h]))
    requires forall k :: h < k < i ==> !Opens(entries[k])
    ensures Place(entries, i) == h
  {
  }

  lemma PlacesGrow(entries: seq<Entry>, j: nat, i: nat)
    requires j <= i <= |entries|
    ensures Place(entries, j) <= Place(entries, i)
    ensures Place(entries, i) < j ==> Place(entries, j) == Place(entries, i)
  {
    if Place(entries, i) < j {
      PlaceOf(entries, j, Place(entries, i));
    }
  }

  /** Two entries that the reader files alike stand under one header. */
  lemma SamePlace(entries: seq<Entry>, j: nat, i: nat)
    requires j <= i <= |entries| && AllEntriesFit(entries, i)
    requires SectionAt(entries, j) == SectionAt(entries, i) && IndexAt(entries, j) == IndexAt(entries, i)
    ensures Place(entries, j) == Place(entries, i)
  {
    var a, b := Place(entries, j), Place(entries, i);
    PlacesGrow(entries, j, i);
    if a >= 0 { assert EntryFits(entries, a); }
    if b >= 0 { assert EntryFits(entries, b); }
    if 0 <= a < b && entries[a].GateStart? && entries[b].GateStart? {
      GatesGrow(entries, a, b);
    }
  }

  /** A field was given before exactly when one of its name stands under the same header. */
  lemma GivenUnderHeader(entries: seq<Entry>, i: nat)
    requires i < |entries| && entries[i].Pair? && AllEntriesFit(entries, i)
    ensures Given(entries, i, (SectionAt(entries, i), IndexAt(entries, i), entries[i].key)) <==>
      exists j :: Place(entries, i) < j < i && entries[j].Pair? && entries[j].key == entries[i].key
  {
    var f := (SectionAt(entries, i), IndexAt(entries, i), entries[i].key);
    if Given(entries, i, f) {
      var j :| 0 <= j < i && entries[j].Pair? && f == (SectionAt(entries, j), IndexAt(entries, j), entries[j].key);
      SamePlace(entries, j, i);
    }
    if j :| Place(entries, i) < j < i && entries[j].Pair? && entries[j].key == entries[i].key {
      PlacesGrow(entries, j, i);
      assert f == (SectionAt(entries, j), IndexAt(entries, j), entries[j].key);
    }
  }

  // ----- One field -----

  lemma SettingAccepted(cfg: Config, name: string, raw: string)
    requires IsTopField(name)
    ensures AssignTop(cfg, name, raw).Some? <==> SettingFits(name, raw)
    ensures AssignTop(cfg, name, raw).Some? ==> AssignTop(cfg, name, raw).value.gates == cfg.gates
  {
  }

  lemma GateFieldAccepted(gate: GateConfig.Gate, name: string, raw: string)
    ensures AssignGate(gate, name, raw).Some? <==> GateFieldFits(name, raw)
  {
  }

  lemma DottedGateName(key: string)
    ensures !IsTopField("gates." + key)
  {
    assert ("gates." + key)[0] == 'g';
  }

  lemma DottedTopName(section: string, key: string)
    requires section in ["review", "state", "risk"]
    ensures Qualified(section, key) == section + "." + key
  {
  }

  lemma FieldAccepted(layer: Layer, entries: seq<Entry>, i: nat)
    requires i < |entries| && entries[i].Pair? && Remembers(entries, i, layer) && AllEntriesFit(entries, i)
    ensures var cfg := Assign(layer.cfg, layer.section, layer.gateIndex, entries[i].key, entries[i].raw);
      && (cfg.Some? <==> FieldFits(entries, i))
      && (cfg.Some? ==> |cfg.value.gates| == |layer.cfg.gates|)
  {
    var h, key, raw := Place(entries, i), entries[i].key, entries[i].raw;
    if h == -1 {
      TopAccepted(layer.cfg, "", layer.gateIndex, key, raw);
    } else if entries[h].Header? {
      assert EntryFits(entries, h);
      DottedTopName(entries[h].section, key);
      TopAccepted(layer.cfg, entries[h].section, layer.gateIndex, key, raw);
    } else {
      GatesGrow(entries, h, i);
      InGateAccepted(layer.cfg, layer.gateIndex, key, raw);
    }
  }

  lemma TopAccepted(cfg: Config, section: string, index: int, key: string, raw: string)
    requires section != "gates"
    ensures var next := Assign(cfg, section, index, key, raw);
      (next.Some? <==> SettingFits(Qualified(section, key), raw)) && (next.Some? ==> next.value.gates == cfg.gates)
  {
    if IsTopField(Qualified(section, key)) {
      SettingAccepted(cfg, Qualified(section, key), raw);
    }
  }

  lemma InGateAccepted(cfg: Config, index: int, key: string, raw: string)
    requires 0 <= index < |cfg.gates|
    ensures var next := Assign(cfg, "gates", index, key, raw);
      (next.Some? <==> GateFieldFits(key, raw)) && (next.Some? ==> |next.value.gates| == |cfg.gates|)
  {
    DottedGateName(key);
    assert Qualified("gates", key) == "gates." + key;
    GateFieldAccepted(cfg.gates[index], key, raw);
  }

  // ----- The document -----

  lemma OneMoreGiven(entries: seq<Entry>, i: nat, f: (string, int, string))
    requires i < |entries|
    ensures Given(entries, i + 1, f) <==>
      Given(entries, i, f) || (entries[i].Pair? && f == (SectionAt(entries, i), IndexAt(entries, i), entries[i].key))
  {
    if Given(entries, i, f) {
      var j :| 0 <= j < i && entries[j].Pair? && f == (SectionAt(entries, j), IndexAt(entries, j), entries[j].key);
    }
  }

  lemma OneMoreOpened(entries: seq<Entry>, i: nat, section: string)
    requires i < |entries|
    ensures Opened(entries, i + 1, section) <==> Opened(entries, i, section) || entries[i] == Header(section)
  {
  }

  lemma RemembersMore(layer: Layer, next: Layer, entries: seq<Entry>, i: nat)
    requires i < |entries| && Remembers(entries, i, layer)
    requires next.section == SectionAt(entries, i + 1) && next.gateIndex == IndexAt(entries, i + 1)
    requires next.gatesReplaced <==> GatesBefore(entries, i + 1) > 0
    requires next.gatesReplaced ==> |next.cfg.gates| == GatesBefore(entries, i + 1)
    requires next.seenSections == layer.seenSections + if entries[i].Header? then {entries[i].section} else {}
    requires next.seenFields == layer.seenFields +
      if entries[i].Pair? then {(SectionAt(entries, i), IndexAt(entries, i), entries[i].key)} else {}
    ensures Remembers(entries, i + 1, next)
  {
    forall f ensures f in next.seenFields <==> Given(entries, i + 1, f) { OneMoreGiven(entries, i, f); }
    forall s ensures s in next.seenSections <==> Opened(entries, i + 1, s) { OneMoreOpened(entries, i, s); }
  }

  lemma PairAccepted(layer: Layer, entries: seq<Entry>, i: nat)
    requires i < |entries| && entries[i].Pair? && Remembers(entries, i, layer) && AllEntriesFit(entries, i)
    ensures var next := ReadEntry(layer, entries[i]);
      (next.Some? <==> EntryFits(entries, i)) && (next.Some? ==> Remembers(entries, i + 1, next.value))
  {
    GivenUnderHeader(entries, i);
    FieldAccepted(layer, entries, i);
    assert Place(entries, i + 1) == Place(entries, i);
    var next := ReadEntry(layer, entries[i]);
    if next.Some? {
      RemembersMore(layer, next.value, entries, i);
    }
  }

  lemma OpeningAccepted(layer: Layer, entries: seq<Entry>, i: nat)
    requires i < |entries| && !entries[i].Pair? && Remembers(entries, i, layer) && AllEntriesFit(entries, i)
    ensures var next := ReadEntry(layer, entries[i]);
      (next.Some? <==> EntryFits(entries, i)) && (next.Some? ==> Remembers(entries, i + 1, next.value))
  {
    var next := ReadEntry(layer, entries[i]);
    if entries[i].Header? {
      assert Opened(entries, i, entries[i].section) <==> exists j :: 0 <= j < i && entries[j] == entries[i];
    }
    if next.Some? {
      RemembersMore(layer, next.value, entries, i);
    }
  }

  lemma EntryAccepted(layer: Layer, entries: seq<Entry>, i: nat)
    requires i < |entries| && Remembers(entries, i, layer) && AllEntriesFit(entries, i)
    ensures var next := ReadEntries(layer, [entries[i]]);
      (next.Some? <==> AllEntriesFit(entries, i + 1)) && (next.Some? ==> Remembers(entries, i + 1, next.value))
  {
    LastRead(layer, entries[i]);
    if entries[i].Pair? {
      PairAccepted(layer, entries, i);
    } else {
      OpeningAccepted(layer, entries, i);
    }
  }

  lemma {:induction false} AcceptedSoFar(cfg: Config, entries: seq<Entry>, n: nat)
    requires n <= |entries|
    ensures var layer := ReadEntries(Start(cfg), entries[..n]);
      (layer.Some? <==> AllEntriesFit(entries, n)) && (layer.Some? ==> Remembers(entries, n, layer.value))
  {
    if n > 0 {
      AcceptedSoFar(cfg, entries, n - 1);
      var before := ReadEntries(Start(cfg), entries[..n - 1]);
      assert entries[..n] == entries[..n - 1] + [entries[n - 1]];
      ReadEntriesConcat(Start(cfg), entries[..n - 1], [entries[n - 1]]);
      if before.Some? {
        EntryAccepted(before.value, entries, n - 1);
      }
    }
  }

  lemma LastRead(layer: Layer, e: Entry)
    ensures ReadEntries(layer, [e]) == ReadEntry(layer, e)
  {
    assert [e][1..] == [];
  }

  /** A document can be read exactly when each of its entries fits where it stands. */
  lemma DocumentAccepted(cfg: Config, entries: seq<Entry>)
    requires AllReadable(entries)
    ensures ReadText(Start(cfg), JoinLines(Lines(entries))).Some? <==>
      AllFit(Lines(entries)) && forall i :: 0 <= i < |entries| ==> EntryFits(entries, i)
  {
    TextIsRead(Start(cfg), entries);
    AcceptedSoFar(cfg, entries, |entries|);
    assert entries[..|entries|] == entries;
  }

  // ----- Which configurations are accepted -----

  /** The path is relative and does not begin by leaving the repository, with either separator. */
  predicate StaysInside(path: string)
  {
    && path != "" && path[0] != '/' && path[0] != '\\'
    && path != ".." && !("../" <= path) && !("..\\" <= path)
  }

  lemma InsideIsRelative(path: string)
    ensures GateConfig.RepositoryRelative(path) <==> StaysInside(path)
  {
    var clean := GateConfig.Slashes(path);
    if |path| == 2 {
      assert path == [path[0], path[1]] && clean == [clean[0], clean[1]];
    }
    if |path| >= 3 {
      assert path[..3] == [path[0], path[1], path[2]] && clean[..3] == [clean[0], clean[1], clean[2]];
      assert "../" <= path <==> path[..3] == "../";
      assert "..\\" <= path <==> path[..3] == "..\\";
      assert "../" <= clean <==> clean[..3] == "../";
    }
  }

  /** Everything a gate must say for itself. */
  ghost predicate GateUsable(gate: GateConfig.Gate)
  {
    && gate.id != "" && gate.argv != [] && gate.cwd != "" && gate.timeoutSeconds > 0
    && gate.cacheClass in ["worktree_deterministic", "host_volatile", "time_network", "external"]
    && gate.resourceClass in ["cpu", "io", "exclusive", "network", "external"]
    && gate.networkClass in ["none", "local", "external"]
    && forall p :: p in gate.whenPaths + gate.expectedWrites ==> StaysInside(p)
  }

  /** The gates depend on each other in a ring. */
  ghost predicate Ring(gates: seq<GateConfig.Gate>, walk: seq<nat>)
  {
    && |walk| >= 2 && walk[0] == walk[|walk| - 1] && (forall k :: 0 <= k < |walk| ==> walk[k] < |gates|)
    && forall k :: 0 <= k < |walk| - 1 ==> gates[walk[k + 1]].id in gates[walk[k]].dependsOn
  }

  /** Each gate is usable, no two share an identifier, each dependency is another gate, and none depends on itself through others. */
  ghost predicate GatesUsable(gates: seq<GateConfig.Gate>)
  {
    && (forall i :: 0 <= i < |gates| ==> GateUsable(gates[i]))
    && (forall i, j :: 0 <= i < j < |gates| ==> gates[i].id != gates[j].id)
    && (forall i, d :: 0 <= i < |gates| && d in gates[i].dependsOn ==> exists j :: 0 <= j < |gates| && j != i && gates[j].id == d)
    && !exists walk :: Ring(gates, walk)
  }

  lemma UsableGate(gate: GateConfig.Gate)
    ensures GateConfig.FieldsValid(gate) <==> GateUsable(gate)
  {
    forall p ensures GateConfig.RepositoryRelative(p) <==> StaysInside(p) { InsideIsRelative(p); }
  }

  lemma OtherGateDeclared(gates: seq<GateConfig.Gate>, i: nat)
    requires GateConfig.Unrepeated(gates) && i < |gates|
    ensures GateConfig.DependenciesDeclared(gates[i], GateConfig.IDs(gates)) <==>
      forall d :: d in gates[i].dependsOn ==> exists j :: 0 <= j < |gates| && j != i && gates[j].id == d
  {
    forall d ensures d != gates[i].id && d in GateConfig.IDs(gates) <==> exists j :: 0 <= j < |gates| && j != i && gates[j].id == d { }
  }

  lemma DeclaredExactly(gates: seq<GateConfig.Gate>)
    ensures GateConfig.WellDeclared(gates) <==>
      && (forall i :: 0 <= i < |gates| ==> GateUsable(gates[i]))
      && (forall i, j :: 0 <= i < j < |gates| ==> gates[i].id != gates[j].id)
      && forall i, d :: 0 <= i < |gates| && d in gates[i].dependsOn ==> exists j :: 0 <= j < |gates| && j != i && gates[j].id == d
  {
    forall i | 0 <= i < |gates| ensures GateConfig.FieldsValid(gates[i]) <==> GateUsable(gates[i]) { UsableGate(gates[i]); }
    if GateConfig.Unrepeated(gates) {
      forall i | 0 <= i < |gates|
        ensures GateConfig.DependenciesDeclared(gates[i], GateConfig.IDs(gates)) <==>
          forall d :: d in gates[i].dependsOn ==> exists j :: 0 <= j < |gates| && j != i && gates[j].id == d
      {
        OtherGateDeclared(gates, i);
      }
    }
  }

  lemma DependenciesOf(gates: seq<GateConfig.Gate>, i: nat)
    requires GateConfig.Unrepeated(gates) && i < |gates|
    ensures GateSearch.Deps(GateConfig.GraphOf(GateConfig.ByID(gates)), gates[i].id) == gates[i].dependsOn
  {
    GateConfig.UnrepeatedByID(gates, i);
  }

  lemma RingIsCyclic(gates: seq<GateConfig.Gate>, walk: seq<nat>)
    requires GateConfig.Unrepeated(gates) && Ring(gates, walk)
    ensures GateSearch.Cyclic(GateConfig.GraphOf(GateConfig.ByID(gates)))
  {
    var g := GateConfig.GraphOf(GateConfig.ByID(gates));
    var p := seq(|walk|, k requires 0 <= k < |walk| => gates[walk[k]].id);
    forall k | 0 <= k < |p| - 1 ensures p[k + 1] in GateSearch.Deps(g, p[k]) {
      DependenciesOf(gates, walk[k]);
    }
    assert GateSearch.IsPath(g, p) && p[0] == p[|p| - 1];
  }

  ghost function IndexOf(gates: seq<GateConfig.Gate>, id: string): (i: nat)
    requires id in GateConfig.IDs(gates)
    ensures i < |gates| && gates[i].id == id
  {
    var i :| 0 <= i < |gates| && gates[i].id == id;
    i
  }

  lemma {:induction false} PathInGraph(g: GateSearch.Graph, p: seq<string>, k: nat)
    requires GateSearch.Complete(g) && GateSearch.IsPath(g, p) && p[0] in g && k < |p|
    ensures p[k] in g
  {
    if k > 0 {
      PathInGraph(g, p, k - 1);
      assert p[k - 1 + 1] in GateSearch.Deps(g, p[k - 1]);
    }
  }

  lemma CyclicHasRing(gates: seq<GateConfig.Gate>)
    requires GateConfig.WellDeclared(gates) && GateSearch.Cyclic(GateConfig.GraphOf(GateConfig.ByID(gates)))
    ensures exists walk :: Ring(gates, walk)
  {
    var g := GateConfig.GraphOf(GateConfig.ByID(gates));
    GateConfig.DeclaredGraphIsComplete(gates);
    GateConfig.ByIDHolds(gates);
    var p :| GateSearch.IsPath(g, p) && |p| >= 2 && p[0] == p[|p| - 1];
    assert p[0 + 1] in GateSearch.Deps(g, p[0]);
    forall k | 0 <= k < |p| ensures p[k] in GateConfig.IDs(gates) {
      PathInGraph(g, p, k);
    }
    RingOf(gates, p);
  }

  lemma RingOf(gates: seq<GateConfig.Gate>, p: seq<string>)
    requires GateConfig.Unrepeated(gates) && |p| >= 2 && p[0] == p[|p| - 1]
    requires GateSearch.IsPath(GateConfig.GraphOf(GateConfig.ByID(gates)), p)
    requires forall k :: 0 <= k < |p| ==> p[k] in GateConfig.IDs(gates)
    ensures exists walk :: Ring(gates, walk)
  {
    var walk: seq<nat> := seq(|p|, k requires 0 <= k < |p| => IndexOf(gates, p[k]));
    forall k | 0 <= k < |walk| - 1 ensures gates[walk[k + 1]].id in gates[walk[k]].dependsOn {
      DependenciesOf(gates, walk[k]);
    }
    assert Ring(gates, walk);
  }

  /** The gate check accepts exactly the usable lists of gates. */
  lemma GatesAcceptedExactly(gates: seq<GateConfig.Gate>)
    ensures GateConfig.ConfigValid(gates) <==> GatesUsable(gates)
  {
    DeclaredExactly(gates);
    if GateConfig.WellDeclared(gates) {
      if walk :| Ring(gates, walk) {
        RingIsCyclic(gates, walk);
      }
      if GateSearch.Cyclic(GateConfig.GraphOf(GateConfig.ByID(gates))) {
        CyclicHasRing(gates);
      }
    }
  }

  lemma {:induction false} LeftTrimmed(s: string)
    ensures TrimLeft(s) == "" <==> forall i :: 0 <= i < |s| ==> IsSpace(s[i])
  {
    if s != "" && IsSpace(s[0]) {
      LeftTrimmed(s[1..]);
      assert s == [s[0]] + s[1..];
    }
  }

  lemma {:induction false} RightTrimmed(s: string)
    ensures TrimRight(s) == "" <==> forall i :: 0 <= i < |s| ==> IsSpace(s[i])
  {
    if s != "" && IsSpace(s[|s| - 1]) {
      RightTrimmed(s[..|s| - 1]);
      assert s == s[..|s| - 1] + [s[|s| - 1]];
    }
  }

  lemma TrimmedEmpty(s: string)
    ensures TrimSpace(s) == "" <==> forall i :: 0 <= i < |s| ==> IsSpace(s[i])
  {
    LeftTrimmed(s);
    RightTrimmed(TrimLeft(s));
  }

  /** The check accepts exactly this schema, a baseline, positive limits, a provider, paths inside the repository and usable gates. */
  lemma ConfigurationAcceptedExactly(cfg: Config)
    ensures ConfigText.ConfigValid(cfg) <==>
      && cfg.schemaVersion == 1 && (exists i :: 0 <= i < |cfg.baseline| && !IsSpace(cfg.baseline[i]))
      && cfg.maxFilesPerTask > 0 && cfg.maxPacketBytes > 0 && cfg.retentionDays > 0 && cfg.defaultProvider != ""
      && (forall p :: p in cfg.includeIgnored ==> StaysInside(p)) && GatesUsable(cfg.gates)
  {
    TrimmedEmpty(cfg.baseline);
    GatesAcceptedExactly(cfg.gates);
    forall p ensures GateConfig.RepositoryRelative(p) <==> StaysInside(p) { InsideIsRelative(p); }
  }
}
