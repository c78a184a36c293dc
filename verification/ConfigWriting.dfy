/**
 Writing a configuration as a document and reading it back: every field of the configuration and
 of each gate, over whatever a lower layer left. The starter document is one such document.
 */
module ConfigWriting {
  import opened Common
  import opened Text
  import opened Quoting
  import opened ConfigText
  import opened ConfigDocument
  import GateConfig
  import GateSearch

  // ----- Numbers and truth values -----

  function Digit(n: nat): (c: char)
    requires n < 10
    ensures '0' <= c <= '9' && c as int - '0' as int == n
  {
    ('0' as int + n) as char
  }

  function Natural(n: nat): (r: string)
    ensures r != "" && forall i :: 0 <= i < |r| ==> '0' <= r[i] <= '9'
  {
    if n < 10 then [Digit(n)] else Natural(n / 10) + [Digit(n % 10)]
  }

  function Decimal(n: int): (r: string)
    ensures r != ""
  {
    if n < 0 then "-" + Natural(-n) else Natural(n)
  }

  function BoolText(b: bool): string
  {
    if b then "true" else "false"
  }

  /** A signed 64-bit value. */
  predicate Fits64(n: int)
  {
    -0x8000_0000_0000_0000 <= n < 0x8000_0000_0000_0000
  }

  lemma DigitsStep(s: string, c: char)
    requires Digits(s).Some? && '0' <= c <= '9'
    ensures Digits(s + [c]) == Some(10 * Digits(s).value + (c as int - '0' as int))
  {
    assert (s + [c])[..|s|] == s;
  }

  lemma {:induction false} NaturalReads(n: nat)
    ensures Digits(Natural(n)) == Some(n)
    decreases n
  {
    if n < 10 {
      DigitsStep("", Digit(n));
      assert "" + [Digit(n)] == [Digit(n)];
    } else {
      NaturalReads(n / 10);
      DigitsStep(Natural(n / 10), Digit(n % 10));
    }
  }

  lemma AtoiNatural(s: string, n: nat)
    requires s != "" && s[0] != '-' && s[0] != '+' && Digits(s) == Some(n) && Fits64(n)
    ensures Atoi(s) == Some(n)
  {
  }

  lemma AtoiNegative(s: string, n: int)
    requires n >= 0 && s != "" && Digits(s) == Some(n) && Fits64(-n)
    ensures Atoi("-" + s) == Some(-n)
  {
    assert ("-" + s)[1..] == s && ("-" + s)[0] == '-';
  }

  lemma DecimalReads(n: int)
    requires Fits64(n)
    ensures Atoi(Decimal(n)) == Some(n)
  {
    if n < 0 {
      NaturalReads(-n);
      AtoiNegative(Natural(-n), -n);
    } else {
      NaturalReads(n);
      AtoiNatural(Natural(n), n);
    }
  }

  lemma BoolReads(b: bool)
    ensures ParseBool(BoolText(b)) == Some(b)
  {
  }

  // ----- Lines that hold values -----

  lemma PlainPair(key: string, raw: string)
    requires Word(key) && Tight(raw) && Plain(raw) && '\n' !in raw
    ensures AllReadable([Pair(key, raw)])
  {
    PassPlain(raw, "");
    assert raw + "" == raw && Outside()("") == "";
    var line := key + " = " + raw;
    assert line[|line| - 1] == raw[|raw| - 1];
  }

  lemma DecimalPair(key: string, n: int)
    requires Word(key)
    ensures AllReadable([Pair(key, Decimal(n))])
  {
    var raw := Decimal(n);
    assert forall i :: 0 <= i < |raw| ==> raw[i] == '-' || '0' <= raw[i] <= '9';
    PlainPair(key, raw);
  }

  lemma BoolPair(key: string, b: bool)
    requires Word(key)
    ensures AllReadable([Pair(key, BoolText(b))])
  {
    PlainPair(key, BoolText(b));
  }

  /** Nothing written for a string breaks its line. */
  lemma {:induction false} EscapedIsOneLine(escape: char -> string, s: string)
    requires forall c :: '\n' !in escape(c)
    ensures '\n' !in Escaped(escape, s)
  {
    if s != "" {
      EscapedIsOneLine(escape, s[1..]);
    }
  }

  lemma {:induction false} HexIsOneLine(n: nat, k: nat)
    ensures '\n' !in Hex(n, k)
  {
    if k > 0 {
      HexIsOneLine(n / 16, k - 1);
    }
  }

  lemma EscapeIsOneLine(printable: Printable, c: char)
    requires Sensible(printable)
    ensures '\n' !in Escape(printable, c)
  {
    HexIsOneLine(c as int, 2);
    HexIsOneLine(c as int, 4);
    HexIsOneLine(c as int, 8);
  }

  lemma QuotedIsOneLine(printable: Printable, value: string)
    requires Sensible(printable)
    ensures '\n' !in Quote(printable, value)
  {
    forall c ensures '\n' !in Escaper(printable)(c) { EscapeIsOneLine(printable, c); }
    EscapedIsOneLine(Escaper(printable), value);
  }

  lemma {:induction false} ItemsAreOneLine(printable: Printable, values: seq<string>)
    requires Sensible(printable)
    ensures '\n' !in Items(printable, values)
  {
    if values != [] {
      QuotedIsOneLine(printable, values[0]);
      ItemsAreOneLine(printable, values[1..]);
    }
  }

  /** A value that the comment scan passes, on a line of its own. */
  lemma PassedPair(key: string, raw: string)
    requires Word(key) && Tight(raw) && Outside()(raw + "") == raw + Outside()("") && '\n' !in raw
    requires raw[|raw| - 1] == '"' || raw[|raw| - 1] == ']'
    ensures AllReadable([Pair(key, raw)])
  {
    assert raw + "" == raw && Outside()("") == "";
    var line := key + " = " + raw;
    assert line[|line| - 1] == raw[|raw| - 1];
  }

  lemma QuotedPair(printable: Printable, key: string, value: string)
    requires Sensible(printable) && Word(key)
    ensures AllReadable([Pair(key, Quote(printable, value))])
  {
    PassQuoted(printable, value, "");
    QuotedIsOneLine(printable, value);
    PassedPair(key, Quote(printable, value));
  }

  lemma ListPair(printable: Printable, key: string, values: seq<string>)
    requires Sensible(printable) && Word(key)
    ensures AllReadable([Pair(key, List(printable, values))])
  {
    StripList(printable, values, "");
    ItemsAreOneLine(printable, values);
    PassedPair(key, List(printable, values));
  }

  lemma ReadableConcat(a: seq<Entry>, b: seq<Entry>)
    requires AllReadable(a) && AllReadable(b)
    ensures AllReadable(a + b)
  {
  }

  // ----- Runs of fields in one section -----

  /** Assignment as a value. */
  function Assigner(): (Config, string, int, string, string) -> Option<Config>
  {
    (cfg, section, gateIndex, key, raw) => Assign(cfg, section, gateIndex, key, raw)
  }

  /** The fields of one section, each setting the configuration to the next of `cfgs`. */
  ghost predicate Settings(section: string, pairs: seq<Entry>, cfgs: seq<Config>)
  {
    && |cfgs| == |pairs| + 1
    && (forall i :: 0 <= i < |pairs| ==> pairs[i].Pair?)
    && (forall i :: 0 <= i < |pairs| ==> Sets(section, cfgs[i], pairs[i], cfgs[i + 1]))
    && forall i, j :: 0 <= i < j < |pairs| ==> pairs[i].key != pairs[j].key
  }

  /** The field sets the one configuration to the other. */
  ghost predicate Sets(section: string, cfg: Config, pair: Entry, after: Config)
  {
    pair.Pair? && Assigner()(cfg, section, -1, pair.key, pair.raw) == Some(after)
  }

  /** No field of the section has been read. */
  ghost predicate Untouched(layer: Layer, section: string)
  {
    forall f :: f in layer.seenFields ==> f.0 != section
  }

  lemma PairIsSet(layer: Layer, pair: Entry, cfg: Config)
    requires pair.Pair? && (layer.section, layer.gateIndex, pair.key) !in layer.seenFields
    requires Assigner()(layer.cfg, layer.section, layer.gateIndex, pair.key, pair.raw) == Some(cfg)
    ensures ReadEntry(layer, pair) ==
      Some(layer.(cfg := cfg, seenFields := layer.seenFields + {(layer.section, layer.gateIndex, pair.key)}))
  {
  }

  /** A run of fields in a section. */
  lemma {:induction false} SettingsAreRead(layer: Layer, pairs: seq<Entry>, cfgs: seq<Config>) returns (last: Layer)
    requires Settings(layer.section, pairs, cfgs) && cfgs[0] == layer.cfg && layer.gateIndex == -1
    requires forall i :: 0 <= i < |pairs| ==> (layer.section, -1, pairs[i].key) !in layer.seenFields
    ensures ReadEntries(layer, pairs) == Some(last) && last.cfg == cfgs[|pairs|]
    ensures last == layer.(cfg := last.cfg, seenFields := last.seenFields)
    ensures forall f :: f in last.seenFields ==> f in layer.seenFields || f.0 == layer.section
    decreases |pairs|
  {
    if pairs == [] {
      last := layer;
    } else {
      var field := (layer.section, -1, pairs[0].key);
      var next := layer.(cfg := cfgs[1], seenFields := layer.seenFields + {field});
      PairIsSet(layer, pairs[0], cfgs[1]);
      last := SettingsAreRead(next, pairs[1..], cfgs[1..]);
    }
  }

  lemma SectionIsRead(layer: Layer, section: string) returns (next: Layer)
    requires section in ["review", "state", "risk"] && section !in layer.seenSections
    ensures ReadEntries(layer, [BlankLine, Header(section)]) == Some(next)
    ensures next == layer.(section := section, seenSections := layer.seenSections + {section}, gateIndex := -1)
  {
    next := layer.(section := section, seenSections := layer.seenSections + {section}, gateIndex := -1);
    var entries := [BlankLine, Header(section)];
    assert entries[1..] == [Header(section)] && [Header(section)][1..] == [];
    assert ReadEntry(layer, BlankLine) == Some(layer) && ReadEntry(layer, Header(section)) == Some(next);
    assert ReadEntries(layer, [Header(section)]) == ReadEntries(next, []);
  }

  /** A section with its fields, on a layer that has not seen it. */
  lemma SectionWithFields(layer: Layer, section: string, pairs: seq<Entry>, cfgs: seq<Config>) returns (last: Layer)
    requires section in ["review", "state", "risk"] && section !in layer.seenSections && Untouched(layer, section)
    requires Settings(section, pairs, cfgs) && cfgs[0] == layer.cfg
    ensures ReadEntries(layer, [BlankLine, Header(section)] + pairs) == Some(last) && last.cfg == cfgs[|pairs|]
    ensures last.seenSections == layer.seenSections + {section} && last.gatesReplaced == layer.gatesReplaced
    ensures forall other :: other != section && Untouched(layer, other) ==> Untouched(last, other)
  {
    var inside := SectionIsRead(layer, section);
    last := SettingsAreRead(inside, pairs, cfgs);
    ReadEntriesConcat(layer, [BlankLine, Header(section)], pairs);
  }

  lemma ReadThen(layer: Layer, a: seq<Entry>, b: seq<Entry>, next: Layer, last: Layer)
    requires ReadEntries(layer, a) == Some(next) && ReadEntries(next, b) == Some(last)
    ensures ReadEntries(layer, a + b) == Some(last)
  {
    ReadEntriesConcat(layer, a, b);
  }

  // ----- The fields outside the gates -----

  lemma SchemaField(cfg: Config, raw: string, n: int)
    requires Atoi(raw) == Some(n)
    ensures Assigner()(cfg, "", -1, "schema_version", raw) == Some(cfg.(schemaVersion := n))
  {
  }

  lemma BaselineField(cfg: Config, raw: string, baseline: string)
    requires Unquote(raw) == Some(baseline)
    ensures Assigner()(cfg, "", -1, "baseline", raw) == Some(cfg.(baseline := baseline))
  {
  }

  lemma UntrackedField(cfg: Config, raw: string, b: bool)
    requires ParseBool(raw) == Some(b)
    ensures Assigner()(cfg, "", -1, "include_untracked", raw) == Some(cfg.(includeUntracked := b))
  {
  }

  lemma IgnoredField(cfg: Config, raw: string, paths: seq<string>)
    requires ParseStrings(raw) == Some(paths)
    ensures Assigner()(cfg, "", -1, "include_ignored", raw) == Some(cfg.(includeIgnored := paths))
  {
  }

  lemma FilesField(cfg: Config, raw: string, n: int)
    requires Atoi(raw) == Some(n)
    ensures Assigner()(cfg, "review", -1, "max_files_per_task", raw) == Some(cfg.(maxFilesPerTask := n))
  {
    assert Qualified("review", "max_files_per_task") == "review.max_files_per_task";
  }

  lemma BytesField(cfg: Config, raw: string, n: int)
    requires Atoi(raw) == Some(n)
    ensures Assigner()(cfg, "review", -1, "max_packet_bytes", raw) == Some(cfg.(maxPacketBytes := n))
  {
    assert Qualified("review", "max_packet_bytes") == "review.max_packet_bytes";
  }

  lemma ProviderField(cfg: Config, raw: string, provider: string)
    requires Unquote(raw) == Some(provider)
    ensures Assigner()(cfg, "review", -1, "default_provider", raw) == Some(cfg.(defaultProvider := provider))
  {
    assert Qualified("review", "default_provider") == "review.default_provider";
    assert "review.default_provider"[7] != "review.max_packet_bytes"[7];
  }

  lemma RetentionField(cfg: Config, raw: string, n: int)
    requires Atoi(raw) == Some(n)
    ensures Assigner()(cfg, "state", -1, "retention_days", raw) == Some(cfg.(retentionDays := n))
  {
    assert Qualified("state", "retention_days") == "state.retention_days";
  }

  lemma PolicyField(cfg: Config, raw: string, files: seq<string>)
    requires ParseStrings(raw) == Some(files)
    ensures Assigner()(cfg, "risk", -1, "policy_files", raw) == Some(cfg.(policyFiles := files))
  {
    assert Qualified("risk", "policy_files") == "risk.policy_files";
  }

  /** Every number of the configuration fits its 64 bits. */
  predicate Widths(cfg: Config)
  {
    && Fits64(cfg.schemaVersion) && Fits64(cfg.maxFilesPerTask) && Fits64(cfg.maxPacketBytes) && Fits64(cfg.retentionDays)
    && forall i :: 0 <= i < |cfg.gates| ==> Fits64(cfg.gates[i].timeoutSeconds)
  }

  function TopEntries(printable: Printable, want: Config): seq<Entry>
  {
    [Pair("schema_version", Decimal(want.schemaVersion)), Pair("baseline", Quote(printable, want.baseline)),
     Pair("include_untracked", BoolText(want.includeUntracked)), Pair("include_ignored", List(printable, want.includeIgnored))]
  }

  function TopConfigs(cfg: Config, want: Config): seq<Config>
  {
    var a := cfg.(schemaVersion := want.schemaVersion);
    var b := a.(baseline := want.baseline);
    var c := b.(includeUntracked := want.includeUntracked);
    [cfg, a, b, c, c.(includeIgnored := want.includeIgnored)]
  }

  lemma TopKeysDiffer(pairs: seq<Entry>)
    requires |pairs| == 4 && forall i :: 0 <= i < 4 ==> pairs[i].Pair?
    requires |pairs[0].key| == 14 && |pairs[1].key| == 8 && |pairs[2].key| == 17 && |pairs[3].key| == 15
    ensures forall i, j :: 0 <= i < j < |pairs| ==> pairs[i].key != pairs[j].key
  {
  }

  lemma FourSettings(section: string, pairs: seq<Entry>, cfgs: seq<Config>)
    requires |pairs| == 4 && |cfgs| == 5
    requires Sets(section, cfgs[0], pairs[0], cfgs[1]) && Sets(section, cfgs[1], pairs[1], cfgs[2])
    requires Sets(section, cfgs[2], pairs[2], cfgs[3]) && Sets(section, cfgs[3], pairs[3], cfgs[4])
    ensures forall i :: 0 <= i < |pairs| ==> Sets(section, cfgs[i], pairs[i], cfgs[i + 1])
  {
  }

  lemma FirstSettings(cfg: Config, want: Config, one: string, quoted: string)
    requires Atoi(one) == Some(want.schemaVersion) && Unquote(quoted) == Some(want.baseline)
    ensures Sets("", TopConfigs(cfg, want)[0], Pair("schema_version", one), TopConfigs(cfg, want)[1])
    ensures Sets("", TopConfigs(cfg, want)[1], Pair("baseline", quoted), TopConfigs(cfg, want)[2])
  {
    SchemaField(TopConfigs(cfg, want)[0], one, want.schemaVersion);
    BaselineField(TopConfigs(cfg, want)[1], quoted, want.baseline);
  }

  lemma SecondSettings(cfg: Config, want: Config, yes: string, none: string)
    requires ParseBool(yes) == Some(want.includeUntracked) && ParseStrings(none) == Some(want.includeIgnored)
    ensures Sets("", TopConfigs(cfg, want)[2], Pair("include_untracked", yes), TopConfigs(cfg, want)[3])
    ensures Sets("", TopConfigs(cfg, want)[3], Pair("include_ignored", none), TopConfigs(cfg, want)[4])
  {
    UntrackedField(TopConfigs(cfg, want)[2], yes, want.includeUntracked);
    IgnoredField(TopConfigs(cfg, want)[3], none, want.includeIgnored);
  }

  lemma TopSettings(cfg: Config, want: Config, one: string, quoted: string, yes: string, none: string)
    requires Atoi(one) == Some(want.schemaVersion) && Unquote(quoted) == Some(want.baseline)
    requires ParseBool(yes) == Some(want.includeUntracked) && ParseStrings(none) == Some(want.includeIgnored)
    ensures Settings("", [Pair("schema_version", one), Pair("baseline", quoted), Pair("include_untracked", yes), Pair("include_ignored", none)],
                     TopConfigs(cfg, want))
  {
    FirstSettings(cfg, want, one, quoted);
    SecondSettings(cfg, want, yes, none);
    var pairs := [Pair("schema_version", one), Pair("baseline", quoted), Pair("include_untracked", yes), Pair("include_ignored", none)];
    FourSettings("", pairs, TopConfigs(cfg, want));
    TopKeysDiffer(pairs);
  }

  function ReviewEntries(printable: Printable, want: Config): seq<Entry>
  {
    [Pair("max_files_per_task", Decimal(want.maxFilesPerTask)), Pair("max_packet_bytes", Decimal(want.maxPacketBytes)),
     Pair("default_provider", Quote(printable, want.defaultProvider))]
  }

  function ReviewConfigs(cfg: Config, want: Config): seq<Config>
  {
    var a := cfg.(maxFilesPerTask := want.maxFilesPerTask);
    var b := a.(maxPacketBytes := want.maxPacketBytes);
    [cfg, a, b, b.(defaultProvider := want.defaultProvider)]
  }

  lemma ReviewSettings(cfg: Config, want: Config, files: string, bytes: string, provider: string)
    requires Atoi(files) == Some(want.maxFilesPerTask) && Atoi(bytes) == Some(want.maxPacketBytes)
    requires Unquote(provider) == Some(want.defaultProvider)
    ensures Settings("review", [Pair("max_files_per_task", files), Pair("max_packet_bytes", bytes), Pair("default_provider", provider)],
                     ReviewConfigs(cfg, want))
  {
    var cfgs := ReviewConfigs(cfg, want);
    FilesField(cfgs[0], files, want.maxFilesPerTask);
    BytesField(cfgs[1], bytes, want.maxPacketBytes);
    ProviderField(cfgs[2], provider, want.defaultProvider);
    ReviewKeysDiffer([Pair("max_files_per_task", files), Pair("max_packet_bytes", bytes), Pair("default_provider", provider)]);
  }

  lemma ReviewKeysDiffer(pairs: seq<Entry>)
    requires |pairs| == 3 && forall i :: 0 <= i < 3 ==> pairs[i].Pair?
    requires pairs[0].key == "max_files_per_task" && pairs[1].key == "max_packet_bytes" && pairs[2].key == "default_provider"
    ensures forall i, j :: 0 <= i < j < |pairs| ==> pairs[i].key != pairs[j].key
  {
    assert |pairs[0].key| == 18 && |pairs[1].key| == 16 && |pairs[2].key| == 16;
    assert pairs[1].key[0] == 'm' && pairs[2].key[0] == 'd';
  }

  lemma SingleSetting(section: string, pair: Entry, cfg: Config, next: Config)
    requires pair.Pair? && Assigner()(cfg, section, -1, pair.key, pair.raw) == Some(next)
    ensures Settings(section, [pair], [cfg, next])
  {
  }

  function SectionEntries(section: string, pairs: seq<Entry>): seq<Entry>
  {
    [BlankLine, Header(section)] + pairs
  }

  lemma ReadTop(printable: Printable, cfg: Config, want: Config) returns (layer: Layer)
    requires Sensible(printable) && Widths(want)
    ensures ReadEntries(Start(cfg), TopEntries(printable, want)) == Some(layer)
    ensures layer.cfg == TopConfigs(cfg, want)[4]
    ensures layer.seenSections == {} && !layer.gatesReplaced && forall section :: section != "" ==> Untouched(layer, section)
  {
    DecimalReads(want.schemaVersion);
    UnquoteRoundTrip(printable, want.baseline);
    BoolReads(want.includeUntracked);
    ParseListText(printable, want.includeIgnored);
    TopSettings(cfg, want, Decimal(want.schemaVersion), Quote(printable, want.baseline), BoolText(want.includeUntracked),
                List(printable, want.includeIgnored));
    layer := SettingsAreRead(Start(cfg), TopEntries(printable, want), TopConfigs(cfg, want));
  }

  lemma ReadReview(printable: Printable, before: Layer, want: Config) returns (layer: Layer)
    requires Sensible(printable) && Widths(want) && "review" !in before.seenSections && Untouched(before, "review")
    ensures ReadEntries(before, SectionEntries("review", ReviewEntries(printable, want))) == Some(layer)
    ensures layer.cfg == ReviewConfigs(before.cfg, want)[3] && layer.seenSections == before.seenSections + {"review"}
    ensures layer.gatesReplaced == before.gatesReplaced
    ensures forall other :: other != "review" && Untouched(before, other) ==> Untouched(layer, other)
  {
    DecimalReads(want.maxFilesPerTask);
    DecimalReads(want.maxPacketBytes);
    UnquoteRoundTrip(printable, want.defaultProvider);
    ReviewSettings(before.cfg, want, Decimal(want.maxFilesPerTask), Decimal(want.maxPacketBytes), Quote(printable, want.defaultProvider));
    layer := SectionWithFields(before, "review", ReviewEntries(printable, want), ReviewConfigs(before.cfg, want));
  }

  lemma ReadState(before: Layer, want: Config) returns (layer: Layer)
    requires Widths(want) && "state" !in before.seenSections && Untouched(before, "state")
    ensures ReadEntries(before, SectionEntries("state", [Pair("retention_days", Decimal(want.retentionDays))])) == Some(layer)
    ensures layer.cfg == before.cfg.(retentionDays := want.retentionDays) && layer.seenSections == before.seenSections + {"state"}
    ensures layer.gatesReplaced == before.gatesReplaced
    ensures forall other :: other != "state" && Untouched(before, other) ==> Untouched(layer, other)
  {
    var next, pair := before.cfg.(retentionDays := want.retentionDays), Pair("retention_days", Decimal(want.retentionDays));
    DecimalReads(want.retentionDays);
    RetentionField(before.cfg, pair.raw, want.retentionDays);
    SingleSetting("state", pair, before.cfg, next);
    layer := SectionWithFields(before, "state", [pair], [before.cfg, next]);
  }

  lemma ReadRisk(printable: Printable, before: Layer, want: Config) returns (layer: Layer)
    requires Sensible(printable) && "risk" !in before.seenSections && Untouched(before, "risk")
    ensures ReadEntries(before, SectionEntries("risk", [Pair("policy_files", List(printable, want.policyFiles))])) == Some(layer)
    ensures layer.cfg == before.cfg.(policyFiles := want.policyFiles) && layer.gatesReplaced == before.gatesReplaced
    ensures forall other :: other != "risk" && Untouched(before, other) ==> Untouched(layer, other)
  {
    var next, pair := before.cfg.(policyFiles := want.policyFiles), Pair("policy_files", List(printable, want.policyFiles));
    ParseListText(printable, want.policyFiles);
    PolicyField(before.cfg, pair.raw, want.policyFiles);
    SingleSetting("risk", pair, before.cfg, next);
    layer := SectionWithFields(before, "risk", [pair], [before.cfg, next]);
  }

  /** The document without the gates. */
  function FieldEntries(printable: Printable, want: Config): seq<Entry>
  {
    TopEntries(printable, want) +
    (SectionEntries("review", ReviewEntries(printable, want)) +
     (SectionEntries("state", [Pair("retention_days", Decimal(want.retentionDays))]) +
      SectionEntries("risk", [Pair("policy_files", List(printable, want.policyFiles))])))
  }

  lemma FieldsAreRead(printable: Printable, lower: Config, want: Config) returns (layer: Layer)
    requires Sensible(printable) && Widths(want)
    ensures ReadEntries(Start(lower), FieldEntries(printable, want)) == Some(layer)
    ensures layer.cfg == want.(gates := lower.gates) && !layer.gatesReplaced && Untouched(layer, "gates")
  {
    assert "review" != "state" && "review" != "risk" && "state" != "risk" && "gates" != "review" && "gates" != "state" && "gates" != "risk";
    var top := ReadTop(printable, lower, want);
    var review := ReadReview(printable, top, want);
    var state := ReadState(review, want);
    layer := ReadRisk(printable, state, want);
    var d := SectionEntries("risk", [Pair("policy_files", List(printable, want.policyFiles))]);
    var c := SectionEntries("state", [Pair("retention_days", Decimal(want.retentionDays))]);
    var b := SectionEntries("review", ReviewEntries(printable, want));
    ReadThen(review, c, d, state, layer);
    ReadThen(top, b, c + d, review, layer);
    ReadThen(Start(lower), TopEntries(printable, want), b + (c + d), top, layer);
  }

  // ----- The gates -----

  /** Assignment to a gate as a value. */
  function GateAssigner(): (GateConfig.Gate, string, string) -> Option<GateConfig.Gate>
  {
    (gate, key, raw) => AssignGate(gate, key, raw)
  }

  /** The fields of a gate in the order in which they are written. */
  const GateKeys: seq<string> := [
    "id", "argv", "cwd", "env_allowlist", "when_paths", "depends_on", "timeout_seconds", "resource_class", "blocking",
    "cache_class", "final_always", "network_class", "expected_writes", "redaction_policy"]

  function GateRaw(printable: Printable, gate: GateConfig.Gate, i: nat): string
  {
    if i == 0 then Quote(printable, gate.id)
    else if i == 1 then List(printable, gate.argv)
    else if i == 2 then Quote(printable, gate.cwd)
    else if i == 3 then List(printable, gate.envAllowlist)
    else if i == 4 then List(printable, gate.whenPaths)
    else if i == 5 then List(printable, gate.dependsOn)
    else if i == 6 then Decimal(gate.timeoutSeconds)
    else if i == 7 then Quote(printable, gate.resourceClass)
    else if i == 8 then BoolText(gate.blocking)
    else if i == 9 then Quote(printable, gate.cacheClass)
    else if i == 10 then BoolText(gate.finalAlways)
    else if i == 11 then Quote(printable, gate.networkClass)
    else if i == 12 then List(printable, gate.expectedWrites)
    else Quote(printable, gate.redactionPolicy)
  }

  /** The gate after its first `n` fields have been read. */
  function GateUpTo(gate: GateConfig.Gate, n: nat): GateConfig.Gate
  {
    GateConfig.Gate(
      if n > 0 then gate.id else "", if n > 1 then gate.argv else [], if n > 2 then gate.cwd else "",
      if n > 3 then gate.envAllowlist else [], if n > 4 then gate.whenPaths else [], if n > 5 then gate.dependsOn else [],
      if n > 6 then gate.timeoutSeconds else 0, if n > 7 then gate.resourceClass else "", n > 8 && gate.blocking,
      if n > 9 then gate.cacheClass else "", n > 10 && gate.finalAlways, if n > 11 then gate.networkClass else "",
      if n > 12 then gate.expectedWrites else [], if n > 13 then gate.redactionPolicy else "")
  }

  /** One field of a gate, and the gate it makes of the one before. */
  datatype GateStep = GateStep(key: string, raw: string, after: GateConfig.Gate)

  function StepsOf(printable: Printable, gate: GateConfig.Gate): (r: seq<GateStep>)
    ensures |r| == 14
    ensures forall i :: 0 <= i < 14 ==> r[i] == GateStep(GateKeys[i], GateRaw(printable, gate, i), GateUpTo(gate, i + 1))
  {
    seq(14, i requires 0 <= i < 14 => GateStep(GateKeys[i], GateRaw(printable, gate, i), GateUpTo(gate, i + 1)))
  }

  /** The fields of a gate, one after the other. */
  ghost predicate GateSteps(gate: GateConfig.Gate, steps: seq<GateStep>)
  {
    && (steps != [] ==> Takes(gate, steps[0]))
    && (forall i :: 0 < i < |steps| ==> Takes(steps[i - 1].after, steps[i]))
    && forall i, j :: 0 <= i < j < |steps| ==> steps[i].key != steps[j].key
  }

  predicate Takes(gate: GateConfig.Gate, step: GateStep)
  {
    GateAssigner()(gate, step.key, step.raw) == Some(step.after)
  }

  function PairsOf(steps: seq<GateStep>): (r: seq<Entry>)
    ensures |r| == |steps| && forall i :: 0 <= i < |r| ==> r[i] == Pair(steps[i].key, steps[i].raw)
  {
    if steps == [] then [] else [Pair(steps[0].key, steps[0].raw)] + PairsOf(steps[1..])
  }

  /** Reading inside the last gate of the list. */
  ghost predicate InGate(layer: Layer)
  {
    layer.section == "gates" && 0 <= layer.gateIndex && layer.gateIndex + 1 == |layer.cfg.gates|
  }

  lemma NotTopField(key: string)
    ensures !IsTopField(Qualified("gates", key))
  {
    assert Qualified("gates", key)[0] == 'g';
  }

  /** What reading a field of the last gate leaves. */
  function AfterStep(layer: Layer, step: GateStep): Layer
    requires 0 <= layer.gateIndex < |layer.cfg.gates|
  {
    layer.(cfg := layer.cfg.(gates := layer.cfg.gates[layer.gateIndex := step.after]),
           seenFields := layer.seenFields + {("gates", layer.gateIndex, step.key)})
  }

  /** Another field of the gate being read. */
  lemma GateFieldIsRead(layer: Layer, step: GateStep)
    requires InGate(layer) && ("gates", layer.gateIndex, step.key) !in layer.seenFields
    requires Takes(layer.cfg.gates[layer.gateIndex], step)
    ensures ReadEntry(layer, Pair(step.key, step.raw)) == Some(AfterStep(layer, step))
  {
    NotTopField(step.key);
  }

  lemma ReadNext(layer: Layer, e: Entry, rest: seq<Entry>, next: Layer)
    requires ReadEntry(layer, e) == Some(next)
    ensures ReadEntries(layer, [e] + rest) == ReadEntries(next, rest)
  {
    assert ([e] + rest)[1..] == rest;
  }

  /** Only this gate and the fields seen of it have changed. */
  ghost predicate GateRead(layer: Layer, last: Layer, gate: GateConfig.Gate)
    requires 0 <= layer.gateIndex < |layer.cfg.gates|
  {
    && last == layer.(cfg := layer.cfg.(gates := layer.cfg.gates[layer.gateIndex := gate]), seenFields := last.seenFields)
    && forall f :: f in last.seenFields ==> f in layer.seenFields || (f.0 == "gates" && f.1 == layer.gateIndex)
  }

  lemma {:induction false} GateStepsAreRead(layer: Layer, steps: seq<GateStep>) returns (last: Layer)
    requires InGate(layer) && steps != [] && GateSteps(layer.cfg.gates[layer.gateIndex], steps)
    requires forall i :: 0 <= i < |steps| ==> ("gates", layer.gateIndex, steps[i].key) !in layer.seenFields
    ensures ReadEntries(layer, PairsOf(steps)) == Some(last) && GateRead(layer, last, steps[|steps| - 1].after)
    decreases |steps|
  {
    var next, rest := AfterStep(layer, steps[0]), steps[1..];
    GateFieldIsRead(layer, steps[0]);
    ReadNext(layer, Pair(steps[0].key, steps[0].raw), PairsOf(rest), next);
    if rest == [] {
      last := next;
    } else {
      GateStepsRest(layer.cfg.gates[layer.gateIndex], steps);
      last := GateStepsAreRead(next, rest);
      GateReadTwice(layer, steps[0], last, steps[|steps| - 1].after);
    }
  }

  lemma GateReadTwice(layer: Layer, step: GateStep, last: Layer, gate: GateConfig.Gate)
    requires 0 <= layer.gateIndex < |layer.cfg.gates| && GateRead(AfterStep(layer, step), last, gate)
    ensures GateRead(layer, last, gate)
  {
    var k := layer.gateIndex;
    assert layer.cfg.gates[k := step.after][k := gate] == layer.cfg.gates[k := gate];
  }

  lemma GateStepsRest(gate: GateConfig.Gate, steps: seq<GateStep>)
    requires steps != [] && GateSteps(gate, steps)
    ensures GateSteps(steps[0].after, steps[1..])
  {
    var rest := steps[1..];
    forall i | 0 < i < |rest| ensures Takes(rest[i - 1].after, rest[i]) {
      assert Takes(steps[i].after, steps[i + 1]);
    }
  }

  // ----- Each field of a gate -----

  lemma IdTakes(g: GateConfig.Gate, raw: string, v: string)
    requires Unquote(raw) == Some(v)
    ensures Takes(g, GateStep("id", raw, g.(id := v)))
  {
  }

  lemma ArgvTakes(g: GateConfig.Gate, raw: string, v: seq<string>)
    requires ParseStrings(raw) == Some(v)
    ensures Takes(g, GateStep("argv", raw, g.(argv := v)))
  {
  }

  lemma CwdTakes(g: GateConfig.Gate, raw: string, v: string)
    requires Unquote(raw) == Some(v)
    ensures Takes(g, GateStep("cwd", raw, g.(cwd := v)))
  {
  }

  lemma EnvTakes(g: GateConfig.Gate, raw: string, v: seq<string>)
    requires ParseStrings(raw) == Some(v)
    ensures Takes(g, GateStep("env_allowlist", raw, g.(envAllowlist := v)))
  {
  }

  lemma WhenTakes(g: GateConfig.Gate, raw: string, v: seq<string>)
    requires ParseStrings(raw) == Some(v)
    ensures Takes(g, GateStep("when_paths", raw, g.(whenPaths := v)))
  {
  }

  lemma DependsTakes(g: GateConfig.Gate, raw: string, v: seq<string>)
    requires ParseStrings(raw) == Some(v)
    ensures Takes(g, GateStep("depends_on", raw, g.(dependsOn := v)))
  {
  }

  lemma TimeoutTakes(g: GateConfig.Gate, raw: string, v: int)
    requires Atoi(raw) == Some(v)
    ensures Takes(g, GateStep("timeout_seconds", raw, g.(timeoutSeconds := v)))
  {
  }

  lemma ResourceTakes(g: GateConfig.Gate, raw: string, v: string)
    requires Unquote(raw) == Some(v)
    ensures Takes(g, GateStep("resource_class", raw, g.(resourceClass := v)))
  {
  }

  lemma BlockingTakes(g: GateConfig.Gate, raw: string, v: bool)
    requires ParseBool(raw) == Some(v)
    ensures Takes(g, GateStep("blocking", raw, g.(blocking := v)))
  {
  }

  lemma CacheTakes(g: GateConfig.Gate, raw: string, v: string)
    requires Unquote(raw) == Some(v)
    ensures Takes(g, GateStep("cache_class", raw, g.(cacheClass := v)))
  {
  }

  lemma FinalTakes(g: GateConfig.Gate, raw: string, v: bool)
    requires ParseBool(raw) == Some(v)
    ensures Takes(g, GateStep("final_always", raw, g.(finalAlways := v)))
  {
  }

  lemma NetworkTakes(g: GateConfig.Gate, raw: string, v: string)
    requires Unquote(raw) == Some(v)
    ensures Takes(g, GateStep("network_class", raw, g.(networkClass := v)))
  {
  }

  lemma WritesTakes(g: GateConfig.Gate, raw: string, v: seq<string>)
    requires ParseStrings(raw) == Some(v)
    ensures Takes(g, GateStep("expected_writes", raw, g.(expectedWrites := v)))
  {
    WritesAssigned(g, raw, v);
  }

  lemma WritesAssigned(g: GateConfig.Gate, raw: string, v: seq<string>)
    requires ParseStrings(raw) == Some(v)
    ensures AssignGate(g, "expected_writes", raw) == Some(g.(expectedWrites := v))
  {
  }

  lemma RedactionTakes(g: GateConfig.Gate, raw: string, v: string)
    requires Unquote(raw) == Some(v)
    ensures Takes(g, GateStep("redaction_policy", raw, g.(redactionPolicy := v)))
  {
  }

  lemma StringFieldsTake(printable: Printable, gate: GateConfig.Gate, i: nat)
    requires Sensible(printable) && i in [0, 2, 7, 9, 11, 13]
    ensures Takes(GateUpTo(gate, i), StepsOf(printable, gate)[i])
  {
    var g, raw := GateUpTo(gate, i), GateRaw(printable, gate, i);
    if i == 0 {
      UnquoteRoundTrip(printable, gate.id);
      IdTakes(g, raw, gate.id);
    } else if i == 2 {
      UnquoteRoundTrip(printable, gate.cwd);
      CwdTakes(g, raw, gate.cwd);
    } else if i == 7 {
      UnquoteRoundTrip(printable, gate.resourceClass);
      ResourceTakes(g, raw, gate.resourceClass);
    } else if i == 9 {
      UnquoteRoundTrip(printable, gate.cacheClass);
      CacheTakes(g, raw, gate.cacheClass);
    } else if i == 11 {
      UnquoteRoundTrip(printable, gate.networkClass);
      NetworkTakes(g, raw, gate.networkClass);
    } else {
      UnquoteRoundTrip(printable, gate.redactionPolicy);
      RedactionTakes(g, raw, gate.redactionPolicy);
    }
  }

  /** The list that a field of the gate holds. */
  function ListField(gate: GateConfig.Gate, i: nat): seq<string>
  {
    if i == 1 then gate.argv else if i == 3 then gate.envAllowlist else if i == 4 then gate.whenPaths
    else if i == 5 then gate.dependsOn else gate.expectedWrites
  }

  lemma ListTakes(gate: GateConfig.Gate, i: nat, raw: string)
    requires i in [1, 3, 4, 5, 12] && ParseStrings(raw) == Some(ListField(gate, i))
    ensures Takes(GateUpTo(gate, i), GateStep(GateKeys[i], raw, GateUpTo(gate, i + 1)))
  {
    var g := GateUpTo(gate, i);
    if i == 1 {
      ArgvTakes(g, raw, gate.argv);
    } else if i == 3 {
      EnvTakes(g, raw, gate.envAllowlist);
    } else if i == 4 {
      WhenTakes(g, raw, gate.whenPaths);
    } else if i == 5 {
      DependsTakes(g, raw, gate.dependsOn);
    } else {
      WritesTakes(g, raw, gate.expectedWrites);
    }
  }

  lemma ListParses(printable: Printable, values: seq<string>, raw: string)
    requires Sensible(printable) && raw == List(printable, values)
    ensures ParseStrings(raw) == Some(values)
  {
    ParseListText(printable, values);
  }

  lemma RawList(printable: Printable, gate: GateConfig.Gate, i: nat)
    requires i in [1, 3, 4, 5, 12]
    ensures GateRaw(printable, gate, i) == List(printable, ListField(gate, i))
  {
  }

  lemma ListFieldsTake(printable: Printable, gate: GateConfig.Gate, i: nat)
    requires Sensible(printable) && i in [1, 3, 4, 5, 12]
    ensures Takes(GateUpTo(gate, i), StepsOf(printable, gate)[i])
  {
    RawList(printable, gate, i);
    ListParses(printable, ListField(gate, i), GateRaw(printable, gate, i));
    ListTakes(gate, i, GateRaw(printable, gate, i));
  }

  lemma OtherFieldsTake(printable: Printable, gate: GateConfig.Gate, i: nat)
    requires i in [6, 8, 10] && Fits64(gate.timeoutSeconds)
    ensures Takes(GateUpTo(gate, i), StepsOf(printable, gate)[i])
  {
    var g, raw := GateUpTo(gate, i), GateRaw(printable, gate, i);
    if i == 6 {
      DecimalReads(gate.timeoutSeconds);
      TimeoutTakes(g, raw, gate.timeoutSeconds);
    } else if i == 8 {
      BoolReads(gate.blocking);
      BlockingTakes(g, raw, gate.blocking);
    } else {
      BoolReads(gate.finalAlways);
      FinalTakes(g, raw, gate.finalAlways);
    }
  }

  /** The length of a key and its first character tell the fields apart. */
  lemma GateKeysDiffer(keys: seq<string>)
    requires |keys| == 14 && forall i :: 0 <= i < 14 ==> keys[i] != "" && KeyCode(keys[i]) == Codes[i]
    ensures forall i, j :: 0 <= i < j < 14 ==> keys[i] != keys[j]
  {
    forall i, j | 0 <= i < j < 14 ensures keys[i] != keys[j] {
      assert Codes[i] != Codes[j];
    }
  }

  function KeyCode(key: string): int
    requires key != ""
  {
    1000 * |key| + key[0] as int
  }

  const Codes: seq<int> := [2105, 4097, 3099, 13101, 10119, 10100, 15116, 14114, 8098, 11099, 12102, 13110, 15101, 16114]

  lemma KeyCodes()
    ensures forall i :: 0 <= i < 14 ==> GateKeys[i] != "" && KeyCode(GateKeys[i]) == Codes[i]
  {
  }

  lemma FieldTakes(printable: Printable, gate: GateConfig.Gate, i: nat)
    requires Sensible(printable) && Fits64(gate.timeoutSeconds) && i < 14
    ensures Takes(GateUpTo(gate, i), StepsOf(printable, gate)[i])
  {
    if i in [0, 2, 7, 9, 11, 13] {
      StringFieldsTake(printable, gate, i);
    } else if i in [1, 3, 4, 5, 12] {
      ListFieldsTake(printable, gate, i);
    } else {
      OtherFieldsTake(printable, gate, i);
    }
  }

  /** Each step takes what the one before left. */
  lemma StepsInOrder(gates: seq<GateConfig.Gate>, keys: seq<string>, steps: seq<GateStep>)
    requires |keys| == |steps| == |gates| - 1 && forall i :: 0 <= i < |steps| ==> steps[i].key == keys[i] && steps[i].after == gates[i + 1]
    requires forall i :: 0 <= i < |steps| ==> Takes(gates[i], steps[i])
    requires forall i, j :: 0 <= i < j < |keys| ==> keys[i] != keys[j]
    ensures GateSteps(gates[0], steps)
  {
  }

  lemma UpToEnds(gate: GateConfig.Gate)
    ensures GateUpTo(gate, 0) == GateConfig.ZERO_GATE && GateUpTo(gate, 14) == gate
  {
  }

  lemma StepsTakeGate(printable: Printable, gate: GateConfig.Gate)
    requires Sensible(printable) && Fits64(gate.timeoutSeconds)
    ensures GateSteps(GateConfig.ZERO_GATE, StepsOf(printable, gate)) && StepsOf(printable, gate)[13].after == gate
  {
    var steps := StepsOf(printable, gate);
    forall i: nat | i < 14 ensures Takes(GateUpTo(gate, i), steps[i]) {
      FieldTakes(printable, gate, i);
    }
    KeyCodes();
    GateKeysDiffer(GateKeys);
    StepsInOrder(seq(15, i requires 0 <= i < 15 => GateUpTo(gate, i)), GateKeys, steps);
    UpToEnds(gate);
  }

  // ----- The list of gates -----

  function GateEntries(printable: Printable, gate: GateConfig.Gate): seq<Entry>
  {
    [BlankLine, GateStart] + PairsOf(StepsOf(printable, gate))
  }

  function GatesEntries(printable: Printable, gates: seq<GateConfig.Gate>): seq<Entry>
  {
    if gates == [] then [] else GateEntries(printable, gates[0]) + GatesEntries(printable, gates[1..])
  }

  /** The gates this layer has read, and no field of a gate to come. */
  ghost predicate GatesSoFar(layer: Layer, gates: seq<GateConfig.Gate>)
  {
    && gates == (if layer.gatesReplaced then layer.cfg.gates else [])
    && forall f :: f in layer.seenFields && f.0 == "gates" ==> f.1 < |gates|
  }

  lemma GateStarts(layer: Layer, before: seq<GateConfig.Gate>) returns (next: Layer)
    requires GatesSoFar(layer, before)
    ensures ReadEntries(layer, [BlankLine, GateStart]) == Some(next) && InGate(next) && next.gateIndex == |before|
    ensures next.gatesReplaced && next.cfg == layer.cfg.(gates := before + [GateConfig.ZERO_GATE]) && next.seenFields == layer.seenFields
  {
    next := GateHeader(layer);
    ReadNext(layer, BlankLine, [GateStart], layer);
    ReadNext(layer, GateStart, [], next);
    assert [BlankLine] + [GateStart] == [BlankLine, GateStart] && [GateStart] + [] == [GateStart];
  }

  /** A gate that has been read stands behind those before it. */
  lemma GateReadStands(started: Layer, last: Layer, before: seq<GateConfig.Gate>, gate: GateConfig.Gate)
    requires started.gateIndex == |before| && started.gatesReplaced && started.cfg.gates == before + [GateConfig.ZERO_GATE]
    requires GateRead(started, last, gate)
    requires forall f :: f in started.seenFields && f.0 == "gates" ==> f.1 < |before|
    ensures last.gatesReplaced && GatesSoFar(last, before + [gate]) && last.cfg == started.cfg.(gates := before + [gate])
  {
    assert (before + [GateConfig.ZERO_GATE])[|before| := gate] == before + [gate];
  }

  /** One gate is read back, behind those that came before it. */
  lemma GateIsRead(printable: Printable, layer: Layer, before: seq<GateConfig.Gate>, gate: GateConfig.Gate) returns (last: Layer)
    requires Sensible(printable) && Fits64(gate.timeoutSeconds) && GatesSoFar(layer, before)
    ensures ReadEntries(layer, GateEntries(printable, gate)) == Some(last)
    ensures last.gatesReplaced && GatesSoFar(last, before + [gate]) && last.cfg == layer.cfg.(gates := before + [gate])
  {
    var started := GateStarts(layer, before);
    var steps := StepsOf(printable, gate);
    StepsTakeGate(printable, gate);
    last := GateStepsAreRead(started, steps);
    ReadThen(layer, [BlankLine, GateStart], PairsOf(steps), started, last);
    GateReadStands(started, last, before, gate);
  }

  lemma MoveFirst<T>(before: seq<T>, xs: seq<T>)
    requires xs != []
    ensures (before + [xs[0]]) + xs[1..] == before + xs
  {
  }

  lemma {:induction false} GatesAreRead(printable: Printable, layer: Layer, before: seq<GateConfig.Gate>, gates: seq<GateConfig.Gate>)
    returns (last: Layer)
    requires Sensible(printable) && GatesSoFar(layer, before)
    requires forall i :: 0 <= i < |gates| ==> Fits64(gates[i].timeoutSeconds)
    ensures ReadEntries(layer, GatesEntries(printable, gates)) == Some(last)
    ensures last.cfg == layer.cfg.(gates := last.cfg.gates)
    ensures last.cfg.gates == if gates == [] then layer.cfg.gates else before + gates
    decreases |gates|
  {
    if gates == [] {
      last := layer;
    } else {
      var next := GateIsRead(printable, layer, before, gates[0]);
      last := GatesAreRead(printable, next, before + [gates[0]], gates[1..]);
      ReadThen(layer, GateEntries(printable, gates[0]), GatesEntries(printable, gates[1..]), next, last);
      MoveFirst(before, gates);
    }
  }

  // ----- The text -----

  lemma WordHeader(section: string)
    requires Word(section)
    ensures AllReadable([BlankLine, Header(section)])
  {
  }

  lemma GateKeyWord(i: nat)
    requires i < 14
    ensures Word(GateKeys[i])
  {
  }

  lemma GatePairReadable(printable: Printable, gate: GateConfig.Gate, i: nat)
    requires Sensible(printable) && i < 14
    ensures AllReadable([Pair(GateKeys[i], GateRaw(printable, gate, i))])
  {
    GateKeyWord(i);
    if i == 6 {
      DecimalPair(GateKeys[i], gate.timeoutSeconds);
    } else if i == 8 {
      BoolPair(GateKeys[i], gate.blocking);
    } else if i == 10 {
      BoolPair(GateKeys[i], gate.finalAlways);
    } else if i in [1, 3, 4, 5, 12] {
      RawList(printable, gate, i);
      ListPair(printable, GateKeys[i], ListField(gate, i));
    } else {
      QuotedPair(printable, GateKeys[i], StringField(gate, i));
    }
  }

  /** The string that a field of the gate holds. */
  function StringField(gate: GateConfig.Gate, i: nat): string
  {
    if i == 0 then gate.id else if i == 2 then gate.cwd else if i == 7 then gate.resourceClass
    else if i == 9 then gate.cacheClass else if i == 11 then gate.networkClass else gate.redactionPolicy
  }

  lemma GateReadable(printable: Printable, gate: GateConfig.Gate)
    requires Sensible(printable)
    ensures AllReadable(GateEntries(printable, gate))
  {
    var pairs := PairsOf(StepsOf(printable, gate));
    forall i: nat | i < |pairs| ensures Readable(pairs[i]) && WholeLine(LineOf(pairs[i])) {
      GatePairReadable(printable, gate, i);
      assert [pairs[i]][0] == pairs[i];
    }
    assert AllReadable([BlankLine, GateStart]);
    ReadableConcat([BlankLine, GateStart], pairs);
  }

  lemma {:induction false} GatesReadable(printable: Printable, gates: seq<GateConfig.Gate>)
    requires Sensible(printable)
    ensures AllReadable(GatesEntries(printable, gates))
  {
    if gates != [] {
      GateReadable(printable, gates[0]);
      GatesReadable(printable, gates[1..]);
      ReadableConcat(GateEntries(printable, gates[0]), GatesEntries(printable, gates[1..]));
    }
  }

  lemma TopReadable(printable: Printable, want: Config)
    requires Sensible(printable)
    ensures AllReadable(TopEntries(printable, want))
  {
    var es := TopEntries(printable, want);
    DecimalPair("schema_version", want.schemaVersion);
    QuotedPair(printable, "baseline", want.baseline);
    BoolPair("include_untracked", want.includeUntracked);
    ListPair(printable, "include_ignored", want.includeIgnored);
    ReadableConcat([es[0]], [es[1]]);
    ReadableConcat([es[0]] + [es[1]], [es[2]]);
    ReadableConcat([es[0]] + [es[1]] + [es[2]], [es[3]]);
    assert es == [es[0]] + [es[1]] + [es[2]] + [es[3]];
  }

  lemma ReviewPairs(printable: Printable, want: Config)
    requires Sensible(printable)
    ensures AllReadable([Pair("max_files_per_task", Decimal(want.maxFilesPerTask))])
    ensures AllReadable([Pair("max_packet_bytes", Decimal(want.maxPacketBytes))])
    ensures AllReadable([Pair("default_provider", Quote(printable, want.defaultProvider))])
  {
    DecimalPair("max_files_per_task", want.maxFilesPerTask);
    DecimalPair("max_packet_bytes", want.maxPacketBytes);
    QuotedPair(printable, "default_provider", want.defaultProvider);
  }

  lemma ThreeReadable(es: seq<Entry>)
    requires |es| == 3 && AllReadable([es[0]]) && AllReadable([es[1]]) && AllReadable([es[2]])
    ensures AllReadable(es)
  {
    ReadableConcat([es[0]], [es[1]]);
    ReadableConcat([es[0]] + [es[1]], [es[2]]);
    assert es == [es[0]] + [es[1]] + [es[2]];
  }

  lemma ReviewReadable(printable: Printable, want: Config)
    requires Sensible(printable)
    ensures AllReadable(SectionEntries("review", ReviewEntries(printable, want)))
  {
    ReviewPairs(printable, want);
    ThreeReadable(ReviewEntries(printable, want));
    WordHeader("review");
    ReadableConcat([BlankLine, Header("review")], ReviewEntries(printable, want));
  }

  lemma RestReadable(printable: Printable, want: Config)
    requires Sensible(printable)
    ensures AllReadable(SectionEntries("state", [Pair("retention_days", Decimal(want.retentionDays))]))
    ensures AllReadable(SectionEntries("risk", [Pair("policy_files", List(printable, want.policyFiles))]))
  {
    WordHeader("state");
    WordHeader("risk");
    DecimalPair("retention_days", want.retentionDays);
    ListPair(printable, "policy_files", want.policyFiles);
    ReadableConcat([BlankLine, Header("state")], [Pair("retention_days", Decimal(want.retentionDays))]);
    ReadableConcat([BlankLine, Header("risk")], [Pair("policy_files", List(printable, want.policyFiles))]);
  }

  lemma FieldsReadable(printable: Printable, want: Config)
    requires Sensible(printable)
    ensures AllReadable(FieldEntries(printable, want))
  {
    var a, b := TopEntries(printable, want), SectionEntries("review", ReviewEntries(printable, want));
    var c := SectionEntries("state", [Pair("retention_days", Decimal(want.retentionDays))]);
    var d := SectionEntries("risk", [Pair("policy_files", List(printable, want.policyFiles))]);
    TopReadable(printable, want);
    ReviewReadable(printable, want);
    RestReadable(printable, want);
    ReadableConcat(c, d);
    ReadableConcat(b, c + d);
    ReadableConcat(a, b + (c + d));
  }

  // ----- Whole configurations -----

  /** The configuration as a document. */
  function Written(printable: Printable, want: Config): seq<Entry>
  {
    FieldEntries(printable, want) + GatesEntries(printable, want.gates)
  }

  /** What reading the document over a lower layer gives: an empty list of gates has no section, so it keeps the lower layer's. */
  function Over(lower: Config, want: Config): Config
  {
    if want.gates == [] then want.(gates := lower.gates) else want
  }

  /**
   Any configuration, written out and read over any other, comes back with every field and every
   gate, exactly when its lines fit the scanner's buffer.
   */
  lemma ConfigurationLoadsBack(printable: Printable, lower: Config, want: Config)
    requires Sensible(printable) && Widths(want)
    ensures var text := JoinLines(Lines(Written(printable, want)));
      && (ReadText(Start(lower), text).Some? <==> AllFit(Lines(Written(printable, want))))
      && (ReadText(Start(lower), text).Some? ==> ReadText(Start(lower), text).value.cfg == Over(lower, want))
  {
    FieldsReadable(printable, want);
    GatesReadable(printable, want.gates);
    ReadableConcat(FieldEntries(printable, want), GatesEntries(printable, want.gates));
    TextIsRead(Start(lower), Written(printable, want));
    var layer := FieldsAreRead(printable, lower, want);
    var last := GatesAreRead(printable, layer, [], want.gates);
    ReadThen(Start(lower), FieldEntries(printable, want), GatesEntries(printable, want.gates), layer, last);
    assert [] + want.gates == want.gates;
  }

  /**
   Gate sections at the end of any document that has no gate section itself: the text is read exactly
   when its lines fit, and the gates it gives are these and no others, whatever a lower layer had.
   */
  lemma GatesLoadBack(printable: Printable, lower: Config, head: seq<Entry>, layer: Layer, gates: seq<GateConfig.Gate>)
    requires Sensible(printable) && AllReadable(head) && (forall e :: e in head ==> !e.GateStart?)
    requires ReadEntries(Start(lower), head) == Some(layer) && gates != []
    requires forall i :: 0 <= i < |gates| ==> Fits64(gates[i].timeoutSeconds)
    ensures var entries := head + GatesEntries(printable, gates);
      var r := ReadText(Start(lower), JoinLines(Lines(entries)));
      (r.Some? <==> AllFit(Lines(entries))) && (r.Some? ==> r.value.cfg == layer.cfg.(gates := gates))
  {
    GatesReadable(printable, gates);
    ReadableConcat(head, GatesEntries(printable, gates));
    TextIsRead(Start(lower), head + GatesEntries(printable, gates));
    NoGateSection(Start(lower), head, layer);
    var last := GatesAreRead(printable, layer, [], gates);
    ReadThen(Start(lower), head, GatesEntries(printable, gates), layer, last);
    assert [] + gates == gates;
  }

  lemma NoGatesAreValid()
    ensures GateConfig.ConfigValid([])
  {
    var g := GateConfig.GraphOf(GateConfig.ByID([]));
    if p :| GateSearch.IsPath(g, p) && |p| >= 2 && p[0] == p[|p| - 1] {
      assert p[0 + 1] in GateSearch.Deps(g, p[0]);
    }
  }

  /** The check accepts a configuration with these gates exactly when it accepts the gates and, without them, the rest. */
  lemma GatesCheckedApart(cfg: Config, gates: seq<GateConfig.Gate>)
    ensures ConfigText.ConfigValid(Pending(cfg.(gates := gates))) <==>
      ConfigText.ConfigValid(Pending(cfg.(gates := []))) && GateConfig.ConfigValid(gates)
  {
    NoGatesAreValid();
  }

  /** So valid gates at the end of a document that is valid without them are loaded as they were written, when the lines fit. */
  lemma ValidGatesLoad(printable: Printable, lower: Config, head: seq<Entry>, layer: Layer, gates: seq<GateConfig.Gate>)
    requires Sensible(printable) && AllReadable(head) && (forall e :: e in head ==> !e.GateStart?)
    requires ReadEntries(Start(lower), head) == Some(layer) && gates != []
    requires forall i :: 0 <= i < |gates| ==> Fits64(gates[i].timeoutSeconds)
    requires ConfigText.ConfigValid(Pending(layer.cfg.(gates := []))) && GateConfig.ConfigValid(gates)
    ensures var entries := head + GatesEntries(printable, gates);
      var r := ReadText(Start(lower), JoinLines(Lines(entries)));
      r.Some? && ConfigText.ConfigValid(Pending(r.value.cfg)) <==> AllFit(Lines(entries))
  {
    GatesLoadBack(printable, lower, head, layer, gates);
    GatesCheckedApart(layer.cfg, gates);
  }

  /** Without a gate header nothing is read under the name of the gates. */
  lemma {:induction false} NoGateSection(layer: Layer, entries: seq<Entry>, last: Layer)
    requires !layer.gatesReplaced && layer.section != "gates" && Untouched(layer, "gates")
    requires ReadEntries(layer, entries) == Some(last) && forall e :: e in entries ==> !e.GateStart?
    ensures !last.gatesReplaced && Untouched(last, "gates")
    decreases |entries|
  {
    if entries != [] {
      assert entries[0] in entries;
      NoGateSection(ReadEntry(layer, entries[0]).value, entries[1..], last);
    }
  }

  // ----- The starter document -----

  /** What the program writes for a baseline. */
  function MinimalEntries(printable: Printable, baseline: string): seq<Entry>
  {
    [Pair("schema_version", "1"), Pair("baseline", Quote(printable, baseline)), Pair("include_untracked", "true"),
     Pair("include_ignored", "[]"),
     BlankLine, Header("review"), Pair("max_files_per_task", "8"), Pair("max_packet_bytes", "250000"),
     Pair("default_provider", "\"manual\""),
     BlankLine, Header("state"), Pair("retention_days", "30"),
     BlankLine, Header("risk"), Pair("policy_files", "[]")]
  }

  /** A word needs no escapes. */
  lemma {:induction false} WordIsItself(printable: Printable, word: string)
    requires Sensible(printable) && forall i :: 0 <= i < |word| ==> 'a' <= word[i] <= 'z'
    ensures Escaped(Escaper(printable), word) == word
  {
    if word != "" {
      WordIsItself(printable, word[1..]);
      assert word == [word[0]] + word[1..];
    }
  }

  lemma ManualQuoted(printable: Printable)
    requires Sensible(printable)
    ensures Quote(printable, "manual") == "\"manual\""
  {
    WordIsItself(printable, "manual");
    assert "\"manual\"" == "\"" + "manual" + "\"";
  }

  lemma NumbersWritten()
    ensures Decimal(1) == "1" && Decimal(8) == "8" && Decimal(30) == "30" && Decimal(250000) == "250000"
  {
    assert Natural(25) == "25" && Natural(250) == "250" && Natural(2500) == "2500" && Natural(25000) == "25000";
  }

  /** It is the built-in configuration with the baseline, written out. */
  lemma MinimalIsWritten(printable: Printable, baseline: string)
    requires Sensible(printable)
    ensures MinimalEntries(printable, baseline) == Written(printable, Default().(baseline := baseline))
  {
    var want := Default().(baseline := baseline);
    NumbersWritten();
    ManualQuoted(printable);
    EmptyListWritten(printable);
    var top, review := TopEntries(printable, want), ReviewEntries(printable, want);
    assert top == [Pair("schema_version", "1"), Pair("baseline", Quote(printable, baseline)), Pair("include_untracked", "true"),
                   Pair("include_ignored", "[]")];
    assert review == [Pair("max_files_per_task", "8"), Pair("max_packet_bytes", "250000"), Pair("default_provider", "\"manual\"")];
    FourParts(top, review, [Pair("retention_days", "30")], [Pair("policy_files", "[]")]);
    assert GatesEntries(printable, want.gates) == [];
  }

  lemma FourParts(top: seq<Entry>, review: seq<Entry>, state: seq<Entry>, risk: seq<Entry>)
    requires |top| == 4 && |review| == 3 && |state| == 1 && |risk| == 1
    ensures top + (SectionEntries("review", review) + (SectionEntries("state", state) + SectionEntries("risk", risk))) + [] ==
      [top[0], top[1], top[2], top[3], BlankLine, Header("review"), review[0], review[1], review[2],
       BlankLine, Header("state"), state[0], BlankLine, Header("risk"), risk[0]]
  {
  }

  lemma EmptyListWritten(printable: Printable)
    ensures List(printable, []) == "[]"
  {
    assert "[" + "" + "]" == "[]";
  }

  function BaselineLine(printable: Printable, baseline: string): string
  {
    LineOf(Pair("baseline", Quote(printable, baseline)))
  }

  /** Lines of a few characters. */
  lemma {:induction false} ShortFit(entries: seq<Entry>)
    requires forall i :: 0 <= i < |entries| ==> |LineOf(entries[i])| < 100
    ensures AllFit(Lines(entries))
  {
    if entries != [] {
      assert FitsBuffer(LineOf(entries[0]));
      ShortFit(entries[1..]);
      FitFirst(LineOf(entries[0]), Lines(entries[1..]));
    }
  }

  /** Only the baseline can make a line of the starter document too long. */
  lemma MinimalFits(printable: Printable, baseline: string)
    ensures AllFit(Lines(MinimalEntries(printable, baseline))) <==> FitsBuffer(BaselineLine(printable, baseline))
  {
    var entries := MinimalEntries(printable, baseline);
    var before, at, after := entries[..1], entries[1..2], entries[2..];
    assert entries == before + (at + after);
    ShortFit(before);
    ShortFit(after);
    FitConcat(before, at + after);
    FitConcat(at, after);
    assert at == [entries[1]] && Lines(at) == [LineOf(at[0])] + Lines([]) && Lines([]) == [];
    FitFirst(LineOf(at[0]), []);
  }

  /** Read over this configuration, the text gives the baseline and the built-in values and keeps the gates. */
  ghost predicate LoadsBack(text: string, baseline: string, cfg: Config)
  {
    var layer := ReadText(Start(cfg), text);
    && layer.Some? && ConfigText.ConfigValid(Pending(layer.value.cfg))
    && layer.value.cfg == Default().(baseline := baseline, gates := cfg.gates)
  }

  /**
   The starter document for any non-blank baseline, read over any configuration whose gates are
   valid, loads back exactly when the line that holds the quoted baseline fits the scanner's buffer.
   */
  lemma DocumentLoadsBack(printable: Printable, baseline: string, cfg: Config)
    requires Sensible(printable) && TrimSpace(baseline) != "" && GateConfig.ConfigValid(cfg.gates)
    ensures var text := JoinLines(Lines(MinimalEntries(printable, baseline)));
      && (LoadsBack(text, baseline, cfg) <==> FitsBuffer(BaselineLine(printable, baseline)))
      && (ReadText(Start(cfg), text).Some? <==> FitsBuffer(BaselineLine(printable, baseline)))
  {
    MinimalIsWritten(printable, baseline);
    MinimalFits(printable, baseline);
    ConfigurationLoadsBack(printable, cfg, Default().(baseline := baseline));
  }

  /** No document for a blank baseline; any other loads back wherever its baseline line fits. */
  method MinimalDocument(printable: Printable, baseline: string) returns (document: Option<string>)
    requires Sensible(printable)
    ensures document.None? <==> TrimSpace(baseline) == ""
    ensures document.Some? ==> forall cfg: Config :: GateConfig.ConfigValid(cfg.gates) ==>
      (LoadsBack(document.value, baseline, cfg) <==> FitsBuffer(BaselineLine(printable, baseline)))
  {
    if TrimSpace(baseline) == "" {
      return None;
    }
    forall cfg: Config | GateConfig.ConfigValid(cfg.gates)
      ensures LoadsBack(JoinLines(Lines(MinimalEntries(printable, baseline))), baseline, cfg) <==> FitsBuffer(BaselineLine(printable, baseline))
    {
      DocumentLoadsBack(printable, baseline, cfg);
    }
    return Some(JoinLines(Lines(MinimalEntries(printable, baseline))));
  }
}
