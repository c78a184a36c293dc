/**
 The configuration text: reading one layer line by line over a lower one, and the starter
 document that `init` writes.
 */
module ConfigText {
  import opened Common
  import opened Text
  import opened Quoting
  import GateConfig

  datatype Config = Config(
    schemaVersion: int, baseline: string, includeUntracked: bool, includeIgnored: seq<string>,
    maxFilesPerTask: int, maxPacketBytes: int, defaultProvider: string, retentionDays: int, policyFiles: seq<string>,
    gates: seq<GateConfig.Gate>)

  const CURRENT_SCHEMA_VERSION := 1
  const PENDING := "pending-higher-precedence-baseline"

  function Default(): Config
  {
    Config(CURRENT_SCHEMA_VERSION, "", true, [], 8, 250000, "manual", 30, [], [])
  }

  // ----- Values -----

  /** The digits of a decimal number. */
  function Digits(s: string): Option<nat>
  {
    if s == "" then Some(0)
    else
      var head, c := Digits(s[..|s| - 1]), s[|s| - 1];
      if head.Some? && '0' <= c <= '9' then Some(10 * head.value + (c as int - '0' as int)) else None
  }

  /** `strconv.Atoi`: an optional sign and at least one digit, within 64 bits. */
  function Atoi(s: string): Option<int>
  {
    var signed := s != "" && (s[0] == '-' || s[0] == '+');
    var digits := if signed then s[1..] else s;
    var n := Digits(digits);
    if digits == "" || n.None? then None
    else
      var value: int := if signed && s[0] == '-' then -(n.value as int) else n.value;
      if -0x8000_0000_0000_0000 <= value < 0x8000_0000_0000_0000 then Some(value) else None
  }

  function ParseBool(s: string): Option<bool>
  {
    if s in ["1", "t", "T", "TRUE", "true", "True"] then Some(true)
    else if s in ["0", "f", "F", "FALSE", "false", "False"] then Some(false)
    else None
  }

  // ----- Fields -----

  function AssignTop(cfg: Config, qualified: string, raw: string): Option<Config>
  {
    if qualified == "schema_version" then
      var v := Atoi(raw); if v.None? then None else Some(cfg.(schemaVersion := v.value))
    else if qualified == "baseline" then
      var v := Unquote(raw); if v.None? then None else Some(cfg.(baseline := v.value))
    else if qualified == "include_untracked" then
      var v := ParseBool(raw); if v.None? then None else Some(cfg.(includeUntracked := v.value))
    else if qualified == "include_ignored" then
      var v := ParseStrings(raw); if v.None? then None else Some(cfg.(includeIgnored := v.value))
    else if qualified == "review.max_files_per_task" then
      var v := Atoi(raw); if v.None? then None else Some(cfg.(maxFilesPerTask := v.value))
    else if qualified == "review.max_packet_bytes" then
      var v := Atoi(raw); if v.None? then None else Some(cfg.(maxPacketBytes := v.value))
    else if qualified == "review.default_provider" then
      var v := Unquote(raw); if v.None? then None else Some(cfg.(defaultProvider := v.value))
    else if qualified == "state.retention_days" then
      var v := Atoi(raw); if v.None? then None else Some(cfg.(retentionDays := v.value))
    else if qualified == "risk.policy_files" then
      var v := ParseStrings(raw); if v.None? then None else Some(cfg.(policyFiles := v.value))
    else None
  }

  predicate IsTopField(qualified: string)
  {
    qualified in ["schema_version", "baseline", "include_untracked", "include_ignored", "review.max_files_per_task",
                  "review.max_packet_bytes", "review.default_provider", "state.retention_days", "risk.policy_files"]
  }

  function AssignGate(gate: GateConfig.Gate, key: string, raw: string): Option<GateConfig.Gate>
  {
    if key in ["id", "cwd", "resource_class", "cache_class", "network_class", "redaction_policy"] then
      var v := Unquote(raw);
      if v.None? then None
      else Some(
        if key == "id" then gate.(id := v.value)
        else if key == "cwd" then gate.(cwd := v.value)
        else if key == "resource_class" then gate.(resourceClass := v.value)
        else if key == "cache_class" then gate.(cacheClass := v.value)
        else if key == "network_class" then gate.(networkClass := v.value)
        else gate.(redactionPolicy := v.value))
    else if key in ["argv", "env_allowlist", "when_paths", "depends_on", "expected_writes"] then
      var v := ParseStrings(raw);
      if v.None? then None
      else Some(
        if key == "argv" then gate.(argv := v.value)
        else if key == "env_allowlist" then gate.(envAllowlist := v.value)
        else if key == "when_paths" then gate.(whenPaths := v.value)
        else if key == "depends_on" then gate.(dependsOn := v.value)
        else gate.(expectedWrites := v.value))
    else if key == "timeout_seconds" then
      var v := Atoi(raw); if v.None? then None else Some(gate.(timeoutSeconds := v.value))
    else if key == "blocking" then
      var v := ParseBool(raw); if v.None? then None else Some(gate.(blocking := v.value))
    else if key == "final_always" then
      var v := ParseBool(raw); if v.None? then None else Some(gate.(finalAlways := v.value))
    else None
  }

  function Qualified(section: string, key: string): string
  {
    if section == "" then key else section + "." + key
  }

  /** The gate being read is the last one. */
  function Assign(cfg: Config, section: string, gateIndex: int, key: string, raw: string): Option<Config>
  {
    if IsTopField(Qualified(section, key)) then AssignTop(cfg, Qualified(section, key), raw)
    else if section == "gates" && 0 <= gateIndex < |cfg.gates| then
      var gate := AssignGate(cfg.gates[gateIndex], key, raw);
      if gate.None? then None else Some(cfg.(gates := cfg.gates[gateIndex := gate.value]))
    else None
  }

  // ----- Lines -----

  /** What one layer has read so far. */
  datatype Layer = Layer(
    cfg: Config, section: string, gateIndex: int, gatesReplaced: bool,
    seenFields: set<(string, int, string)>, seenSections: set<string>)

  function Start(cfg: Config): Layer
  {
    Layer(cfg, "", -1, false, {}, {})
  }

  /** The place of the first `=`. */
  function Cut(line: string): (r: Option<nat>)
    ensures r.Some? ==> r.value < |line|
  {
    if line == "" then None
    else if line[0] == '=' then Some(0)
    else
      var rest := Cut(line[1..]);
      if rest.None? then None else Some(1 + rest.value)
  }

  function GateHeader(layer: Layer): Layer
  {
    var before := if layer.gatesReplaced then layer.cfg.gates else [];
    layer.(cfg := layer.cfg.(gates := before + [GateConfig.ZERO_GATE]), gateIndex := |before|, section := "gates", gatesReplaced := true)
  }

  function SectionHeader(layer: Layer, line: string): Option<Layer>
    requires line != "" && line[0] == '['
  {
    if |line| < 2 || line[|line| - 1] != ']' then None
    else
      var section := TrimSpace(line[1..|line| - 1]);
      if section !in ["review", "state", "risk"] || section in layer.seenSections then None
      else Some(layer.(section := section, seenSections := layer.seenSections + {section}, gateIndex := -1))
  }

  function AssignField(layer: Layer, key: string, raw: string): Option<Layer>
  {
    var field := (layer.section, layer.gateIndex, key);
    if field in layer.seenFields then None
    else
      var cfg := Assign(layer.cfg, layer.section, layer.gateIndex, key, raw);
      if cfg.None? then None else Some(layer.(cfg := cfg.value, seenFields := layer.seenFields + {field}))
  }

  function FieldLine(layer: Layer, line: string): Option<Layer>
  {
    var at := Cut(line);
    if at.None? then None else AssignField(layer, TrimSpace(line[..at.value]), TrimSpace(line[at.value + 1..]))
  }

  /** One line, without its comment and the space around it. */
  function ReadLine(layer: Layer, line: string): Option<Layer>
  {
    if line == "" then Some(layer)
    else if "[[" <= line then if line == "[[gates]]" then Some(GateHeader(layer)) else None
    else if line[0] == '[' then SectionHeader(layer, line)
    else FieldLine(layer, line)
  }

  function Bare(line: string): string
  {
    TrimSpace(Strip(line, false, false))
  }

  function ReadLines(layer: Layer, lines: seq<string>): Option<Layer>
    decreases |lines|
  {
    if lines == [] then Some(layer)
    else
      var next := ReadLine(layer, Bare(lines[0]));
      if next.None? then None else ReadLines(next.value, lines[1..])
  }

  // ----- Loading -----

  ghost predicate ConfigValid(cfg: Config)
  {
    && cfg.schemaVersion == CURRENT_SCHEMA_VERSION && TrimSpace(cfg.baseline) != ""
    && cfg.maxFilesPerTask >= 1 && cfg.maxPacketBytes >= 1 && cfg.defaultProvider != "" && cfg.retentionDays >= 1
    && (forall p :: p in cfg.includeIgnored ==> GateConfig.RepositoryRelative(p))
    && GateConfig.ConfigValid(cfg.gates)
  }

  method Validate(cfg: Config) returns (ok: bool)
    ensures ok <==> ConfigValid(cfg)
  {
    if cfg.schemaVersion != CURRENT_SCHEMA_VERSION || TrimSpace(cfg.baseline) == "" || cfg.maxFilesPerTask < 1 ||
       cfg.maxPacketBytes < 1 || cfg.defaultProvider == "" || cfg.retentionDays < 1 {
      return false;
    }
    if exists p :: p in cfg.includeIgnored && !GateConfig.RepositoryRelative(p) {
      return false;
    }
    var err := GateConfig.Validate(cfg.gates);
    return err.None?;
  }

  /** A layer may leave the baseline to a higher one. */
  function Pending(cfg: Config): Config
  {
    if TrimSpace(cfg.baseline) == "" then cfg.(baseline := PENDING) else cfg
  }

  method LoadLayer(cfg: Config, lines: seq<string>) returns (r: Option<Config>)
    ensures r.Some? <==>
      var layer := ReadLines(Start(cfg), lines);
      layer.Some? && ConfigValid(Pending(layer.value.cfg))
    ensures r.Some? ==> r.value == ReadLines(Start(cfg), lines).value.cfg
  {
    var layer := Start(cfg);
    for i := 0 to |lines|
      invariant ReadLines(Start(cfg), lines) == ReadLines(layer, lines[i..])
    {
      assert lines[i..][0] == lines[i] && lines[i..][1..] == lines[i + 1..];
      var stripped := StripComment(lines[i]);
      var next := ReadLine(layer, TrimSpace(stripped));
      if next.None? {
        return None;
      }
      layer := next.value;
    }
    assert lines[|lines|..] == [];
    var ok := Validate(Pending(layer.cfg));
    return if ok then Some(layer.cfg) else None;
  }
}
