/**
 Configuration documents as lists of entries: blank lines, section headers and fields. Any
 such document, written out and read, has the effect of its entries one after the other; the
 starter document is one of them.
 */
module ConfigDocument {
  import opened Common
  import opened Text
  import opened Quoting
  import opened ConfigText

  datatype Entry = BlankLine | Header(section: string) | GateStart | Pair(key: string, raw: string)

  function LineOf(e: Entry): string
  {
    match e
    case BlankLine => ""
    case Header(section) => "[" + section + "]"
    case GateStart => "[[gates]]"
    case Pair(key, raw) => key + " = " + raw
  }

  function Lines(entries: seq<Entry>): seq<string>
  {
    if entries == [] then [] else [LineOf(entries[0])] + Lines(entries[1..])
  }

  // ----- Lines of text -----

  /** The scanner's buffer; a line and its newline must fit into it. */
  const MAX_TOKEN: nat := 65_536

  /** The length of a character in UTF-8. */
  function CharBytes(c: char): nat
  {
    if c < '\U{80}' then 1 else if c < '\U{800}' then 2 else if c < '\U{10000}' then 3 else 4
  }

  function Bytes(s: string): (n: nat)
    ensures |s| <= n <= 4 * |s|
  {
    if s == "" then 0 else CharBytes(s[0]) + Bytes(s[1..])
  }

  predicate FitsBuffer(line: string)
  {
    Bytes(line) < MAX_TOKEN
  }

  /** The characters from this one on. */
  function From(c: char, s: string): nat
  {
    if s == "" then 0 else (if s[0] >= c then 1 else 0) + From(c, s[1..])
  }

  lemma {:induction false} BytesCounted(s: string)
    ensures Bytes(s) == |s| + From('\U{80}', s) + From('\U{800}', s) + From('\U{10000}', s)
  {
    if s != "" {
      BytesCounted(s[1..]);
    }
  }

  /** A line fits when it is shorter than 64 KiB: a byte a character, and one more from each of three code points on. */
  lemma FitsExactly(line: string)
    ensures FitsBuffer(line) <==> |line| + From('\U{80}', line) + From('\U{800}', line) + From('\U{10000}', line) < 65536
  {
    BytesCounted(line);
  }

  /** Lines of text, as the scanner cuts them: a final newline ends the last line. A line too long for the buffer is an error. */
  function ScanLines(text: string): Option<seq<string>>
  {
    if text == "" then Some([])
    else
      var n := LineLength(text);
      FirstLine(text[..n], if n < |text| then ScanLines(text[n + 1..]) else Some([]))
  }

  /** A line before the others, without a final return. */
  function FirstLine(line: string, rest: Option<seq<string>>): Option<seq<string>>
  {
    if !FitsBuffer(line) || rest.None? then None else Some([DropReturn(line)] + rest.value)
  }

  function LineLength(text: string): (n: nat)
    ensures n <= |text|
  {
    if text == "" || text[0] == '\n' then 0 else 1 + LineLength(text[1..])
  }

  function DropReturn(line: string): string
  {
    if line != "" && line[|line| - 1] == '\r' then line[..|line| - 1] else line
  }

  function JoinLines(lines: seq<string>): string
  {
    if lines == [] then "" else lines[0] + ("\n" + JoinLines(lines[1..]))
  }

  /** A line as the scanner returns it. */
  predicate WholeLine(line: string)
  {
    '\n' !in line && (line == "" || line[|line| - 1] != '\r')
  }

  lemma {:induction false} LineEnds(line: string, rest: string)
    requires '\n' !in line
    ensures LineLength(line + ("\n" + rest)) == |line|
  {
    if line == "" {
      assert line + ("\n" + rest) == "\n" + rest;
    } else {
      assert (line + ("\n" + rest))[1..] == line[1..] + ("\n" + rest);
      LineEnds(line[1..], rest);
    }
  }

  lemma ScanFirst(line: string, rest: string)
    requires WholeLine(line)
    ensures ScanLines(line + ("\n" + rest)) == FirstLine(line, ScanLines(rest)) && DropReturn(line) == line
  {
    var text := line + ("\n" + rest);
    LineEnds(line, rest);
    assert text[..|line|] == line && text[|line| + 1..] == rest;
    ScanAt(text, |line|);
  }

  lemma ScanAt(text: string, n: nat)
    requires LineLength(text) == n < |text|
    ensures ScanLines(text) == FirstLine(text[..n], ScanLines(text[n + 1..]))
  {
  }

  ghost predicate AllFit(lines: seq<string>)
  {
    forall i :: 0 <= i < |lines| ==> FitsBuffer(lines[i])
  }

  lemma FitFirst(line: string, rest: seq<string>)
    ensures AllFit([line] + rest) <==> FitsBuffer(line) && AllFit(rest)
  {
    if AllFit([line] + rest) {
      assert FitsBuffer(([line] + rest)[0]);
      forall i | 0 <= i < |rest| ensures FitsBuffer(rest[i]) { assert ([line] + rest)[i + 1] == rest[i]; }
    }
  }

  /** Joined lines are cut back into those lines, exactly when each fits the scanner's buffer. */
  lemma {:induction false} LinesRoundTrip(lines: seq<string>)
    requires forall i :: 0 <= i < |lines| ==> WholeLine(lines[i])
    ensures ScanLines(JoinLines(lines)) == if AllFit(lines) then Some(lines) else None
  {
    if lines != [] {
      LinesRoundTrip(lines[1..]);
      ScanFirst(lines[0], JoinLines(lines[1..]));
      FitFirst(lines[0], lines[1..]);
      assert lines == [lines[0]] + lines[1..];
    }
  }

  /** A file's text read into a layer. */
  function ReadText(layer: Layer, text: string): Option<Layer>
  {
    var lines := ScanLines(text);
    if lines.None? then None else ReadLines(layer, lines.value)
  }

  method LoadText(cfg: Config, text: string) returns (r: Option<Config>)
    ensures r.Some? <==>
      var layer := ReadText(Start(cfg), text);
      layer.Some? && ConfigText.ConfigValid(Pending(layer.value.cfg))
    ensures r.Some? ==> r.value == ReadText(Start(cfg), text).value.cfg
  {
    var lines := ScanLines(text);
    if lines.None? {
      return None;
    }
    r := LoadLayer(cfg, lines.value);
  }

  // ----- Reading entries -----

  /** The effect of an entry, without its text. */
  function ReadEntry(layer: Layer, e: Entry): Option<Layer>
  {
    match e
    case BlankLine => Some(layer)
    case Header(section) =>
      if section !in ["review", "state", "risk"] || section in layer.seenSections then None
      else Some(layer.(section := section, seenSections := layer.seenSections + {section}, gateIndex := -1))
    case GateStart => Some(GateHeader(layer))
    case Pair(key, raw) => AssignField(layer, key, raw)
  }

  function ReadEntries(layer: Layer, entries: seq<Entry>): Option<Layer>
    decreases |entries|
  {
    if entries == [] then Some(layer)
    else
      var next := ReadEntry(layer, entries[0]);
      if next.None? then None else ReadEntries(next.value, entries[1..])
  }

  /** Lower-case letters and underscores. */
  predicate Word(s: string)
  {
    s != "" && forall i :: 0 <= i < |s| ==> 'a' <= s[i] <= 'z' || s[i] == '_'
  }

  predicate Tight(raw: string)
  {
    raw != "" && !IsSpace(raw[0]) && !IsSpace(raw[|raw| - 1])
  }

  /** An entry whose text cannot be taken for anything else. */
  predicate Readable(e: Entry)
  {
    match e
    case BlankLine => true
    case Header(section) => Word(section)
    case GateStart => true
    case Pair(key, raw) => Word(key) && Tight(raw) && Outside()(raw) == raw
  }

  lemma {:induction false} CutAt(line: string, n: nat)
    requires n < |line| && line[n] == '=' && forall i :: 0 <= i < n ==> line[i] != '='
    ensures Cut(line) == Some(n)
  {
    if n > 0 {
      CutAt(line[1..], n - 1);
    }
  }

  lemma {:induction false} TrimLeftBlank(pad: string, s: string)
    requires Blank(pad) && s != "" && !IsSpace(s[0])
    ensures TrimLeft(pad + s) == s
  {
    if pad == "" {
      assert pad + s == s;
    } else {
      assert (pad + s)[1..] == pad[1..] + s;
      TrimLeftBlank(pad[1..], s);
    }
  }

  lemma PairIsBare(key: string, raw: string)
    requires Word(key) && Tight(raw) && Outside()(raw) == raw
    ensures Bare(key + " = " + raw) == key + " = " + raw
  {
    var line := key + " = " + raw;
    assert Plain(key + " = ");
    PassPlain(key + " = ", raw);
    assert line[0] == key[0] && line[|line| - 1] == raw[|raw| - 1];
    TrimTight(line);
  }

  lemma PairCuts(key: string, raw: string)
    requires Word(key) && Tight(raw)
    ensures var line := key + " = " + raw;
      && Cut(line) == Some(|key| + 1)
      && TrimSpace(line[..|key| + 1]) == key && TrimSpace(line[|key| + 2..]) == raw
      && line != "" && line[0] != '['
  {
    var line := key + " = " + raw;
    CutAt(line, |key| + 1);
    assert line[..|key| + 1] == key + " ";
    assert TrimLeft(key + " ") == key + " ";
    TrimRightBlank(key, " ");
    assert line[|key| + 2..] == " " + raw;
    TrimLeftBlank(" ", raw);
  }

  lemma PairIsRead(layer: Layer, key: string, raw: string)
    requires Word(key) && Tight(raw) && Outside()(raw) == raw
    ensures ReadLine(layer, Bare(key + " = " + raw)) == AssignField(layer, key, raw)
  {
    PairIsBare(key, raw);
    PairCuts(key, raw);
    FieldLineCuts(layer, key + " = " + raw, |key| + 1, key, raw);
  }

  lemma FieldLineCuts(layer: Layer, line: string, n: nat, key: string, raw: string)
    requires line != "" && line[0] != '[' && Cut(line) == Some(n) && TrimSpace(line[..n]) == key && TrimSpace(line[n + 1..]) == raw
    ensures ReadLine(layer, line) == AssignField(layer, key, raw)
  {
    assert !("[[" <= line);
  }

  lemma HeaderIsBare(section: string)
    requires Word(section)
    ensures Bare("[" + section + "]") == "[" + section + "]"
    ensures TrimSpace(section) == section
  {
    var line := "[" + section + "]";
    PassPlain(line, "");
    assert line + "" == line && Outside()("") == "";
    TrimTight(line);
    TrimTight(section);
  }

  lemma HeaderIsRead(layer: Layer, section: string)
    requires Word(section)
    ensures ReadLine(layer, Bare("[" + section + "]")) == ReadEntry(layer, Header(section))
  {
    var line := "[" + section + "]";
    HeaderIsBare(section);
    assert line[1] == section[0] && line[1..|line| - 1] == section;
    assert !("[[" <= line);
  }

  lemma PlainIsBare(line: string)
    requires Plain(line) && Tight(line)
    ensures Bare(line) == line
  {
    PassPlain(line, "");
    assert line + "" == line && Outside()("") == "";
    TrimTight(line);
  }

  lemma GateLineIsRead(layer: Layer, line: string)
    requires line == "[[gates]]" && Bare(line) == line
    ensures ReadLine(layer, Bare(line)) == Some(GateHeader(layer))
  {
  }

  lemma GateStartIsRead(layer: Layer)
    ensures ReadLine(layer, Bare("[[gates]]")) == Some(GateHeader(layer))
  {
    PlainIsBare("[[gates]]");
    GateLineIsRead(layer, "[[gates]]");
  }

  /** A well-formed entry's line has the effect of the entry. */
  lemma EntryIsRead(layer: Layer, e: Entry)
    requires Readable(e)
    ensures ReadLine(layer, Bare(LineOf(e))) == ReadEntry(layer, e)
  {
    match e
    case BlankLine => assert Bare("") == "";
    case Header(section) => HeaderIsRead(layer, section);
    case GateStart => GateStartIsRead(layer);
    case Pair(key, raw) => PairIsRead(layer, key, raw);
  }

  /** Reading a document's lines is reading its entries. */
  lemma {:induction false} DocumentIsRead(layer: Layer, entries: seq<Entry>)
    requires forall i :: 0 <= i < |entries| ==> Readable(entries[i])
    ensures ReadLines(layer, Lines(entries)) == ReadEntries(layer, entries)
    decreases |entries|
  {
    if entries != [] {
      EntryIsRead(layer, entries[0]);
      var next := ReadEntry(layer, entries[0]);
      if next.Some? {
        DocumentIsRead(next.value, entries[1..]);
      }
      assert Lines(entries)[1..] == Lines(entries[1..]);
    }
  }

  lemma {:induction false} ReadEntriesConcat(layer: Layer, a: seq<Entry>, b: seq<Entry>)
    ensures ReadEntries(layer, a + b) ==
      match ReadEntries(layer, a) case None => None case Some(next) => ReadEntries(next, b)
    decreases |a|
  {
    if a == [] {
      assert a + b == b;
    } else {
      assert (a + b)[1..] == a[1..] + b;
      var next := ReadEntry(layer, a[0]);
      if next.Some? {
        ReadEntriesConcat(next.value, a[1..], b);
      }
    }
  }

  // ----- Its text -----

  ghost predicate AllReadable(entries: seq<Entry>)
  {
    forall i :: 0 <= i < |entries| ==> Readable(entries[i]) && WholeLine(LineOf(entries[i]))
  }

  lemma {:induction false} ReadableLines(entries: seq<Entry>)
    requires AllReadable(entries)
    ensures forall i :: 0 <= i < |Lines(entries)| ==> WholeLine(Lines(entries)[i])
  {
    if entries != [] {
      ReadableLines(entries[1..]);
      assert Lines(entries) == [LineOf(entries[0])] + Lines(entries[1..]);
    }
  }

  /** The text of a document of readable entries has the effect of the entries, exactly when its lines fit. */
  lemma TextIsRead(layer: Layer, entries: seq<Entry>)
    requires AllReadable(entries)
    ensures ReadText(layer, JoinLines(Lines(entries))) == if AllFit(Lines(entries)) then ReadEntries(layer, entries) else None
  {
    ReadableLines(entries);
    LinesRoundTrip(Lines(entries));
    DocumentIsRead(layer, entries);
  }

  lemma {:induction false} FitConcat(a: seq<Entry>, b: seq<Entry>)
    ensures AllFit(Lines(a + b)) <==> AllFit(Lines(a)) && AllFit(Lines(b))
    decreases |a|
  {
    if a == [] {
      assert a + b == b;
    } else {
      assert (a + b)[1..] == a[1..] + b;
      FitConcat(a[1..], b);
      FitFirst(LineOf(a[0]), Lines(a[1..]));
      FitFirst(LineOf(a[0]), Lines((a + b)[1..]));
    }
  }
}
