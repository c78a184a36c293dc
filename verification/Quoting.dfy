/**
 Quoted strings and string lists as the configuration writes and reads them: `strconv.Quote`
 and its inverse, the comment scanner and the list scanner.

 Which characters are printable is a parameter; strings are sequences of characters.
 */
module Quoting {
  import opened Common
  import opened Text

  type Printable = char -> bool

  /** What is true of `unicode.IsPrint`. */
  ghost predicate Sensible(printable: Printable)
  {
    forall c :: (c < ' ' || c == '\U{7F}' ==> !printable(c)) && (' ' <= c <= '~' ==> printable(c))
  }

  // ----- Hexadecimal -----

  function HexDigit(n: nat): char
    requires n < 16
  {
    if n < 10 then ('0' as int + n) as char else ('a' as int + (n - 10)) as char
  }

  function HexValue(c: char): Option<nat>
  {
    if '0' <= c <= '9' then Some(c as int - '0' as int)
    else if 'a' <= c <= 'f' then Some(c as int - 'a' as int + 10)
    else if 'A' <= c <= 'F' then Some(c as int - 'A' as int + 10)
    else None
  }

  function Pow16(k: nat): nat
  {
    if k == 0 then 1 else 16 * Pow16(k - 1)
  }

  /** The last `k` hexadecimal digits. */
  function Hex(n: nat, k: nat): (r: string)
    ensures |r| == k
  {
    if k == 0 then "" else Hex(n / 16, k - 1) + [HexDigit(n % 16)]
  }

  function ParseHex(s: string): Option<nat>
  {
    if s == "" then Some(0)
    else
      var head, last := ParseHex(s[..|s| - 1]), HexValue(s[|s| - 1]);
      if head.Some? && last.Some? then Some(16 * head.value + last.value) else None
  }

  lemma {:induction false} HexRoundTrip(n: nat, k: nat)
    requires n < Pow16(k)
    ensures ParseHex(Hex(n, k)) == Some(n)
  {
    if k > 0 {
      HexRoundTrip(n / 16, k - 1);
      assert Hex(n, k)[..k - 1] == Hex(n / 16, k - 1);
    }
  }

  // ----- Writing -----

  function Escape(printable: Printable, c: char): string
  {
    if c == '"' || c == '\\' then ['\\', c]
    else if printable(c) then [c]
    else if c == '\U{7}' then "\\a"
    else if c == '\U{8}' then "\\b"
    else if c == '\U{C}' then "\\f"
    else if c == '\n' then "\\n"
    else if c == '\r' then "\\r"
    else if c == '\t' then "\\t"
    else if c == '\U{B}' then "\\v"
    else if c < ' ' || c == '\U{7F}' then "\\x" + Hex(c as int, 2)
    else if c as int < 0x1_0000 then "\\u" + Hex(c as int, 4)
    else "\\U" + Hex(c as int, 8)
  }

  function Escaper(printable: Printable): char -> string
  {
    c => Escape(printable, c)
  }

  function Escaped(escape: char -> string, s: string): string
  {
    if s == "" then "" else escape(s[0]) + Escaped(escape, s[1..])
  }

  function Quote(printable: Printable, s: string): string
  {
    "\"" + Escaped(Escaper(printable), s) + "\""
  }

  // ----- Reading -----

  /** The character of a code point; none for surrogates and beyond. */
  function Rune(n: nat): Option<char>
  {
    if n < 0xD800 || 0xE000 <= n < 0x11_0000 then Some(n as char) else None
  }

  /** A numeric escape: `k` digits after the two characters of its introduction. */
  function NumericEscape(s: string, k: nat, limit: nat): Option<(char, string)>
  {
    if |s| < 2 + k then None
    else
      var n := ParseHex(s[2..2 + k]);
      if n.None? || n.value >= limit || Rune(n.value).None? then None else Some((Rune(n.value).value, s[2 + k..]))
  }

  /** One character of a quoted string's inside. */
  function UnquoteOne(s: string): (r: Option<(char, string)>)
    ensures r.Some? ==> |r.value.1| < |s|
  {
    if s == "" || s[0] == '"' || s[0] == '\n' then None
    else if s[0] != '\\' then Some((s[0], s[1..]))
    else if |s| < 2 then None
    else
      match s[1]
      case 'a' => Some(('\U{7}', s[2..]))
      case 'b' => Some(('\U{8}', s[2..]))
      case 'f' => Some(('\U{C}', s[2..]))
      case 'n' => Some(('\n', s[2..]))
      case 'r' => Some(('\r', s[2..]))
      case 't' => Some(('\t', s[2..]))
      case 'v' => Some(('\U{B}', s[2..]))
      case 'x' => NumericEscape(s, 2, 0x80)
      case 'u' => NumericEscape(s, 4, 0x1_0000)
      case 'U' => NumericEscape(s, 8, 0x11_0000)
      case '\\' => Some(('\\', s[2..]))
      case '"' => Some(('"', s[2..]))
      case _ => None
  }

  /** The inside up to its closing quote, which must be the last character. */
  function UnquoteBody(s: string): Option<string>
    decreases |s|
  {
    if s == "" then None
    else if s[0] == '"' then if |s| == 1 then Some("") else None
    else
      var one := UnquoteOne(s);
      if one.None? then None
      else
        var rest := UnquoteBody(one.value.1);
        if rest.None? then None else Some([one.value.0] + rest.value)
  }

  function Unquote(raw: string): Option<string>
  {
    if |raw| >= 2 && raw[0] == '"' then UnquoteBody(raw[1..]) else None
  }

  lemma NumericEscapeRoundTrip(introduction: string, c: char, k: nat, limit: nat, t: string)
    requires |introduction| == 2 && c as int < Pow16(k) && c as int < limit
    ensures NumericEscape(introduction + Hex(c as int, k) + t, k, limit) == Some((c, t))
  {
    var s := introduction + Hex(c as int, k) + t;
    HexRoundTrip(c as int, k);
    assert s[2..2 + k] == Hex(c as int, k) && s[2 + k..] == t;
  }

  lemma PowersOf16()
    ensures Pow16(2) == 0x100 && Pow16(4) == 0x1_0000 && Pow16(8) == 0x1_0000_0000
  {
    assert Pow16(1) == 16 && Pow16(3) == 0x1000;
    assert Pow16(5) == 0x10_0000 && Pow16(6) == 0x100_0000 && Pow16(7) == 0x1000_0000;
  }

  lemma UnquoteEscaped(printable: Printable, c: char, t: string)
    requires Sensible(printable)
    ensures UnquoteOne(Escape(printable, c) + t) == Some((c, t))
  {
    var e := Escape(printable, c);
    var s := e + t;
    PowersOf16();
    if c == '"' || c == '\\' || (!printable(c) && c in "\U{7}\U{8}\U{C}\n\r\t\U{B}") {
      assert s[2..] == t;
    } else if printable(c) {
      assert s[1..] == t;
    } else if c < ' ' || c == '\U{7F}' {
      NumericEscapeRoundTrip("\\x", c, 2, 0x80, t);
    } else if c as int < 0x1_0000 {
      NumericEscapeRoundTrip("\\u", c, 4, 0x1_0000, t);
    } else {
      NumericEscapeRoundTrip("\\U", c, 8, 0x11_0000, t);
    }
  }

  /** An escaped character never begins with a quote or a newline. */
  lemma EscapeStart(printable: Printable, c: char)
    requires Sensible(printable)
    ensures Escape(printable, c) != "" && Escape(printable, c)[0] != '"'
  {
  }

  /** Every escape is read back as its character. */
  ghost predicate ReadsBack(escape: char -> string)
  {
    forall c, t :: escape(c) != "" && escape(c)[0] != '"' && UnquoteOne(escape(c) + t) == Some((c, t))
  }

  lemma {:induction false} UnquoteBodyRoundTrip(escape: char -> string, s: string)
    requires ReadsBack(escape)
    ensures UnquoteBody(Escaped(escape, s) + "\"") == Some(s)
  {
    if s == "" {
      assert Escaped(escape, s) + "\"" == "\"";
    } else {
      var t := Escaped(escape, s[1..]) + "\"";
      UnquoteBodyRoundTrip(escape, s[1..]);
      assert UnquoteOne(escape(s[0]) + t) == Some((s[0], t));
      UnquoteBodyStep(escape(s[0]), s[0], t, s[1..]);
      assert Escaped(escape, s) + "\"" == escape(s[0]) + t;
      assert s == [s[0]] + s[1..];
    }
  }

  lemma UnquoteBodyStep(e: string, c: char, t: string, more: string)
    requires e != "" && e[0] != '"' && UnquoteOne(e + t) == Some((c, t)) && UnquoteBody(t) == Some(more)
    ensures UnquoteBody(e + t) == Some([c] + more)
  {
  }

  lemma UnquoteRoundTrip(printable: Printable, s: string)
    requires Sensible(printable)
    ensures Unquote(Quote(printable, s)) == Some(s)
  {
    var escape := Escaper(printable);
    forall c, t ensures escape(c) != "" && escape(c)[0] != '"' && UnquoteOne(escape(c) + t) == Some((c, t)) {
      UnquoteEscaped(printable, c, t);
      EscapeStart(printable, c);
    }
    UnquoteBodyRoundTrip(escape, s);
    assert Quote(printable, s)[1..] == Escaped(escape, s) + "\"";
  }

  // ----- The two scanners -----

  /** What is left of a line from here on, without its comment. */
  function Strip(s: string, inString: bool, escaped: bool): string
  {
    if s == "" then ""
    else if s[0] == '\\' && inString then [s[0]] + Strip(s[1..], inString, !escaped)
    else
      var inside := if s[0] == '"' && !escaped then !inString else inString;
      if s[0] == '#' && !inside then "" else [s[0]] + Strip(s[1..], inside, false)
  }

  /** One character of the scan, from anywhere in the line. */
  lemma StripStep(line: string, index: nat, inString: bool, escaped: bool)
    requires index < |line|
    ensures var c, whole := line[index], line[..index] + Strip(line[index..], inString, escaped);
      var inside := if c == '"' && !escaped then !inString else inString;
      if c == '\\' && inString then whole == line[..index + 1] + Strip(line[index + 1..], inString, !escaped)
      else if c == '#' && !inside then whole == line[..index]
      else whole == line[..index + 1] + Strip(line[index + 1..], inside, false)
  {
    assert line[index..][0] == line[index] && line[index..][1..] == line[index + 1..];
    assert line[..index + 1] == line[..index] + [line[index]];
  }

  method StripComment(line: string) returns (r: string)
    ensures r == Strip(line, false, false)
  {
    var inString, escaped := false, false;
    for index := 0 to |line|
      invariant line[..index] + Strip(line[index..], inString, escaped) == Strip(line, false, false)
    {
      var c := line[index];
      StripStep(line, index, inString, escaped);
      if c == '\\' && inString {
        escaped := !escaped;
        continue;
      }
      if c == '"' && !escaped {
        inString := !inString;
      }
      if c == '#' && !inString {
        return line[..index];
      }
      escaped := false;
    }
    assert line[..|line|] == line;
    return line;
  }

  /** The distance to the closing quote. */
  function Closing(s: string, escaped: bool): (r: Option<nat>)
    ensures r.Some? ==> r.value < |s|
  {
    if s == "" then None
    else if s[0] == '"' && !escaped then Some(0)
    else
      var rest := Closing(s[1..], s[0] == '\\' && !escaped);
      if rest.None? then None else Some(1 + rest.value)
  }

  /** One item of a list body and, after a comma, the body that follows it. */
  function NextItem(body: string): (r: Option<(string, Option<string>)>)
    ensures r.Some? && r.value.1.Some? ==> |r.value.1.value| < |body|
  {
    var trimmed := TrimSpace(body);
    TrimShortens(body);
    if trimmed == "" || trimmed[0] != '"' then None
    else
      var end := Closing(trimmed[1..], false);
      if end.None? then None
      else
        var value := Unquote(trimmed[..end.value + 2]);
        var rest := TrimSpace(trimmed[end.value + 2..]);
        TrimShortens(trimmed[end.value + 2..]);
        if value.None? then None
        else if rest == "" then Some((value.value, None))
        else if rest[0] != ',' then None
        else Some((value.value, Some(rest[1..])))
  }

  function Prepend(values: seq<string>, more: Option<seq<string>>): Option<seq<string>>
  {
    if more.None? then None else Some(values + more.value)
  }

  /** Reads one item of a body. */
  type ItemReader = string -> Option<(string, Option<string>)>

  /** The items of a body that begins anywhere between two items; every reader step must shorten it. */
  function ParseItems(next: ItemReader, body: string): Option<seq<string>>
    decreases |body|
  {
    if body == "" then Some([])
    else
      var item := next(body);
      if item.None? then None
      else if item.value.1.None? then Some([item.value.0])
      else if |item.value.1.value| >= |body| then None
      else Prepend([item.value.0], ParseItems(next, item.value.1.value))
  }

  function Reader(): ItemReader
  {
    body => NextItem(body)
  }

  function ParseStrings(text: string): Option<seq<string>>
  {
    var raw := TrimSpace(text);
    if |raw| < 2 || raw[0] != '[' || raw[|raw| - 1] != ']' then None
    else ParseItems(Reader(), TrimSpace(raw[1..|raw| - 1]))
  }

  lemma {:induction false} TrimLeftShortens(s: string)
    ensures |TrimLeft(s)| <= |s|
  {
  }

  lemma TrimShortens(s: string)
    ensures |TrimSpace(s)| <= |s|
  {
    TrimLeftShortens(s);
  }

  method FindClosing(body: string) returns (end: Option<nat>)
    requires body != ""
    ensures end == match Closing(body[1..], false) case None => None case Some(k) => Some(k + 1)
  {
    var escaped := false;
    for index := 1 to |body|
      invariant Closing(body[1..], false) ==
        match Closing(body[index..], escaped) case None => None case Some(k) => Some(k + (index - 1))
    {
      assert body[index..][0] == body[index] && body[index..][1..] == body[index + 1..];
      if body[index] == '\\' {
        escaped := !escaped;
        continue;
      }
      if body[index] == '"' && !escaped {
        return Some(index);
      }
      escaped := false;
    }
    return None;
  }

  method ReadItem(body: string) returns (item: Option<(string, Option<string>)>)
    ensures item == NextItem(body)
  {
    var trimmed := TrimSpace(body);
    if trimmed == "" || trimmed[0] != '"' {
      return None;
    }
    var end := FindClosing(trimmed);
    if end.None? {
      return None;
    }
    var value := Unquote(trimmed[..end.value + 1]);
    if value.None? {
      return None;
    }
    var rest := TrimSpace(trimmed[end.value + 1..]);
    if rest == "" {
      return Some((value.value, None));
    }
    if rest[0] != ',' {
      return None;
    }
    return Some((value.value, Some(rest[1..])));
  }

  method ParseList(text: string) returns (r: Option<seq<string>>)
    ensures r == ParseStrings(text)
  {
    var raw := TrimSpace(text);
    if |raw| < 2 || raw[0] != '[' || raw[|raw| - 1] != ']' {
      return None;
    }
    r := ReadItems(TrimSpace(raw[1..|raw| - 1]), Reader());
  }

  lemma PrependMore(values: seq<string>, v: string, more: Option<seq<string>>)
    ensures Prepend(values, Prepend([v], more)) == Prepend(values + [v], more)
  {
    if more.Some? {
      assert values + ([v] + more.value) == values + [v] + more.value;
    }
  }

  /** `next` is the item reader. */
  ghost predicate Reads(next: ItemReader)
  {
    forall body {:trigger NextItem(body)} :: next(body) == NextItem(body)
  }

  method ReadNext(body: string, ghost next: ItemReader) returns (item: Option<(string, Option<string>)>)
    requires Reads(next)
    ensures item == next(body) && (item.Some? && item.value.1.Some? ==> |item.value.1.value| < |body|)
  {
    item := ReadItem(body);
  }

  method ReadItems(start: string, ghost next: ItemReader) returns (r: Option<seq<string>>)
    requires Reads(next)
    ensures r == ParseItems(next, start)
  {
    var values: seq<string>, body := [], start;
    PrependNothing(ParseItems(next, start));
    while |body| > 0
      invariant ParseItems(next, start) == Prepend(values, ParseItems(next, body))
      decreases |body|
    {
      var item := ReadNext(body, next);
      if item.None? {
        return None;
      }
      if item.value.1.None? {
        return Some(values + [item.value.0]);
      }
      PrependMore(values, item.value.0, ParseItems(next, item.value.1.value));
      values := values + [item.value.0];
      body := item.value.1.value;
    }
    assert values + [] == values;
    return Some(values);
  }

  lemma PrependNothing(more: Option<seq<string>>)
    ensures Prepend([], more) == more
  {
    if more.Some? { assert [] + more.value == more.value; }
  }

  // ----- Lists round trip -----

  /** Characters that neither scanner stops at. */
  predicate Plain(s: string)
  {
    forall i :: 0 <= i < |s| ==> s[i] != '"' && s[i] != '\\' && s[i] != '#'
  }

  lemma {:induction false} StripPlain(s: string, t: string, inString: bool)
    requires Plain(s)
    ensures Strip(s + t, inString, false) == s + Strip(t, inString, false)
  {
    if s == "" {
      assert s + t == t;
    } else {
      assert (s + t)[1..] == s[1..] + t;
      StripPlain(s[1..], t, inString);
      assert s == [s[0]] + s[1..];
    }
  }

  lemma {:induction false} HexIsPlain(n: nat, k: nat)
    ensures Plain(Hex(n, k))
  {
    if k > 0 {
      HexIsPlain(n / 16, k - 1);
    }
  }

  /** After a backslash and one character an escape is plain. */
  lemma EscapeTail(printable: Printable, c: char)
    requires Sensible(printable) && |Escape(printable, c)| != 1
    ensures |Escape(printable, c)| >= 2 && Escape(printable, c)[0] == '\\' && Plain(Escape(printable, c)[2..])
  {
    var e := Escape(printable, c);
    HexIsPlain(c as int, 2);
    HexIsPlain(c as int, 4);
    HexIsPlain(c as int, 8);
    if |e| > 2 {
      assert e[2..] == Hex(c as int, |e| - 2);
    }
  }

  /** The shape of an escaped character: itself, or a backslash, one character and plain text. */
  predicate EscapeShape(e: string)
  {
    if |e| == 1 then e[0] != '"' && e[0] != '\\' else |e| >= 2 && e[0] == '\\' && Plain(e[2..])
  }

  lemma EscapeHasShape(printable: Printable, c: char)
    requires Sensible(printable)
    ensures EscapeShape(Escape(printable, c))
  {
    if |Escape(printable, c)| != 1 {
      EscapeTail(printable, c);
    }
  }

  /** Inside a string an escaped character passes both scanners unchanged. */
  lemma StripEscaped(e: string, t: string)
    requires EscapeShape(e)
    ensures Strip(e + t, true, false) == e + Strip(t, true, false)
  {
    if |e| == 1 {
      assert (e + t)[1..] == t;
    } else {
      var tail := e[2..];
      assert (e + t)[1..] == [e[1]] + (tail + t) && ([e[1]] + (tail + t))[1..] == tail + t;
      StripPlain(tail, t, true);
      assert e == [e[0]] + [e[1]] + tail;
    }
  }

  lemma ClosingEscaped(e: string, t: string)
    requires EscapeShape(e)
    ensures Closing(e + t, false) == match Closing(t, false) case None => None case Some(k) => Some(k + |e|)
  {
    if |e| == 1 {
      assert (e + t)[1..] == t;
    } else {
      assert (e + t)[1..] == [e[1]] + (e[2..] + t) && ([e[1]] + (e[2..] + t))[1..] == e[2..] + t;
      ClosingPlain(e[2..], t);
    }
  }

  ghost predicate Shaped(escape: char -> string)
  {
    forall c :: EscapeShape(escape(c))
  }

  lemma EscaperShaped(printable: Printable)
    requires Sensible(printable)
    ensures Shaped(Escaper(printable))
  {
    forall c ensures EscapeShape(Escaper(printable)(c)) { EscapeHasShape(printable, c); }
  }

  lemma {:induction false} StripInside(escape: char -> string, s: string, t: string)
    requires Shaped(escape)
    ensures Strip(Escaped(escape, s) + ("\"" + t), true, false) == Escaped(escape, s) + ("\"" + Strip(t, false, false))
  {
    if s == "" {
      assert Escaped(escape, s) + ("\"" + t) == "\"" + t && ("\"" + t)[1..] == t;
    } else {
      var e, rest := escape(s[0]), Escaped(escape, s[1..]);
      assert e + rest + ("\"" + t) == e + (rest + ("\"" + t));
      StripEscaped(e, rest + ("\"" + t));
      StripInside(escape, s[1..], t);
    }
  }

  /** The comment scanner passes over a quoted string, whatever it holds. */
  lemma StripQuoted(printable: Printable, s: string, t: string)
    requires Sensible(printable)
    ensures Strip(Quote(printable, s) + t, false, false) == Quote(printable, s) + Strip(t, false, false)
  {
    var body := Escaped(Escaper(printable), s);
    EscaperShaped(printable);
    StripInside(Escaper(printable), s, t);
    StripOpen(body + ("\"" + t));
    QuotedThen(body, t);
    QuotedThen(body, Strip(t, false, false));
  }

  lemma QuotedThen(body: string, t: string)
    ensures "\"" + body + "\"" + t == "\"" + (body + ("\"" + t))
  {
  }

  lemma StripOpen(u: string)
    ensures Strip("\"" + u, false, false) == "\"" + Strip(u, true, false)
  {
    assert ("\"" + u)[1..] == u;
  }

  lemma {:induction false} ClosingPlain(s: string, t: string)
    requires Plain(s)
    ensures Closing(s + t, false) == match Closing(t, false) case None => None case Some(k) => Some(k + |s|)
  {
    if s == "" {
      assert s + t == t;
    } else {
      assert (s + t)[1..] == s[1..] + t;
      ClosingPlain(s[1..], t);
    }
  }

  lemma {:induction false} ClosingInside(escape: char -> string, s: string, t: string)
    requires Shaped(escape)
    ensures Closing(Escaped(escape, s) + ("\"" + t), false) == Some(|Escaped(escape, s)|)
  {
    if s == "" {
      assert Escaped(escape, s) + ("\"" + t) == "\"" + t;
    } else {
      var e, rest := escape(s[0]), Escaped(escape, s[1..]);
      assert e + rest + ("\"" + t) == e + (rest + ("\"" + t));
      ClosingEscaped(e, rest + ("\"" + t));
      ClosingInside(escape, s[1..], t);
    }
  }

  // ----- Whole lists -----

  /** The items of a list, each quoted, with a comma and a space between them. */
  function Items(printable: Printable, values: seq<string>): string
  {
    if values == [] then ""
    else if |values| == 1 then Quote(printable, values[0])
    else Quote(printable, values[0]) + ", " + Items(printable, values[1..])
  }

  function List(printable: Printable, values: seq<string>): string
  {
    "[" + Items(printable, values) + "]"
  }

  /** The scan outside of strings, as a value. */
  function Outside(): string -> string
  {
    s => Strip(s, false, false)
  }

  /** Three pieces that the scan passes one after the other. */
  lemma PassThree(scan: string -> string, a: string, b: string, c: string, t: string)
    requires scan(a + (b + (c + t))) == a + scan(b + (c + t))
    requires scan(b + (c + t)) == b + scan(c + t)
    requires scan(c + t) == c + scan(t)
    ensures scan(a + b + c + t) == a + b + c + scan(t)
  {
    assert a + b + c + t == a + (b + (c + t));
    assert a + (b + (c + scan(t))) == a + b + c + scan(t);
  }

  lemma PassPlain(p: string, t: string)
    requires Plain(p)
    ensures Outside()(p + t) == p + Outside()(t)
  {
    StripPlain(p, t, false);
  }

  lemma PassQuoted(printable: Printable, v: string, t: string)
    requires Sensible(printable)
    ensures Outside()(Quote(printable, v) + t) == Quote(printable, v) + Outside()(t)
  {
    StripQuoted(printable, v, t);
  }

  lemma {:induction false} PassItems(printable: Printable, values: seq<string>, t: string)
    requires Sensible(printable)
    ensures Outside()(Items(printable, values) + t) == Items(printable, values) + Outside()(t)
  {
    if values == [] {
      assert Items(printable, values) + t == t;
    } else if |values| == 1 {
      PassQuoted(printable, values[0], t);
    } else {
      var q, rest := Quote(printable, values[0]), Items(printable, values[1..]);
      PassItems(printable, values[1..], t);
      PassPlain(", ", rest + t);
      PassQuoted(printable, values[0], ", " + (rest + t));
      PassThree(Outside(), q, ", ", rest, t);
    }
  }

  lemma StripList(printable: Printable, values: seq<string>, t: string)
    requires Sensible(printable)
    ensures Outside()(List(printable, values) + t) == List(printable, values) + Outside()(t)
  {
    var items := Items(printable, values);
    PassPlain("]", t);
    PassItems(printable, values, "]" + t);
    PassPlain("[", items + ("]" + t));
    PassThree(Outside(), "[", items, "]", t);
  }

  lemma TrimTight(s: string)
    requires s != "" && !IsSpace(s[0]) && !IsSpace(s[|s| - 1])
    ensures TrimSpace(s) == s
  {
  }

  /** One quoted item at the head of a body. */
  lemma ParseFirst(printable: Printable, v: string, t: string)
    requires Sensible(printable) && (t == "" || !IsSpace(t[|t| - 1]))
    ensures var body := Quote(printable, v) + t;
      && TrimSpace(body) == body && body[0] == '"'
      && Closing(body[1..], false) == Some(|Quote(printable, v)| - 2)
      && body[..|Quote(printable, v)|] == Quote(printable, v) && body[|Quote(printable, v)|..] == t
  {
    var body := Quote(printable, v) + t;
    assert body[1..] == Escaped(Escaper(printable), v) + ("\"" + t);
    EscaperShaped(printable);
    ClosingInside(Escaper(printable), v, t);
    assert body[|body| - 1] == if t == "" then '"' else t[|t| - 1];
    TrimTight(body);
  }

  lemma ItemsTight(printable: Printable, values: seq<string>)
    requires values != []
    ensures var items := Items(printable, values);
      items != "" && items[0] == '"' && items[|items| - 1] == '"'
  {
    if |values| > 1 {
      ItemsTight(printable, values[1..]);
    }
  }

  /** What follows the first item decides how the body is read. */
  lemma ReadFirst(printable: Printable, v: string, t: string, lead: string)
    requires Sensible(printable) && (t == "" || (t[0] == ',' && t[|t| - 1] == '"')) && (lead == "" || lead == " ")
    ensures NextItem(lead + (Quote(printable, v) + t)) == if t == "" then Some((v, None)) else Some((v, Some(t[1..])))
  {
    var quoted := Quote(printable, v);
    ParseFirst(printable, v, t);
    UnquoteRoundTrip(printable, v);
    assert (quoted + t)[|quoted + t| - 1] == '"';
    LeadTrimmed(lead, quoted + t);
    ReadItemAt(lead + (quoted + t), quoted, t, v);
  }

  lemma ReadItemAt(body: string, quoted: string, t: string, v: string)
    requires TrimSpace(body) == quoted + t && |quoted| >= 2 && quoted[0] == '"'
    requires Closing((quoted + t)[1..], false) == Some(|quoted| - 2) && Unquote(quoted) == Some(v)
    requires t == "" || (t[0] == ',' && t[|t| - 1] == '"')
    ensures NextItem(body) == if t == "" then Some((v, None)) else Some((v, Some(t[1..])))
  {
    assert (quoted + t)[..|quoted|] == quoted && (quoted + t)[|quoted|..] == t;
    if t != "" { TrimTight(t); }
  }

  lemma NextOfLast(printable: Printable, v: string, lead: string, next: ItemReader)
    requires Sensible(printable) && (lead == "" || lead == " ") && Reads(next)
    ensures next(lead + Quote(printable, v)) == Some((v, None))
  {
    ReadFirst(printable, v, "", lead);
    assert Quote(printable, v) + "" == Quote(printable, v);
  }

  lemma NextOfMany(printable: Printable, v: string, rest: string, lead: string, next: ItemReader)
    requires Sensible(printable) && (lead == "" || lead == " ") && rest != "" && rest[|rest| - 1] == '"' && Reads(next)
    ensures next(lead + (Quote(printable, v) + (", " + rest))) == Some((v, Some(" " + rest)))
  {
    var t := ", " + rest;
    assert t[1..] == " " + rest;
    ReadFirst(printable, v, t, lead);
  }

  lemma {:induction false} ItemsRoundTrip(printable: Printable, values: seq<string>, lead: string, next: ItemReader)
    requires Sensible(printable) && values != [] && (lead == "" || lead == " ") && Reads(next)
    ensures ParseItems(next, lead + Items(printable, values)) == Some(values)
    decreases |values|
  {
    var v := values[0];
    if |values| == 1 {
      NextOfLast(printable, v, lead, next);
      assert values == [v];
    } else {
      ItemsTight(printable, values[1..]);
      ItemsRoundTrip(printable, values[1..], " ", next);
      ReadMany(printable, v, Items(printable, values[1..]), values[1..], lead, next);
      ItemsOfMany(printable, values);
      assert values == [v] + values[1..];
    }
  }

  lemma ItemsOfMany(printable: Printable, values: seq<string>)
    requires |values| > 1
    ensures Items(printable, values) == Quote(printable, values[0]) + (", " + Items(printable, values[1..]))
  {
  }

  lemma ReadMany(printable: Printable, v: string, rest: string, more: seq<string>, lead: string, next: ItemReader)
    requires Sensible(printable) && (lead == "" || lead == " ") && Reads(next)
    requires rest != "" && rest[|rest| - 1] == '"' && ParseItems(next, " " + rest) == Some(more)
    ensures ParseItems(next, lead + (Quote(printable, v) + (", " + rest))) == Some([v] + more)
  {
    NextOfMany(printable, v, rest, lead, next);
    ParseMany(next, lead + (Quote(printable, v) + (", " + rest)), v, " " + rest, more);
  }

  lemma ParseMany(next: ItemReader, body: string, v: string, tail: string, more: seq<string>)
    requires next(body) == Some((v, Some(tail))) && |tail| < |body| && ParseItems(next, tail) == Some(more)
    ensures ParseItems(next, body) == Some([v] + more)
  {
  }

  lemma LeadTrimmed(lead: string, items: string)
    requires (lead == "" || lead == " ") && items != "" && items[0] == '"' && items[|items| - 1] == '"'
    ensures lead + items != "" && TrimSpace(lead + items) == items
  {
    TrimTight(items);
    if lead == " " {
      assert (lead + items)[1..] == items;
    } else {
      assert lead + items == items;
    }
  }

  lemma ParseListText(printable: Printable, values: seq<string>)
    requires Sensible(printable)
    ensures ParseStrings(List(printable, values)) == Some(values)
  {
    var list, items := List(printable, values), Items(printable, values);
    TrimTight(list);
    assert list[1..|list| - 1] == items;
    if values == [] {
      assert TrimSpace(items) == "";
    } else {
      ItemsTight(printable, values);
      TrimTight(items);
      ItemsRoundTrip(printable, values, "", Reader());
      assert "" + items == items;
    }
  }

  predicate Blank(s: string)
  {
    forall i :: 0 <= i < |s| ==> IsSpace(s[i])
  }

  lemma {:induction false} TrimRightBlank(s: string, pad: string)
    requires s != "" && !IsSpace(s[|s| - 1]) && Blank(pad)
    ensures TrimRight(s + pad) == s
  {
    if pad == "" {
      assert s + pad == s;
    } else {
      assert (s + pad)[..|s + pad| - 1] == s + pad[..|pad| - 1];
      TrimRightBlank(s, pad[..|pad| - 1]);
    }
  }

  lemma {:induction false} StripBlank(pad: string, comment: string)
    requires Blank(pad) && (comment == "" || comment[0] == '#')
    ensures Strip(pad + comment, false, false) == pad
  {
    assert Plain(pad) by {
      forall i | 0 <= i < |pad| ensures pad[i] != '"' && pad[i] != '\\' && pad[i] != '#' { assert IsSpace(pad[i]); }
    }
    StripPlain(pad, comment, false);
    assert Strip(comment, false, false) == "";
    assert pad + "" == pad;
  }

  /**
   A list of any strings, quoted, bracketed and followed by blanks and a comment, is read back
   as that list: no value can start a comment, end its string or split the list.
   */
  lemma ListRoundTrip(printable: Printable, values: seq<string>, pad: string, comment: string)
    requires Sensible(printable) && Blank(pad) && (comment == "" || comment[0] == '#')
    ensures ParseStrings(Strip(List(printable, values) + (pad + comment), false, false)) == Some(values)
  {
    var list := List(printable, values);
    StripList(printable, values, pad + comment);
    StripBlank(pad, comment);
    assert Strip(list + (pad + comment), false, false) == list + pad;
    TrimRightBlank(list, pad);
    TrimTight(list);
    assert TrimLeft(list + pad) == list + pad;
    ParseListText(printable, values);
  }
}
