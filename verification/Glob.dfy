/**
 The glob patterns of a gate's `when_paths`: their translation to a regular expression, and
 what that expression means. Patterns and paths are sequences of characters; the translation
 works byte by byte, so the model is for patterns in ASCII.
 */
module Glob {
  import opened Common

  // ----- What a glob pattern means -----

  predicate NoSlash(s: string) { forall i :: 0 <= i < |s| ==> s[i] != '/' }

  predicate NoNewline(s: string) { forall i :: 0 <= i < |s| ==> s[i] != '\n' }

  /** What `**` may stand for: any text, or only text on one line. */
  predicate Run(s: string, lines: bool) { lines || NoNewline(s) }

  /** The direct matcher. `lines` says whether a double star crosses newlines. */
  predicate GlobMatch(p: string, s: string, lines: bool)
    decreases |p|
  {
    if p == "" then s == ""
    else if IsDirs(p) then
      GlobMatch(p[3..], s, lines) ||
      exists k :: 0 <= k < |s| && s[k] == '/' && Run(s[..k], lines) && GlobMatch(p[3..], s[k + 1..], lines)
    else if IsRun(p) then exists k :: 0 <= k <= |s| && Run(s[..k], lines) && GlobMatch(p[2..], s[k..], lines)
    else if p[0] == '*' then exists k :: 0 <= k <= |s| && NoSlash(s[..k]) && GlobMatch(p[1..], s[k..], lines)
    else if p[0] == '?' then s != "" && s[0] != '/' && GlobMatch(p[1..], s[1..], lines)
    else s != "" && s[0] == p[0] && GlobMatch(p[1..], s[1..], lines)
  }

  predicate IsDirs(p: string) { |p| >= 3 && p[0] == '*' && p[1] == '*' && p[2] == '/' }

  predicate IsRun(p: string) { |p| >= 2 && p[0] == '*' && p[1] == '*' && !IsDirs(p) }

  // ----- Regular expressions -----

  datatype Re = Empty | Lit(c: char) | Dot | NotSlash | Star(body: Re) | Opt(body: Re) | Cat(first: Re, rest: Re)

  predicate Matches(r: Re, s: string)
    decreases r, |s|
  {
    match r
    case Empty => s == ""
    case Lit(c) => s == [c]
    case Dot => |s| == 1 && s[0] != '\n'
    case NotSlash => |s| == 1 && s[0] != '/'
    case Star(body) => s == "" || exists k :: 0 < k <= |s| && Matches(body, s[..k]) && Matches(r, s[k..])
    case Opt(body) => s == "" || Matches(body, s)
    case Cat(first, rest) => exists k :: 0 <= k <= |s| && Matches(first, s[..k]) && Matches(rest, s[k..])
  }

  // ----- Regular expression text -----

  predicate IsMeta(c: char)
  {
    c in "\\.+*?()|[]{}^$"
  }

  function QuoteMeta(c: char): string
  {
    if IsMeta(c) then ['\\', c] else [c]
  }

  predicate OpensGroup(t: string) { |t| >= 3 && t[0] == '(' && t[1] == '?' && t[2] == ':' }

  predicate StartsClass(t: string) { |t| >= 4 && t[0] == '[' && t[1] == '^' && t[2] == '/' && t[3] == ']' }

  /** One atom and what follows it. */
  function ParseAtom(t: string): (r: Option<(Re, string)>)
    ensures r.Some? ==> |r.value.1| < |t|
    decreases |t|, 0
  {
    if t == "" then None
    else if OpensGroup(t) then
      var inner := ParseCat(t[3..]);
      if inner.Some? && inner.value.1 != "" && inner.value.1[0] == ')' then Some((inner.value.0, inner.value.1[1..])) else None
    else if t[0] == '.' then Some((Dot, t[1..]))
    else if StartsClass(t) then Some((NotSlash, t[4..]))
    else if t[0] == '\\' then if |t| >= 2 && IsMeta(t[1]) then Some((Lit(t[1]), t[2..])) else None
    else if IsMeta(t[0]) then None
    else Some((Lit(t[0]), t[1..]))
  }

  function Postfix(atom: Re, t: string): (r: (Re, string))
    ensures |r.1| <= |t|
  {
    if t != "" && t[0] == '*' then (Star(atom), t[1..])
    else if t != "" && t[0] == '?' then (Opt(atom), t[1..])
    else (atom, t)
  }

  /** A concatenation, up to the end or to a closing parenthesis. */
  function ParseCat(t: string): (r: Option<(Re, string)>)
    ensures r.Some? ==> |r.value.1| <= |t|
    decreases |t|, 1
  {
    if t == "" || t[0] == ')' then Some((Empty, t))
    else
      var atom := ParseAtom(t);
      if atom.None? then None
      else
        var item := Postfix(atom.value.0, atom.value.1);
        var rest := ParseCat(item.1);
        if rest.None? then None else Some((Cat(item.0, rest.value.0), rest.value.1))
  }

  /** An expression anchored at both ends. */
  function ParseAnchored(t: string): Option<Re>
  {
    if |t| >= 2 && t[0] == '^' && t[|t| - 1] == '$' then
      var body := ParseCat(t[1..|t| - 1]);
      if body.Some? && body.value.1 == "" then Some(body.value.0) else None
    else None
  }

  // ----- The translation -----

  const DIRS := "(?:.*/)?"
  const RUN := ".*"
  const SEGMENT := "[^/]*"
  const ONE := "[^/]"

  /** What is written for a pattern, between the anchors. */
  function Emit(p: string): string
  {
    if p == "" then ""
    else if IsDirs(p) then DIRS + Emit(p[3..])
    else if IsRun(p) then RUN + Emit(p[2..])
    else if p[0] == '*' then SEGMENT + Emit(p[1..])
    else if p[0] == '?' then ONE + Emit(p[1..])
    else QuoteMeta(p[0]) + Emit(p[1..])
  }

  /** The scan with an advancing index. */
  method GlobRegexp(pattern: string) returns (text: string)
    ensures text == "^" + Emit(pattern) + "$"
  {
    text := "^";
    var i := 0;
    while i < |pattern|
      invariant i <= |pattern|
      invariant text + Emit(pattern[i..]) == "^" + Emit(pattern)
      decreases |pattern| - i
    {
      ghost var at := i;
      var piece;
      if pattern[i] == '*' {
        if i + 1 < |pattern| && pattern[i + 1] == '*' {
          if i + 2 < |pattern| && pattern[i + 2] == '/' {
            piece := DIRS;
            i := i + 2;
          } else {
            piece := RUN;
            i := i + 1;
          }
        } else {
          piece := SEGMENT;
        }
      } else if pattern[i] == '?' {
        piece := ONE;
      } else {
        piece := QuoteMeta(pattern[i]);
      }
      i := i + 1;
      EmitStep(pattern, at, i, piece);
      assert text + (piece + Emit(pattern[i..])) == (text + piece) + Emit(pattern[i..]);
      text := text + piece;
    }
    text := text + "$";
  }

  lemma EmitStep(p: string, i: nat, j: nat, piece: string)
    requires i < j <= |p|
    requires
      || (IsDirs(p[i..]) && j == i + 3 && piece == DIRS)
      || (IsRun(p[i..]) && j == i + 2 && piece == RUN)
      || (!IsDirs(p[i..]) && !IsRun(p[i..]) && j == i + 1 &&
          piece == if p[i] == '*' then SEGMENT else if p[i] == '?' then ONE else QuoteMeta(p[i]))
    ensures Emit(p[i..]) == piece + Emit(p[j..])
  {
    assert p[i..][j - i..] == p[j..];
  }

  /** The expression a pattern is translated to. */
  function Translate(p: string): Re
  {
    if p == "" then Empty
    else if IsDirs(p) then Cat(Opt(Cat(Star(Dot), Cat(Lit('/'), Empty))), Translate(p[3..]))
    else if IsRun(p) then Cat(Star(Dot), Translate(p[2..]))
    else if p[0] == '*' then Cat(Star(NotSlash), Translate(p[1..]))
    else if p[0] == '?' then Cat(NotSlash, Translate(p[1..]))
    else Cat(Lit(p[0]), Translate(p[1..]))
  }

  // ----- The text means the expression -----

  /** Nothing emitted begins with a character that would change what stands before it. */
  lemma EmitStart(p: string)
    ensures Emit(p) == "" || (Emit(p)[0] != '*' && Emit(p)[0] != '?' && Emit(p)[0] != ')')
  {
  }

  /** The inside of the optional group, up to its closing parenthesis. */
  lemma ParseInner(a: string, b: string, c: string)
    requires |a| > 1 && a[0] == '*' && b == a[1..] && |b| > 1 && b[0] == '/' && c == b[1..] && c[0] == ')'
    ensures ParseCat("." + a) == Some((Cat(Star(Dot), Cat(Lit('/'), Empty)), c))
  {
    assert ParseAtom(b) == Some((Lit('/'), c)) && ParseCat(c) == Some((Empty, c));
    assert ParseCat(b) == Some((Cat(Lit('/'), Empty), c));
    var t := "." + a;
    assert t[1..] == a && ParseAtom(t) == Some((Dot, a)) && Postfix(Dot, a) == (Star(Dot), b);
  }

  lemma ParseGroup(t: string, r: Re, c: string)
    requires OpensGroup(t) && ParseCat(t[3..]) == Some((r, c)) && c != "" && c[0] == ')'
    ensures ParseAtom(t) == Some((r, c[1..]))
  {
  }

  lemma ParseDirs(u: string)
    ensures ParseAtom(DIRS + u) == Some((Cat(Star(Dot), Cat(Lit('/'), Empty)), "?" + u))
  {
    var t, a, b, c := DIRS + u, "*/)?" + u, "/)?" + u, ")?" + u;
    assert b == a[1..] && c == b[1..] && t[3..] == "." + a && c[1..] == "?" + u;
    ParseInner(a, b, c);
    ParseGroup(t, Cat(Star(Dot), Cat(Lit('/'), Empty)), c);
  }

  lemma ParseQuoted(c: char, u: string)
    ensures ParseAtom(QuoteMeta(c) + u) == Some((Lit(c), u))
  {
    var t := QuoteMeta(c) + u;
    if IsMeta(c) {
      assert t[0] == '\\' && t[1] == c && t[2..] == u;
    } else {
      assert t[0] == c && t[1..] == u;
    }
  }

  /** One emitted piece parses to one item, whatever emitted text follows it. */
  lemma ParseItem(t: string, atom: Re, after: string, item: Re, u: string, rest: Re)
    requires t != "" && t[0] != ')' && ParseAtom(t) == Some((atom, after)) && Postfix(atom, after) == (item, u)
    requires ParseCat(u) == Some((rest, ""))
    ensures ParseCat(t) == Some((Cat(item, rest), ""))
  {
  }

  lemma ParseDirsItem(u: string, rest: Re)
    requires ParseCat(u) == Some((rest, ""))
    ensures ParseCat(DIRS + u) == Some((Cat(Opt(Cat(Star(Dot), Cat(Lit('/'), Empty))), rest), ""))
  {
    ParseDirs(u);
    assert ("?" + u)[1..] == u;
    ParseItem(DIRS + u, Cat(Star(Dot), Cat(Lit('/'), Empty)), "?" + u, Opt(Cat(Star(Dot), Cat(Lit('/'), Empty))), u, rest);
  }

  lemma ParseRunItem(u: string, rest: Re)
    requires ParseCat(u) == Some((rest, ""))
    ensures ParseCat(RUN + u) == Some((Cat(Star(Dot), rest), ""))
  {
    assert (RUN + u)[1..] == "*" + u && ("*" + u)[1..] == u;
    ParseItem(RUN + u, Dot, "*" + u, Star(Dot), u, rest);
  }

  lemma ParseSegmentItem(u: string, rest: Re)
    requires ParseCat(u) == Some((rest, ""))
    ensures ParseCat(SEGMENT + u) == Some((Cat(Star(NotSlash), rest), ""))
  {
    assert (SEGMENT + u)[4..] == "*" + u && ("*" + u)[1..] == u;
    ParseItem(SEGMENT + u, NotSlash, "*" + u, Star(NotSlash), u, rest);
  }

  lemma ParseOneItem(u: string, rest: Re)
    requires ParseCat(u) == Some((rest, "")) && (u == "" || (u[0] != '*' && u[0] != '?'))
    ensures ParseCat(ONE + u) == Some((Cat(NotSlash, rest), ""))
  {
    assert (ONE + u)[4..] == u;
    ParseItem(ONE + u, NotSlash, u, NotSlash, u, rest);
  }

  /** Parsing what the translation writes gives the intended expression back. */
  lemma {:induction false} EmittedTextParses(p: string)
    ensures ParseCat(Emit(p)) == Some((Translate(p), ""))
  {
    if p == "" {
    } else if IsDirs(p) {
      EmittedTextParses(p[3..]);
      ParseDirsItem(Emit(p[3..]), Translate(p[3..]));
    } else if IsRun(p) {
      EmittedTextParses(p[2..]);
      ParseRunItem(Emit(p[2..]), Translate(p[2..]));
    } else {
      var u, rest := Emit(p[1..]), Translate(p[1..]);
      EmittedTextParses(p[1..]);
      EmitStart(p[1..]);
      if p[0] == '*' {
        ParseSegmentItem(u, rest);
      } else if p[0] == '?' {
        ParseOneItem(u, rest);
      } else {
        ParseQuoted(p[0], u);
        ParseItem(QuoteMeta(p[0]) + u, Lit(p[0]), u, Lit(p[0]), u, rest);
      }
    }
  }

  lemma AnchoredTextParses(p: string)
    ensures ParseAnchored("^" + Emit(p) + "$") == Some(Translate(p))
  {
    var t := "^" + Emit(p) + "$";
    assert t[1..|t| - 1] == Emit(p);
    EmittedTextParses(p);
  }

  // ----- The expression means the glob -----

  lemma {:induction false} StarOfDots(s: string)
    ensures Matches(Star(Dot), s) <==> NoNewline(s)
    decreases |s|
  {
    if s != "" {
      StarOfDots(s[1..]);
      assert s == s[..1] + s[1..];
      forall k | 0 < k <= |s| && Matches(Dot, s[..k]) ensures k == 1 { assert |s[..k]| == k; }
      assert Matches(Dot, s[..1]) <==> s[0] != '\n';
    }
  }

  lemma {:induction false} StarOfSegments(s: string)
    ensures Matches(Star(NotSlash), s) <==> NoSlash(s)
    decreases |s|
  {
    if s != "" {
      StarOfSegments(s[1..]);
      assert s == s[..1] + s[1..];
      forall k | 0 < k <= |s| && Matches(NotSlash, s[..k]) ensures k == 1 { assert |s[..k]| == k; }
      assert Matches(NotSlash, s[..1]) <==> s[0] != '/';
    }
  }

  /** The optional group stands for nothing, or for a run that ends in a slash. */
  lemma DirsMeans(s: string)
    ensures Matches(Cat(Star(Dot), Cat(Lit('/'), Empty)), s) <==> s != "" && s[|s| - 1] == '/' && NoNewline(s[..|s| - 1])
  {
    var slash := Cat(Lit('/'), Empty);
    forall k | 0 <= k <= |s| ensures Matches(slash, s[k..]) <==> k == |s| - 1 && s[k] == '/' {
      SlashMeans(s[k..]);
    }
    forall k | 0 <= k <= |s| ensures Matches(Star(Dot), s[..k]) <==> NoNewline(s[..k]) { StarOfDots(s[..k]); }
    if s != "" && s[|s| - 1] == '/' && NoNewline(s[..|s| - 1]) {
      var k := |s| - 1;
      assert Matches(Star(Dot), s[..k]) && Matches(slash, s[k..]);
    }
  }

  lemma SlashMeans(s: string)
    ensures Matches(Cat(Lit('/'), Empty), s) <==> s == "/"
  {
    if s == "/" {
      assert s[..1] == "/" && s[1..] == "";
      assert Matches(Lit('/'), s[..1]) && Matches(Empty, s[1..]);
    }
    forall k | 0 <= k <= |s| && Matches(Lit('/'), s[..k]) && Matches(Empty, s[k..]) ensures s == "/" {
      assert s == s[..k] + s[k..];
    }
  }

  /** One character followed by the rest. */
  lemma OneThenRest(first: Re, rest: Re, s: string)
    requires first.Lit? || first.NotSlash?
    ensures Matches(Cat(first, rest), s) <==> s != "" && Matches(first, s[..1]) && Matches(rest, s[1..])
  {
    forall k | 0 <= k <= |s| && Matches(first, s[..k]) ensures k == 1 { assert |s[..k]| == k; }
  }

  /** The translated expression matches exactly what the glob matches when a double star stays on one line. */
  lemma {:induction false} TranslationPreservesMeaning(p: string, s: string)
    ensures Matches(Translate(p), s) <==> GlobMatch(p, s, false)
    decreases |p|
  {
    if p == "" {
    } else if IsDirs(p) {
      DirsPreserved(p, s);
    } else if IsRun(p) {
      forall k | 0 <= k <= |s|
        ensures Matches(Star(Dot), s[..k]) <==> NoNewline(s[..k])
        ensures Matches(Translate(p[2..]), s[k..]) <==> GlobMatch(p[2..], s[k..], false)
      {
        StarOfDots(s[..k]);
        TranslationPreservesMeaning(p[2..], s[k..]);
      }
    } else if p[0] == '*' {
      forall k | 0 <= k <= |s|
        ensures Matches(Star(NotSlash), s[..k]) <==> NoSlash(s[..k])
        ensures Matches(Translate(p[1..]), s[k..]) <==> GlobMatch(p[1..], s[k..], false)
      {
        StarOfSegments(s[..k]);
        TranslationPreservesMeaning(p[1..], s[k..]);
      }
    } else {
      var first := if p[0] == '?' then NotSlash else Lit(p[0]);
      OneThenRest(first, Translate(p[1..]), s);
      if s != "" {
        assert s[..1] == [s[0]];
        TranslationPreservesMeaning(p[1..], s[1..]);
      }
    }
  }

  lemma {:induction false} DirsPreserved(p: string, s: string)
    requires IsDirs(p)
    ensures Matches(Translate(p), s) <==> GlobMatch(p, s, false)
    decreases |p|, 0
  {
    var group, rest := Cat(Star(Dot), Cat(Lit('/'), Empty)), Translate(p[3..]);
    forall k | 0 <= k <= |s|
      ensures Matches(rest, s[k..]) <==> GlobMatch(p[3..], s[k..], false)
      ensures Matches(Opt(group), s[..k]) <==> k == 0 || (s[k - 1] == '/' && NoNewline(s[..k - 1]))
    {
      TranslationPreservesMeaning(p[3..], s[k..]);
      DirsMeans(s[..k]);
      if k > 0 { assert s[..k][..k - 1] == s[..k - 1]; }
    }
    assert s[0..] == s;
    if Matches(Translate(p), s) {
      var k :| 0 <= k <= |s| && Matches(Opt(group), s[..k]) && Matches(rest, s[k..]);
      if k > 0 { assert s[k - 1] == '/' && Run(s[..k - 1], false) && GlobMatch(p[3..], s[k - 1 + 1..], false); }
    }
    if GlobMatch(p, s, false) {
      if !GlobMatch(p[3..], s, false) {
        var k :| 0 <= k < |s| && s[k] == '/' && Run(s[..k], false) && GlobMatch(p[3..], s[k + 1..], false);
        assert Matches(Opt(group), s[..k + 1]) && Matches(rest, s[k + 1..]);
      } else {
        assert Matches(Opt(group), s[..0]) && Matches(rest, s[0..]);
      }
    }
  }

  /** On a path without newlines a double star is any text at all. */
  lemma {:induction false} NewlineFreePaths(p: string, s: string)
    requires NoNewline(s)
    ensures GlobMatch(p, s, true) <==> GlobMatch(p, s, false)
    decreases |p|
  {
    var n := if IsDirs(p) then 3 else if IsRun(p) then 2 else if p == "" then 0 else 1;
    if n > 0 {
      forall k | 0 <= k <= |s|
        ensures NoNewline(s[..k]) && (GlobMatch(p[n..], s[k..], true) <==> GlobMatch(p[n..], s[k..], false))
      {
        NewlineFreePaths(p[n..], s[k..]);
      }
      assert s[0..] == s;
    }
  }

  /** The text written for the pattern, read back and run, decides the path as the glob does. */
  ghost predicate TextMeansGlob(p: string, s: string)
  {
    var re := ParseAnchored("^" + Emit(p) + "$");
    re.Some? && (Matches(re.value, s) <==> GlobMatch(p, s, true))
  }

  /** The text written for a pattern, read back and run on a path without newlines, is the glob. */
  lemma GlobTextMeansGlob(p: string, s: string)
    requires NoNewline(s)
    ensures TextMeansGlob(p, s)
  {
    AnchoredTextParses(p);
    TranslationPreservesMeaning(p, s);
    NewlineFreePaths(p, s);
  }

  /** A double star alone is any text, but what is written for it does not match a newline. */
  lemma NewlineBreaksDoubleStar(s: string)
    requires !NoNewline(s)
    ensures GlobMatch("**", s, true) && !TextMeansGlob("**", s)
  {
    AnchoredTextParses("**");
    TranslationPreservesMeaning("**", s);
    assert "**"[2..] == "";
    assert s[|s|..] == "" && GlobMatch("", s[|s|..], true) && Run(s[..|s|], true);
    assert s[..|s|] == s;
    forall k | 0 <= k <= |s| && GlobMatch("", s[k..], false) ensures k == |s| { }
  }

  /** Every pattern's text means its glob exactly on the paths without newlines. */
  lemma TextsMeanGlobsExactly(s: string)
    ensures (forall p :: TextMeansGlob(p, s)) <==> NoNewline(s)
  {
    if NoNewline(s) {
      forall p ensures TextMeansGlob(p, s) {
        GlobTextMeansGlob(p, s);
      }
    } else {
      NewlineBreaksDoubleStar(s);
    }
  }

  // ----- Selecting by path -----

  /** No pattern at all selects everything. */
  ghost predicate Selects(patterns: seq<string>, paths: seq<string>)
  {
    patterns == [] || exists i, j :: 0 <= i < |patterns| && 0 <= j < |paths| && GlobMatch(patterns[i], paths[j], false)
  }

  method MatchesAny(patterns: seq<string>, paths: seq<string>) returns (r: bool)
    ensures r <==> Selects(patterns, paths)
  {
    if |patterns| == 0 {
      return true;
    }
    for i := 0 to |patterns|
      invariant forall a, j :: 0 <= a < i && 0 <= j < |paths| ==> !GlobMatch(patterns[a], paths[j], false)
    {
      var text := GlobRegexp(patterns[i]);
      AnchoredTextParses(patterns[i]);
      var re := ParseAnchored(text);
      if re.None? {
        continue;
      }
      for j := 0 to |paths|
        invariant forall b :: 0 <= b < j ==> !GlobMatch(patterns[i], paths[b], false)
      {
        TranslationPreservesMeaning(patterns[i], paths[j]);
        if Matches(re.value, paths[j]) {
          return true;
        }
      }
    }
    return false;
  }
}
