/** Which texts are quoted strings, and what each denotes, character by character. */
module QuotingContents {
  import opened Common
  import opened Quoting

  lemma HexValueListed(c: char, n: nat)
    requires n < 16
    ensures HexValue(c) == Some(n) <==> c == "0123456789abcdef"[n] || c == "0123456789ABCDEF"[n]
  {
    var lower, upper := "0123456789abcdef", "0123456789ABCDEF";
    assert forall k: int :: 0 <= k < 10 ==> lower[k] as int == '0' as int + k && upper[k] as int == '0' as int + k;
    assert forall k: int :: 10 <= k < 16 ==> lower[k] as int == 'a' as int + k - 10 && upper[k] as int == 'A' as int + k - 10;
  }

  /** The escapes of two characters. */
  const NAMED: seq<(string, char)> :=
    [("\\a", '\U{7}'), ("\\b", '\U{8}'), ("\\f", '\U{C}'), ("\\n", '\n'), ("\\r", '\r'), ("\\t", '\t'), ("\\v", '\U{B}'),
     ("\\\\", '\\'), ("\\\"", '"')]

  /** A piece of a quoted string and the character it denotes: itself, a named escape, or the code point of a numeric one. */
  predicate Denotes(e: string, c: char)
  {
    || (e == [c] && c != '"' && c != '\\' && c != '\n')
    || (e, c) in NAMED
    || (|e| == 4 && e[..2] == "\\x" && c < '\U{80}' && ParseHex(e[2..]) == Some(c as int))
    || (|e| == 6 && e[..2] == "\\u" && c < '\U{10000}' && ParseHex(e[2..]) == Some(c as int))
    || (|e| == 10 && e[..2] == "\\U" && ParseHex(e[2..]) == Some(c as int))
  }

  lemma NumericRead(s: string, k: nat, limit: nat, c: char, t: string)
    requires limit <= 0x11_0000
    ensures NumericEscape(s, k, limit) == Some((c, t)) <==>
      |s| >= 2 + k && c as int < limit && ParseHex(s[2..2 + k]) == Some(c as int) && t == s[2 + k..]
  {
    assert c as int < 0xD800 || 0xE000 <= c as int < 0x11_0000;
  }

  /** A numeric escape of one kind in front of a text. */
  lemma NumericPiece(s: string, letter: char, k: nat, limit: nat, c: char, t: string)
    requires limit <= 0x11_0000 && |s| >= 2 && s[0] == '\\' && s[1] == letter
    ensures NumericEscape(s, k, limit) == Some((c, t)) <==>
      exists e :: |e| == 2 + k && e[..2] == ['\\', letter] && c as int < limit && ParseHex(e[2..]) == Some(c as int) && s == e + t
  {
    NumericRead(s, k, limit, c, t);
    if NumericEscape(s, k, limit) == Some((c, t)) {
      var e := s[..2 + k];
      assert s == e + t && e[2..] == s[2..2 + k] && e[..2] == ['\\', letter];
    }
    if e :| |e| == 2 + k && e[..2] == ['\\', letter] && c as int < limit && ParseHex(e[2..]) == Some(c as int) && s == e + t {
      assert s[2..2 + k] == e[2..] && s[2 + k..] == t;
    }
  }

  predicate Numeric(letter: char) { letter == 'x' || letter == 'u' || letter == 'U' }

  lemma NumericDenotes(e: string, c: char)
    requires |e| >= 2 && e[0] == '\\' && Numeric(e[1])
    ensures Denotes(e, c) <==>
      var k: nat := if e[1] == 'x' then 2 else if e[1] == 'u' then 4 else 8;
      var limit := if e[1] == 'x' then 0x80 else if e[1] == 'u' then 0x1_0000 else 0x11_0000;
      |e| == 2 + k && e[..2] == ['\\', e[1]] && c as int < limit && ParseHex(e[2..]) == Some(c as int)
  {
    assert e[..2] == [e[0], e[1]];
    assert forall i :: 0 <= i < |NAMED| ==> NAMED[i].0[1] != 'x' && NAMED[i].0[1] != 'u' && NAMED[i].0[1] != 'U';
  }

  lemma NumericOne(s: string, c: char, t: string)
    requires |s| >= 2 && s[0] == '\\' && Numeric(s[1])
    ensures UnquoteOne(s) == Some((c, t)) <==> exists e :: Denotes(e, c) && s == e + t
  {
    var k: nat := if s[1] == 'x' then 2 else if s[1] == 'u' then 4 else 8;
    var limit := if s[1] == 'x' then 0x80 else if s[1] == 'u' then 0x1_0000 else 0x11_0000;
    NumericPiece(s, s[1], k, limit, c, t);
    if UnquoteOne(s) == Some((c, t)) {
      var e :| |e| == 2 + k && e[..2] == ['\\', s[1]] && c as int < limit && ParseHex(e[2..]) == Some(c as int) && s == e + t;
      assert e[1] == s[1];
      NumericDenotes(e, c);
    }
    if e :| Denotes(e, c) && s == e + t {
      DenotesShape(e, c);
      assert e[0] == '\\' && e[1] == s[1];
      NumericDenotes(e, c);
    }
  }

  /** A piece is one plain character or begins with a backslash. */
  lemma DenotesShape(e: string, c: char)
    requires Denotes(e, c)
    ensures e != "" && e[0] != '"' && e[0] != '\n'
    ensures if e[0] == '\\' then |e| >= 2 else e == [c]
    ensures |e| >= 2 && !Numeric(e[1]) ==> (e, c) in NAMED && |e| == 2
  {
    if |e| == 4 || |e| == 6 || |e| == 10 {
      assert e[..2][0] == e[0] && e[..2][1] == e[1];
    }
  }

  lemma NamedOne(s: string, c: char, t: string)
    requires |s| >= 2 && s[0] == '\\' && !Numeric(s[1])
    ensures UnquoteOne(s) == Some((c, t)) <==> exists e :: Denotes(e, c) && s == e + t
  {
    if UnquoteOne(s) == Some((c, t)) {
      var e := s[..2];
      assert e == ['\\', s[1]] && s == e + t;
      NamedListed(s[1], c);
    }
    if e :| Denotes(e, c) && s == e + t {
      DenotesShape(e, c);
      assert e[1] == s[1] && e == ['\\', s[1]] && t == s[2..];
      NamedListed(s[1], c);
    }
  }

  /** What the reader takes a backslash and a letter for. */
  lemma NamedListed(letter: char, c: char)
    requires !Numeric(letter)
    ensures (['\\', letter], c) in NAMED <==> forall t :: UnquoteOne(['\\', letter] + t) == Some((c, t))
  {
    var x := (['\\', letter], c);
    NamedIndex(x);
    forall t ensures (['\\', letter] + t)[2..] == t { }
    if x !in NAMED {
      assert UnquoteOne(['\\', letter] + "") != Some((c, ""));
    }
  }

  lemma NamedIndex(x: (string, char))
    ensures x in NAMED <==>
      || x == NAMED[0] || x == NAMED[1] || x == NAMED[2] || x == NAMED[3] || x == NAMED[4] || x == NAMED[5] || x == NAMED[6]
      || x == NAMED[7] || x == NAMED[8]
  {
  }

  lemma OneRead(s: string, c: char, t: string)
    ensures UnquoteOne(s) == Some((c, t)) <==> exists e :: Denotes(e, c) && s == e + t
  {
    if s == "" || s[0] != '\\' || |s| < 2 {
      if UnquoteOne(s) == Some((c, t)) {
        assert Denotes([c], c) && s == [c] + t;
      }
      if e :| Denotes(e, c) && s == e + t {
        DenotesShape(e, c);
        assert e[0] == s[0];
      }
    } else if Numeric(s[1]) {
      NumericOne(s, c, t);
    } else {
      NamedOne(s, c, t);
    }
  }

  function Joined(pieces: seq<string>): string
  {
    if pieces == [] then "" else pieces[0] + Joined(pieces[1..])
  }

  ghost predicate Spells(pieces: seq<string>, value: string)
  {
    |pieces| == |value| && forall i :: 0 <= i < |value| ==> Denotes(pieces[i], value[i])
  }

  lemma {:induction false} BodySpells(s: string, value: string) returns (pieces: seq<string>)
    requires UnquoteBody(s) == Some(value)
    ensures Spells(pieces, value) && s == Joined(pieces) + "\""
    decreases |s|
  {
    if s[0] == '"' {
      pieces := [];
    } else {
      var one := UnquoteOne(s).value;
      OneRead(s, one.0, one.1);
      var e :| Denotes(e, one.0) && s == e + one.1;
      var rest := BodySpells(one.1, value[1..]);
      pieces := [e] + rest;
      assert Joined(pieces) == e + Joined(rest);
      assert s == e + (Joined(rest) + "\"") == Joined(pieces) + "\"";
    }
  }

  lemma {:induction false} SpelledIsRead(pieces: seq<string>, value: string)
    requires Spells(pieces, value)
    ensures UnquoteBody(Joined(pieces) + "\"") == Some(value)
    decreases |pieces|
  {
    if pieces == [] {
      assert Joined(pieces) + "\"" == "\"";
    } else {
      var rest := Joined(pieces[1..]) + "\"";
      SpelledIsRead(pieces[1..], value[1..]);
      DenotesShape(pieces[0], value[0]);
      assert Joined(pieces) + "\"" == pieces[0] + rest;
      OneRead(pieces[0] + rest, value[0], rest);
      assert (pieces[0] + rest)[0] == pieces[0][0];
      assert value == [value[0]] + value[1..];
    }
  }

  /** A text is read as a string exactly when it is the quoted pieces that denote its characters. */
  lemma UnquotesExactly(raw: string, value: string)
    ensures Unquote(raw) == Some(value) <==> exists pieces :: Spells(pieces, value) && raw == "\"" + Joined(pieces) + "\""
  {
    if Unquote(raw) == Some(value) {
      var pieces := BodySpells(raw[1..], value);
      assert raw == "\"" + raw[1..] == "\"" + Joined(pieces) + "\"";
    }
    if pieces :| Spells(pieces, value) && raw == "\"" + Joined(pieces) + "\"" {
      SpelledIsRead(pieces, value);
      assert raw[1..] == Joined(pieces) + "\"";
    }
  }
}
