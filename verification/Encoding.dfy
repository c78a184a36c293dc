/**
 The byte streams that are hashed: length-prefixed fields for a snapshot's content, and
 NUL-terminated strings for string maps and for the paths of a mutation scope.
 */
module Encoding {
  import opened Common
  import opened Digests
  import opened Ordering

  type Byte = b: int | 0 <= b < 256 witness 0

  // ----- Length-prefixed fields -----

  function Pow256(k: nat): nat
  {
    if k == 0 then 1 else 256 * Pow256(k - 1)
  }

  /** The last `k` bytes of a number, most significant first. */
  function BigEndian(n: nat, k: nat): (r: seq<Byte>)
    ensures |r| == k
  {
    if k == 0 then [] else BigEndian(n / 256, k - 1) + [n % 256]
  }

  function ValueOf(bytes: seq<Byte>): nat
  {
    if bytes == [] then 0 else 256 * ValueOf(bytes[..|bytes| - 1]) + bytes[|bytes| - 1]
  }

  lemma {:induction false} BigEndianRoundTrip(n: nat, k: nat)
    requires n < Pow256(k)
    ensures ValueOf(BigEndian(n, k)) == n
  {
    if k > 0 {
      BigEndianRoundTrip(n / 256, k - 1);
      assert BigEndian(n, k)[..k - 1] == BigEndian(n / 256, k - 1);
    }
  }

  function Prefixed(field: seq<Byte>): seq<Byte>
  {
    BigEndian(|field|, 8) + field
  }

  function Stream(fields: seq<seq<Byte>>): seq<Byte>
  {
    if fields == [] then [] else Prefixed(fields[0]) + Stream(fields[1..])
  }

  method WriteStream(fields: seq<seq<Byte>>) returns (out: seq<Byte>)
    ensures out == Stream(fields)
  {
    out := [];
    for i := 0 to |fields|
      invariant out + Stream(fields[i..]) == Stream(fields)
    {
      assert fields[i..][0] == fields[i] && fields[i..][1..] == fields[i + 1..];
      assert out + (Prefixed(fields[i]) + Stream(fields[i + 1..])) == out + Prefixed(fields[i]) + Stream(fields[i + 1..]);
      out := out + Prefixed(fields[i]);
    }
  }

  /** The reader that the encoding is made for. */
  function ReadStream(bytes: seq<Byte>): Option<seq<seq<Byte>>>
    decreases |bytes|
  {
    if bytes == [] then Some([])
    else if |bytes| < 8 then None
    else
      var n := ValueOf(bytes[..8]);
      if |bytes| - 8 < n then None
      else
        var rest := ReadStream(bytes[8 + n..]);
        if rest.None? then None else Some([bytes[8..8 + n]] + rest.value)
  }

  /** Every length that a 64-bit machine can hold. */
  ghost predicate Representable(fields: seq<seq<Byte>>)
  {
    forall i :: 0 <= i < |fields| ==> |fields[i]| < Pow256(8)
  }

  lemma ReadPrefixed(field: seq<Byte>, rest: seq<Byte>)
    requires |field| < Pow256(8)
    ensures var bytes, n := Prefixed(field) + rest, |field|;
      |bytes| == 8 + n + |rest| && ValueOf(bytes[..8]) == n && bytes[8..8 + n] == field && bytes[8 + n..] == rest
  {
    BigEndianRoundTrip(|field|, 8);
    var bytes := Prefixed(field) + rest;
    assert bytes[..8] == BigEndian(|field|, 8);
  }

  lemma {:induction false} StreamRoundTrip(fields: seq<seq<Byte>>)
    requires Representable(fields)
    ensures ReadStream(Stream(fields)) == Some(fields)
  {
    if fields != [] {
      StreamRoundTrip(fields[1..]);
      ReadPrefixed(fields[0], Stream(fields[1..]));
      assert fields == [fields[0]] + fields[1..];
    }
  }

  /** Equal streams have equal fields, even when the numbers of fields were not known to agree. */
  lemma StreamInjective(a: seq<seq<Byte>>, b: seq<seq<Byte>>)
    requires Representable(a) && Representable(b) && Stream(a) == Stream(b)
    ensures a == b
  {
    StreamRoundTrip(a);
    StreamRoundTrip(b);
  }

  // ----- NUL-terminated strings -----

  function Terminated(tokens: seq<string>): string
  {
    if tokens == [] then "" else tokens[0] + "\0" + Terminated(tokens[1..])
  }

  ghost predicate NulFree(tokens: seq<string>)
  {
    forall i :: 0 <= i < |tokens| ==> '\0' !in tokens[i]
  }

  lemma FirstToken(a: string, rest: string, b: string, rest': string)
    requires '\0' !in a && '\0' !in b && a + "\0" + rest == b + "\0" + rest'
    ensures a == b && rest == rest'
  {
    var s, t := a + "\0" + rest, b + "\0" + rest';
    assert s[|a|] == '\0' && t[|b|] == '\0';
    assert forall i :: 0 <= i < |a| ==> s[i] == a[i];
    assert forall i :: 0 <= i < |b| ==> t[i] == b[i];
    assert |a| == |b|;
    assert a == s[..|a|] == t[..|b|] == b;
    assert rest == s[|a| + 1..] == t[|b| + 1..] == rest';
  }

  lemma {:induction false} TerminatedInjective(a: seq<string>, b: seq<string>)
    requires NulFree(a) && NulFree(b) && Terminated(a) == Terminated(b)
    ensures a == b
  {
    if a != [] && b != [] {
      FirstToken(a[0], Terminated(a[1..]), b[0], Terminated(b[1..]));
      TerminatedInjective(a[1..], b[1..]);
      assert a == [a[0]] + a[1..] && b == [b[0]] + b[1..];
    }
  }

  lemma {:induction false} TerminatedConcat(a: seq<string>, b: seq<string>)
    ensures Terminated(a + b) == Terminated(a) + Terminated(b)
  {
    if a == [] {
      assert a + b == b;
    } else {
      TerminatedConcat(a[1..], b);
      assert (a + b)[1..] == a[1..] + b;
    }
  }

  // ----- String maps -----

  function Pairs(values: map<string, string>, keys: seq<string>): seq<string>
    requires forall key :: key in keys ==> key in values
  {
    if keys == [] then [] else [keys[0], values[keys[0]]] + Pairs(values, keys[1..])
  }

  ghost function MapStream(values: map<string, string>): string
  {
    ListingMembers(values.Keys);
    Terminated(Pairs(values, Listing(values.Keys)))
  }

  /** The keys are collected in any order; the stream is a function of the map alone. */
  method WriteMap(values: map<string, string>) returns (out: string)
    ensures out == MapStream(values)
  {
    ListingMembers(values.Keys);
    var keys := SortedSet(values.Keys);
    out := "";
    for i := 0 to |keys|
      invariant out == Terminated(Pairs(values, keys[..i]))
    {
      PairsAppend(values, keys, i);
      out := out + keys[i] + "\0" + values[keys[i]] + "\0";
    }
    assert keys[..|keys|] == keys;
  }

  lemma {:induction false} PairsConcat(values: map<string, string>, a: seq<string>, b: seq<string>)
    requires forall key :: key in a + b ==> key in values
    ensures Pairs(values, a + b) == Pairs(values, a) + Pairs(values, b)
  {
    if a == [] {
      assert a + b == b;
    } else {
      assert (a + b)[1..] == a[1..] + b;
      PairsConcat(values, a[1..], b);
    }
  }

  lemma TerminatedPair(a: string, b: string)
    ensures Terminated([a, b]) == a + "\0" + b + "\0"
  {
    assert [a, b][1..] == [b] && [b][1..] == [];
    assert Terminated([b]) == b + "\0";
  }

  lemma PairsAppend(values: map<string, string>, keys: seq<string>, i: nat)
    requires i < |keys| && forall key :: key in keys ==> key in values
    ensures Terminated(Pairs(values, keys[..i + 1])) ==
      Terminated(Pairs(values, keys[..i])) + keys[i] + "\0" + values[keys[i]] + "\0"
  {
    var pair := [keys[i], values[keys[i]]];
    assert keys[..i + 1] == keys[..i] + [keys[i]];
    PairsConcat(values, keys[..i], [keys[i]]);
    assert Pairs(values, [keys[i]]) == pair;
    TerminatedConcat(Pairs(values, keys[..i]), pair);
    TerminatedPair(keys[i], values[keys[i]]);
  }

  ghost predicate NulFreeMap(values: map<string, string>)
  {
    forall key :: key in values ==> '\0' !in key && '\0' !in values[key]
  }

  lemma {:induction false} PairsNulFree(values: map<string, string>, keys: seq<string>)
    requires NulFreeMap(values) && forall key :: key in keys ==> key in values
    ensures NulFree(Pairs(values, keys)) && |Pairs(values, keys)| == 2 * |keys|
  {
    if keys != [] {
      PairsNulFree(values, keys[1..]);
    }
  }

  lemma {:induction false} PairsDetermine(a: map<string, string>, b: map<string, string>, keys: seq<string>, keys': seq<string>)
    requires (forall key :: key in keys ==> key in a) && forall key :: key in keys' ==> key in b
    requires Pairs(a, keys) == Pairs(b, keys')
    ensures keys == keys' && forall key :: key in keys ==> a[key] == b[key]
  {
    if keys != [] && keys' != [] {
      var p, q := Pairs(a, keys), Pairs(b, keys');
      assert p[0] == keys[0] && q[0] == keys'[0] && p[1] == a[keys[0]] && q[1] == b[keys'[0]];
      assert p[2..] == Pairs(a, keys[1..]) && q[2..] == Pairs(b, keys'[1..]);
      PairsDetermine(a, b, keys[1..], keys'[1..]);
      assert keys == [keys[0]] + keys[1..] && keys' == [keys'[0]] + keys'[1..];
    }
  }

  /** For NUL-free keys and values the stream is equal only for equal maps. */
  lemma MapStreamInjective(a: map<string, string>, b: map<string, string>)
    requires NulFreeMap(a) && NulFreeMap(b) && MapStream(a) == MapStream(b)
    ensures a == b
  {
    ListingMembers(a.Keys);
    ListingMembers(b.Keys);
    var keys, keys' := Listing(a.Keys), Listing(b.Keys);
    PairsNulFree(a, keys);
    PairsNulFree(b, keys');
    TerminatedInjective(Pairs(a, keys), Pairs(b, keys'));
    PairsDetermine(a, b, keys, keys');
    assert a.Keys == b.Keys;
  }

  lemma DigestIsNulFree(digest: Digest)
    ensures '\0' !in digest
  {
    forall i | 0 <= i < |digest| ensures digest[i] != '\0' {
      if i < 7 {
        assert digest[i] == digest[..7][i] == "sha256:"[i];
      } else {
        assert digest[i] == digest[7..][i - 7];
      }
    }
  }

  /** What the store hashes: digests of files under their paths, which hold no NUL. Equal streams have equal trees. */
  lemma TreeStreamInjective(a: map<string, Digest>, b: map<string, Digest>)
    requires forall path :: path in a || path in b ==> '\0' !in path
    requires MapStream(a) == MapStream(b)
    ensures a == b
  {
    forall path | path in a ensures '\0' !in a[path] { DigestIsNulFree(a[path]); }
    forall path | path in b ensures '\0' !in b[path] { DigestIsNulFree(b[path]); }
    MapStreamInjective(a, b);
  }

  // ----- Mutation scopes -----

  method WriteScope(paths: seq<string>) returns (out: string)
    ensures out == Terminated(SortedStrings(paths))
  {
    out := WriteTokens(SortedStrings(paths));
  }

  method WriteTokens(tokens: seq<string>) returns (out: string)
    ensures out == Terminated(tokens)
  {
    out := "";
    for i := 0 to |tokens|
      invariant out == Terminated(tokens[..i])
    {
      assert tokens[..i + 1] == tokens[..i] + [tokens[i]];
      TerminatedAppend(tokens[..i], tokens[i]);
      out := out + tokens[i] + "\0";
    }
    assert tokens[..|tokens|] == tokens;
  }

  lemma TerminatedAppend(tokens: seq<string>, token: string)
    ensures Terminated(tokens + [token]) == Terminated(tokens) + token + "\0"
  {
    TerminatedConcat(tokens, [token]);
    assert Terminated([token]) == token + "\0";
  }

  /** The scope stream of NUL-free paths is equal exactly for permutations of one list. */
  lemma ScopeStreamDeterminesPaths(a: seq<string>, b: seq<string>)
    requires NulFree(a) && NulFree(b)
    ensures Terminated(SortedStrings(a)) == Terminated(SortedStrings(b)) <==> multiset(a) == multiset(b)
  {
    if multiset(a) == multiset(b) {
      SortedStringsPermutation(a, b);
    }
    if Terminated(SortedStrings(a)) == Terminated(SortedStrings(b)) {
      SortedNulFree(a);
      SortedNulFree(b);
      TerminatedInjective(SortedStrings(a), SortedStrings(b));
      SortedStringsSorted(a);
      SortedStringsSorted(b);
    }
  }

  lemma SortedNulFree(xs: seq<string>)
    requires NulFree(xs)
    ensures NulFree(SortedStrings(xs))
  {
    SortedStringsElements(xs);
    forall i | 0 <= i < |SortedStrings(xs)| ensures '\0' !in SortedStrings(xs)[i] {
      assert SortedStrings(xs)[i] in xs;
    }
  }
}
