/**
 Lexicographic string order and the two sorting primitives of the Go library.

 `sort.Strings` has one possible answer and is the function `SortedStrings`.
 `sort.Slice` is unstable: the method `SortSlice` promises a sorted permutation
 and nothing about the order of ties, and `SortedUnique` says when that pins the answer.
 */
module Ordering {

  predicate StringLE(a: string, b: string)
  {
    || a == ""
    || (b != "" && (a[0] < b[0] || (a[0] == b[0] && StringLE(a[1..], b[1..]))))
  }

  /** A prefix comes first, and otherwise the first difference decides. */
  lemma {:induction false} StringOrderIsLexicographic(a: string, b: string)
    ensures StringLE(a, b) <==>
      || a <= b
      || exists k :: 0 <= k < |a| && k < |b| && a[..k] == b[..k] && a[k] < b[k]
  {
    if a != "" && b != "" && a[0] == b[0] {
      var x, y := a[1..], b[1..];
      StringOrderIsLexicographic(x, y);
      assert a == [a[0]] + x && b == [b[0]] + y;
      if k :| 0 <= k < |x| && k < |y| && x[..k] == y[..k] && x[k] < y[k] {
        assert a[..k + 1] == [a[0]] + x[..k] && b[..k + 1] == [b[0]] + y[..k];
      }
      if k :| 0 <= k < |a| && k < |b| && a[..k] == b[..k] && a[k] < b[k] {
        assert k > 0 && a[..k][1..] == x[..k - 1] && b[..k][1..] == y[..k - 1];
      }
    }
  }

  lemma {:induction false} StringLETotal(a: string, b: string)
    ensures StringLE(a, b) || StringLE(b, a)
  {
    if a != "" && b != "" && a[0] == b[0] {
      StringLETotal(a[1..], b[1..]);
    }
  }

  lemma {:induction false} StringLEAntisymmetric(a: string, b: string)
    requires StringLE(a, b) && StringLE(b, a)
    ensures a == b
  {
    if a != "" && b != "" {
      StringLEAntisymmetric(a[1..], b[1..]);
      assert a == [a[0]] + a[1..] && b == [b[0]] + b[1..];
    }
  }

  lemma {:induction false} StringLETransitive(a: string, b: string, c: string)
    requires StringLE(a, b) && StringLE(b, c)
    ensures StringLE(a, c)
  {
    if a != "" && a[0] == b[0] && b[0] == c[0] {
      StringLETransitive(a[1..], b[1..], c[1..]);
    }
  }

  lemma StringOrder()
    ensures TotalPreorder(StringLE)
    ensures forall a, b :: StringLE(a, b) && StringLE(b, a) ==> a == b
  {
    forall a, b ensures StringLE(a, b) || StringLE(b, a) { StringLETotal(a, b); }
    forall a, b, c | StringLE(a, b) && StringLE(b, c) ensures StringLE(a, c) { StringLETransitive(a, b, c); }
    forall a, b | StringLE(a, b) && StringLE(b, a) ensures a == b { StringLEAntisymmetric(a, b); }
  }

  // ----- Sorted sequences over any total preorder -----

  ghost predicate TotalPreorder<T(!new)>(le: (T, T) -> bool)
  {
    && (forall x, y :: le(x, y) || le(y, x))
    && (forall x, y, z :: le(x, y) && le(y, z) ==> le(x, z))
  }

  ghost predicate SortedBy<T>(le: (T, T) -> bool, xs: seq<T>)
  {
    forall i, j :: 0 <= i < j < |xs| ==> le(xs[i], xs[j])
  }

  /** No two different elements of `xs` tie under `le`. */
  ghost predicate NoTies<T>(le: (T, T) -> bool, xs: seq<T>)
  {
    forall x, y :: x in xs && y in xs && le(x, y) && le(y, x) ==> x == y
  }

  lemma SameLength<T>(xs: seq<T>, ys: seq<T>)
    requires multiset(xs) == multiset(ys)
    ensures |xs| == |ys|
  {
    assert |multiset(xs)| == |xs| && |multiset(ys)| == |ys|;
  }

  lemma HeadsAgree<T(!new)>(le: (T, T) -> bool, xs: seq<T>, ys: seq<T>)
    requires TotalPreorder(le) && NoTies(le, xs) && xs != [] && ys != []
    requires SortedBy(le, xs) && SortedBy(le, ys) && multiset(xs) == multiset(ys)
    ensures xs[0] == ys[0]
  {
    assert xs[0] in multiset(ys);
    assert ys[0] in multiset(xs);
    assert forall x :: x in xs ==> le(xs[0], x);
    assert forall y :: y in ys ==> le(ys[0], y);
  }

  /** A sorted permutation is unique when no two different elements tie. */
  lemma {:induction false} SortedUnique<T(!new)>(le: (T, T) -> bool, xs: seq<T>, ys: seq<T>)
    requires TotalPreorder(le) && NoTies(le, xs)
    requires SortedBy(le, xs) && SortedBy(le, ys) && multiset(xs) == multiset(ys)
    ensures xs == ys
  {
    SameLength(xs, ys);
    if xs != [] {
      HeadsAgree(le, xs, ys);
      assert xs == [xs[0]] + xs[1..] && ys == [ys[0]] + ys[1..];
      assert multiset(xs[1..]) == multiset(xs) - multiset{xs[0]};
      assert multiset(ys[1..]) == multiset(ys) - multiset{ys[0]};
      assert NoTies(le, xs[1..]);
      SortedUnique(le, xs[1..], ys[1..]);
    }
  }

  function Insert<T>(le: (T, T) -> bool, x: T, xs: seq<T>): (r: seq<T>)
    ensures multiset(r) == multiset{x} + multiset(xs)
  {
    if xs == [] then [x]
    else if le(x, xs[0]) then [x] + xs
    else
      assert xs == [xs[0]] + xs[1..];
      [xs[0]] + Insert(le, x, xs[1..])
  }

  lemma {:induction false} InsertKeepsSorted<T(!new)>(le: (T, T) -> bool, x: T, xs: seq<T>)
    requires TotalPreorder(le) && SortedBy(le, xs)
    ensures SortedBy(le, Insert(le, x, xs))
  {
    if xs != [] && !le(x, xs[0]) {
      InsertKeepsSorted(le, x, xs[1..]);
      var rest := Insert(le, x, xs[1..]);
      forall j | 0 <= j < |rest| ensures le(xs[0], rest[j]) {
        assert rest[j] in multiset(rest);
        assert rest[j] in multiset{x} + multiset(xs[1..]);
      }
    }
  }

  /** The unstable library sort: a sorted permutation, ties in any order. */
  method SortSlice<T(!new)>(le: (T, T) -> bool, xs: seq<T>) returns (ys: seq<T>)
    requires TotalPreorder(le)
    ensures SortedBy(le, ys) && multiset(ys) == multiset(xs)
  {
    ys := [];
    for i := 0 to |xs|
      invariant SortedBy(le, ys) && multiset(ys) == multiset(xs[..i])
    {
      InsertKeepsSorted(le, xs[i], ys);
      ys := Insert(le, xs[i], ys);
      assert xs[..i + 1] == xs[..i] + [xs[i]];
    }
    assert xs[..|xs|] == xs;
  }

  /** Two permutations of one list with no ties sort to the same list. */
  lemma SortSliceDeterministic<T(!new)>(le: (T, T) -> bool, xs: seq<T>, ys: seq<T>, zs: seq<T>)
    requires TotalPreorder(le) && NoTies(le, xs)
    requires SortedBy(le, ys) && multiset(ys) == multiset(xs)
    requires SortedBy(le, zs) && multiset(zs) == multiset(xs)
    ensures ys == zs
  {
    forall x | x in ys ensures x in xs { assert x in multiset(ys); }
    assert NoTies(le, ys);
    SortedUnique(le, ys, zs);
  }

  // ----- Strings -----

  /** `sort.Strings`, as a function of the list. */
  function SortedStrings(xs: seq<string>): seq<string>
  {
    if xs == [] then [] else Insert(StringLE, xs[0], SortedStrings(xs[1..]))
  }

  lemma {:induction false} SortedStringsSorted(xs: seq<string>)
    ensures SortedBy(StringLE, SortedStrings(xs)) && multiset(SortedStrings(xs)) == multiset(xs)
  {
    if xs != [] {
      StringOrder();
      SortedStringsSorted(xs[1..]);
      InsertKeepsSorted(StringLE, xs[0], SortedStrings(xs[1..]));
      assert xs == [xs[0]] + xs[1..];
    }
  }

  /** The sorted list is the only sorted permutation, so any two permutations sort alike. */
  lemma SortedStringsUnique(xs: seq<string>, ys: seq<string>)
    requires SortedBy(StringLE, ys) && multiset(ys) == multiset(xs)
    ensures ys == SortedStrings(xs)
  {
    StringOrder();
    SortedStringsSorted(xs);
    SortedUnique(StringLE, ys, SortedStrings(xs));
  }

  lemma SortedStringsPermutation(xs: seq<string>, ys: seq<string>)
    requires multiset(xs) == multiset(ys)
    ensures SortedStrings(xs) == SortedStrings(ys)
  {
    SortedStringsSorted(ys);
    SortedStringsUnique(xs, SortedStrings(ys));
  }

  ghost predicate Distinct<T>(xs: seq<T>)
  {
    forall i, j :: 0 <= i < j < |xs| ==> xs[i] != xs[j]
  }

  ghost function Elements<T>(xs: seq<T>): (r: set<T>)
  {
    set x | x in xs
  }

  lemma {:induction false} DistinctMultiset<T>(xs: seq<T>)
    ensures Distinct(xs) <==> forall x :: x in multiset(xs) ==> multiset(xs)[x] == 1
  {
    if xs != [] {
      var init, last := xs[..|xs| - 1], xs[|xs| - 1];
      assert xs == init + [last];
      DistinctMultiset(init);
      if Distinct(xs) {
        assert Distinct(init);
        assert last !in init;
        forall x | x in multiset(xs) ensures multiset(xs)[x] == 1 { }
      } else {
        var i, j :| 0 <= i < j < |xs| && xs[i] == xs[j];
        if j == |xs| - 1 {
          assert init[i] == last;
          assert last in multiset(init);
          assert multiset(xs)[last] == multiset(init)[last] + 1 >= 2;
        } else {
          assert init[i] == init[j];
          assert !Distinct(init);
          var x :| x in multiset(init) && multiset(init)[x] != 1;
          assert multiset(xs)[x] >= multiset(init)[x] >= 1;
          assert x in multiset(xs) && multiset(xs)[x] != 1;
        }
      }
    }
  }

  /** Two duplicate-free lists of the same elements are permutations of each other. */
  lemma SameElementsSameMultiset<T>(xs: seq<T>, ys: seq<T>)
    requires Distinct(xs) && Distinct(ys) && Elements(xs) == Elements(ys)
    ensures multiset(xs) == multiset(ys)
  {
    DistinctMultiset(xs);
    DistinctMultiset(ys);
    forall x ensures multiset(xs)[x] == multiset(ys)[x] {
      if x in xs { assert x in Elements(xs); assert x in ys; assert x in multiset(ys); }
      if x in ys { assert x in Elements(ys); assert x in xs; assert x in multiset(xs); }
    }
  }

  /** Sorting keeps membership and distinctness. */
  lemma SortedStringsElements(xs: seq<string>)
    ensures forall x :: x in SortedStrings(xs) <==> x in xs
    ensures Distinct(xs) ==> Distinct(SortedStrings(xs))
  {
    var ys := SortedStrings(xs);
    SortedStringsSorted(xs);
    forall x ensures x in ys <==> x in xs { assert x in ys <==> x in multiset(ys); assert x in xs <==> x in multiset(xs); }
    DistinctMultiset(xs);
    DistinctMultiset(ys);
  }

  lemma SubsetSameSize<T>(a: set<T>, b: set<T>)
    requires a <= b && |a| == |b|
    ensures a == b
  {
    assert |b - a| == 0;
  }

  lemma {:induction false} DistinctSize<T>(xs: seq<T>)
    requires Distinct(xs)
    ensures |Elements(xs)| == |xs|
  {
    if xs != [] {
      var last := |xs| - 1;
      DistinctSize(xs[..last]);
      assert xs == xs[..last] + [xs[last]];
      assert Elements(xs) == Elements(xs[..last]) + {xs[last]};
    }
  }

  // ----- A finite set of strings as its sorted list -----

  ghost function AnyListing(s: set<string>): seq<string>
  {
    if s == {} then []
    else
      var x :| x in s;
      [x] + AnyListing(s - {x})
  }

  lemma {:induction false} AnyListingOf(s: set<string>)
    ensures Elements(AnyListing(s)) == s && Distinct(AnyListing(s))
  {
    if s != {} {
      var x :| x in s && AnyListing(s) == [x] + AnyListing(s - {x});
      var rest := AnyListing(s - {x});
      AnyListingOf(s - {x});
      assert forall y :: y in rest <==> y in Elements(rest);
    }
  }

  /** The list form of a set of strings that the code builds by ranging over a map and sorting. */
  ghost function Listing(s: set<string>): seq<string>
  {
    SortedStrings(AnyListing(s))
  }

  /** It holds exactly the set's elements, once each, in order. */
  lemma ListingOf(s: set<string>)
    ensures Elements(Listing(s)) == s && Distinct(Listing(s)) && SortedBy(StringLE, Listing(s))
  {
    var xs := AnyListing(s);
    AnyListingOf(s);
    SortedStringsSorted(xs);
    SortedStringsElements(xs);
  }

  lemma ListingMembers(s: set<string>)
    ensures forall x :: x in Listing(s) <==> x in s
  {
    ListingOf(s);
    forall x ensures x in Listing(s) <==> x in s { assert x in Listing(s) <==> x in Elements(Listing(s)); }
  }

  /** A duplicate-free list of exactly the set's elements sorts to `Listing`. */
  lemma ListingUnique(s: set<string>, xs: seq<string>)
    requires Elements(xs) == s && Distinct(xs)
    ensures SortedStrings(xs) == Listing(s)
  {
    var ys := Listing(s);
    ListingOf(s);
    SameElementsSameMultiset(xs, ys);
    SortedStringsUnique(xs, ys);
  }

  /** Ranging over the keys of a map in any order and sorting what was collected. */
  method SortedSet(s: set<string>) returns (xs: seq<string>)
    ensures xs == Listing(s)
  {
    var rest := s;
    var found: seq<string> := [];
    while rest != {}
      invariant rest <= s && Distinct(found) && Elements(found) == s - rest
      decreases |rest|
    {
      var item :| item in rest;
      assert item !in Elements(found);
      assert Elements(found + [item]) == Elements(found) + {item};
      found, rest := found + [item], rest - {item};
    }
    ListingUnique(s, found);
    return SortedStrings(found);
  }
}
