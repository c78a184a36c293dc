/** Mapping over sequences, and what permuting the input does to the result. */
module Sequences {
  import opened Ordering

  function Map<T, U>(f: T -> U, xs: seq<T>): (r: seq<U>)
    ensures |r| == |xs| && forall i :: 0 <= i < |xs| ==> r[i] == f(xs[i])
  {
    seq(|xs|, i requires 0 <= i < |xs| => f(xs[i]))
  }

  function FlatMap<T, U>(f: T -> seq<U>, xs: seq<T>): seq<U>
  {
    if xs == [] then [] else FlatMap(f, xs[..|xs| - 1]) + f(xs[|xs| - 1])
  }

  function Without<T>(xs: seq<T>, k: nat): seq<T>
    requires k < |xs|
  {
    xs[..k] + xs[k + 1..]
  }

  lemma Around<T>(xs: seq<T>, k: nat)
    requires k < |xs|
    ensures xs[..k] + [xs[k]] + xs[k + 1..] == xs
  {
  }

  lemma WithoutMultiset<T>(xs: seq<T>, k: nat)
    requires k < |xs|
    ensures multiset(xs) == multiset(Without(xs, k)) + multiset{xs[k]}
  {
    Around(xs, k);
  }

  lemma FindIn<T>(xs: seq<T>, ys: seq<T>) returns (k: nat)
    requires xs != [] && multiset(xs) == multiset(ys)
    ensures k < |ys| && ys[k] == xs[|xs| - 1]
    ensures multiset(xs[..|xs| - 1]) == multiset(Without(ys, k))
  {
    var last := |xs| - 1;
    assert xs[last] in multiset(ys);
    k :| 0 <= k < |ys| && ys[k] == xs[last];
    WithoutMultiset(ys, k);
    assert xs == xs[..last] + [xs[last]];
    assert multiset(xs[..last]) == multiset(xs) - multiset{xs[last]};
    assert multiset(Without(ys, k)) == multiset(ys) - multiset{ys[k]};
  }

  lemma {:induction false} FlatMapConcat<T, U>(f: T -> seq<U>, xs: seq<T>, ys: seq<T>)
    ensures FlatMap(f, xs + ys) == FlatMap(f, xs) + FlatMap(f, ys)
  {
    if ys == [] {
      assert xs + ys == xs;
    } else {
      var last := |ys| - 1;
      FlatMapConcat(f, xs, ys[..last]);
      assert (xs + ys)[..|xs + ys| - 1] == xs + ys[..last];
    }
  }

  /** Permuting the input permutes the result. */
  lemma {:induction false} FlatMapPermutation<T, U>(f: T -> seq<U>, xs: seq<T>, ys: seq<T>)
    requires multiset(xs) == multiset(ys)
    ensures multiset(FlatMap(f, xs)) == multiset(FlatMap(f, ys))
  {
    SameLength(xs, ys);
    if xs != [] {
      var k := FindIn(xs, ys);
      FlatMapPermutation(f, xs[..|xs| - 1], Without(ys, k));
      FlatMapMiddle(f, ys[..k], ys[k], ys[k + 1..]);
      assert ys == ys[..k] + [ys[k]] + ys[k + 1..];
    }
  }

  lemma FlatMapMiddle<T, U>(f: T -> seq<U>, before: seq<T>, x: T, after: seq<T>)
    ensures multiset(FlatMap(f, before + [x] + after)) == multiset(FlatMap(f, before + after)) + multiset(f(x))
  {
    FlatMapConcat(f, before, after);
    FlatMapConcat(f, before + [x], after);
    FlatMapLast(f, before, x);
  }

  lemma FlatMapLast<T, U>(f: T -> seq<U>, xs: seq<T>, x: T)
    ensures FlatMap(f, xs + [x]) == FlatMap(f, xs) + f(x)
  {
    assert (xs + [x])[..|xs|] == xs;
  }

  lemma {:induction false} MapPermutation<T, U>(f: T -> U, xs: seq<T>, ys: seq<T>)
    requires multiset(xs) == multiset(ys)
    ensures multiset(Map(f, xs)) == multiset(Map(f, ys))
  {
    SameLength(xs, ys);
    if xs != [] {
      var last := |xs| - 1;
      var k := FindIn(xs, ys);
      MapPermutation(f, xs[..last], Without(ys, k));
      assert Map(f, Without(ys, k)) == Without(Map(f, ys), k);
      WithoutMultiset(Map(f, ys), k);
      assert Map(f, xs) == Map(f, xs[..last]) + [f(xs[last])];
    }
  }

  lemma MapAppend<T, U>(f: T -> U, xs: seq<T>, x: T)
    ensures Map(f, xs + [x]) == Map(f, xs) + [f(x)]
  {
  }

  lemma MembersPermutation<T>(xs: seq<T>, ys: seq<T>)
    requires multiset(xs) == multiset(ys)
    ensures forall x :: x in xs <==> x in ys
  {
    forall x ensures x in xs <==> x in ys {
      assert x in xs <==> x in multiset(xs);
      assert x in ys <==> x in multiset(ys);
    }
  }

  lemma DistinctPermutation<T>(xs: seq<T>, ys: seq<T>)
    requires multiset(xs) == multiset(ys)
    ensures Distinct(xs) <==> Distinct(ys)
  {
    DistinctMultiset(xs);
    DistinctMultiset(ys);
  }

  lemma DistinctConcat<T>(xs: seq<T>, ys: seq<T>)
    ensures Distinct(xs + ys) <==> Distinct(xs) && Distinct(ys) && forall x :: x in xs ==> x !in ys
  {
    var all := xs + ys;
    assert forall i :: 0 <= i < |xs| ==> all[i] == xs[i];
    assert forall j :: 0 <= j < |ys| ==> all[|xs| + j] == ys[j];
    if Distinct(xs) && Distinct(ys) && forall x :: x in xs ==> x !in ys {
      forall i, j | 0 <= i < j < |all| ensures all[i] != all[j] {
        if i < |xs| <= j {
          assert all[i] in xs && all[j] in ys;
        } else if |xs| <= i {
          assert all[i] == ys[i - |xs|] && all[j] == ys[j - |xs|];
        }
      }
    }
    if Distinct(all) {
      forall i, j | 0 <= i < j < |ys| ensures ys[i] != ys[j] { assert all[|xs| + i] != all[|xs| + j]; }
      forall x | x in xs ensures x !in ys {
        var i :| 0 <= i < |xs| && xs[i] == x;
        forall j | 0 <= j < |ys| ensures ys[j] != x { assert all[i] != all[|xs| + j]; }
      }
    }
  }

  lemma MapConcat<T, U>(f: T -> U, xs: seq<T>, ys: seq<T>)
    ensures Map(f, xs + ys) == Map(f, xs) + Map(f, ys)
  {
  }

  // ----- Fresh names -----

  /** The new names are distinct and none is taken. */
  ghost predicate Fresh<T>(taken: seq<T>, names: seq<T>)
  {
    Distinct(names) && forall x :: x in taken ==> x !in names
  }

  /** Names are fresh together exactly when they are fresh one batch after the other. */
  lemma FreshConcat<T>(taken: seq<T>, names: seq<T>, more: seq<T>)
    ensures Fresh(taken, names + more) <==> Fresh(taken, names) && Fresh(taken + names, more)
  {
    DistinctConcat(names, more);
    assert forall x :: x in names + more <==> x in names || x in more;
    assert forall x :: x in taken + names <==> x in taken || x in names;
  }

  lemma FreshPrefix<T>(taken: seq<T>, names: seq<T>, n: nat)
    requires n <= |names| && Fresh(taken, names)
    ensures Fresh(taken, names[..n])
  {
    assert names == names[..n] + names[n..];
    FreshConcat(taken, names[..n], names[n..]);
  }

  lemma FreshPermutation<T>(taken: seq<T>, taken': seq<T>, names: seq<T>, names': seq<T>)
    requires multiset(taken) == multiset(taken') && multiset(names) == multiset(names')
    ensures Fresh(taken, names) <==> Fresh(taken', names')
  {
    MembersPermutation(taken, taken');
    MembersPermutation(names, names');
    DistinctPermutation(names, names');
  }
}
