/**
 Comparing the results of several reviewers: what they agree on, what only one of them saw,
 where they disagree, and whether the passes were independent.
 */
module Compare {
  import opened Ordering
  import opened Sequences
  import opened Results
  import opened ResultIndex
  import Planner

  /** The digests of a finding's substance and of how it was judged. */
  datatype Prints = Prints(fingerprint: Finding -> string, variant: Finding -> string)

  datatype Comparison = Comparison(
    passIDs: seq<string>, reviewers: seq<Reviewer>, independent: bool, independenceEvidence: seq<string>,
    overlap: seq<string>, unique: map<string, seq<string>>, disagreements: seq<string>)

  function PassOf(r: Review): string { r.reviewer.passID }

  function ReviewerOf(r: Review): Reviewer { r.reviewer }

  function ContextOf(r: Review): string
  {
    r.reviewer.provider + "\0" + r.reviewer.modelFamily + "\0" + r.reviewer.contextIsolation
  }

  function EvidenceOf(r: Review): string
  {
    r.reviewer.passID + ":" + ContextOf(r)
  }

  predicate ReviewerLE(a: Reviewer, b: Reviewer)
  {
    StringLE(a.passID, b.passID)
  }

  // ----- What is compared -----

  function Fingerprints(p: Prints, fs: seq<Finding>): set<string>
  {
    set i | 0 <= i < |fs| :: p.fingerprint(fs[i])
  }

  function Variants(p: Prints, fs: seq<Finding>, fingerprint: string): set<string>
  {
    set i | 0 <= i < |fs| && p.fingerprint(fs[i]) == fingerprint :: p.variant(fs[i])
  }

  function Reports(p: Prints, fingerprint: string): Review -> bool
  {
    (r: Review) => fingerprint in Fingerprints(p, FindingsOf(r))
  }

  /** How many of the results report a fingerprint. */
  function Count(p: Prints, inputs: seq<Review>, fingerprint: string): nat
  {
    multiset(Map(Reports(p, fingerprint), inputs))[true]
  }

  function AllVariants(p: Prints, inputs: seq<Review>, fingerprint: string): set<string>
  {
    set r, v | r in inputs && v in Variants(p, FindingsOf(r), fingerprint) :: v
  }

  function AllFingerprints(p: Prints, inputs: seq<Review>): set<string>
  {
    set r, f | r in inputs && f in Fingerprints(p, FindingsOf(r)) :: f
  }

  /** Separate contexts, and one prompt that every result was bound to. */
  ghost predicate Independent(inputs: seq<Review>)
  {
    && |inputs| > 1
    && Distinct(Map(ContextOf, inputs))
    && (forall r :: r in inputs ==> r.reviewer.promptDigest != "")
    && forall r, s :: r in inputs && s in inputs ==> r.reviewer.promptDigest == s.reviewer.promptDigest
  }

  function Counter(p: Prints, inputs: seq<Review>): string -> nat
  {
    f => Count(p, inputs, f)
  }

  function Varieties(p: Prints, inputs: seq<Review>): string -> set<string>
  {
    f => AllVariants(p, inputs, f)
  }

  /** Of these fingerprints the ones counted `n` times. */
  ghost function CountedTimes(keys: set<string>, count: string -> nat, n: nat): set<string>
  {
    set f | f in keys && count(f) == n
  }

  /** Of these fingerprints the ones judged in more than one way. */
  ghost function Varied(keys: set<string>, variants: string -> set<string>): set<string>
  {
    set f | f in keys && |variants(f)| > 1
  }

  /** Each result's own list, sorted. */
  ghost function Listed(p: Prints, all: seq<Review>): Review -> seq<string>
  {
    (r: Review) => Listing(CountedTimes(Fingerprints(p, FindingsOf(r)), Counter(p, all), 1))
  }

  /** By pass identifier; of results with one identifier the last is listed. */
  ghost function Unique(list: Review -> seq<string>, inputs: seq<Review>): map<string, seq<string>>
  {
    if inputs == [] then map[]
    else Unique(list, inputs[..|inputs| - 1])[PassOf(inputs[|inputs| - 1]) := list(inputs[|inputs| - 1])]
  }

  /** The comparison, up to the order of reviewers with one pass identifier. */
  ghost predicate IsComparison(p: Prints, inputs: seq<Review>, c: Comparison)
  {
    && c.passIDs == SortedStrings(Map(PassOf, inputs))
    && SortedBy(ReviewerLE, c.reviewers) && multiset(c.reviewers) == multiset(Map(ReviewerOf, inputs))
    && c.independent == Independent(inputs)
    && c.independenceEvidence == SortedStrings(Map(EvidenceOf, inputs))
    && c.overlap == Listing(if |inputs| > 1 then CountedTimes(AllFingerprints(p, inputs), Counter(p, inputs), |inputs|) else {})
    && c.unique == Unique(Listed(p, inputs), inputs)
    && c.disagreements == Listing(Varied(AllFingerprints(p, inputs), Varieties(p, inputs)))
  }

  // ----- The loops -----

  function CountOf(counts: map<string, nat>, f: string): nat
  {
    if f in counts then counts[f] else 0
  }

  function VariantsOf(variants: map<string, set<string>>, f: string): set<string>
  {
    if f in variants then variants[f] else {}
  }

  ghost predicate Tracks(counts: map<string, nat>, count: string -> nat)
  {
    forall f :: CountOf(counts, f) == count(f)
  }

  ghost predicate TracksVariants(variants: map<string, set<string>>, all: string -> set<string>)
  {
    forall f :: VariantsOf(variants, f) == all(f)
  }

  /** The counters after some of the results. */
  ghost predicate Counted(p: Prints, inputs: seq<Review>, counts: map<string, nat>, variants: map<string, set<string>>)
  {
    && counts.Keys == AllFingerprints(p, inputs) && variants.Keys == counts.Keys
    && Tracks(counts, Counter(p, inputs)) && TracksVariants(variants, Varieties(p, inputs))
  }

  /** Each of the fingerprints counted once more. */
  ghost predicate Bumped(before: map<string, nat>, counts: map<string, nat>, seen: set<string>)
  {
    counts.Keys == before.Keys + seen && forall f :: CountOf(counts, f) == CountOf(before, f) + if f in seen then 1 else 0
  }

  lemma BumpStep(before: map<string, nat>, counts: map<string, nat>, seen: set<string>, f: string)
    requires Bumped(before, counts, seen) && f !in seen
    ensures Bumped(before, counts[f := CountOf(counts, f) + 1], seen + {f})
  {
  }

  /** The variants of these findings noted. */
  ghost predicate Noted(p: Prints, known: map<string, set<string>>, variants: map<string, set<string>>, fs: seq<Finding>)
  {
    && variants.Keys == known.Keys + Fingerprints(p, fs)
    && forall f :: VariantsOf(variants, f) == VariantsOf(known, f) + Variants(p, fs, f)
  }

  lemma NoteStep(p: Prints, known: map<string, set<string>>, variants: map<string, set<string>>, fs: seq<Finding>, i: nat)
    requires i < |fs| && Noted(p, known, variants, fs[..i])
    ensures var f := p.fingerprint(fs[i]);
      Noted(p, known, variants[f := VariantsOf(variants, f) + {p.variant(fs[i])}], fs[..i + 1])
  {
    FindingStep(p, fs, i);
  }

  /** One result more: each fingerprint counts once, each variant is noted. */
  method CountFindings(p: Prints, fs: seq<Finding>, before: map<string, nat>, known: map<string, set<string>>)
    returns (counts: map<string, nat>, variants: map<string, set<string>>)
    ensures Bumped(before, counts, Fingerprints(p, fs)) && Noted(p, known, variants, fs)
  {
    counts, variants := before, known;
    var seen: set<string> := {};
    for i := 0 to |fs|
      invariant seen == Fingerprints(p, fs[..i])
      invariant Bumped(before, counts, seen) && Noted(p, known, variants, fs[..i])
    {
      var fingerprint := p.fingerprint(fs[i]);
      FindingStep(p, fs, i);
      NoteStep(p, known, variants, fs, i);
      if fingerprint !in seen {
        BumpStep(before, counts, seen, fingerprint);
        counts := counts[fingerprint := CountOf(counts, fingerprint) + 1];
        seen := seen + {fingerprint};
      }
      variants := variants[fingerprint := VariantsOf(variants, fingerprint) + {p.variant(fs[i])}];
    }
    assert fs[..|fs|] == fs;
  }

  lemma FindingStep(p: Prints, fs: seq<Finding>, i: nat)
    requires i < |fs|
    ensures Fingerprints(p, fs[..i + 1]) == Fingerprints(p, fs[..i]) + {p.fingerprint(fs[i])}
    ensures forall f ::
      Variants(p, fs[..i + 1], f) == Variants(p, fs[..i], f) + if p.fingerprint(fs[i]) == f then {p.variant(fs[i])} else {}
  {
    var a, b := fs[..i + 1], fs[..i];
    assert a[i] == fs[i] && forall k :: 0 <= k < i ==> a[k] == b[k];
  }

  lemma CountedStep(p: Prints, inputs: seq<Review>, r: Review, f: string)
    ensures Count(p, inputs + [r], f) == Count(p, inputs, f) + if f in Fingerprints(p, FindingsOf(r)) then 1 else 0
    ensures AllVariants(p, inputs + [r], f) == AllVariants(p, inputs, f) + Variants(p, FindingsOf(r), f)
    ensures AllFingerprints(p, inputs + [r]) == AllFingerprints(p, inputs) + Fingerprints(p, FindingsOf(r))
  {
    MapAppend(Reports(p, f), inputs, r);
  }

  method CountAll(p: Prints, inputs: seq<Review>) returns (counts: map<string, nat>, variants: map<string, set<string>>)
    ensures Counted(p, inputs, counts, variants)
  {
    counts, variants := map[], map[];
    for i := 0 to |inputs|
      invariant Counted(p, inputs[..i], counts, variants)
    {
      assert inputs[..i + 1] == inputs[..i] + [inputs[i]];
      ghost var before, known := counts, variants;
      counts, variants := CountFindings(p, FindingsOf(inputs[i]), counts, variants);
      CountedGrows(p, inputs[..i], inputs[i], before, known, counts, variants);
    }
    assert inputs[..|inputs|] == inputs;
  }

  lemma TracksGrows(before: map<string, nat>, counts: map<string, nat>, seen: set<string>, count: string -> nat, more: string -> nat)
    requires Tracks(before, count) && Bumped(before, counts, seen)
    requires forall f :: more(f) == count(f) + if f in seen then 1 else 0
    ensures Tracks(counts, more)
  {
  }

  lemma TracksVariantsGrows(p: Prints, known: map<string, set<string>>, variants: map<string, set<string>>, fs: seq<Finding>,
                            all: string -> set<string>, more: string -> set<string>)
    requires TracksVariants(known, all) && Noted(p, known, variants, fs)
    requires forall f :: more(f) == all(f) + Variants(p, fs, f)
    ensures TracksVariants(variants, more)
  {
  }

  lemma CountedGrows(p: Prints, inputs: seq<Review>, r: Review, before: map<string, nat>, known: map<string, set<string>>,
                     counts: map<string, nat>, variants: map<string, set<string>>)
    requires Counted(p, inputs, before, known)
    requires Bumped(before, counts, Fingerprints(p, FindingsOf(r))) && Noted(p, known, variants, FindingsOf(r))
    ensures Counted(p, inputs + [r], counts, variants)
  {
    var fs, longer := FindingsOf(r), inputs + [r];
    CountedStep(p, inputs, r, "");
    assert Tracks(counts, Counter(p, longer)) by {
      forall f ensures Counter(p, longer)(f) == Counter(p, inputs)(f) + if f in Fingerprints(p, fs) then 1 else 0 {
        CountedStep(p, inputs, r, f);
      }
      TracksGrows(before, counts, Fingerprints(p, fs), Counter(p, inputs), Counter(p, longer));
    }
    assert TracksVariants(variants, Varieties(p, longer)) by {
      forall f ensures Varieties(p, longer)(f) == Varieties(p, inputs)(f) + Variants(p, fs, f) {
        CountedStep(p, inputs, r, f);
      }
      TracksVariantsGrows(p, known, variants, fs, Varieties(p, inputs), Varieties(p, longer));
    }
  }

  method CheckIndependence(inputs: seq<Review>) returns (independent: bool)
    ensures independent <==> Independent(inputs)
  {
    independent := |inputs| > 1;
    var contexts: set<string> := {};
    ghost var keys := Map(ContextOf, inputs);
    var promptDigest := "";
    for i := 0 to |inputs|
      invariant contexts == set k | 0 <= k < i :: keys[k]
      invariant independent <==>
        && |inputs| > 1 && (forall j, k :: 0 <= j < k < i ==> keys[j] != keys[k])
        && forall k :: 0 <= k < i ==> inputs[k].reviewer.promptDigest == inputs[0].reviewer.promptDigest != ""
      invariant independent ==> promptDigest == if i == 0 then "" else inputs[0].reviewer.promptDigest
    {
      var r := inputs[i];
      if ContextOf(r) in contexts || r.reviewer.promptDigest == "" {
        independent := false;
      }
      contexts := contexts + {ContextOf(r)};
      if promptDigest == "" {
        promptDigest := r.reviewer.promptDigest;
      } else if promptDigest != r.reviewer.promptDigest {
        independent := false;
      }
    }
    forall k | 0 <= k < |inputs| ensures inputs[k] in inputs { }
  }

  method ListUnique(p: Prints, inputs: seq<Review>, counts: map<string, nat>, variants: map<string, set<string>>)
    returns (unique: map<string, seq<string>>)
    requires Counted(p, inputs, counts, variants)
    ensures unique == Unique(Listed(p, inputs), inputs)
  {
    unique := map[];
    for i := 0 to |inputs|
      invariant unique == Unique(Listed(p, inputs), inputs[..i])
    {
      assert inputs[..i + 1][..i] == inputs[..i];
      var mine := Fingerprints(p, FindingsOf(inputs[i]));
      var listed := SortedSet(set f | f in mine && CountOf(counts, f) == 1);
      CountedOnce(mine, counts, Counter(p, inputs));
      assert listed == Listed(p, inputs)(inputs[i]);
      unique := unique[PassOf(inputs[i]) := listed];
    }
    assert inputs[..|inputs|] == inputs;
  }

  lemma ReviewerOrder()
    ensures TotalPreorder(ReviewerLE)
    ensures forall a, b :: ReviewerLE(a, b) && ReviewerLE(b, a) ==> a.passID == b.passID
  {
    StringOrder();
  }

  lemma CountedOnce(keys: set<string>, counts: map<string, nat>, count: string -> nat)
    requires Tracks(counts, count)
    ensures (set f | f in keys && CountOf(counts, f) == 1) == CountedTimes(keys, count, 1)
  {
  }

  method SelectOverlap(counts: map<string, nat>, n: nat, ghost count: string -> nat) returns (overlap: seq<string>)
    requires Tracks(counts, count)
    ensures overlap == Listing(if n > 1 then CountedTimes(counts.Keys, count, n) else {})
  {
    var chosen := set f | f in counts && counts[f] == n && n > 1;
    assert forall f :: f in counts ==> counts[f] == CountOf(counts, f);
    assert chosen == if n > 1 then CountedTimes(counts.Keys, count, n) else {};
    overlap := SortedSet(chosen);
  }

  method SelectDisagreements(variants: map<string, set<string>>, ghost all: string -> set<string>) returns (disagreements: seq<string>)
    requires TracksVariants(variants, all)
    ensures disagreements == Listing(Varied(variants.Keys, all))
  {
    var chosen := set f | f in variants && |variants[f]| > 1;
    assert forall f :: f in variants ==> variants[f] == VariantsOf(variants, f);
    assert chosen == Varied(variants.Keys, all);
    disagreements := SortedSet(chosen);
  }

  method CompareResults(p: Prints, inputs: seq<Review>) returns (c: Comparison)
    ensures IsComparison(p, inputs, c)
  {
    var counts, variants := CountAll(p, inputs);
    var independent := CheckIndependence(inputs);
    ReviewerOrder();
    var reviewers := SortSlice(ReviewerLE, Map(ReviewerOf, inputs));
    var overlap := SelectOverlap(counts, |inputs|, Counter(p, inputs));
    var disagreements := SelectDisagreements(variants, Varieties(p, inputs));
    var unique := ListUnique(p, inputs, counts, variants);
    c := Comparison(SortedStrings(Map(PassOf, inputs)), reviewers, independent, SortedStrings(Map(EvidenceOf, inputs)),
                    overlap, unique, disagreements);
  }

  // ----- Any order -----

  lemma CountsPermute(p: Prints, a: seq<Review>, b: seq<Review>)
    requires multiset(a) == multiset(b)
    ensures forall f :: Count(p, a, f) == Count(p, b, f) && AllVariants(p, a, f) == AllVariants(p, b, f)
    ensures AllFingerprints(p, a) == AllFingerprints(p, b)
  {
    MembersPermutation(a, b);
    forall f ensures Count(p, a, f) == Count(p, b, f) && AllVariants(p, a, f) == AllVariants(p, b, f) {
      MapPermutation(Reports(p, f), a, b);
    }
  }

  lemma IndependencePermutes(a: seq<Review>, b: seq<Review>)
    requires multiset(a) == multiset(b)
    ensures Independent(a) <==> Independent(b)
  {
    SameLength(a, b);
    MembersPermutation(a, b);
    MapPermutation(ContextOf, a, b);
    DistinctPermutation(Map(ContextOf, a), Map(ContextOf, b));
  }

  ghost predicate DistinctPasses(inputs: seq<Review>)
  {
    forall i, j :: 0 <= i < j < |inputs| ==> PassOf(inputs[i]) != PassOf(inputs[j])
  }

  function Passes(inputs: seq<Review>): set<string>
  {
    set r | r in inputs :: PassOf(r)
  }

  /** With distinct pass identifiers each result's own list is kept. */
  lemma {:induction false} UniqueHolds(list: Review -> seq<string>, inputs: seq<Review>, i: nat)
    requires DistinctPasses(inputs) && i < |inputs|
    ensures PassOf(inputs[i]) in Unique(list, inputs) && Unique(list, inputs)[PassOf(inputs[i])] == list(inputs[i])
  {
    var n := |inputs| - 1;
    if i < n {
      UniqueHolds(list, inputs[..n], i);
      assert PassOf(inputs[i]) != PassOf(inputs[n]);
    }
  }

  lemma {:induction false} UniqueKeys(list: Review -> seq<string>, inputs: seq<Review>)
    ensures Unique(list, inputs).Keys == Passes(inputs)
  {
    if inputs != [] {
      var init, last := inputs[..|inputs| - 1], inputs[|inputs| - 1];
      UniqueKeys(list, init);
      assert inputs == init + [last];
      assert Passes(inputs) == Passes(init) + {PassOf(last)};
    }
  }

  lemma DistinctPassesPermute(a: seq<Review>, b: seq<Review>)
    requires multiset(a) == multiset(b) && DistinctPasses(a)
    ensures DistinctPasses(b)
  {
    MapPermutation(PassOf, a, b);
    DistinctPermutation(Map(PassOf, a), Map(PassOf, b));
    forall i, j | 0 <= i < j < |b| ensures PassOf(b[i]) != PassOf(b[j]) {
      assert Map(PassOf, b)[i] != Map(PassOf, b)[j];
    }
  }

  lemma UniqueAt(list: Review -> seq<string>, inputs: seq<Review>, r: Review)
    requires DistinctPasses(inputs) && r in inputs
    ensures PassOf(r) in Unique(list, inputs) && Unique(list, inputs)[PassOf(r)] == list(r)
  {
    var i :| 0 <= i < |inputs| && inputs[i] == r;
    UniqueHolds(list, inputs, i);
  }

  lemma UniquePermutes(list: Review -> seq<string>, list': Review -> seq<string>, a: seq<Review>, b: seq<Review>)
    requires multiset(a) == multiset(b) && DistinctPasses(a) && forall r :: r in a ==> list(r) == list'(r)
    ensures Unique(list, a) == Unique(list', b)
  {
    MembersPermutation(a, b);
    DistinctPassesPermute(a, b);
    UniqueKeys(list, a);
    UniqueKeys(list', b);
    assert Passes(a) == Passes(b);
    var ua, ub := Unique(list, a), Unique(list', b);
    forall pass | pass in Passes(a) ensures ua[pass] == ub[pass] {
      var r :| r in a && PassOf(r) == pass;
      UniqueAt(list, a, r);
      UniqueAt(list', b, r);
    }
  }

  lemma SelectionsPermute(p: Prints, a: seq<Review>, b: seq<Review>, keys: set<string>, n: nat)
    requires multiset(a) == multiset(b)
    ensures CountedTimes(keys, Counter(p, a), n) == CountedTimes(keys, Counter(p, b), n)
    ensures Varied(keys, Varieties(p, a)) == Varied(keys, Varieties(p, b))
  {
    CountsPermute(p, a, b);
    forall f ensures Counter(p, a)(f) == Counter(p, b)(f) && Varieties(p, a)(f) == Varieties(p, b)(f) { }
  }

  lemma SortedListsPermute(f: Review -> string, a: seq<Review>, b: seq<Review>)
    requires multiset(a) == multiset(b)
    ensures SortedStrings(Map(f, a)) == SortedStrings(Map(f, b))
  {
    MapPermutation(f, a, b);
    SortedStringsPermutation(Map(f, a), Map(f, b));
  }

  /** With distinct pass identifiers the comparison does not depend on the order of its inputs. */
  lemma CompareIsSymmetric(p: Prints, a: seq<Review>, b: seq<Review>, ca: Comparison, cb: Comparison)
    requires multiset(a) == multiset(b) && DistinctPasses(a)
    requires IsComparison(p, a, ca) && IsComparison(p, b, cb)
    ensures ca == cb
  {
    SortedListsPermute(PassOf, a, b);
    SortedListsPermute(EvidenceOf, a, b);
    ReviewersPermute(a, b, ca.reviewers, cb.reviewers);
    IndependencePermutes(a, b);
    SameLength(a, b);
    CountsPermute(p, a, b);
    SelectionsPermute(p, a, b, AllFingerprints(p, a), |a|);
    forall r ensures Listed(p, a)(r) == Listed(p, b)(r) {
      SelectionsPermute(p, a, b, Fingerprints(p, FindingsOf(r)), 1);
    }
    UniquePermutes(Listed(p, a), Listed(p, b), a, b);
  }

  lemma ReviewersPermute(a: seq<Review>, b: seq<Review>, xs: seq<Reviewer>, ys: seq<Reviewer>)
    requires multiset(a) == multiset(b) && DistinctPasses(a)
    requires SortedBy(ReviewerLE, xs) && multiset(xs) == multiset(Map(ReviewerOf, a))
    requires SortedBy(ReviewerLE, ys) && multiset(ys) == multiset(Map(ReviewerOf, b))
    ensures xs == ys
  {
    var all := Map(ReviewerOf, a);
    ReviewerOrder();
    MapPermutation(ReviewerOf, a, b);
    forall x, y | x in all && y in all && ReviewerLE(x, y) && ReviewerLE(y, x) ensures x == y {
      var i :| 0 <= i < |all| && all[i] == x;
      var j :| 0 <= j < |all| && all[j] == y;
      assert PassOf(a[i]) == PassOf(a[j]);
    }
    SortSliceDeterministic(ReviewerLE, all, xs, ys);
  }

  /** Results with one pass identifier have the same list. */
  ghost predicate OneListAPass(list: Review -> seq<string>, inputs: seq<Review>)
  {
    forall r, s :: r in inputs && s in inputs && PassOf(r) == PassOf(s) ==> list(r) == list(s)
  }

  lemma {:induction false} UniqueAgrees(list: Review -> seq<string>, inputs: seq<Review>, r: Review)
    requires OneListAPass(list, inputs) && r in inputs
    ensures PassOf(r) in Unique(list, inputs) && Unique(list, inputs)[PassOf(r)] == list(r)
  {
    var init, last := inputs[..|inputs| - 1], inputs[|inputs| - 1];
    assert inputs == init + [last];
    if PassOf(r) != PassOf(last) {
      UniqueAgrees(list, init, r);
    }
  }

  /** The same results with one of them moved to the end. */
  function MovedLast(inputs: seq<Review>, k: nat): seq<Review>
    requires k < |inputs|
  {
    Without(inputs, k) + [inputs[k]]
  }

  lemma MovedLastLists(list: Review -> seq<string>, inputs: seq<Review>, k: nat)
    requires k < |inputs|
    ensures multiset(MovedLast(inputs, k)) == multiset(inputs)
    ensures var u := Unique(list, MovedLast(inputs, k)); PassOf(inputs[k]) in u && u[PassOf(inputs[k])] == list(inputs[k])
  {
    WithoutMultiset(inputs, k);
    assert MovedLast(inputs, k)[..|inputs| - 1] == Without(inputs, k);
  }

  /** Some order of the results lists otherwise. */
  ghost predicate OrderShows(p: Prints, inputs: seq<Review>)
  {
    exists other :: multiset(other) == multiset(inputs) && Unique(Listed(p, other), other) != Unique(Listed(p, inputs), inputs)
  }

  lemma LaterListed(list: Review -> seq<string>, r: Review, s: Review)
    requires PassOf(r) == PassOf(s)
    ensures PassOf(s) in Unique(list, [r, s]) && Unique(list, [r, s])[PassOf(s)] == list(s)
  {
  }

  lemma ListedAlone(p: Prints, r: Review, s: Review, f: Finding)
    requires FindingsOf(r) == [f] && FindingsOf(s) == []
    ensures Listed(p, [s, r])(r) == [p.fingerprint(f)]
  {
    var all, x := [s, r], p.fingerprint(f);
    assert Map(Reports(p, x), all) == [false, true] by { assert FindingsOf(r)[0] == f; }
    assert multiset([false, true])[true] == 1;
    var once := CountedTimes(Fingerprints(p, FindingsOf(r)), Counter(p, all), 1);
    assert x in once;
    assert once == {x};
    ListingOf(once);
    SingletonListing(Listing(once), x);
  }

  lemma NothingListed(p: Prints, all: seq<Review>, s: Review)
    requires FindingsOf(s) == []
    ensures Listed(p, all)(s) == []
  {
    var none := CountedTimes(Fingerprints(p, FindingsOf(s)), Counter(p, all), 1);
    assert none == {};
    ListingOf(none);
    DistinctSize(Listing(none));
  }

  /** With one pass identifier for two results the order shows: the later result's list replaces the earlier one's. */
  lemma RepeatedPassShowsOrder(p: Prints, r: Review, s: Review, f: Finding)
    requires PassOf(r) == PassOf(s) && FindingsOf(r) == [f] && FindingsOf(s) == []
    ensures OrderShows(p, [r, s])
    ensures PassOf(r) in Unique(Listed(p, [r, s]), [r, s]) && Unique(Listed(p, [r, s]), [r, s])[PassOf(r)] == []
    ensures PassOf(r) in Unique(Listed(p, [s, r]), [s, r]) && Unique(Listed(p, [s, r]), [s, r])[PassOf(r)] == [p.fingerprint(f)]
  {
    LaterListed(Listed(p, [r, s]), r, s);
    LaterListed(Listed(p, [s, r]), s, r);
    NothingListed(p, [r, s], s);
    ListedAlone(p, r, s, f);
    assert multiset([s, r]) == multiset([r, s]);
  }

  lemma SameListed(p: Prints, a: seq<Review>, b: seq<Review>, r: Review)
    requires multiset(a) == multiset(b)
    ensures Listed(p, a)(r) == Listed(p, b)(r)
  {
    SelectionsPermute(p, a, b, Fingerprints(p, FindingsOf(r)), 1);
  }

  lemma OneListNoOrder(p: Prints, a: seq<Review>, b: seq<Review>)
    requires multiset(a) == multiset(b) && OneListAPass(Listed(p, a), a)
    ensures Unique(Listed(p, b), b) == Unique(Listed(p, a), a)
  {
    MembersPermutation(a, b);
    forall r ensures Listed(p, a)(r) == Listed(p, b)(r) { SameListed(p, a, b, r); }
    UniqueKeys(Listed(p, a), a);
    UniqueKeys(Listed(p, b), b);
    assert Passes(a) == Passes(b);
    forall pass | pass in Passes(a) ensures Unique(Listed(p, b), b)[pass] == Unique(Listed(p, a), a)[pass] {
      var r :| r in a && PassOf(r) == pass;
      UniqueAgrees(Listed(p, a), a, r);
      UniqueAgrees(Listed(p, b), b, r);
    }
  }

  lemma TwoListsShow(p: Prints, inputs: seq<Review>, i: nat, j: nat)
    requires i < |inputs| && j < |inputs| && PassOf(inputs[i]) == PassOf(inputs[j])
    requires Listed(p, inputs)(inputs[i]) != Listed(p, inputs)(inputs[j])
    ensures OrderShows(p, inputs)
  {
    var a, b := MovedLast(inputs, i), MovedLast(inputs, j);
    MovedLastLists(Listed(p, a), inputs, i);
    MovedLastLists(Listed(p, b), inputs, j);
    SameListed(p, a, inputs, inputs[i]);
    SameListed(p, b, inputs, inputs[j]);
  }

  /** The order of the results shows exactly when two of them share a pass identifier and list different findings. */
  lemma OrderShowsExactly(p: Prints, inputs: seq<Review>)
    ensures OrderShows(p, inputs) <==> !OneListAPass(Listed(p, inputs), inputs)
  {
    if OneListAPass(Listed(p, inputs), inputs) {
      forall other | multiset(other) == multiset(inputs)
        ensures Unique(Listed(p, other), other) == Unique(Listed(p, inputs), inputs)
      {
        OneListNoOrder(p, inputs, other);
      }
    } else {
      var r, s :| r in inputs && s in inputs && PassOf(r) == PassOf(s) && Listed(p, inputs)(r) != Listed(p, inputs)(s);
      var i :| 0 <= i < |inputs| && inputs[i] == r;
      var j :| 0 <= j < |inputs| && inputs[j] == s;
      TwoListsShow(p, inputs, i, j);
    }
  }

  // ----- What is compared in practice -----

  /** The stored results of one task, in index order. */
  function TaskResults(files: map<string, Review>, records: seq<Record>, taskID: string): seq<Review>
  {
    if records == [] then []
    else
      var last := records[|records| - 1];
      TaskResults(files, records[..|records| - 1], taskID) +
      if last.taskID == taskID && last.resultPath in files then [files[last.resultPath]] else []
  }

  /** Each of them was recorded under the task with its own pass identifier. */
  lemma {:induction false} ResultIsRecorded(s: Stored, tasks: map<string, Planner.Task>, records: seq<Record>, taskID: string, k: nat) returns (i: nat)
    requires forall j :: 0 <= j < |records| ==> RecordVerified(s, tasks, records[j])
    requires k < |TaskResults(s.files, records, taskID)|
    ensures i < |records| && records[i].taskID == taskID && records[i].passID == PassOf(TaskResults(s.files, records, taskID)[k])
  {
    var init, last := records[..|records| - 1], records[|records| - 1];
    assert RecordVerified(s, tasks, last);
    if k < |TaskResults(s.files, init, taskID)| {
      i := ResultIsRecorded(s, tasks, init, taskID, k);
    } else {
      i := |records| - 1;
    }
  }

  lemma {:induction false} RecordedPassesDistinct(s: Stored, tasks: map<string, Planner.Task>, records: seq<Record>, taskID: string)
    requires forall j :: 0 <= j < |records| ==> RecordVerified(s, tasks, records[j])
    requires forall i, j :: 0 <= i < j < |records| ==> PassKey(records[i]) != PassKey(records[j])
    ensures DistinctPasses(TaskResults(s.files, records, taskID))
  {
    if records != [] {
      var init, last := records[..|records| - 1], records[|records| - 1];
      RecordedPassesDistinct(s, tasks, init, taskID);
      assert RecordVerified(s, tasks, last);
      var before := TaskResults(s.files, init, taskID);
      if last.taskID == taskID {
        forall k | 0 <= k < |before| ensures PassOf(before[k]) != last.passID {
          var i := ResultIsRecorded(s, tasks, init, taskID, k);
          assert PassKey(records[i]) != PassKey(last);
        }
      }
    }
  }

  /** Results of one task out of a verified index compare alike in every order. */
  lemma RecordedComparisonIsSymmetric(s: Stored, tasks: map<string, Planner.Task>, index: ResultIndex.Index, taskID: string,
                                      p: Prints, b: seq<Review>, ca: Comparison, cb: Comparison)
    requires IndexVerified(s, tasks, index)
    requires var a := TaskResults(s.files, Items(index), taskID);
      multiset(a) == multiset(b) && IsComparison(p, a, ca) && IsComparison(p, b, cb)
    ensures ca == cb
  {
    RecordedPassesDistinct(s, tasks, index.records.value, taskID);
    CompareIsSymmetric(p, TaskResults(s.files, Items(index), taskID), b, ca, cb);
  }

  lemma OneMoreDistinct(current: Review, earlier: seq<Review>)
    requires DistinctPasses(earlier) && forall k :: 0 <= k < |earlier| ==> PassOf(earlier[k]) != PassOf(current)
    ensures DistinctPasses([current] + earlier)
  {
  }

  ghost predicate NotRecorded(records: seq<Record>, current: Review)
  {
    forall i :: 0 <= i < |records| ==> !(records[i].taskID == current.taskID && records[i].passID == PassOf(current))
  }

  lemma NewPassDistinct(s: Stored, tasks: map<string, Planner.Task>, records: seq<Record>, current: Review)
    requires forall j :: 0 <= j < |records| ==> RecordVerified(s, tasks, records[j])
    requires forall i, j :: 0 <= i < j < |records| ==> PassKey(records[i]) != PassKey(records[j])
    requires NotRecorded(records, current)
    ensures DistinctPasses([current] + TaskResults(s.files, records, current.taskID))
  {
    var earlier := TaskResults(s.files, records, current.taskID);
    RecordedPassesDistinct(s, tasks, records, current.taskID);
    forall k | 0 <= k < |earlier| ensures PassOf(earlier[k]) != PassOf(current) {
      var i := ResultIsRecorded(s, tasks, records, current.taskID, k);
    }
    OneMoreDistinct(current, earlier);
  }

  /** So does a new result of the task beside the recorded ones, when its pass is not recorded yet. */
  lemma NewComparisonIsSymmetric(s: Stored, tasks: map<string, Planner.Task>, index: ResultIndex.Index, current: Review,
                                 p: Prints, b: seq<Review>, ca: Comparison, cb: Comparison)
    requires IndexVerified(s, tasks, index) && NotRecorded(Items(index), current)
    requires var a := [current] + TaskResults(s.files, Items(index), current.taskID);
      multiset(a) == multiset(b) && IsComparison(p, a, ca) && IsComparison(p, b, cb)
    ensures ca == cb
  {
    NewPassDistinct(s, tasks, index.records.value, current);
    CompareIsSymmetric(p, [current] + TaskResults(s.files, Items(index), current.taskID), b, ca, cb);
  }

  lemma SingletonListing(xs: seq<string>, x: string)
    requires Elements(xs) == {x} && Distinct(xs)
    ensures xs == [x]
  {
    DistinctSize(xs);
    assert |xs| == 1;
    assert xs[0] in Elements(xs);
  }
}
