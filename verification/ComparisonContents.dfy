/** What a comparison says of the results compared: agreement, single findings, disagreement and independence. */
module ComparisonContents {
  import opened Ordering
  import opened Sequences
  import opened Results
  import opened ResultIndex
  import opened Compare

  /** The result reports a finding of this fingerprint. */
  ghost predicate Sees(p: Prints, r: Review, f: string)
  {
    r.findings.Some? && exists k :: 0 <= k < |r.findings.value| && p.fingerprint(r.findings.value[k]) == f
  }

  lemma ReportsAreSeen(p: Prints, r: Review, f: string)
    ensures f in Fingerprints(p, FindingsOf(r)) <==> Sees(p, r, f)
  {
  }

  lemma {:induction false} CountsSeers(p: Prints, inputs: seq<Review>, f: string)
    ensures Count(p, inputs, f) <= |inputs|
    ensures Count(p, inputs, f) == |inputs| <==> forall i :: 0 <= i < |inputs| ==> Sees(p, inputs[i], f)
    ensures Count(p, inputs, f) == 0 <==> forall i :: 0 <= i < |inputs| ==> !Sees(p, inputs[i], f)
  {
    if inputs != [] {
      var n := |inputs| - 1;
      CountsSeers(p, inputs[..n], f);
      OneMoreCounted(p, inputs[..n], inputs[n], f);
      ReportsAreSeen(p, inputs[n], f);
      assert inputs == inputs[..n] + [inputs[n]];
      assert forall i :: 0 <= i < n ==> inputs[..n][i] == inputs[i];
    }
  }

  lemma OneMoreCounted(p: Prints, inputs: seq<Review>, r: Review, f: string)
    ensures Count(p, inputs + [r], f) == Count(p, inputs, f) + if f in Fingerprints(p, FindingsOf(r)) then 1 else 0
  {
    MapAppend(Reports(p, f), inputs, r);
  }

  lemma CountWithout(p: Prints, inputs: seq<Review>, i: nat, f: string)
    requires i < |inputs|
    ensures Count(p, inputs, f) == Count(p, Without(inputs, i), f) + if Sees(p, inputs[i], f) then 1 else 0
  {
    WithoutMultiset(inputs, i);
    MapPermutation(Reports(p, f), inputs, Without(inputs, i) + [inputs[i]]);
    OneMoreCounted(p, Without(inputs, i), inputs[i], f);
    ReportsAreSeen(p, inputs[i], f);
  }

  /** A result that reports the fingerprint is the only one exactly when the count is one. */
  lemma CountedOnceIsAlone(p: Prints, inputs: seq<Review>, i: nat, f: string)
    requires i < |inputs| && Sees(p, inputs[i], f)
    ensures Count(p, inputs, f) == 1 <==> forall j :: 0 <= j < |inputs| && j != i ==> !Sees(p, inputs[j], f)
  {
    CountWithout(p, inputs, i, f);
    CountsSeers(p, Without(inputs, i), f);
    OthersUnseen(p, inputs, i, f);
  }

  lemma OthersUnseen(p: Prints, inputs: seq<Review>, i: nat, f: string)
    requires i < |inputs|
    ensures (forall k :: 0 <= k < |Without(inputs, i)| ==> !Sees(p, Without(inputs, i)[k], f)) <==>
      forall j :: 0 <= j < |inputs| && j != i ==> !Sees(p, inputs[j], f)
  {
    var others := Without(inputs, i);
    if forall k :: 0 <= k < |others| ==> !Sees(p, others[k], f) {
      forall j | 0 <= j < |inputs| && j != i ensures !Sees(p, inputs[j], f) {
        assert inputs[j] == others[if j < i then j else j - 1];
      }
    }
  }

  /** The result judges a finding of this fingerprint in this way. */
  ghost predicate Judges(p: Prints, r: Review, f: string, v: string)
  {
    r.findings.Some? && exists k :: 0 <= k < |r.findings.value| && p.fingerprint(r.findings.value[k]) == f && p.variant(r.findings.value[k]) == v
  }

  /** Findings of this fingerprint were judged in two ways, by two results or by one. */
  ghost predicate JudgedTwice(p: Prints, inputs: seq<Review>, f: string)
  {
    exists r, s, v, w :: r in inputs && s in inputs && v != w && Judges(p, r, f, v) && Judges(p, s, f, w)
  }

  lemma MoreThanOne(s: set<string>)
    ensures |s| > 1 <==> exists a, b :: a in s && b in s && a != b
  {
    if a :| a in s {
      assert |s - {a}| == |s| - 1;
      if |s| > 1 {
        var b :| b in s - {a};
      }
      if x, y :| x in s && y in s && x != y {
        assert {x, y} <= s;
        SmallerSubset({x, y}, s);
      }
    }
  }

  lemma SmallerSubset(a: set<string>, b: set<string>)
    requires a <= b
    ensures |a| <= |b|
  {
    assert b == a + (b - a);
  }

  lemma VariantIsJudgement(p: Prints, inputs: seq<Review>, f: string, v: string)
    ensures v in AllVariants(p, inputs, f) <==> exists r :: r in inputs && Judges(p, r, f, v)
  {
    forall r ensures v in Variants(p, FindingsOf(r), f) <==> Judges(p, r, f, v) { }
  }

  lemma VariedIsJudgedTwice(p: Prints, inputs: seq<Review>, f: string)
    ensures |AllVariants(p, inputs, f)| > 1 <==> JudgedTwice(p, inputs, f)
  {
    var all := AllVariants(p, inputs, f);
    MoreThanOne(all);
    if a, b :| a in all && b in all && a != b {
      VariantIsJudgement(p, inputs, f, a);
      VariantIsJudgement(p, inputs, f, b);
    }
    if r, s, v, w :| r in inputs && s in inputs && v != w && Judges(p, r, f, v) && Judges(p, s, f, w) {
      VariantIsJudgement(p, inputs, f, v);
      VariantIsJudgement(p, inputs, f, w);
    }
  }

  lemma SeenSomewhere(p: Prints, inputs: seq<Review>, f: string)
    ensures f in AllFingerprints(p, inputs) <==> exists r :: r in inputs && Sees(p, r, f)
  {
    forall r ensures f in Fingerprints(p, FindingsOf(r)) <==> Sees(p, r, f) { ReportsAreSeen(p, r, f); }
  }

  /** The overlap: what each of several results reports. */
  lemma OverlapSays(p: Prints, inputs: seq<Review>, c: Comparison, f: string)
    requires IsComparison(p, inputs, c)
    ensures f in c.overlap <==> |inputs| > 1 && forall i :: 0 <= i < |inputs| ==> Sees(p, inputs[i], f)
  {
    ListingMembers(if |inputs| > 1 then CountedTimes(AllFingerprints(p, inputs), Counter(p, inputs), |inputs|) else {});
    SeenSomewhere(p, inputs, f);
    CountsSeers(p, inputs, f);
    if |inputs| > 1 && forall i :: 0 <= i < |inputs| ==> Sees(p, inputs[i], f) {
      assert inputs[0] in inputs && Sees(p, inputs[0], f);
    }
  }

  /** The disagreements: what was judged in two ways. */
  lemma DisagreementsSay(p: Prints, inputs: seq<Review>, c: Comparison, f: string)
    requires IsComparison(p, inputs, c)
    ensures f in c.disagreements <==> JudgedTwice(p, inputs, f)
  {
    ListingMembers(Varied(AllFingerprints(p, inputs), Varieties(p, inputs)));
    VariedIsJudgedTwice(p, inputs, f);
    SeenSomewhere(p, inputs, f);
    if JudgedTwice(p, inputs, f) {
      var r, s, v, w :| r in inputs && s in inputs && v != w && Judges(p, r, f, v) && Judges(p, s, f, w);
      assert Sees(p, r, f);
    }
  }

  /** Each pass's own list: what its result reports and no other result does. */
  lemma UniqueSays(p: Prints, inputs: seq<Review>, c: Comparison, i: nat, f: string)
    requires IsComparison(p, inputs, c) && DistinctPasses(inputs) && i < |inputs|
    ensures inputs[i].reviewer.passID in c.unique
    ensures f in c.unique[inputs[i].reviewer.passID] <==>
      Sees(p, inputs[i], f) && forall j :: 0 <= j < |inputs| && j != i ==> !Sees(p, inputs[j], f)
  {
    UniqueHolds(Listed(p, inputs), inputs, i);
    ListingMembers(CountedTimes(Fingerprints(p, FindingsOf(inputs[i])), Counter(p, inputs), 1));
    ReportsAreSeen(p, inputs[i], f);
    if Sees(p, inputs[i], f) {
      CountedOnceIsAlone(p, inputs, i, f);
    }
  }

  /** The passes are independent exactly when there are several, each in a context of its own, under one prompt. */
  lemma IndependentExactly(p: Prints, inputs: seq<Review>, c: Comparison)
    requires IsComparison(p, inputs, c)
    ensures c.independent <==>
      && |inputs| > 1
      && (forall i, j :: 0 <= i < j < |inputs| ==>
            inputs[i].reviewer.provider + "\0" + inputs[i].reviewer.modelFamily + "\0" + inputs[i].reviewer.contextIsolation !=
            inputs[j].reviewer.provider + "\0" + inputs[j].reviewer.modelFamily + "\0" + inputs[j].reviewer.contextIsolation)
      && forall i :: 0 <= i < |inputs| ==> inputs[i].reviewer.promptDigest == inputs[0].reviewer.promptDigest != ""
  {
    ContextsDistinct(inputs);
    if |inputs| > 1 {
      PromptShared(inputs);
    }
  }

  lemma ContextsDistinct(inputs: seq<Review>)
    ensures Distinct(Map(ContextOf, inputs)) <==> forall i, j :: 0 <= i < j < |inputs| ==>
      inputs[i].reviewer.provider + "\0" + inputs[i].reviewer.modelFamily + "\0" + inputs[i].reviewer.contextIsolation !=
      inputs[j].reviewer.provider + "\0" + inputs[j].reviewer.modelFamily + "\0" + inputs[j].reviewer.contextIsolation
  {
    var contexts := Map(ContextOf, inputs);
    forall i, j | 0 <= i < j < |inputs|
      ensures contexts[i] != contexts[j] <==>
        inputs[i].reviewer.provider + "\0" + inputs[i].reviewer.modelFamily + "\0" + inputs[i].reviewer.contextIsolation !=
        inputs[j].reviewer.provider + "\0" + inputs[j].reviewer.modelFamily + "\0" + inputs[j].reviewer.contextIsolation
    {
    }
  }

  lemma PromptShared(inputs: seq<Review>)
    requires |inputs| > 1
    ensures (forall r :: r in inputs ==> r.reviewer.promptDigest != "")
            && (forall r, s :: r in inputs && s in inputs ==> r.reviewer.promptDigest == s.reviewer.promptDigest)
      <==> forall i :: 0 <= i < |inputs| ==> inputs[i].reviewer.promptDigest == inputs[0].reviewer.promptDigest != ""
  {
    assert forall i :: 0 <= i < |inputs| ==> inputs[i] in inputs;
  }

  /** The lists that name the passes: sorted, one entry a result. */
  lemma PassesListed(p: Prints, inputs: seq<Review>, c: Comparison)
    requires IsComparison(p, inputs, c)
    ensures SortedBy(StringLE, c.passIDs) && |c.passIDs| == |inputs|
    ensures forall x :: x in c.passIDs <==> exists r :: r in inputs && r.reviewer.passID == x
    ensures SortedBy(StringLE, c.independenceEvidence) && |c.independenceEvidence| == |inputs|
    ensures forall x :: x in c.independenceEvidence <==> exists r :: r in inputs && NamesContext(r, x)
    ensures forall i, j :: 0 <= i < j < |c.reviewers| ==> StringLE(c.reviewers[i].passID, c.reviewers[j].passID)
    ensures forall x :: x in c.reviewers <==> exists r :: r in inputs && r.reviewer == x
  {
    SortedOf(PassOf, inputs);
    SortedOf(EvidenceOf, inputs);
    MembersPermutation(c.reviewers, Map(ReviewerOf, inputs));
    forall x ensures x in c.reviewers <==> exists r :: r in inputs && r.reviewer == x {
      MapMembers(ReviewerOf, inputs, x);
    }
    forall x ensures x in c.passIDs <==> exists r :: r in inputs && r.reviewer.passID == x {
      MapMembers(PassOf, inputs, x);
    }
    forall x ensures x in c.independenceEvidence <==> exists r :: r in inputs && NamesContext(r, x) {
      MapMembers(EvidenceOf, inputs, x);
      forall r ensures NamesContext(r, x) <==> EvidenceOf(r) == x { EvidenceText(r, x); }
    }
  }

  /** The pass and the context of the result, as text. */
  predicate NamesContext(r: Review, x: string)
  {
    x == r.reviewer.passID + ":" + r.reviewer.provider + "\0" + r.reviewer.modelFamily + "\0" + r.reviewer.contextIsolation
  }

  lemma EvidenceText(r: Review, x: string)
    ensures NamesContext(r, x) <==> EvidenceOf(r) == x
  {
  }

  lemma MapMembers<T(!new), U>(f: T -> U, xs: seq<T>, y: U)
    ensures y in Map(f, xs) <==> exists x :: x in xs && f(x) == y
  {
    if y in Map(f, xs) {
      var i :| 0 <= i < |xs| && Map(f, xs)[i] == y;
      assert xs[i] in xs;
    }
    if x :| x in xs && f(x) == y {
      var i :| 0 <= i < |xs| && xs[i] == x;
      assert Map(f, xs)[i] == y;
    }
  }

  lemma SortedOf(f: Review -> string, inputs: seq<Review>)
    ensures SortedBy(StringLE, SortedStrings(Map(f, inputs))) && |SortedStrings(Map(f, inputs))| == |inputs|
    ensures forall x :: x in SortedStrings(Map(f, inputs)) <==> x in Map(f, inputs)
  {
    SortedStringsSorted(Map(f, inputs));
    SortedStringsElements(Map(f, inputs));
    SameLength(SortedStrings(Map(f, inputs)), Map(f, inputs));
  }
}
