/** Sets of UTF-16 code units as lists of inclusive ranges
    (the character-set algebra of src/tools/executors.ts). */
module CharSets {

  const MAX_CODE := 0xffff

  /** An inclusive range of code units. */
  datatype Range = Range(lo: int, hi: int)

  type CharSet = seq<Range>

  /** Membership: what a list of ranges denotes. */
  predicate Has(s: CharSet, c: int) {
    exists r :: r in s && r.lo <= c <= r.hi
  }

  /** Every range is non-empty and stays within the code units. */
  predicate Proper(s: CharSet) {
    forall r :: r in s ==> 0 <= r.lo <= r.hi <= MAX_CODE
  }

  /** Ranges in increasing order that neither overlap nor touch. */
  predicate Ascending(s: CharSet) {
    forall i, j :: 0 <= i < j < |s| ==> s[i].hi + 1 < s[j].lo
  }

  predicate SortedByLo(s: CharSet) {
    forall i, j :: 0 <= i < j < |s| ==> s[i].lo <= s[j].lo
  }

  function Max(a: int, b: int): int { if a < b then b else a }

  // ---------------------------------------------------------------------------
  // Sorting by lower bound (the stable library sort the source calls)
  // ---------------------------------------------------------------------------

  function InsertByLo(r: Range, s: CharSet): (t: CharSet)
    ensures |t| == |s| + 1
  {
    if s == [] || r.lo < s[0].lo then [r] + s else [s[0]] + InsertByLo(r, s[1..])
  }

  function SortByLo(s: CharSet): (t: CharSet)
    ensures |t| == |s|
  {
    if s == [] then [] else InsertByLo(s[|s| - 1], SortByLo(s[..|s| - 1]))
  }

  lemma {:induction false} InsertByLoSorted(r: Range, s: CharSet)
    requires SortedByLo(s)
    ensures SortedByLo(InsertByLo(r, s))
    ensures forall x :: x in InsertByLo(r, s) <==> x == r || x in s
    decreases |s|
  {
    if s == [] || r.lo < s[0].lo {
    } else {
      var tail := InsertByLo(r, s[1..]);
      InsertByLoSorted(r, s[1..]);
      assert s == [s[0]] + s[1..];
      forall x | x in tail ensures s[0].lo <= x.lo {
        if x in s[1..] { var k :| 0 <= k < |s[1..]| && s[1..][k] == x; assert s[1 + k] == x; }
      }
      assert forall j :: 0 <= j < |tail| ==> tail[j] in tail;
    }
  }

  lemma {:induction false} SortByLoSorted(s: CharSet)
    ensures SortedByLo(SortByLo(s))
    ensures forall x :: x in SortByLo(s) <==> x in s
    decreases |s|
  {
    if s != [] {
      var n := |s| - 1;
      SortByLoSorted(s[..n]);
      InsertByLoSorted(s[n], SortByLo(s[..n]));
      assert s == s[..n] + [s[n]];
    }
  }

  // ---------------------------------------------------------------------------
  // complementCharSet
  // ---------------------------------------------------------------------------

  /** The gaps left by sorted ranges from `next` on. */
  function Gaps(s: CharSet, next: int): CharSet
    decreases |s|
  {
    if s == [] then
      if next <= MAX_CODE then [Range(next, MAX_CODE)] else []
    else
      (if s[0].lo > next then [Range(next, s[0].lo - 1)] else [])
      + Gaps(s[1..], Max(next, s[0].hi + 1))
  }

  function Complement(s: CharSet): CharSet {
    Gaps(SortByLo(s), 0)
  }

  lemma GapsStep(out: CharSet, s: CharSet, next: int)
    requires s != []
    ensures var out' := if s[0].lo > next then out + [Range(next, s[0].lo - 1)] else out;
            out + Gaps(s, next) == out' + Gaps(s[1..], Max(next, s[0].hi + 1))
  {
  }

  method ComplementCharSet(ranges: CharSet) returns (out: CharSet)
    ensures out == Complement(ranges)
  {
    var sorted := SortByLo(ranges);
    out := [];
    var next := 0;
    for k := 0 to |sorted|
      invariant out + Gaps(sorted[k..], next) == Gaps(sorted, 0)
    {
      assert sorted[k..][1..] == sorted[k + 1..];
      GapsStep(out, sorted[k..], next);
      var lo, hi := sorted[k].lo, sorted[k].hi;
      if lo > next {
        out := out + [Range(next, lo - 1)];
      }
      next := Max(next, hi + 1);
    }
    assert sorted[|sorted|..] == [];
    if next <= MAX_CODE {
      out := out + [Range(next, MAX_CODE)];
    }
  }

  lemma {:induction false} GapsHas(s: CharSet, next: int, c: int)
    requires SortedByLo(s) && c <= MAX_CODE
    ensures Has(Gaps(s, next), c) <==> next <= c && !Has(s, c)
    decreases |s|
  {
    if s == [] {
      assert next <= MAX_CODE ==> Range(next, MAX_CODE) in Gaps(s, next);
    } else {
      var head := if s[0].lo > next then [Range(next, s[0].lo - 1)] else [];
      var next' := Max(next, s[0].hi + 1);
      var tail := Gaps(s[1..], next');
      GapsHas(s[1..], next', c);
      HasConcat(head, tail, c);
      assert s == [s[0]] + s[1..];
      HasConcat([s[0]], s[1..], c);
      HasOne(s[0], c);
      if s[0].lo > next { HasOne(Range(next, s[0].lo - 1), c); }
    }
  }

  lemma {:induction false} GapsAscending(s: CharSet, next: int)
    requires SortedByLo(s) && Proper(s) && 0 <= next
    ensures Proper(Gaps(s, next)) && Ascending(Gaps(s, next))
    ensures forall r :: r in Gaps(s, next) ==> next <= r.lo
    decreases |s|
  {
    if s != [] {
      var next' := Max(next, s[0].hi + 1);
      GapsAscending(s[1..], next');
    }
  }

  /** The complement contains exactly the absent code units, for any ranges at all. */
  lemma {:induction false} ComplementExact(s: CharSet, c: int)
    requires 0 <= c <= MAX_CODE
    ensures Has(Complement(s), c) <==> !Has(s, c)
  {
    SortByLoSorted(s);
    GapsHas(SortByLo(s), 0, c);
  }

  /** ... and lists them as non-touching ranges in increasing order. */
  lemma {:induction false} ComplementAscending(s: CharSet)
    requires Proper(s)
    ensures Proper(Complement(s)) && Ascending(Complement(s))
  {
    SortByLoSorted(s);
    GapsAscending(SortByLo(s), 0);
  }

  lemma HasConcat(a: CharSet, b: CharSet, c: int)
    ensures Has(a + b, c) <==> Has(a, c) || Has(b, c)
  {
  }

  lemma HasOne(r: Range, c: int)
    ensures Has([r], c) <==> r.lo <= c <= r.hi
  {
    assert r in [r];
  }

  // ---------------------------------------------------------------------------
  // charSetsDisjoint, branchFirstSetsDisjoint, unionCharSets
  // ---------------------------------------------------------------------------

  predicate Disjoint(a: CharSet, b: CharSet) {
    !exists r, q :: r in a && q in b && r.lo <= q.hi && q.lo <= r.hi
  }

  predicate PairwiseDisjoint(sets: seq<CharSet>) {
    forall i, j :: 0 <= i < j < |sets| ==> Disjoint(sets[i], sets[j])
  }

  /** The doubly nested scan of the source. */
  method BranchFirstSetsDisjoint(sets: seq<CharSet>) returns (ok: bool)
    ensures ok <==> PairwiseDisjoint(sets)
  {
    for i := 0 to |sets|
      invariant forall k, j :: 0 <= k < i && k < j < |sets| ==> Disjoint(sets[k], sets[j])
    {
      for j := i + 1 to |sets|
        invariant forall m :: i < m < j ==> Disjoint(sets[i], sets[m])
      {
        if !Disjoint(sets[i], sets[j]) { return false; }
      }
    }
    return true;
  }

  /** The overlap test decides emptiness of the intersection on proper sets. */
  lemma DisjointExact(a: CharSet, b: CharSet)
    requires Proper(a) && Proper(b)
    ensures Disjoint(a, b) <==> forall c :: !(Has(a, c) && Has(b, c))
  {
    if Disjoint(a, b) {
    } else {
      var r, q :| r in a && q in b && r.lo <= q.hi && q.lo <= r.hi;
      var c := Max(r.lo, q.lo);
      assert Has(a, c) && Has(b, c);
    }
  }

  /** Without properness it does not: an inverted range denotes nothing yet can overlap. */
  lemma DisjointNeedsProper()
    ensures exists a, b ::
      !Disjoint(a, b) && (forall c :: !(Has(a, c) && Has(b, c)))
  {
    var a, b := [Range(5, 3)], [Range(3, 5)];
    assert Range(5, 3) in a && Range(3, 5) in b;
    assert !Disjoint(a, b);
    assert forall c :: !(Has(a, c) && Has(b, c));
  }

  // ---------------------------------------------------------------------------
  // pointsToRanges
  // ---------------------------------------------------------------------------

  /** One step of the run builder: extend the last run or open a new one. */
  function AddPoint(out: CharSet, code: int): CharSet {
    if out != [] && out[|out| - 1].hi + 1 == code
    then out[..|out| - 1] + [Range(out[|out| - 1].lo, code)]
    else out + [Range(code, code)]
  }

  /** `sorted` is the increasing enumeration of the point set. The runs hold exactly
      those points and no two runs could be merged. */
  method PointsToRanges(sorted: seq<int>) returns (out: CharSet)
    requires forall i, j :: 0 <= i < j < |sorted| ==> sorted[i] < sorted[j]
    ensures forall c :: Has(out, c) <==> c in sorted
    ensures Ascending(out)
    ensures forall r :: r in out ==> r.lo <= r.hi
  {
    out := [];
    for k := 0 to |sorted|
      invariant forall c :: Has(out, c) <==> c in sorted[..k]
      invariant Ascending(out)
      invariant forall r :: r in out ==> r.lo <= r.hi
      invariant out != [] ==> 0 < k && out[|out| - 1].hi == sorted[k - 1]
    {
      assert sorted[..k + 1] == sorted[..k] + [sorted[k]];
      if out != [] { assert out[|out| - 1] in out; }
      AddPointHas(out, sorted[k]);
      out := AddPoint(out, sorted[k]);
    }
    assert sorted[..|sorted|] == sorted;
  }

  lemma AddPointHas(out: CharSet, code: int)
    requires out != [] ==> out[|out| - 1].lo <= out[|out| - 1].hi
    ensures forall c :: Has(AddPoint(out, code), c) <==> Has(out, c) || c == code
  {
    forall c
      ensures Has(AddPoint(out, code), c) <==> Has(out, c) || c == code
    {
      if out != [] && out[|out| - 1].hi + 1 == code {
        var n := |out| - 1;
        assert out == out[..n] + [out[n]];
        HasConcat(out[..n], [out[n]], c);
        HasConcat(out[..n], [Range(out[n].lo, code)], c);
        HasOne(out[n], c);
        HasOne(Range(out[n].lo, code), c);
      } else {
        HasConcat(out, [Range(code, code)], c);
        HasOne(Range(code, code), c);
      }
    }
  }
}
