/** Soundness of the scanner against the words a pattern matches. */
module RegexSoundness {
  import opened Wrappers
  import opened CharSets
  import opened RegexScanner
  import opened RegexSyntax
  import opened RegexEval
  import opened RegexRefinement
  import opened RegexSemantics
  import opened RegexShape

  // ---------------------------------------------------------------------------
  // Acceptance, exactly
  // ---------------------------------------------------------------------------

  /** The scanner accepts a pattern exactly when every repeated group in it is fit for its
      bounds and no group has a required atom behind a run of eight nullable ones. */
  lemma AcceptsExactlySafe(a: Alt)
    requires OkAlt(a)
    ensures Scan(PrintAlt(a)) == Accepted <==> SafeAlt(a) && RunAlt(a, 0).Some?
  {
    hide Scan, EvalAlt, SafeAlt, RunAlt, AltEffect;
    ScannerRefinesEvaluation(a);
    EvalAltAttributes(NewGroup(0), a, 0);
  }

  // ---------------------------------------------------------------------------
  // Nullability and first sets
  // ---------------------------------------------------------------------------

  lemma {:induction false} NullableAtomSound(a: Atom)
    requires OkAtom(a) && MatchAtom(a, [])
    ensures NullableAtom(a)
    decreases a, 0
  {
    if a.Sub? { NullableAltSound(a.body); }
  }

  lemma {:induction false} TimesEmpty(a: Atom, n: nat)
    requires OkAtom(a) && n > 0 && MatchTimes(a, n, [])
    ensures MatchAtom(a, [])
  {
    hide MatchAtom;
    var w: Word := [];
    var k :| 0 <= k <= |w| && MatchAtom(a, w[..k]) && MatchTimes(a, n - 1, w[k..]);
    assert w[..k] == [];
  }

  lemma {:induction false} NullablePieceSound(a: Atom, q: Quant)
    requires OkAtom(a) && OkQuant(q) && MatchPiece(a, q, [])
    ensures NullablePiece(a, q)
    decreases a, 1
  {
    hide MatchAtom, MatchTimes, BoundsOf;
    var n: nat :| Within(BoundsOf(q), n) && MatchTimes(a, n, []);
    if n > 0 {
      TimesEmpty(a, n);
      NullableAtomSound(a);
    }
  }

  lemma {:induction false} NullableBranchSound(s: Branch)
    requires OkBranch(s) && MatchBranch(s, [])
    ensures NullableBranch(s)
    decreases s, 0
  {
    hide MatchPiece;
    if s.Cons? {
      var w: Word := [];
      var k :| 0 <= k <= |w| && MatchPiece(s.atom, s.quant, w[..k]) && MatchBranch(s.rest, w[k..]);
      assert w[..k] == [] && w[k..] == [];
      NullablePieceSound(s.atom, s.quant);
      NullableBranchSound(s.rest);
    }
  }

  /** A group that is not nullable for the scanner never matches the empty word. */
  lemma {:induction false} NullableAltSound(a: Alt)
    requires OkAlt(a) && MatchAlt(a, [])
    ensures NullableAlt(a)
    decreases a, 0
  {
    hide MatchBranch, NullableBranch;
    if MatchBranch(a.branch, []) {
      NullableBranchSound(a.branch);
    } else {
      NullableAltSound(a.rest);
    }
  }

  /** `c` may start a word described by the first set; None allows anything. */
  predicate Allows(first: Option<CharSet>, c: Code) {
    first.Some? ==> Has(first.value, c)
  }

  lemma UnionAllows(a: Option<CharSet>, b: Option<CharSet>, c: Code)
    requires Allows(a, c) || Allows(b, c)
    ensures Allows(Union(a, b), c)
  {
    if a.Some? && b.Some? { HasConcat(a.value, b.value, c); }
  }

  lemma {:induction false} FirstAtomSound(a: Atom, w: Word)
    requires OkAtom(a) && w != [] && MatchAtom(a, w)
    ensures Allows(FirstAtom(a), w[0])
    decreases a, 0
  {
    hide EscapeSet, EscapeHas, ClassSet, PartsHave, OkEscape, OkParts;
    match a
    case Literal(c) => HasOne(Range(c, c), c);
    case Dot =>
    case Anchor(_) =>
    case Escape(e) => EscapeSetExact(e, w[0]);
    case Class(negated, parts) => ClassSetExact(negated, parts, w[0]);
    case Sub(_, body) => FirstAltSound(body, w);
  }

  lemma {:induction false} FirstTimesSound(a: Atom, n: nat, w: Word)
    requires OkAtom(a) && w != [] && MatchTimes(a, n, w)
    ensures Allows(FirstAtom(a), w[0])
    decreases a, 1, n
  {
    hide MatchAtom, FirstAtom;
    assert n > 0;
    var k :| 0 <= k <= |w| && MatchAtom(a, w[..k]) && MatchTimes(a, n - 1, w[k..]);
    if k == 0 {
      assert w[k..] == w;
      FirstTimesSound(a, n - 1, w);
    } else {
      FirstAtomSound(a, w[..k]);
    }
  }

  lemma {:induction false} FirstPieceSound(a: Atom, q: Quant, w: Word)
    requires OkAtom(a) && OkQuant(q) && w != [] && MatchPiece(a, q, w)
    ensures Allows(FirstAtom(a), w[0])
    decreases a, 2
  {
    hide MatchTimes, FirstAtom, BoundsOf;
    var n: nat :| Within(BoundsOf(q), n) && MatchTimes(a, n, w);
    FirstTimesSound(a, n, w);
  }

  lemma {:induction false} FirstBranchSound(s: Branch, w: Word)
    requires OkBranch(s) && w != [] && MatchBranch(s, w)
    ensures FirstBranch(s).Some? && Allows(FirstBranch(s).value, w[0])
    decreases s, 0
  {
    hide MatchPiece, FirstAtom, NullablePiece, Allows, Union;
    var first, rest := FirstAtom(s.atom), FirstBranch(s.rest);
    var k :| 0 <= k <= |w| && MatchPiece(s.atom, s.quant, w[..k]) && MatchBranch(s.rest, w[k..]);
    if k == 0 {
      assert w[..k] == [] && w[k..] == w;
      NullablePieceSound(s.atom, s.quant);
      FirstBranchSound(s.rest, w);
    } else {
      FirstPieceSound(s.atom, s.quant, w[..k]);
    }
    if rest.Some? { UnionAllows(first, rest.value, w[0]); }
  }

  lemma {:induction false} ConcatHas(sets: seq<CharSet>, k: nat, c: int)
    requires k < |sets| && Has(sets[k], c)
    ensures Has(Concat(sets), c)
    decreases |sets|
  {
    HasConcat(sets[0], Concat(sets[1..]), c);
    if k > 0 { ConcatHas(sets[1..], k - 1, c); }
  }

  /** The branches of an alternative, in order. */
  function Branches(a: Alt): (r: seq<Branch>)
    ensures |r| > 0
  {
    [a.branch] + if a.Or? then Branches(a.rest) else []
  }

  lemma {:induction false} BranchesAttributes(a: Alt)
    requires OkAlt(a)
    ensures |Firsts(a)| == |Branches(a)|
    ensures forall k :: 0 <= k < |Branches(a)| ==>
              OkBranch(Branches(a)[k]) && Firsts(a)[k] == Flat(FirstBranch(Branches(a)[k]))
    decreases a
  {
    hide FirstBranch;
    if a.Or? { BranchesAttributes(a.rest); }
  }

  lemma {:induction false} MatchAltBranch(a: Alt, w: Word) returns (k: nat)
    requires OkAlt(a) && MatchAlt(a, w)
    ensures k < |Branches(a)| && OkBranch(Branches(a)[k]) && MatchBranch(Branches(a)[k], w)
    decreases a
  {
    hide MatchBranch;
    if MatchBranch(a.branch, w) {
      k := 0;
    } else {
      k := MatchAltBranch(a.rest, w);
      k := k + 1;
    }
  }

  /** The first set of a group allows the first character of every word it matches. */
  lemma {:induction false} FirstAltSound(a: Alt, w: Word)
    requires OkAlt(a) && w != [] && MatchAlt(a, w)
    ensures Allows(FirstAlt(a), w[0])
    decreases a, 1
  {
    hide FirstBranch, MatchBranch, PairwiseDisjoint;
    AnyBranchFirst(a, w);
    if a.Or? && FirstAlt(a).Some? {
      BranchesAttributes(a);
      var k :| 0 <= k < |Firsts(a)| && Allows(Firsts(a)[k], w[0]);
      assert Firsts(a)[k].Some?;
      ConcatHas(Values(Firsts(a)), k, w[0]);
    }
  }

  lemma {:induction false} AnyBranchFirst(a: Alt, w: Word)
    requires OkAlt(a) && w != [] && MatchAlt(a, w)
    ensures exists k :: 0 <= k < |Firsts(a)| && Allows(Firsts(a)[k], w[0])
    decreases a, 0
  {
    hide FirstBranch, MatchBranch, Allows;
    if MatchBranch(a.branch, w) {
      FirstBranchSound(a.branch, w);
      assert Allows(Firsts(a)[0], w[0]);
    } else {
      AnyBranchFirst(a.rest, w);
      var k :| 0 <= k < |Firsts(a.rest)| && Allows(Firsts(a.rest)[k], w[0]);
      assert Firsts(a)[k + 1] == Firsts(a.rest)[k];
    }
  }

  /** What the scanner itself writes into a group record is sound: when its stack comes to
      the closing parenthesis of a group with body `a`, the record on top allows every word
      the body matches. */
  lemma GroupRecordSound(p: Pattern, below: seq<Group>, start: nat, at: nat, a: Alt, w: Word)
    requires OkAlt(a) && TextAt(p, at, PrintAlt(a)) && At(p, at + |PrintAlt(a)|) == CLOSE
    requires MatchAlt(a, w)
    ensures var r := EvalAlt(NewGroup(start), a, at);
            && ScanFrom(p, at, below + [NewGroup(start)]) == Resume(p, below, r, at + |PrintAlt(a)|)
            && (r.Success? ==>
                  && (w == [] ==> CloseGroup(r.value).nullable)
                  && (w != [] ==> Allows(CloseGroup(r.value).first, w[0])))
  {
    hide TextAt, PrintAlt, ScanFrom, EvalAlt, MatchAlt, CloseGroup, Allows, SafeAlt, RunAlt, AltEffect,
         FirstAlt, NullableAlt;
    DelimiterIsClean(p, at + |PrintAlt(a)|);
    ScanAlt(p, at, below, NewGroup(start), a);
    EvalAltAttributes(NewGroup(start), a, at);
    var r := EvalAlt(NewGroup(start), a, at);
    if r.Success? {
      ClosedIsSummary(start, a, r.value);
      if w == [] { NullableAltSound(a); } else { FirstAltSound(a, w); }
    }
  }

  // ---------------------------------------------------------------------------
  // What acceptance guarantees about repeated groups
  // ---------------------------------------------------------------------------

  /** The quantified atom occurs somewhere in the pattern. */
  predicate InBranch(atom: Atom, quant: Quant, s: Branch)
    decreases s, 0
  {
    s.Cons? && ((s.atom == atom && s.quant == quant)
                || (s.atom.Sub? && InAlt(atom, quant, s.atom.body))
                || InBranch(atom, quant, s.rest))
  }

  predicate InAlt(atom: Atom, quant: Quant, a: Alt)
    decreases a, 0
  {
    InBranch(atom, quant, a.branch) || (a.Or? && InAlt(atom, quant, a.rest))
  }

  /** The quantifier lets its atom match twice in a row. */
  predicate Repeats(quant: Quant)
    requires OkQuant(quant)
  {
    BoundsOf(quant).max.None? || BoundsOf(quant).max.value >= 2
  }

  lemma {:induction false} SafeEverywhere(atom: Atom, quant: Quant, a: Alt)
    requires OkAlt(a) && InAlt(atom, quant, a) && SafeAlt(a)
    ensures OkAtom(atom) && OkQuant(quant) && SafeAtom(atom, quant)
    decreases a, 0
  {
    hide InBranch, SafeBranch, SafeAtom, OkBranch, OkAtom;
    if InBranch(atom, quant, a.branch) {
      SafeInBranch(atom, quant, a.branch);
    } else {
      SafeEverywhere(atom, quant, a.rest);
    }
  }

  lemma {:induction false} SafeInBranch(atom: Atom, quant: Quant, s: Branch)
    requires OkBranch(s) && InBranch(atom, quant, s) && SafeBranch(s)
    ensures OkAtom(atom) && OkQuant(quant) && SafeAtom(atom, quant)
    decreases s, 0
  {
    hide RepeatOk, RunAlt, OkKind;
    assert OkAtom(s.atom) && SafeAtom(s.atom, s.quant);
    if s.atom == atom && s.quant == quant {
    } else if s.atom.Sub? && InAlt(atom, quant, s.atom.body) {
      SafeEverywhere(atom, quant, s.atom.body);
    } else {
      SafeInBranch(atom, quant, s.rest);
    }
  }

  lemma AcceptedGroup(a: Alt, kind: GroupKind, body: Alt, quant: Quant)
    requires OkAlt(a) && Scan(PrintAlt(a)) == Accepted && InAlt(Sub(kind, body), quant, a)
    ensures OkAlt(body) && OkQuant(quant) && RepeatOk(body, BoundsOf(quant))
  {
    hide Scan, InAlt, SafeAlt, RunAlt, RepeatOk;
    AcceptsExactlySafe(a);
    SafeEverywhere(Sub(kind, body), quant, a);
  }

  /** Unique branch choice: in an accepted pattern, whenever a group with its own
      alternation may repeat, at any position of any input at most one of its branches
      matches a non-empty stretch. */
  lemma {:induction false} UniqueBranchChoice(a: Alt, kind: GroupKind, body: Alt, quant: Quant,
                           input: Word, pos: nat, i: nat, e: nat, j: nat, f: nat)
    requires OkAlt(a) && Scan(PrintAlt(a)) == Accepted
    requires InAlt(Sub(kind, body), quant, a) && body.Or? && OkQuant(quant) && Repeats(quant)
    requires i < |Branches(body)| && j < |Branches(body)|
    requires pos < e <= |input| && pos < f <= |input|
    requires OkBranch(Branches(body)[i]) && MatchBranch(Branches(body)[i], input[pos..e])
    requires OkBranch(Branches(body)[j]) && MatchBranch(Branches(body)[j], input[pos..f])
    ensures i == j
  {
    hide Scan, InAlt, MatchBranch, FirstBranch, UnboundedAlt, ClashesAlt, VariableAlt, NullableAlt, OkBranch, Branches, BoundsOf;
    AcceptedGroup(a, kind, body, quant);
    BranchesAttributes(body);
    FirstBranchSound(Branches(body)[i], input[pos..e]);
    FirstBranchSound(Branches(body)[j], input[pos..f]);
    DisjointFirsts(Firsts(body), i, j, input[pos]);
  }

  lemma DisjointFirsts(firsts: seq<Option<CharSet>>, i: nat, j: nat, c: Code)
    requires BranchesDisjoint(firsts) && i < |firsts| && j < |firsts|
    requires Allows(firsts[i], c) && Allows(firsts[j], c)
    ensures i == j
  {
    var sets := Values(firsts);
    assert forall m, n :: 0 <= m < n < |sets| ==> !(Has(sets[m], c) && Has(sets[n], c));
  }

  /** No unbounded repeat inside a repeated group: accepted patterns nest at most one. */
  lemma {:induction false} NoNestedUnbounded(a: Alt, kind: GroupKind, body: Alt, quant: Quant,
                                             inner: Atom, innerQuant: Quant)
    requires OkAlt(a) && Scan(PrintAlt(a)) == Accepted
    requires InAlt(Sub(kind, body), quant, a) && OkQuant(quant) && Repeats(quant)
    requires InAlt(inner, innerQuant, body)
    ensures OkQuant(innerQuant) && BoundsOf(innerQuant).max.Some?
  {
    hide Scan, InAlt, UnboundedAlt, ClashesAlt, VariableAlt, NullableAlt, AmbiguousAlt, BoundsOf;
    AcceptedGroup(a, kind, body, quant);
    UnboundedInside(inner, innerQuant, body);
  }

  lemma {:induction false} UnboundedInside(atom: Atom, quant: Quant, a: Alt)
    requires OkAlt(a) && InAlt(atom, quant, a)
    ensures OkQuant(quant) && (BoundsOf(quant).max.None? ==> UnboundedAlt(a))
    decreases a, 0
  {
    hide InBranch, Unbounded, OkBranch;
    if InBranch(atom, quant, a.branch) {
      UnboundedInBranch(atom, quant, a.branch);
    } else {
      UnboundedInside(atom, quant, a.rest);
    }
  }

  lemma {:induction false} UnboundedInBranch(atom: Atom, quant: Quant, s: Branch)
    requires OkBranch(s) && InBranch(atom, quant, s)
    ensures OkQuant(quant) && (BoundsOf(quant).max.None? ==> Unbounded(s))
    decreases s, 0
  {
    hide BoundsOf, OkKind;
    assert OkAtom(s.atom);
    if s.atom == atom && s.quant == quant {
    } else if s.atom.Sub? && InAlt(atom, quant, s.atom.body) {
      UnboundedInside(atom, quant, s.atom.body);
    } else {
      UnboundedInBranch(atom, quant, s.rest);
    }
  }

  /** In a repeated group of an accepted pattern, whether an optional leading piece of a
      branch is taken is decided by the next character: no word of the piece starts like a
      word of what follows it, and what follows is not empty. */
  lemma {:induction false} OptionalPrefixDecided(a: Alt, kind: GroupKind, body: Alt, quant: Quant, k: nat,
                                                 taken: Word, skipped: Word)
    requires OkAlt(a) && Scan(PrintAlt(a)) == Accepted
    requires InAlt(Sub(kind, body), quant, a) && OkQuant(quant) && Repeats(quant)
    requires k < |Branches(body)|
    requires var s := Branches(body)[k];
             && OkBranch(s) && s.Cons? && s.rest.Cons? && NullablePiece(s.atom, s.quant)
             && taken != [] && MatchPiece(s.atom, s.quant, taken)
             && MatchBranch(s.rest, skipped)
    ensures skipped != [] && taken[0] != skipped[0]
  {
    hide Scan, InAlt, UnboundedAlt, VariableAlt, NullableAlt, AmbiguousAlt, BoundsOf, OkBranch, Clashes,
         MatchBranch, MatchPiece, NullablePiece, FirstBranch;
    AcceptedGroup(a, kind, body, quant);
    var s := Branches(body)[k];
    NoClashInBranch(body, k);
    LeadingPieces(s, taken, skipped);
  }

  lemma {:induction false} NoClashInBranch(a: Alt, k: nat)
    requires OkAlt(a) && !ClashesAlt(a) && k < |Branches(a)|
    ensures OkBranch(Branches(a)[k]) && !Clashes(None, true, Branches(a)[k])
    decreases a
  {
    hide Clashes, OkBranch;
    if k > 0 { NoClashInBranch(a.rest, k - 1); }
  }

  lemma {:induction false} LeadingPieces(s: Branch, taken: Word, skipped: Word)
    requires OkBranch(s) && s.Cons? && s.rest.Cons? && NullablePiece(s.atom, s.quant)
    requires !Clashes(None, true, s)
    requires taken != [] && MatchPiece(s.atom, s.quant, taken)
    requires MatchBranch(s.rest, skipped)
    ensures skipped != [] && taken[0] != skipped[0]
  {
    hide MatchPiece, FirstAtom, NullablePiece, ClashesAtom, BoundsOf, Disjoint;
    var t := s.rest;
    var first, second := FirstAtom(s.atom), FirstAtom(t.atom);
    assert !Clashes(Some(first), true, t);
    assert !NullablePiece(t.atom, t.quant) && first.Some? && second.Some? && Disjoint(first.value, second.value);
    FirstPieceSound(s.atom, s.quant, taken);
    if skipped == [] {
      NullableBranchSound(t);
      assert false;
    }
    FirstBranchSound(t, skipped);
    assert FirstBranch(t) == Some(second);
    NotBoth(first.value, second.value, taken[0], skipped[0]);
  }

  lemma NotBoth(a: CharSet, b: CharSet, c: int, d: int)
    requires Disjoint(a, b) && Has(a, c) && Has(b, d)
    ensures c != d
  {
  }
}
