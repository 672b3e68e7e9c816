/** Precision of the scanner: on patterns without `.` and anchors whose branches can be told
    apart, it knows exactly which characters start a word, and rejects for a reason. */
module RegexPrecision {
  import opened Wrappers
  import opened CharSets
  import opened RegexScanner
  import opened RegexSyntax
  import opened RegexEval
  import opened RegexSemantics
  import opened RegexShape
  import opened RegexSoundness

  // ---------------------------------------------------------------------------
  // Plain patterns
  // ---------------------------------------------------------------------------

  /** No `.` and no anchor, and a class that matches something. */
  ghost predicate PlainAtom(a: Atom)
    requires OkAtom(a)
    decreases a, 0
  {
    match a
    case Literal(_) => true
    case Dot => false
    case Anchor(_) => false
    case Escape(_) => true
    case Class(negated, parts) => exists c: Code :: PartsHave(parts, c) == !negated
    case Sub(_, body) => PlainAlt(body)
  }

  /** The quantifier lets its atom match at all. */
  predicate Takes(q: Quant)
    requires OkQuant(q)
  {
    BoundsOf(q).max.Some? ==> BoundsOf(q).max.value > 0
  }

  /** At least one piece, and all of them plain. */
  ghost predicate PlainBranch(s: Branch)
    requires OkBranch(s)
    decreases s, 0
  {
    s.Cons? && PlainAtom(s.atom) && Takes(s.quant) && (s.rest.Cons? ==> PlainBranch(s.rest))
  }

  ghost predicate PlainAlt(a: Alt)
    requires OkAlt(a)
    decreases a, 0
  {
    PlainBranch(a.branch) && (a.Or? ==> PlainAlt(a.rest))
  }

  // ---------------------------------------------------------------------------
  // Plain patterns match something
  // ---------------------------------------------------------------------------

  lemma EscapeSome(e: EscapeForm) returns (c: Code)
    requires OkEscape(e)
    ensures EscapeHas(e, c)
  {
    match e
    case Perl(l) => c := if l == 0x64 || l == 0x77 then 0x30 else if l == 0x44 || l == 0x53 then 0x41 else 0x20;
    case _ => c := CodeOf(Escaped(e));
  }

  lemma {:induction false} AtomWord(a: Atom) returns (w: Word)
    requires OkAtom(a) && PlainAtom(a)
    ensures MatchAtom(a, w)
    decreases a, 0
  {
    hide EscapeHas, PartsHave;
    match a
    case Literal(c) => w := [c];
    case Escape(e) => var c := EscapeSome(e); w := [c];
    case Class(negated, parts) => var c: Code :| PartsHave(parts, c) == !negated; w := [c];
    case Sub(_, body) => w := AltWord(body);
  }

  function Copies(x: Word, n: nat): Word { if n == 0 then [] else x + Copies(x, n - 1) }

  lemma {:induction false} TimesCopies(a: Atom, x: Word, n: nat)
    requires OkAtom(a) && MatchAtom(a, x)
    ensures MatchTimes(a, n, Copies(x, n))
    decreases n
  {
    hide MatchAtom;
    if n > 0 {
      var w := Copies(x, n);
      TimesCopies(a, x, n - 1);
      assert w[..|x|] == x && w[|x|..] == Copies(x, n - 1);
    }
  }

  /** Some word of the piece goes on from any word of its atom. */
  lemma PieceFrom(a: Atom, q: Quant, u: Word, x: Word) returns (w: Word)
    requires OkAtom(a) && OkQuant(q) && Takes(q) && MatchAtom(a, u) && MatchAtom(a, x)
    ensures MatchPiece(a, q, w) && |u| <= |w| && w[..|u|] == u
  {
    hide MatchAtom, BoundsOf;
    var n := if BoundsOf(q).min == 0 then 1 else BoundsOf(q).min;
    var v := Copies(x, n - 1);
    TimesCopies(a, x, n - 1);
    w := u + v;
    assert w[..|u|] == u && w[|u|..] == v;
    assert MatchTimes(a, n, w);
    assert Within(BoundsOf(q), n);
  }

  lemma {:induction false} BranchWord(s: Branch) returns (w: Word)
    requires OkBranch(s) && (s.Cons? ==> PlainBranch(s))
    ensures MatchBranch(s, w)
    decreases s, 0
  {
    hide MatchAtom, MatchPiece;
    w := [];
    if s.Cons? {
      var x := AtomWord(s.atom);
      var u := PieceFrom(s.atom, s.quant, x, x);
      var v := BranchWord(s.rest);
      w := JoinWords(s, u, v);
    }
  }

  lemma JoinWords(s: Branch, u: Word, v: Word) returns (w: Word)
    requires OkBranch(s) && s.Cons? && MatchPiece(s.atom, s.quant, u) && MatchBranch(s.rest, v)
    ensures w == u + v && MatchBranch(s, w)
  {
    hide MatchPiece;
    w := u + v;
    assert w[..|u|] == u && w[|u|..] == v;
  }

  lemma {:induction false} AltWord(a: Alt) returns (w: Word)
    requires OkAlt(a) && PlainAlt(a)
    ensures MatchAlt(a, w)
    decreases a, 0
  {
    hide MatchBranch;
    w := BranchWord(a.branch);
  }

  // ---------------------------------------------------------------------------
  // Nullable means that the empty word matches
  // ---------------------------------------------------------------------------

  lemma {:induction false} NullableAtomMatches(a: Atom)
    requires OkAtom(a) && NullableAtom(a)
    ensures MatchAtom(a, [])
    decreases a, 0
  {
    if a.Sub? { NullableAltMatches(a.body); }
  }

  lemma {:induction false} NoCopies(n: nat)
    ensures Copies([], n) == []
  {
    if n > 0 { NoCopies(n - 1); }
  }

  lemma {:induction false} NullablePieceMatches(a: Atom, q: Quant)
    requires OkAtom(a) && OkQuant(q) && NullablePiece(a, q)
    ensures MatchPiece(a, q, [])
    decreases a, 1
  {
    hide MatchAtom, BoundsOf;
    var n := BoundsOf(q).min;
    if n > 0 {
      NullableAtomMatches(a);
      TimesCopies(a, [], n);
      NoCopies(n);
    }
    assert MatchTimes(a, n, []) && Within(BoundsOf(q), n);
  }

  lemma {:induction false} NullableBranchMatches(s: Branch)
    requires OkBranch(s) && NullableBranch(s)
    ensures MatchBranch(s, [])
    decreases s, 0
  {
    hide MatchPiece, NullablePiece;
    if s.Cons? {
      NullablePieceMatches(s.atom, s.quant);
      NullableBranchMatches(s.rest);
      var w := JoinWords(s, [], []);
      assert w == [];
    }
  }

  lemma {:induction false} NullableAltMatches(a: Alt)
    requires OkAlt(a) && NullableAlt(a)
    ensures MatchAlt(a, [])
    decreases a, 0
  {
    hide MatchBranch, NullableBranch;
    if NullableBranch(a.branch) { NullableBranchMatches(a.branch); } else { NullableAltMatches(a.rest); }
  }

  /** A piece is nullable for the scanner exactly when it matches the empty word. */
  lemma NullablePieceExact(a: Atom, q: Quant)
    requires OkAtom(a) && OkQuant(q)
    ensures NullablePiece(a, q) <==> MatchPiece(a, q, [])
  {
    hide NullablePiece, MatchPiece;
    if NullablePiece(a, q) { NullablePieceMatches(a, q); }
    if MatchPiece(a, q, []) { NullablePieceSound(a, q); }
  }

  /** ... and so is a group. */
  lemma NullableAltExact(a: Alt)
    requires OkAlt(a)
    ensures NullableAlt(a) <==> MatchAlt(a, [])
  {
    hide NullableAlt, MatchAlt;
    if NullableAlt(a) { NullableAltMatches(a); }
    if MatchAlt(a, []) { NullableAltSound(a); }
  }

  // ---------------------------------------------------------------------------
  // Characters that start a word
  // ---------------------------------------------------------------------------

  ghost predicate StartsAtom(a: Atom, c: Code)
    requires OkAtom(a)
  {
    exists w: Word :: w != [] && w[0] == c && MatchAtom(a, w)
  }

  ghost predicate StartsPiece(a: Atom, q: Quant, c: Code)
    requires OkAtom(a) && OkQuant(q)
  {
    exists w: Word :: w != [] && w[0] == c && MatchPiece(a, q, w)
  }

  ghost predicate StartsBranch(s: Branch, c: Code)
    requires OkBranch(s)
  {
    exists w: Word :: w != [] && w[0] == c && MatchBranch(s, w)
  }

  ghost predicate StartsAlt(a: Alt, c: Code)
    requires OkAlt(a)
  {
    exists w: Word :: w != [] && w[0] == c && MatchAlt(a, w)
  }

  /** No character starts words of two branches. */
  ghost predicate BranchesApart(a: Alt)
    requires OkAlt(a)
  {
    forall i: nat, j: nat, c: Code :: i < j < |Branches(a)| && OkBranch(Branches(a)[i]) && OkBranch(Branches(a)[j]) ==>
      !(StartsBranch(Branches(a)[i], c) && StartsBranch(Branches(a)[j], c))
  }

  /** In every group inside, the branches are apart. */
  ghost predicate ApartAtom(a: Atom)
    requires OkAtom(a)
    decreases a, 0
  {
    a.Sub? ==> BranchesApart(a.body) && ApartAlt(a.body)
  }

  ghost predicate ApartBranch(s: Branch)
    requires OkBranch(s)
    decreases s, 0
  {
    s.Cons? ==> ApartAtom(s.atom) && ApartBranch(s.rest)
  }

  ghost predicate ApartAlt(a: Alt)
    requires OkAlt(a)
    decreases a, 0
  {
    ApartBranch(a.branch) && (a.Or? ==> ApartAlt(a.rest))
  }

  // ---------------------------------------------------------------------------
  // First sets are exact
  // ---------------------------------------------------------------------------

  lemma OneCode(c: Code)
    ensures Proper([Range(c, c)]) && forall d: Code :: Has([Range(c, c)], d) <==> d == c
  {
    forall d: Code ensures Has([Range(c, c)], d) <==> d == c { HasOne(Range(c, c), d); }
  }

  lemma EscapeSetProper(e: EscapeForm)
    requires OkEscape(e)
    ensures Proper(EscapeSet(e))
  {
    hide Complement;
    if e.Perl? || e.Control? { TableProper(e.letter); }
  }

  lemma TableProper(letter: Code)
    ensures EscapeTable(letter).Some? ==> Proper(EscapeTable(letter).value)
  {
    hide Complement;
    ComplementAscending(DIGIT_SET);
    ComplementAscending(WORD_SET);
    ComplementAscending(SPACE_SET);
  }

  lemma {:induction false} PartsSetProper(xs: seq<ClassPart>)
    requires OkParts(xs)
    ensures Proper(PartsSet(xs))
    decreases |xs|
  {
    hide EscapeSet;
    if xs != [] {
      PartsSetProper(xs[1..]);
      if xs[0].Single? && xs[0].a.Escaped? { EscapeSetProper(xs[0].a.e); }
    }
  }

  lemma ClassSetProper(negated: bool, parts: seq<ClassPart>)
    requires OkParts(parts)
    ensures Proper(ClassSet(negated, parts))
  {
    hide PartsSet, Complement;
    PartsSetProper(parts);
    ComplementAscending(PartsSet(parts));
  }

  /** The first set of a plain atom is known, and each of its characters starts a word. */
  lemma {:induction false} FirstAtomPrecise(a: Atom)
    requires OkAtom(a) && PlainAtom(a) && ApartAtom(a)
    ensures FirstAtom(a).Some? && Proper(FirstAtom(a).value)
    ensures forall c: Code :: Has(FirstAtom(a).value, c) ==> StartsAtom(a, c)
    decreases a, 0
  {
    hide EscapeSet, EscapeHas, ClassSet, PartsHave, MatchAlt, Has;
    match a
    case Literal(c) =>
      OneCode(c);
      assert MatchAtom(a, [c]);
    case Escape(e) =>
      EscapeSetProper(e);
      forall c: Code | Has(FirstAtom(a).value, c) ensures StartsAtom(a, c) {
        EscapeSetExact(e, c);
        assert MatchAtom(a, [c]);
      }
    case Class(negated, parts) =>
      ClassSetProper(negated, parts);
      forall c: Code | Has(FirstAtom(a).value, c) ensures StartsAtom(a, c) {
        ClassSetExact(negated, parts, c);
        assert MatchAtom(a, [c]);
      }
    case Sub(_, body) =>
      FirstAltPrecise(body);
      forall c: Code | Has(FirstAtom(a).value, c) ensures StartsAtom(a, c) {
        var w: Word :| w != [] && w[0] == c && MatchAlt(body, w);
        assert MatchAtom(a, w);
      }
  }

  lemma StartsPieceOf(a: Atom, q: Quant, c: Code)
    requires OkAtom(a) && OkQuant(q) && Takes(q) && StartsAtom(a, c)
    ensures StartsPiece(a, q, c)
  {
    hide MatchAtom, MatchPiece;
    var u: Word :| u != [] && u[0] == c && MatchAtom(a, u);
    var w := PieceFrom(a, q, u, u);
    assert w[0] == w[..|u|][0];
  }

  lemma {:induction false} FirstBranchPrecise(s: Branch)
    requires OkBranch(s) && PlainBranch(s) && ApartBranch(s)
    ensures FirstBranch(s).Some? && FirstBranch(s).value.Some? && Proper(FirstBranch(s).value.value)
    ensures forall c: Code :: Has(FirstBranch(s).value.value, c) ==> StartsBranch(s, c)
    decreases s, 0
  {
    hide FirstAtom, MatchAtom, MatchPiece, NullablePiece, PlainAtom, ApartAtom, Has, StartsAtom, StartsPiece, StartsBranch;
    FirstAtomPrecise(s.atom);
    if s.rest.Cons? { FirstBranchPrecise(s.rest); }
    forall c: Code | Has(FirstBranch(s).value.value, c) ensures StartsBranch(s, c) {
      if Has(FirstAtom(s.atom).value, c) {
        LeadStarts(s, c);
      } else {
        HasConcat(FirstAtom(s.atom).value, FirstBranch(s.rest).value.value, c);
        NullablePieceMatches(s.atom, s.quant);
        ShowsThrough(s, c);
      }
    }
  }

  lemma LeadStarts(s: Branch, c: Code)
    requires OkBranch(s) && PlainBranch(s) && StartsAtom(s.atom, c)
    ensures StartsBranch(s, c)
  {
    hide MatchAtom, MatchPiece, PlainAtom;
    StartsPieceOf(s.atom, s.quant, c);
    var u: Word :| u != [] && u[0] == c && MatchPiece(s.atom, s.quant, u);
    var v := BranchWord(s.rest);
    var w := JoinWords(s, u, v);
    assert w[0] == c;
  }

  lemma ShowsThrough(s: Branch, c: Code)
    requires OkBranch(s) && s.Cons? && MatchPiece(s.atom, s.quant, []) && StartsBranch(s.rest, c)
    ensures StartsBranch(s, c)
  {
    hide MatchPiece, MatchBranch;
    var v: Word :| v != [] && v[0] == c && MatchBranch(s.rest, v);
    var w := JoinWords(s, [], v);
    assert w == v;
  }

  /** The branches of a plain alternation have known sets, exact branch by branch. */
  lemma {:induction false} FirstsPrecise(a: Alt)
    requires OkAlt(a) && PlainAlt(a) && ApartAlt(a)
    ensures |Firsts(a)| == |Branches(a)| && AllKnown(Firsts(a))
    ensures forall k: nat :: k < |Branches(a)| ==>
              && OkBranch(Branches(a)[k]) && PlainBranch(Branches(a)[k]) && ApartBranch(Branches(a)[k])
              && Proper(Firsts(a)[k].value)
              && forall c: Code :: Has(Firsts(a)[k].value, c) ==> StartsBranch(Branches(a)[k], c)
    decreases a, 0
  {
    hide FirstBranch, Has, StartsBranch, PlainBranch, ApartBranch, OkBranch;
    FirstBranchPrecise(a.branch);
    if a.Or? {
      FirstsPrecise(a.rest);
      assert forall k: nat :: 0 < k < |Branches(a)| ==>
               Branches(a)[k] == Branches(a.rest)[k - 1] && Firsts(a)[k] == Firsts(a.rest)[k - 1];
    }
  }

  lemma ApartIsDisjoint(a: Alt)
    requires OkAlt(a) && PlainAlt(a) && ApartAlt(a) && BranchesApart(a)
    requires |Firsts(a)| == |Branches(a)| && AllKnown(Firsts(a))
    requires forall k: nat :: k < |Branches(a)| ==>
               && OkBranch(Branches(a)[k]) && Proper(Firsts(a)[k].value)
               && forall c: Code :: Has(Firsts(a)[k].value, c) ==> StartsBranch(Branches(a)[k], c)
    ensures BranchesDisjoint(Firsts(a))
  {
    hide Firsts, Branches, StartsBranch, OkBranch, PlainAlt, ApartAlt, Has, Disjoint;
    var sets := Values(Firsts(a));
    forall i, j | 0 <= i < j < |sets| ensures Disjoint(sets[i], sets[j]) {
      forall c ensures !(Has(sets[i], c) && Has(sets[j], c)) {
        if Has(sets[i], c) && Has(sets[j], c) { ProperInRange(sets[i], c); }
      }
      DisjointExact(sets[i], sets[j]);
    }
  }

  lemma ProperInRange(s: CharSet, c: int)
    requires Proper(s) && Has(s, c)
    ensures 0 <= c <= MAX_CODE
  {
  }

  lemma {:induction false} ConcatOnly(sets: seq<CharSet>, c: int) returns (k: nat)
    requires Has(Concat(sets), c)
    ensures k < |sets| && Has(sets[k], c)
    decreases |sets|
  {
    HasConcat(sets[0], Concat(sets[1..]), c);
    if Has(sets[0], c) { k := 0; } else { k := ConcatOnly(sets[1..], c); k := k + 1; }
  }

  lemma {:induction false} ConcatProper(sets: seq<CharSet>)
    requires forall k :: 0 <= k < |sets| ==> Proper(sets[k])
    ensures Proper(Concat(sets))
    decreases |sets|
  {
    if sets != [] { ConcatProper(sets[1..]); }
  }

  lemma {:induction false} FirstAltPrecise(a: Alt)
    requires OkAlt(a) && PlainAlt(a) && BranchesApart(a) && ApartAlt(a)
    ensures FirstAlt(a).Some? && Proper(FirstAlt(a).value)
    ensures forall c: Code :: Has(FirstAlt(a).value, c) ==> StartsAlt(a, c)
    decreases a, 1
  {
    hide FirstBranch, Has, StartsBranch, StartsAlt, PlainBranch, ApartBranch, BranchesApart, BranchesDisjoint, Concat, OkBranch;
    if a.Last? {
      FirstBranchPrecise(a.branch);
      forall c: Code | Has(FirstAlt(a).value, c) ensures StartsAlt(a, c) {
        BranchStarts(a, 0, c);
      }
    } else {
      FirstsPrecise(a);
      ApartIsDisjoint(a);
      var sets := Values(Firsts(a));
      ConcatProper(sets);
      forall c: Code | Has(FirstAlt(a).value, c) ensures StartsAlt(a, c) {
        var k := ConcatOnly(sets, c);
        assert Has(Firsts(a)[k].value, c);
        BranchStarts(a, k, c);
      }
    }
  }

  lemma {:induction false} BranchStarts(a: Alt, k: nat, c: Code)
    requires OkAlt(a) && k < |Branches(a)| && OkBranch(Branches(a)[k]) && StartsBranch(Branches(a)[k], c)
    ensures StartsAlt(a, c)
    decreases a
  {
    hide MatchBranch, OkBranch;
    var w: Word :| w != [] && w[0] == c && MatchBranch(Branches(a)[k], w);
    BranchMatches(a, k, w);
  }

  lemma {:induction false} BranchMatches(a: Alt, k: nat, w: Word)
    requires OkAlt(a) && k < |Branches(a)| && OkBranch(Branches(a)[k]) && MatchBranch(Branches(a)[k], w)
    ensures MatchAlt(a, w)
    decreases a
  {
    hide MatchBranch, OkBranch;
    if k > 0 { BranchMatches(a.rest, k - 1, w); }
  }
}
