/** Acceptance by the scanner in terms of the words that pieces, branches and groups match. */
module RegexAcceptance {
  import opened Wrappers
  import opened CharSets
  import opened RegexScanner
  import opened RegexSyntax
  import opened RegexEval
  import opened RegexSemantics
  import opened RegexShape
  import opened RegexSoundness
  import opened RegexPrecision

  // ---------------------------------------------------------------------------
  // Places where the split between two pieces is ambiguous
  // ---------------------------------------------------------------------------

  /** The first piece may be left out, and so may the second, or some character starts words of
      both. */
  ghost predicate Blurred(s: Branch)
    requires OkBranch(s)
  {
    && s.Cons? && OkBranch(s.rest) && s.rest.Cons? && MatchPiece(s.atom, s.quant, [])
    && (MatchPiece(s.rest.atom, s.rest.quant, [])
        || exists c: Code :: StartsPiece(s.atom, s.quant, c) && StartsPiece(s.rest.atom, s.rest.quant, c))
  }

  /** ... at the start of a branch here or in a group inside. */
  ghost predicate BlurredWithin(s: Branch)
    requires OkBranch(s)
    decreases s, 0
  {
    s.Cons? && OkAtom(s.atom) && ((s.atom.Sub? && BlurredAlt(s.atom.body)) || BlurredWithin(s.rest))
  }

  ghost predicate BlurredAlt(a: Alt)
    requires OkAlt(a)
    decreases a, 0
  {
    Blurred(a.branch) || BlurredWithin(a.branch) || (a.Or? && BlurredAlt(a.rest))
  }

  // ---------------------------------------------------------------------------
  // Long runs of pieces that may be left out
  // ---------------------------------------------------------------------------

  datatype Piece = Piece(atom: Atom, quant: Quant)

  predicate OkPieces(ps: seq<Piece>) {
    forall k :: 0 <= k < |ps| ==> OkAtom(ps[k].atom) && OkQuant(ps[k].quant)
  }

  function PiecesOf(s: Branch): seq<Piece> {
    if s.Nil? then [] else [Piece(s.atom, s.quant)] + PiecesOf(s.rest)
  }

  /** The pieces of a body in order, across its bars. */
  function Pieces(a: Alt): seq<Piece> {
    PiecesOf(a.branch) + if a.Or? then Pieces(a.rest) else []
  }

  ghost predicate MayBeEmpty(p: Piece)
    requires OkAtom(p.atom) && OkQuant(p.quant)
  {
    MatchPiece(p.atom, p.quant, [])
  }

  /** Eight pieces in a row match the empty word and the next one does not. */
  ghost predicate LongRun(a: Alt)
    requires OkAlt(a)
  {
    exists k: nat :: RunEndsAt(Pieces(a), k)
  }

  ghost predicate RunEndsAt(ps: seq<Piece>, k: nat) {
    && OkPieces(ps) && 8 <= k < |ps| && !MayBeEmpty(ps[k])
    && forall j :: k - 8 <= j < k ==> MayBeEmpty(ps[j])
  }

  // ---------------------------------------------------------------------------
  // The condition
  // ---------------------------------------------------------------------------

  /** No unbounded repeat, or no bounded repeat of varying length, anywhere inside. */
  ghost predicate NoneUnbounded(a: Alt) {
    forall atom, quant :: InAlt(atom, quant, a) && OkQuant(quant) ==> BoundsOf(quant).max.Some?
  }

  ghost predicate NoneVariable(a: Alt) {
    forall atom, quant :: InAlt(atom, quant, a) && OkQuant(quant) ==> !VariableBounds(BoundsOf(quant))
  }

  /** The body may be repeated within the bounds. Twice or more: no unbounded repeat inside,
      and no ambiguous split. Without a bound or eight times or more: no repeat of varying
      length inside either, nor, unless the repeat may stop before the eighth time and has no
      upper bound, a body that matches the empty word. */
  ghost predicate Fit(a: Alt, b: Bounds)
    requires OkAlt(a)
  {
    b.max.None? || b.max.value >= 2 ==>
      && NoneUnbounded(a) && !BlurredAlt(a)
      && (b.max.None? || b.max.value >= 8 ==>
            NoneVariable(a) && ((b.max.None? && b.min < 8) || !MatchAlt(a, [])))
  }

  /** Every group of the pattern is fit for its quantifier, and no body has a long run. */
  ghost predicate Acceptable(a: Alt)
    requires OkAlt(a)
  {
    && !LongRun(a)
    && forall kind, body, quant :: InAlt(Sub(kind, body), quant, a) && OkAlt(body) && OkQuant(quant) ==>
         Fit(body, BoundsOf(quant)) && !LongRun(body)
  }

  // ---------------------------------------------------------------------------
  // Runs
  // ---------------------------------------------------------------------------

  function RunOf(ps: seq<Piece>, run: nat): Option<nat>
    requires OkPieces(ps)
    decreases |ps|
  {
    if ps == [] then Some(run)
    else if NullablePiece(ps[0].atom, ps[0].quant) then RunOf(ps[1..], run + 1)
    else if run >= 8 then None
    else RunOf(ps[1..], 0)
  }

  lemma {:induction false} PiecesOk(s: Branch)
    requires OkBranch(s)
    ensures OkPieces(PiecesOf(s))
  {
    hide OkAtom, OkQuant;
    if s.Cons? { PiecesOk(s.rest); }
  }

  lemma {:induction false} AllPiecesOk(a: Alt)
    requires OkAlt(a)
    ensures OkPieces(Pieces(a))
  {
    hide OkAtom, OkQuant;
    PiecesOk(a.branch);
    if a.Or? { AllPiecesOk(a.rest); }
  }

  lemma {:induction false} RunOfSplit(ps: seq<Piece>, qs: seq<Piece>, run: nat)
    requires OkPieces(ps) && OkPieces(qs)
    ensures OkPieces(ps + qs)
    ensures RunOf(ps + qs, run) == if RunOf(ps, run).None? then None else RunOf(qs, RunOf(ps, run).value)
    decreases |ps|
  {
    hide NullablePiece, OkAtom, OkQuant;
    if ps == [] {
      assert ps + qs == qs;
    } else {
      assert (ps + qs)[1..] == ps[1..] + qs;
      RunOfSplit(ps[1..], qs, run + 1);
      RunOfSplit(ps[1..], qs, 0);
    }
  }

  lemma {:induction false} RunIsRunOf(s: Branch, run: nat)
    requires OkBranch(s)
    ensures OkPieces(PiecesOf(s)) && Run(s, run) == RunOf(PiecesOf(s), run)
    decreases s
  {
    hide NullablePiece, OkAtom, OkQuant;
    PiecesOk(s);
    if s.Cons? {
      assert PiecesOf(s)[1..] == PiecesOf(s.rest);
      RunIsRunOf(s.rest, run + 1);
      RunIsRunOf(s.rest, 0);
    }
  }

  lemma {:induction false} RunAltIsRunOf(a: Alt, run: nat)
    requires OkAlt(a)
    ensures OkPieces(Pieces(a)) && RunAlt(a, run) == RunOf(Pieces(a), run)
    decreases a
  {
    hide Run, RunOf, OkAtom, OkQuant, PiecesOf;
    AllPiecesOk(a);
    RunIsRunOf(a.branch, run);
    if a.Or? {
      var r := Run(a.branch, run);
      if r.Some? { RunAltIsRunOf(a.rest, r.value); }
      AllPiecesOk(a.rest);
      RunOfSplit(PiecesOf(a.branch), Pieces(a.rest), run);
    } else {
      assert PiecesOf(a.branch) + [] == PiecesOf(a.branch);
    }
  }

  /** A required piece at k behind at least eight nullable ones, `run` of them before the list. */
  predicate BreaksAt(ps: seq<Piece>, run: nat, k: nat)
    requires OkPieces(ps)
  {
    && k < |ps| && !NullablePiece(ps[k].atom, ps[k].quant)
    && (forall j :: 0 <= j < k && k - 8 <= j ==> NullablePiece(ps[j].atom, ps[j].quant))
    && (k < 8 ==> run + k >= 8)
  }

  lemma {:induction false} RunBreaks(ps: seq<Piece>, run: nat)
    requires OkPieces(ps)
    ensures RunOf(ps, run).None? <==> exists k: nat :: BreaksAt(ps, run, k)
    decreases |ps|
  {
    hide NullablePiece, OkAtom, OkQuant;
    if ps != [] {
      var rest := ps[1..];
      var run' := if NullablePiece(ps[0].atom, ps[0].quant) then run + 1 else 0;
      RunBreaks(rest, run');
      assert BreaksAt(ps, run, 0) <==> !NullablePiece(ps[0].atom, ps[0].quant) && run >= 8;
      if k: nat :| BreaksAt(rest, run', k) { BreaksLater(ps, run, k); }
      if k: nat :| BreaksAt(ps, run, k) { if k > 0 { BreaksLater(ps, run, k - 1); } }
    }
  }

  lemma BreaksLater(ps: seq<Piece>, run: nat, k: nat)
    requires OkPieces(ps) && ps != []
    ensures var run' := if NullablePiece(ps[0].atom, ps[0].quant) then run + 1 else 0;
            BreaksAt(ps[1..], run', k) <==> BreaksAt(ps, run, k + 1)
  {
    hide NullablePiece, OkAtom, OkQuant;
    var rest := ps[1..];
    assert forall j :: 0 <= j < |rest| ==> rest[j] == ps[j + 1];
    assert forall j :: 0 < j < |ps| ==> ps[j] == rest[j - 1];
  }

  /** The scanner's run test, in words. */
  lemma LongRunExact(a: Alt)
    requires OkAlt(a)
    ensures RunAlt(a, 0).None? <==> LongRun(a)
  {
    hide NullablePiece, MatchPiece, RunOf, RunAlt, OkAtom, OkQuant, Pieces;
    RunAltIsRunOf(a, 0);
    var ps := Pieces(a);
    RunBreaks(ps, 0);
    forall k | 0 <= k < |ps| ensures NullablePiece(ps[k].atom, ps[k].quant) <==> MayBeEmpty(ps[k]) {
      NullablePieceExact(ps[k].atom, ps[k].quant);
    }
    forall k: nat ensures BreaksAt(ps, 0, k) <==> RunEndsAt(ps, k) {
    }
  }

  // ---------------------------------------------------------------------------
  // Occurrences
  // ---------------------------------------------------------------------------

  lemma {:induction false} UnboundedSomewhere(a: Alt) returns (atom: Atom, quant: Quant)
    requires OkAlt(a) && UnboundedAlt(a)
    ensures InAlt(atom, quant, a) && OkQuant(quant) && BoundsOf(quant).max.None?
    decreases a, 0
  {
    hide Unbounded, InBranch, BoundsOf, OkBranch;
    if Unbounded(a.branch) { atom, quant := UnboundedInside1(a.branch); } else { atom, quant := UnboundedSomewhere(a.rest); }
  }

  lemma {:induction false} UnboundedInside1(s: Branch) returns (atom: Atom, quant: Quant)
    requires OkBranch(s) && Unbounded(s)
    ensures InBranch(atom, quant, s) && OkQuant(quant) && BoundsOf(quant).max.None?
    decreases s, 0
  {
    hide BoundsOf, UnboundedAlt, InAlt, OkKind;
    if BoundsOf(s.quant).max.None? { atom, quant := s.atom, s.quant; }
    else if UnboundedAtom(s.atom) { atom, quant := UnboundedSomewhere(s.atom.body); }
    else { atom, quant := UnboundedInside1(s.rest); }
  }

  lemma {:induction false} VariableSomewhere(a: Alt) returns (atom: Atom, quant: Quant)
    requires OkAlt(a) && VariableAlt(a)
    ensures InAlt(atom, quant, a) && OkQuant(quant) && VariableBounds(BoundsOf(quant))
    decreases a, 0
  {
    hide Variable, InBranch, BoundsOf, OkBranch, VariableBounds;
    if Variable(a.branch) { atom, quant := VariableInside1(a.branch); } else { atom, quant := VariableSomewhere(a.rest); }
  }

  lemma {:induction false} VariableInside1(s: Branch) returns (atom: Atom, quant: Quant)
    requires OkBranch(s) && Variable(s)
    ensures InBranch(atom, quant, s) && OkQuant(quant) && VariableBounds(BoundsOf(quant))
    decreases s, 0
  {
    hide BoundsOf, VariableAlt, InAlt, OkKind, VariableBounds;
    if VariableBounds(BoundsOf(s.quant)) { atom, quant := s.atom, s.quant; }
    else if VariableAtom(s.atom) { atom, quant := VariableSomewhere(s.atom.body); }
    else { atom, quant := VariableInside1(s.rest); }
  }

  lemma {:induction false} VariableInside(atom: Atom, quant: Quant, a: Alt)
    requires OkAlt(a) && InAlt(atom, quant, a) && OkQuant(quant) && VariableBounds(BoundsOf(quant))
    ensures VariableAlt(a)
    decreases a, 0
  {
    hide InBranch, Variable, OkBranch, BoundsOf, VariableBounds;
    if InBranch(atom, quant, a.branch) { VariableInBranch(atom, quant, a.branch); } else { VariableInside(atom, quant, a.rest); }
  }

  lemma {:induction false} VariableInBranch(atom: Atom, quant: Quant, s: Branch)
    requires OkBranch(s) && InBranch(atom, quant, s) && OkQuant(quant) && VariableBounds(BoundsOf(quant))
    ensures Variable(s)
    decreases s, 0
  {
    hide BoundsOf, OkKind, VariableBounds;
    assert OkAtom(s.atom);
    if s.atom == atom && s.quant == quant {
    } else if s.atom.Sub? && InAlt(atom, quant, s.atom.body) {
      VariableInside(atom, quant, s.atom.body);
    } else {
      VariableInBranch(atom, quant, s.rest);
    }
  }

  lemma UnboundedExact(a: Alt)
    requires OkAlt(a)
    ensures UnboundedAlt(a) <==> !NoneUnbounded(a)
  {
    hide UnboundedAlt, InAlt, BoundsOf;
    if UnboundedAlt(a) { var atom, quant := UnboundedSomewhere(a); }
    forall atom, quant | InAlt(atom, quant, a) && OkQuant(quant) && BoundsOf(quant).max.None? ensures UnboundedAlt(a) {
      UnboundedInside(atom, quant, a);
    }
  }

  lemma VariableExact(a: Alt)
    requires OkAlt(a)
    ensures VariableAlt(a) <==> !NoneVariable(a)
  {
    hide VariableAlt, InAlt, BoundsOf, VariableBounds;
    if VariableAlt(a) { var atom, quant := VariableSomewhere(a); }
    forall atom, quant | InAlt(atom, quant, a) && OkQuant(quant) && VariableBounds(BoundsOf(quant)) ensures VariableAlt(a) {
      VariableInside(atom, quant, a);
    }
  }

  // ---------------------------------------------------------------------------
  // Ambiguity
  // ---------------------------------------------------------------------------

  /** Branches that are apart are never called ambiguous. */
  lemma {:induction false} ApartNotAmbiguous(a: Alt)
    requires OkAlt(a) && PlainAlt(a) && BranchesApart(a) && ApartAlt(a)
    ensures !AmbiguousAlt(a)
    decreases a, 1
  {
    hide BranchesApart, BranchesDisjoint, Firsts, PlainBranch, ApartBranch, AmbiguousBranch, Has, StartsBranch, OkBranch, Branches;
    if a.Or? {
      FirstsPrecise(a);
      ApartIsDisjoint(a);
    } else {
      ApartInside(a.branch);
    }
  }

  lemma {:induction false} ApartInside(s: Branch)
    requires OkBranch(s) && (s.Cons? ==> PlainBranch(s)) && ApartBranch(s)
    ensures !AmbiguousBranch(s)
    decreases s, 0
  {
    hide BranchesApart, AmbiguousAlt, PlainAlt, ApartAlt, BoundsOf, OkKind;
    if s.Cons? {
      if s.atom.Sub? { ApartNotAmbiguous(s.atom.body); }
      ApartInside(s.rest);
    }
  }

  lemma {:induction false} StartsAtomOf(a: Atom, q: Quant, c: Code)
    requires OkAtom(a) && OkQuant(q) && StartsPiece(a, q, c)
    ensures Allows(FirstAtom(a), c)
  {
    hide MatchPiece, FirstAtom;
    var w: Word :| w != [] && w[0] == c && MatchPiece(a, q, w);
    FirstPieceSound(a, q, w);
  }

  /** The scanner's overlap test between two pieces, in words. */
  lemma OverlapExact(a: Atom, q: Quant, b: Atom, r: Quant)
    requires OkAtom(a) && PlainAtom(a) && ApartAtom(a) && OkQuant(q) && Takes(q)
    requires OkAtom(b) && PlainAtom(b) && ApartAtom(b) && OkQuant(r) && Takes(r)
    ensures FirstAtom(a).Some? && FirstAtom(b).Some?
    ensures Disjoint(FirstAtom(a).value, FirstAtom(b).value)
            <==> !exists c: Code :: StartsPiece(a, q, c) && StartsPiece(b, r, c)
  {
    hide FirstAtom, PlainAtom, ApartAtom, StartsAtom, StartsPiece, Has, Disjoint, Takes;
    FirstAtomPrecise(a);
    FirstAtomPrecise(b);
    var s, t := FirstAtom(a).value, FirstAtom(b).value;
    DisjointExact(s, t);
    forall c: Code ensures Has(s, c) <==> StartsPiece(a, q, c) {
      if Has(s, c) { StartsPieceOf(a, q, c); }
      if StartsPiece(a, q, c) { StartsAtomOf(a, q, c); }
    }
    forall c: Code ensures Has(t, c) <==> StartsPiece(b, r, c) {
      if Has(t, c) { StartsPieceOf(b, r, c); }
      if StartsPiece(b, r, c) { StartsAtomOf(b, r, c); }
    }
    forall c | Has(s, c) && Has(t, c) ensures 0 <= c <= MAX_CODE { ProperInRange(s, c); }
  }

  /** Behind a required piece no split can clash. */
  lemma {:induction false} ClashesBehind(bf: Option<Option<CharSet>>, s: Branch)
    requires OkBranch(s) && (s.Cons? ==> PlainBranch(s)) && ApartBranch(s)
    ensures Clashes(bf, false, s) <==> BlurredWithin(s)
    decreases s, 0
  {
    hide FirstAtom, NullablePiece, SequenceClash, BlurredAlt, ClashesAlt, PlainAlt, ApartAlt, BranchesApart, OkKind, BoundsOf;
    if s.Cons? {
      if s.atom.Sub? { ClashesExact(s.atom.body); }
      ClashesBehind(Join(bf, false, Some(FirstAtom(s.atom))), s.rest);
    }
  }

  /** The scanner's clashes are the ambiguous splits. */
  lemma {:induction false} ClashesExact(a: Alt)
    requires OkAlt(a) && PlainAlt(a) && ApartAlt(a)
    ensures ClashesAlt(a) <==> BlurredAlt(a)
    decreases a, 0
  {
    hide Clashes, Blurred, BlurredWithin, PlainBranch, ApartBranch, OkBranch;
    ClashesStart(a.branch);
    if a.Or? { ClashesExact(a.rest); }
  }

  lemma {:induction false} ClashesStart(s: Branch)
    requires OkBranch(s) && PlainBranch(s) && ApartBranch(s)
    ensures Clashes(None, true, s) <==> Blurred(s) || BlurredWithin(s)
    decreases s, 1
  {
    hide FirstAtom, NullablePiece, MatchPiece, StartsPiece, Disjoint, BlurredAlt, ClashesAlt, PlainAtom, PlainAlt,
         ApartAtom, ApartAlt, BranchesApart, OkKind, BoundsOf;
    var first, nullable := FirstAtom(s.atom), NullablePiece(s.atom, s.quant);
    ClashesNested(s.atom);
    NullablePieceExact(s.atom, s.quant);
    if s.rest.Cons? {
      var t := s.rest;
      NullablePieceExact(t.atom, t.quant);
      OverlapExact(s.atom, s.quant, t.atom, t.quant);
      ClashesNested(t.atom);
      if !nullable {
        ClashesBehind(Some(first), t);
      } else {
        ClashesSecond(first, s);
      }
    }
  }

  lemma {:induction false} ClashesNested(a: Atom)
    requires OkAtom(a) && PlainAtom(a) && ApartAtom(a)
    ensures ClashesAtom(a) <==> a.Sub? && BlurredAlt(a.body)
    decreases a, 1
  {
    hide BlurredAlt, ClashesAlt, PlainAlt, ApartAlt, BranchesApart, OkKind;
    if a.Sub? { ClashesExact(a.body); }
  }

  /** Behind an optional first piece: only the second piece can clash with it. */
  lemma {:induction false} ClashesSecond(first: Option<CharSet>, s: Branch)
    requires OkBranch(s) && PlainBranch(s) && ApartBranch(s) && s.rest.Cons? && OkBranch(s.rest)
    ensures var t := s.rest;
            var second, nullable := FirstAtom(t.atom), NullablePiece(t.atom, t.quant);
            Clashes(Some(first), true, t) <==> SequenceClash(first, second, nullable) || BlurredWithin(t)
    decreases s, 0
  {
    hide FirstAtom, NullablePiece, SequenceClash, BlurredAlt, ClashesAlt, PlainAtom, ApartAtom, OkKind, BoundsOf;
    var t := s.rest;
    var second, nullable := FirstAtom(t.atom), NullablePiece(t.atom, t.quant);
    ClashesNested(t.atom);
    if !SequenceClash(first, second, nullable) {
      NullableClashes(first, second);
      ClashesBehind(Join(Some(first), true, Some(second)), t.rest);
    }
  }

  lemma NullableClashes(first: Option<CharSet>, second: Option<CharSet>)
    ensures SequenceClash(first, second, true)
  {
  }

  // ---------------------------------------------------------------------------
  // Acceptance
  // ---------------------------------------------------------------------------

  lemma {:induction false} FitExact(a: Alt, b: Bounds)
    requires OkAlt(a) && PlainAlt(a) && BranchesApart(a) && ApartAlt(a)
    ensures RepeatOk(a, b) <==> Fit(a, b)
  {
    hide UnboundedAlt, AmbiguousAlt, ClashesAlt, VariableAlt, NullableAlt, NoneUnbounded, NoneVariable, BlurredAlt,
         MatchAlt, PlainAlt, ApartAlt, BranchesApart;
    UnboundedExact(a);
    VariableExact(a);
    NullableAltExact(a);
    ClashesExact(a);
    ApartNotAmbiguous(a);
  }

  /** Every group in the list of pieces is fit. */
  ghost predicate GroupsFit(a: Alt) {
    forall kind, body, quant :: InAlt(Sub(kind, body), quant, a) && OkAlt(body) && OkQuant(quant) ==>
      Fit(body, BoundsOf(quant)) && !LongRun(body)
  }

  ghost predicate GroupsFitIn(s: Branch) {
    forall kind, body, quant :: InBranch(Sub(kind, body), quant, s) && OkAlt(body) && OkQuant(quant) ==>
      Fit(body, BoundsOf(quant)) && !LongRun(body)
  }

  lemma {:induction false} SafeAltExact(a: Alt)
    requires OkAlt(a) && PlainAlt(a) && ApartAlt(a)
    ensures SafeAlt(a) <==> GroupsFit(a)
    decreases a, 0
  {
    hide SafeBranch, InBranch, PlainBranch, ApartBranch, OkBranch, Fit, LongRun;
    SafeBranchExact(a.branch);
    if a.Or? { SafeAltExact(a.rest); }
    SplitFit(a);
  }

  lemma SplitFit(a: Alt)
    ensures GroupsFit(a) <==> GroupsFitIn(a.branch) && (a.Or? ==> GroupsFit(a.rest))
  {
    hide InBranch, Fit, LongRun, OkAlt;
    forall kind, body, quant
      ensures InAlt(Sub(kind, body), quant, a)
              <==> InBranch(Sub(kind, body), quant, a.branch) || (a.Or? && InAlt(Sub(kind, body), quant, a.rest))
    {
    }
  }

  lemma {:induction false} SafeBranchExact(s: Branch)
    requires OkBranch(s) && (s.Cons? ==> PlainBranch(s)) && ApartBranch(s)
    ensures SafeBranch(s) <==> GroupsFitIn(s)
    decreases s, 0
  {
    hide SafeAlt, RunAlt, RepeatOk, InAlt, PlainAlt, ApartAlt, BranchesApart, Fit, LongRun, OkKind, BoundsOf;
    if s.Cons? {
      SafeBranchExact(s.rest);
      if s.atom.Sub? {
        SafeAltExact(s.atom.body);
        FitExact(s.atom.body, BoundsOf(s.quant));
        LongRunExact(s.atom.body);
      }
      SplitFitIn(s);
    }
  }

  lemma SplitFitIn(s: Branch)
    requires OkBranch(s) && s.Cons? && OkAtom(s.atom)
    ensures GroupsFitIn(s)
            <==> GroupsFitIn(s.rest)
                 && (s.atom.Sub? ==> GroupsFit(s.atom.body) && Fit(s.atom.body, BoundsOf(s.quant)) && !LongRun(s.atom.body))
  {
    hide InAlt, Fit, LongRun, OkKind, BoundsOf;
    if GroupsFitIn(s) && s.atom.Sub? {
      assert InBranch(Sub(s.atom.kind, s.atom.body), s.quant, s);
    }
  }

  /** Exactly when the scanner accepts a pattern without `.` and anchors whose alternations,
      inside groups, can be told apart by their first characters: every group is fit for its
      quantifier and no body has a required piece behind eight that may be left out, all in
      terms of the words that pieces and groups match. */
  lemma AcceptedExactly(a: Alt)
    requires OkAlt(a) && PlainAlt(a) && ApartAlt(a)
    ensures Scan(PrintAlt(a)) == Accepted <==> Acceptable(a)
  {
    hide Scan, SafeAlt, RunAlt, PlainAlt, ApartAlt, Fit, LongRun, InAlt;
    AcceptsExactlySafe(a);
    SafeAltExact(a);
    LongRunExact(a);
  }
}
