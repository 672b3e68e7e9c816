/** The synthesized attributes of a pattern (first set, nullability, ambiguity), defined by
    structural recursion, and the proof that the evaluation computes exactly these. */
module RegexShape {
  import opened Wrappers
  import opened CharSets
  import opened RegexScanner
  import opened RegexSyntax
  import opened RegexEval

  // ---------------------------------------------------------------------------
  // First sets and nullability
  // ---------------------------------------------------------------------------

  /** First set of a prefix extended by what follows: a None prefix is empty, and only a
      nullable prefix lets the next first set show through. */
  function Join(bf: Option<Option<CharSet>>, bn: bool, next: Option<Option<CharSet>>): Option<Option<CharSet>> {
    if bf.None? then next
    else if next.None? || !bn then bf
    else Some(Union(bf.value, next.value))
  }

  function NullableAtom(a: Atom): bool
    requires OkAtom(a)
    decreases a, 0
  {
    a.Anchor? || (a.Sub? && NullableAlt(a.body))
  }

  function NullablePiece(a: Atom, q: Quant): bool
    requires OkAtom(a) && OkQuant(q)
    decreases a, 1
  {
    NullableAtom(a) || BoundsOf(q).min == 0
  }

  function NullableBranch(s: Branch): bool
    requires OkBranch(s)
    decreases s, 0
  {
    s.Cons? ==> NullablePiece(s.atom, s.quant) && NullableBranch(s.rest)
  }

  function NullableAlt(a: Alt): bool
    requires OkAlt(a)
    decreases a, 0
  {
    NullableBranch(a.branch) || (a.Or? && NullableAlt(a.rest))
  }

  function FirstAtom(a: Atom): Option<CharSet>
    requires OkAtom(a)
    decreases a, 0
  {
    if a.Sub? then FirstAlt(a.body) else FirstOfAtom(a)
  }

  function FirstBranch(s: Branch): Option<Option<CharSet>>
    requires OkBranch(s)
    decreases s, 0
  {
    if s.Nil? then None
    else Join(Some(FirstAtom(s.atom)), NullablePiece(s.atom, s.quant), FirstBranch(s.rest))
  }

  /** First sets of the branches, in order. */
  function Firsts(a: Alt): (r: seq<Option<CharSet>>)
    requires OkAlt(a)
    ensures r != []
    decreases a, 0
  {
    [Flat(FirstBranch(a.branch))] + if a.Or? then Firsts(a.rest) else []
  }

  function FirstAlt(a: Alt): Option<CharSet>
    requires OkAlt(a)
    decreases a, 1
  {
    if a.Last? then Flat(FirstBranch(a.branch))
    else if BranchesDisjoint(Firsts(a)) then Some(Concat(Values(Firsts(a))))
    else None
  }

  // ---------------------------------------------------------------------------
  // Ambiguity attributes
  // ---------------------------------------------------------------------------

  /** An unbounded quantifier occurs somewhere inside. */
  predicate UnboundedAtom(a: Atom)
    requires OkAtom(a)
    decreases a, 0
  {
    a.Sub? && UnboundedAlt(a.body)
  }

  predicate Unbounded(s: Branch)
    requires OkBranch(s)
    decreases s, 0
  {
    s.Cons? && (BoundsOf(s.quant).max.None? || UnboundedAtom(s.atom) || Unbounded(s.rest))
  }

  predicate UnboundedAlt(a: Alt)
    requires OkAlt(a)
    decreases a, 0
  {
    Unbounded(a.branch) || (a.Or? && UnboundedAlt(a.rest))
  }

  predicate VariableBounds(b: Bounds) {
    b.max.Some? && b.max.value >= 2 && b.min != b.max.value
  }

  /** A bounded repeat of varying length occurs somewhere inside. */
  predicate VariableAtom(a: Atom)
    requires OkAtom(a)
    decreases a, 0
  {
    a.Sub? && VariableAlt(a.body)
  }

  predicate Variable(s: Branch)
    requires OkBranch(s)
    decreases s, 0
  {
    s.Cons? && (VariableBounds(BoundsOf(s.quant)) || VariableAtom(s.atom) || Variable(s.rest))
  }

  predicate VariableAlt(a: Alt)
    requires OkAlt(a)
    decreases a, 0
  {
    Variable(a.branch) || (a.Or? && VariableAlt(a.rest))
  }

  /** The branches cannot be told apart by their first character. A group with its own
      alternation is judged by that alternation alone. */
  predicate AmbiguousAlt(a: Alt)
    requires OkAlt(a)
    decreases a, 1
  {
    if a.Or? then !BranchesDisjoint(Firsts(a)) else AmbiguousBranch(a.branch)
  }

  predicate AmbiguousAtom(a: Atom)
    requires OkAtom(a)
    decreases a, 0
  {
    a.Sub? && AmbiguousAlt(a.body)
  }

  predicate AmbiguousBranch(s: Branch)
    requires OkBranch(s)
    decreases s, 0
  {
    s.Cons? && (AmbiguousAtom(s.atom) || AmbiguousBranch(s.rest))
  }

  predicate AmbiguousBranches(a: Alt)
    requires OkAlt(a)
  {
    AmbiguousBranch(a.branch) || (a.Or? && AmbiguousBranches(a.rest))
  }

  predicate ClashesAtom(a: Atom)
    requires OkAtom(a)
    decreases a, 0
  {
    a.Sub? && ClashesAlt(a.body)
  }

  /** Behind a nullable prefix with first set `bf`, some atom is optional or may start with
      the same character; or a nested group has such a place. */
  predicate Clashes(bf: Option<Option<CharSet>>, bn: bool, s: Branch)
    requires OkBranch(s)
    decreases s, 0
  {
    s.Cons? &&
    var first, nullable := FirstAtom(s.atom), NullablePiece(s.atom, s.quant);
    || ClashesAtom(s.atom)
    || (bf.Some? && bn && SequenceClash(bf.value, first, nullable))
    || Clashes(Join(bf, bn, Some(first)), bn && nullable, s.rest)
  }

  predicate ClashesAlt(a: Alt)
    requires OkAlt(a)
    decreases a, 0
  {
    Clashes(None, true, a.branch) || (a.Or? && ClashesAlt(a.rest))
  }

  /** The attributes of a group that starts at `start`. */
  function Summary(a: Alt, start: int): Closed
    requires OkAlt(a)
  {
    Closed(start, FirstAlt(a), NullableAlt(a), UnboundedAlt(a), AmbiguousAlt(a), VariableAlt(a), ClashesAlt(a))
  }

  // ---------------------------------------------------------------------------
  // When a pattern is accepted
  // ---------------------------------------------------------------------------

  /** A group body may be repeated within the given bounds. */
  predicate RepeatOk(a: Alt, b: Bounds)
    requires OkAlt(a)
  {
    b.max.None? || b.max.value >= 2 ==>
      && !UnboundedAlt(a) && !AmbiguousAlt(a) && !ClashesAlt(a)
      && (b.max.None? || b.max.value >= BOUNDED_OUTER_REPEAT_MAX ==>
            !VariableAlt(a) && (b.max.Some? || b.min >= BOUNDED_OUTER_REPEAT_MAX ==> !NullableAlt(a)))
  }

  /** Length of the run of nullable atoms after a branch, or None when a required atom
      follows eight or more of them. */
  function Run(s: Branch, run: nat): Option<nat>
    requires OkBranch(s)
  {
    if s.Nil? then Some(run)
    else if NullablePiece(s.atom, s.quant) then Run(s.rest, run + 1)
    else if run >= 8 then None
    else Run(s.rest, 0)
  }

  /** The run carries over a bar, as it does in the source. */
  function RunAlt(a: Alt, run: nat): Option<nat>
    requires OkAlt(a)
  {
    var r := Run(a.branch, run);
    if a.Last? || r.None? then r else RunAlt(a.rest, r.value)
  }

  predicate SafeAtom(a: Atom, q: Quant)
    requires OkAtom(a) && OkQuant(q)
    decreases a, 0
  {
    a.Sub? ==> SafeAlt(a.body) && RunAlt(a.body, 0).Some? && RepeatOk(a.body, BoundsOf(q))
  }

  predicate SafeBranch(s: Branch)
    requires OkBranch(s)
    decreases s, 0
  {
    s.Cons? ==> SafeAtom(s.atom, s.quant) && SafeBranch(s.rest)
  }

  predicate SafeAlt(a: Alt)
    requires OkAlt(a)
    decreases a, 0
  {
    SafeBranch(a.branch) && (a.Or? ==> SafeAlt(a.rest))
  }

  // ---------------------------------------------------------------------------
  // The evaluation computes the attributes
  // ---------------------------------------------------------------------------

  /** What a piece, branch or alternative adds to a group record. */
  datatype Delta = Delta(unbounded: bool, variable: bool, ambiguous: bool, clash: bool, run: nat)

  predicate Adds(g: Group, d: Delta, g': Group) {
    && g'.start == g.start
    && g'.unbounded == (g.unbounded || d.unbounded)
    && g'.variableRepeat == (g.variableRepeat || d.variable)
    && g'.ambiguousAlternation == (g.ambiguousAlternation || d.ambiguous)
    && g'.ambiguousSequence == (g.ambiguousSequence || d.clash)
    && g'.run == d.run
  }

  /** The same branch goes on, now with the given first set and nullability. */
  predicate Continues(g: Group, g': Group, bf: Option<Option<CharSet>>, bn: bool) {
    && g'.branchFirsts == g.branchFirsts
    && g'.branchNullables == g.branchNullables
    && g'.sawAlternation == g.sawAlternation
    && g'.branchFirst == bf
    && g'.branchNullable == bn
  }

  function Then(d: Delta, e: Delta): Delta {
    Delta(d.unbounded || e.unbounded, d.variable || e.variable, d.ambiguous || e.ambiguous,
          d.clash || e.clash, e.run)
  }

  lemma AddsThen(g: Group, d: Delta, g': Group, e: Delta, g'': Group)
    requires Adds(g, d, g') && Adds(g', e, g'')
    ensures Adds(g, Then(d, e), g'')
  {
  }

  lemma ContinuesThen(g: Group, g': Group, bf: Option<Option<CharSet>>, bn: bool,
                      g'': Group, bf': Option<Option<CharSet>>, bn': bool)
    requires Continues(g, g', bf, bn) && Continues(g', g'', bf', bn')
    ensures Continues(g, g'', bf', bn')
  {
  }

  /** A clash at the atom itself, given the branch so far. */
  predicate ClashHere(g: Group, first: Option<CharSet>, nullable: bool) {
    g.branchFirst.Some? && g.branchNullable && SequenceClash(g.branchFirst.value, first, nullable)
  }

  lemma ApplyAtomEffect(g: Group, first: Option<CharSet>, nullable: bool, at: int)
    ensures var r := ApplyAtom(g, first, nullable, at);
            && (r.Success? <==> nullable || g.run < 8)
            && (r.Success? ==>
                  && Adds(g, Delta(false, false, false, ClashHere(g, first, nullable),
                                   if nullable then g.run + 1 else 0), r.value)
                  && Continues(g, r.value, Join(g.branchFirst, g.branchNullable, Some(first)),
                               g.branchNullable && nullable))
  {
    hide SequenceClash;
  }

  /** A group record with the given flags raised. */
  function Raise(g: Group, u: bool, v: bool, amb: bool, clash: bool): Group {
    g.(unbounded := g.unbounded || u, variableRepeat := g.variableRepeat || v,
       ambiguousAlternation := g.ambiguousAlternation || amb, ambiguousSequence := g.ambiguousSequence || clash)
  }

  lemma RaisedEffect(g: Group, u: bool, v: bool, amb: bool, clash: bool,
                     first: Option<CharSet>, nullable: bool, at: int)
    ensures var r := ApplyAtom(Raise(g, u, v, amb, clash), first, nullable, at);
            && (r.Success? <==> nullable || g.run < 8)
            && (r.Success? ==>
                  && Adds(g, Delta(u, v, amb, clash || ClashHere(g, first, nullable),
                                   if nullable then g.run + 1 else 0), r.value)
                  && Continues(g, r.value, Join(g.branchFirst, g.branchNullable, Some(first)),
                               g.branchNullable && nullable))
  {
    hide ApplyAtom, SequenceClash, Join;
    ApplyAtomEffect(Raise(g, u, v, amb, clash), first, nullable, at);
  }

  function PieceDelta(g: Group, atom: Atom, quant: Quant): Delta
    requires OkAtom(atom) && OkQuant(quant)
  {
    var nullable := NullablePiece(atom, quant);
    Delta(BoundsOf(quant).max.None? || UnboundedAtom(atom),
          VariableBounds(BoundsOf(quant)) || VariableAtom(atom),
          AmbiguousAtom(atom),
          ClashesAtom(atom) || ClashHere(g, FirstAtom(atom), nullable),
          if nullable then g.run + 1 else 0)
  }

  /** The effect of a piece on the group it stands in. */
  predicate PieceEffect(g: Group, atom: Atom, quant: Quant, g': Group)
    requires OkAtom(atom) && OkQuant(quant)
  {
    && Adds(g, PieceDelta(g, atom, quant), g')
    && Continues(g, g', Join(g.branchFirst, g.branchNullable, Some(FirstAtom(atom))),
                 g.branchNullable && NullablePiece(atom, quant))
  }

  /** The quantifier read for `quant`, whatever its position. */
  predicate Reads(quant: Quant, q: Option<Quantifier>)
    requires OkQuant(quant)
  {
    && (quant.Once? <==> q.None?)
    && (q.Some? ==> q.value.min == BoundsOf(quant).min && q.value.max == BoundsOf(quant).max)
  }

  lemma ReadsBounds(quant: Quant, q: Option<Quantifier>)
    requires OkQuant(quant) && Reads(quant, q)
    ensures IsUnbounded(q) == BoundsOf(quant).max.None?
    ensures IsVariable(q) == VariableBounds(BoundsOf(quant))
    ensures MinIsZero(q) == (BoundsOf(quant).min == 0)
  {
  }

  lemma SimpleAttributes(g: Group, atom: Atom, quant: Quant, at: nat)
    requires OkAtom(atom) && OkQuant(quant) && !atom.Sub?
    ensures var r := EvalPiece(g, atom, quant, at);
            && (r.Success? <==> NullablePiece(atom, quant) || g.run < 8)
            && (r.Success? ==> PieceEffect(g, atom, quant, r.value))
  {
    hide ApplyAtom, FirstOfAtom, FirstAtom, NullablePiece, BoundsOf, PrintAtom, Adds, Continues, IsUnbounded,
         IsVariable, MinIsZero, ClashHere, Join, PieceDelta, EvalPiece, Raise, QuantOf, OkAtom;
    var q := QuantOf(quant, at + |PrintAtom(atom)|);
    QuantReads(quant, at + |PrintAtom(atom)|);
    EvalSimple(g, atom, quant, at);
    RaisedEffect(g, IsUnbounded(q), IsVariable(q), false, false, FirstOfAtom(atom), atom.Anchor? || MinIsZero(q), at);
    SimpleDelta(g, atom, quant, q);
  }

  lemma EvalSimple(g: Group, atom: Atom, quant: Quant, at: nat)
    requires OkAtom(atom) && OkQuant(quant) && !atom.Sub?
    ensures var q := QuantOf(quant, at + |PrintAtom(atom)|);
            EvalPiece(g, atom, quant, at)
            == ApplyAtom(Raise(g, IsUnbounded(q), IsVariable(q), false, false),
                         FirstOfAtom(atom), atom.Anchor? || MinIsZero(q), at)
  {
    hide ApplyAtom, FirstOfAtom, BoundsOf, PrintAtom, IsUnbounded, IsVariable, MinIsZero;
  }

  lemma SimpleDelta(g: Group, atom: Atom, quant: Quant, q: Option<Quantifier>)
    requires OkAtom(atom) && OkQuant(quant) && !atom.Sub? && Reads(quant, q)
    ensures FirstAtom(atom) == FirstOfAtom(atom)
    ensures NullablePiece(atom, quant) == (atom.Anchor? || MinIsZero(q))
    ensures PieceDelta(g, atom, quant)
         == Delta(IsUnbounded(q), IsVariable(q), false,
                  false || ClashHere(g, FirstOfAtom(atom), atom.Anchor? || MinIsZero(q)),
                  if atom.Anchor? || MinIsZero(q) then g.run + 1 else 0)
  {
    hide FirstOfAtom, BoundsOf, ClashHere, IsUnbounded, IsVariable, MinIsZero;
    ReadsBounds(quant, q);
  }

  lemma QuantReads(quant: Quant, pos: nat)
    requires OkQuant(quant)
    ensures Reads(quant, QuantOf(quant, pos))
  {
  }

  lemma MergeAttributes(g: Group, atom: Atom, quant: Quant, at: nat, q: Option<Quantifier>)
    requires OkAtom(atom) && OkQuant(quant) && atom.Sub? && Reads(quant, q)
    ensures var r := MergeChild(g, Summary(atom.body, at), q);
            && (r.Success? <==> NullablePiece(atom, quant) || g.run < 8)
            && (r.Success? ==> PieceEffect(g, atom, quant, r.value))
  {
    hide ApplyAtom, FirstAtom, NullablePiece, BoundsOf, OkAlt, Adds, Continues, IsUnbounded, IsVariable, MinIsZero,
         ClashHere, Join, PieceDelta, Raise, Summary, MergeChild;
    var c := Summary(atom.body, at);
    RaisedEffect(g, IsUnbounded(q) || c.unbounded, IsVariable(q) || c.variableRepeat,
                 c.ambiguousAlternation, c.ambiguousSequence, c.first, c.nullable || MinIsZero(q), c.start);
    MergeIsRaise(g, c, q);
    GroupDelta(g, atom, quant, at, q);
  }

  lemma GroupDelta(g: Group, atom: Atom, quant: Quant, at: int, q: Option<Quantifier>)
    requires OkAtom(atom) && OkQuant(quant) && atom.Sub? && Reads(quant, q)
    ensures var c := Summary(atom.body, at);
            && FirstAtom(atom) == c.first
            && NullablePiece(atom, quant) == (c.nullable || MinIsZero(q))
            && PieceDelta(g, atom, quant)
               == Delta(IsUnbounded(q) || c.unbounded, IsVariable(q) || c.variableRepeat, c.ambiguousAlternation,
                        c.ambiguousSequence || ClashHere(g, c.first, c.nullable || MinIsZero(q)),
                        if c.nullable || MinIsZero(q) then g.run + 1 else 0)
  {
    hide BoundsOf, ClashHere, IsUnbounded, IsVariable, MinIsZero, FirstAlt, UnboundedAlt, VariableAlt, AmbiguousAlt,
         ClashesAlt, NullableAlt;
    ReadsBounds(quant, q);
  }

  lemma MergeIsRaise(g: Group, c: Closed, q: Option<Quantifier>)
    ensures MergeChild(g, c, q)
         == ApplyAtom(Raise(g, IsUnbounded(q) || c.unbounded, IsVariable(q) || c.variableRepeat,
                            c.ambiguousAlternation, c.ambiguousSequence),
                      c.first, c.nullable || MinIsZero(q), c.start)
  {
    hide ApplyAtom, IsUnbounded, IsVariable, MinIsZero;
  }

  lemma {:induction false} EvalPieceAttributes(g: Group, atom: Atom, quant: Quant, at: nat)
    requires OkAtom(atom) && OkQuant(quant)
    ensures var r := EvalPiece(g, atom, quant, at);
            && (r.Success? <==> SafeAtom(atom, quant) && (NullablePiece(atom, quant) || g.run < 8))
            && (r.Success? ==> PieceEffect(g, atom, quant, r.value))
    decreases atom, 0
  {
    hide PieceEffect, CloseGroup, EvalAlt, SafeAlt, RunAlt, RepeatFinding, RepeatOk, MergeChild, NullablePiece,
         FormBounds, OkForm, PrintAtom, PrintQuantForm, AltEffect, Summary;
    if atom.Sub? {
      var q := QuantOf(quant, at + |PrintAtom(atom)|);
      var start := at + |Opener(atom.kind)|;
      EvalAltAttributes(NewGroup(at), atom.body, start);
      var body := EvalAlt(NewGroup(at), atom.body, start);
      QuantReads(quant, at + |PrintAtom(atom)|);
      if body.Success? {
        ClosedIsSummary(at, atom.body, body.value);
        RepeatFindingIff(atom.body, at, quant, q);
        MergeAttributes(g, atom, quant, at, q);
      }
    } else {
      SimpleAttributes(g, atom, quant, at);
    }
  }

  lemma RepeatFindingIff(a: Alt, at: nat, quant: Quant, q: Option<Quantifier>)
    requires OkAlt(a) && OkQuant(quant) && Reads(quant, q)
    ensures RepeatFinding(Summary(a, at), q).None? <==> RepeatOk(a, BoundsOf(quant))
  {
    hide UnboundedAlt, AmbiguousAlt, VariableAlt, ClashesAlt, NullableAlt, FirstAlt, FormBounds;
  }

  /** A fresh branch: nothing counted yet. */
  predicate FreshBranch(g: Group) {
    g.branchFirst.None? && g.branchNullable
  }

  function BranchDelta(g: Group, s: Branch): Delta
    requires OkBranch(s) && Run(s, g.run).Some?
  {
    Delta(Unbounded(s), Variable(s), AmbiguousBranch(s), Clashes(g.branchFirst, g.branchNullable, s),
          Run(s, g.run).value)
  }

  predicate BranchEffect(g: Group, s: Branch, g': Group)
    requires OkBranch(s) && Run(s, g.run).Some?
  {
    && Adds(g, BranchDelta(g, s), g')
    && Continues(g, g', Join(g.branchFirst, g.branchNullable, FirstBranch(s)),
                 g.branchNullable && NullableBranch(s))
  }

  lemma EffectThen(g: Group, s: Branch, g': Group, g'': Group)
    requires OkBranch(s) && s.Cons? && (g.branchFirst.None? ==> g.branchNullable)
    requires NullablePiece(s.atom, s.quant) || g.run < 8
    requires PieceEffect(g, s.atom, s.quant, g')
    requires Run(s.rest, g'.run).Some? && BranchEffect(g', s.rest, g'')
    ensures Run(s, g.run) == Run(s.rest, g'.run)
    ensures BranchEffect(g, s, g'')
  {
    hide SequenceClash, FirstAtom, UnboundedAtom, VariableAtom, AmbiguousAtom, ClashesAtom, NullablePiece, BoundsOf,
         Adds, Join;
    var bf, bn := Join(g.branchFirst, g.branchNullable, Some(FirstAtom(s.atom))),
                  g.branchNullable && NullablePiece(s.atom, s.quant);
    AddsRun(g, PieceDelta(g, s.atom, s.quant), g');
    JoinAssociates(g.branchFirst, g.branchNullable, FirstAtom(s.atom), NullablePiece(s.atom, s.quant),
                   FirstBranch(s.rest));
    ContinuesThen(g, g', bf, bn, g'', Join(bf, bn, FirstBranch(s.rest)), bn && NullableBranch(s.rest));
    AddsThen(g, PieceDelta(g, s.atom, s.quant), g', BranchDelta(g', s.rest), g'');
    assert Then(PieceDelta(g, s.atom, s.quant), BranchDelta(g', s.rest)) == BranchDelta(g, s);
  }

  lemma AddsRun(g: Group, d: Delta, g': Group)
    requires Adds(g, d, g')
    ensures g'.run == d.run
  {
  }

  lemma {:induction false} EvalBranchAttributes(g: Group, s: Branch, at: nat)
    requires OkBranch(s) && (g.branchFirst.None? ==> g.branchNullable)
    ensures var r := EvalBranch(g, s, at);
            && (r.Success? <==> SafeBranch(s) && Run(s, g.run).Some?)
            && (r.Success? ==> BranchEffect(g, s, r.value))
    decreases s, 0
  {
    hide EvalPiece, SafeAtom, NullablePiece, PrintAtom, PrintQuant, PieceEffect, BranchEffect;
    if s.Nil? {
      NilEffect(g, s);
    } else {
      EvalPieceAttributes(g, s.atom, s.quant, at);
      var r := EvalPiece(g, s.atom, s.quant, at);
      if r.Success? {
        PieceRun(g, s.atom, s.quant, r.value);
        var next := at + |PrintAtom(s.atom)| + |PrintQuant(s.quant)|;
        EvalBranchAttributes(r.value, s.rest, next);
        var r' := EvalBranch(r.value, s.rest, next);
        if r'.Success? { EffectThen(g, s, r.value, r'.value); }
      }
    }
  }

  lemma NilEffect(g: Group, s: Branch)
    requires s.Nil?
    ensures BranchEffect(g, s, g)
  {
  }

  lemma PieceRun(g: Group, atom: Atom, quant: Quant, g': Group)
    requires OkAtom(atom) && OkQuant(quant) && PieceEffect(g, atom, quant, g')
    ensures g'.run == if NullablePiece(atom, quant) then g.run + 1 else 0
    ensures g'.branchFirst.Some?
  {
    hide NullablePiece;
  }

  lemma JoinAssociates(bf: Option<Option<CharSet>>, bn: bool, first: Option<CharSet>, nullable: bool,
                       rest: Option<Option<CharSet>>)
    requires bf.None? ==> bn
    ensures Join(Join(bf, bn, Some(first)), bn && nullable, rest)
         == Join(bf, bn, Join(Some(first), nullable, rest))
  {
    if bf.Some? && rest.Some? && bf.value.Some? && first.Some? && rest.value.Some? {
      assert bf.value.value + first.value + rest.value.value
          == bf.value.value + (first.value + rest.value.value);
    }
  }

  /** Nullability of the branches, in order. */
  function Nullables(a: Alt): seq<bool>
    requires OkAlt(a)
  {
    [NullableBranch(a.branch)] + if a.Or? then Nullables(a.rest) else []
  }

  function AltDelta(a: Alt, run: nat): Delta
    requires OkAlt(a) && RunAlt(a, run).Some?
  {
    Delta(UnboundedAlt(a), VariableAlt(a), AmbiguousBranches(a), ClashesAlt(a), RunAlt(a, run).value)
  }

  /** The effect of an alternative on a group at the start of a branch. */
  predicate AltEffect(g: Group, a: Alt, g': Group)
    requires OkAlt(a) && RunAlt(a, g.run).Some?
  {
    && Adds(g, AltDelta(a, g.run), g')
    && g'.branchFirsts + [Flat(g'.branchFirst)] == g.branchFirsts + Firsts(a)
    && g'.branchNullables + [g'.branchNullable] == g.branchNullables + Nullables(a)
    && g'.sawAlternation == (g.sawAlternation || a.Or?)
  }

  lemma LastEffect(g: Group, a: Alt, g': Group)
    requires OkAlt(a) && a.Last? && FreshBranch(g) && Run(a.branch, g.run).Some?
    requires BranchEffect(g, a.branch, g')
    ensures AltEffect(g, a, g')
  {
    hide FirstBranch, Unbounded, Variable, AmbiguousBranch, Clashes, Run, NullableBranch;
    assert Firsts(a) == [Flat(FirstBranch(a.branch))];
    assert Nullables(a) == [NullableBranch(a.branch)];
  }

  lemma NextBranchAdds(g: Group, d: Delta, g': Group)
    requires Adds(g, d, g')
    ensures Adds(g, d, NextBranch(g'))
  {
  }

  lemma OrAdds(g: Group, a: Alt, g1: Group, g2: Group)
    requires OkAlt(a) && a.Or? && FreshBranch(g) && Run(a.branch, g.run).Some?
    requires BranchEffect(g, a.branch, g1)
    requires RunAlt(a.rest, g1.run).Some? && AltEffect(NextBranch(g1), a.rest, g2)
    ensures RunAlt(a, g.run) == RunAlt(a.rest, g1.run)
    ensures Adds(g, AltDelta(a, g.run), g2) && g2.sawAlternation
  {
    hide FirstBranch, Unbounded, Variable, AmbiguousBranch, Clashes, Run, NullableBranch, Adds, Firsts, Nullables, Flat;
    BranchRun(g, a.branch, g1);
    NextBranchAdds(g, BranchDelta(g, a.branch), g1);
    AddsThen(g, BranchDelta(g, a.branch), NextBranch(g1), AltDelta(a.rest, g1.run), g2);
    assert Then(BranchDelta(g, a.branch), AltDelta(a.rest, g1.run)) == AltDelta(a, g.run);
  }

  lemma Prepend<T>(before: seq<T>, x: T, rest: seq<T>, all: seq<T>, total: seq<T>)
    requires all == [x] + rest && total == (before + [x]) + rest
    ensures total == before + all
  {
  }

  lemma FreshJoin(g: Group, s: Branch, g': Group)
    requires OkBranch(s) && FreshBranch(g) && Run(s, g.run).Some? && BranchEffect(g, s, g')
    ensures g'.branchFirst == FirstBranch(s) && g'.branchNullable == NullableBranch(s)
    ensures g'.branchFirsts == g.branchFirsts && g'.branchNullables == g.branchNullables
  {
    hide Adds, BranchDelta, FirstBranch, NullableBranch, Run;
  }

  lemma OrLists(g: Group, a: Alt, g1: Group, g2: Group)
    requires OkAlt(a) && a.Or? && FreshBranch(g) && Run(a.branch, g.run).Some?
    requires BranchEffect(g, a.branch, g1)
    requires RunAlt(a.rest, g1.run).Some? && AltEffect(NextBranch(g1), a.rest, g2)
    ensures g2.branchFirsts + [Flat(g2.branchFirst)] == g.branchFirsts + Firsts(a)
    ensures g2.branchNullables + [g2.branchNullable] == g.branchNullables + Nullables(a)
  {
    FreshJoin(g, a.branch, g1);
    hide FirstBranch, Unbounded, Variable, AmbiguousBranch, Clashes, Run, NullableBranch, Adds, Then, BranchDelta, AltDelta,
         Flat, BranchEffect, RunAlt;
    Prepend(g.branchFirsts, Flat(g1.branchFirst), Firsts(a.rest), Firsts(a), g2.branchFirsts + [Flat(g2.branchFirst)]);
    Prepend(g.branchNullables, g1.branchNullable, Nullables(a.rest), Nullables(a), g2.branchNullables + [g2.branchNullable]);
  }

  lemma OrEffect(g: Group, a: Alt, g1: Group, g2: Group)
    requires OkAlt(a) && a.Or? && FreshBranch(g) && Run(a.branch, g.run).Some?
    requires BranchEffect(g, a.branch, g1)
    requires RunAlt(a.rest, g1.run).Some? && AltEffect(NextBranch(g1), a.rest, g2)
    ensures RunAlt(a, g.run) == RunAlt(a.rest, g1.run)
    ensures AltEffect(g, a, g2)
  {
    hide FirstBranch, Unbounded, Variable, AmbiguousBranch, Clashes, Run, NullableBranch, Adds, Then, BranchDelta,
         AltDelta, Firsts, Nullables, Flat, BranchEffect, RunAlt;
    OrAdds(g, a, g1, g2);
    OrLists(g, a, g1, g2);
  }

  lemma {:induction false} EvalAltAttributes(g: Group, a: Alt, at: nat)
    requires OkAlt(a) && FreshBranch(g)
    ensures var r := EvalAlt(g, a, at);
            && (r.Success? <==> SafeAlt(a) && RunAlt(a, g.run).Some?)
            && (r.Success? ==> AltEffect(g, a, r.value))
    decreases a, 0
  {
    hide EvalBranch, SafeBranch, Run, PrintBranch, BranchEffect, AltEffect;
    EvalBranchAttributes(g, a.branch, at);
    var r := EvalBranch(g, a.branch, at);
    if r.Success? {
      BranchRun(g, a.branch, r.value);
      if a.Last? {
        LastEffect(g, a, r.value);
      } else {
        var next := at + |PrintBranch(a.branch)| + 1;
        EvalAltAttributes(NextBranch(r.value), a.rest, next);
        var r' := EvalAlt(NextBranch(r.value), a.rest, next);
        if r'.Success? { OrEffect(g, a, r.value, r'.value); }
      }
    }
  }

  lemma BranchRun(g: Group, s: Branch, g': Group)
    requires OkBranch(s) && Run(s, g.run).Some? && BranchEffect(g, s, g')
    ensures g'.run == Run(s, g.run).value
  {
  }

  lemma {:induction false} NullablesAny(a: Alt)
    requires OkAlt(a)
    ensures true in Nullables(a) <==> NullableAlt(a)
    decreases a
  {
    hide NullableBranch;
    if a.Or? { NullablesAny(a.rest); }
  }

  /** Closing a group yields the attributes of its body. */
  lemma ClosedIsSummary(at: nat, a: Alt, g: Group)
    requires OkAlt(a)
    requires RunAlt(a, 0).Some? && AltEffect(NewGroup(at), a, g)
    ensures CloseGroup(g) == Summary(a, at)
  {
    hide FirstBranch, UnboundedAlt, VariableAlt, ClashesAlt, AmbiguousBranch, NullableBranch, BranchesDisjoint;
    NullablesAny(a);
    assert [] + Firsts(a) == Firsts(a) && [] + Nullables(a) == Nullables(a);
    if a.Last? {
      assert Nullables(a) == [NullableBranch(a.branch)];
      assert g.branchNullables + [g.branchNullable] == [NullableBranch(a.branch)];
      assert |g.branchNullables| == 0;
      assert Firsts(a) == [Flat(FirstBranch(a.branch))];
    }
  }
}
