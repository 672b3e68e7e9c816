/** What a rejection blames: the reported construct is a group of the pattern with its
    quantifier, and that group has the fault that the report names. */
module RegexBlame {
  import opened Wrappers
  import opened CharSets
  import opened RegexScanner
  import opened RegexSyntax
  import opened RegexEval
  import opened RegexRefinement
  import opened RegexSemantics
  import opened RegexShape
  import opened RegexSoundness
  import opened RegexPrecision
  import opened RegexAcceptance

  // ---------------------------------------------------------------------------
  // Faults as the scanner's attributes
  // ---------------------------------------------------------------------------

  predicate Large(b: Bounds) { b.max.None? || b.max.value >= 8 }

  predicate HasFault(body: Alt, b: Bounds, kind: Kind)
    requires OkAlt(body)
  {
    && (b.max.None? || b.max.value >= 2)
    && match kind
       case NestedQuantifier => UnboundedAlt(body) || (Large(b) && VariableAlt(body))
       case AmbiguousAlternation => AmbiguousAlt(body) && !UnboundedAlt(body)
       case AmbiguousRepeat =>
         && !UnboundedAlt(body) && !AmbiguousAlt(body)
         && (ClashesAlt(body) || (Large(b) && (b.max.Some? || b.min >= 8) && NullableAlt(body)))
  }

  /** The text blamed is this group with its quantifier, up to a laziness mark. */
  predicate NamesGroup(p: Pattern, f: Finding, gk: GroupKind, body: Alt, quant: Quant) {
    quant.Times? && Slice(p, f.from, f.to) == PrintAtom(Sub(gk, body)) + PrintQuantForm(quant.form)
  }

  /** The group is at fault itself, or it has a required piece behind eight nullable ones. */
  predicate Blamed(p: Pattern, f: Finding, gk: GroupKind, body: Alt, quant: Quant) {
    && OkAlt(body) && OkQuant(quant)
    && ((NamesGroup(p, f, gk, body, quant) && HasFault(body, BoundsOf(quant), f.kind))
        || (f.kind.AmbiguousRepeat? && RunAlt(body, 0).None?))
  }

  ghost predicate BlamedInBranch(p: Pattern, f: Finding, s: Branch) {
    exists gk, body, quant :: InBranch(Sub(gk, body), quant, s) && Blamed(p, f, gk, body, quant)
  }

  ghost predicate BlamedInAlt(p: Pattern, f: Finding, a: Alt) {
    exists gk, body, quant :: InAlt(Sub(gk, body), quant, a) && Blamed(p, f, gk, body, quant)
  }

  // ---------------------------------------------------------------------------
  // Every finding has its group
  // ---------------------------------------------------------------------------

  lemma FaultFound(body: Alt, at: nat, quant: Quant, q: Option<Quantifier>)
    requires OkAlt(body) && OkQuant(quant) && Reads(quant, q) && RepeatFinding(Summary(body, at), q).Some?
    ensures var f := RepeatFinding(Summary(body, at), q).value;
            && quant.Times? && f.from == at && f.to == q.value.end + 1
            && HasFault(body, BoundsOf(quant), f.kind)
  {
    hide UnboundedAlt, AmbiguousAlt, VariableAlt, ClashesAlt, NullableAlt, FirstAlt, FormBounds;
  }

  lemma ConstructText(p: Pattern, at: nat, gk: GroupKind, body: Alt, quant: Quant, f: Finding)
    requires quant.Times? && TextAt(p, at, PrintAtom(Sub(gk, body)) + PrintQuant(quant))
    requires f.from == at && f.to == at + |PrintAtom(Sub(gk, body))| + |PrintQuantForm(quant.form)|
    ensures NamesGroup(p, f, gk, body, quant)
  {
    hide PrintAtom, PrintQuantForm;
    var atom, form := PrintAtom(Sub(gk, body)), PrintQuantForm(quant.form);
    var mark := if quant.lazy then [QUESTION] else [];
    assert atom + PrintQuant(quant) == (atom + form) + mark;
    TextSplit(p, at, atom + form, mark);
  }

  lemma FormEnd(form: QuantForm, pos: nat)
    requires OkForm(form)
    ensures FormAt(form, pos).end + 1 == pos + |PrintQuantForm(form)|
  {
  }

  lemma {:induction false} PieceBlame(p: Pattern, g: Group, atom: Atom, quant: Quant, at: nat)
    requires OkAtom(atom) && OkQuant(quant) && TextAt(p, at, PrintAtom(atom) + PrintQuant(quant))
    requires EvalPiece(g, atom, quant, at).Failure?
    ensures var f := EvalPiece(g, atom, quant, at).error;
            || (atom.Sub? && (Blamed(p, f, atom.kind, atom.body, quant) || BlamedInAlt(p, f, atom.body)))
            || (f.kind.AmbiguousRepeat? && !NullablePiece(atom, quant) && g.run >= 8)
    decreases atom, 0
  {
    hide CloseGroup, EvalAlt, RunAlt, RepeatFinding, MergeChild, NullablePiece, FormBounds, FormAt, OkForm, PrintQuantForm,
         AltEffect, Summary, BlamedInAlt, HasFault, NamesGroup, SafeAlt, RepeatOk, PrintAlt, OkKind, SafeAtom, PrintQuant,
         PieceEffect, TextAt;
    EvalPieceAttributes(g, atom, quant, at);
    if atom.Sub? {
      var q, start := QuantOf(quant, at + |PrintAtom(atom)|), at + |Opener(atom.kind)|;
      TextSplit(p, at, PrintAtom(atom), PrintQuant(quant));
      BodyText(p, at, atom.kind, atom.body);
      EvalAltAttributes(NewGroup(at), atom.body, start);
      var body := EvalAlt(NewGroup(at), atom.body, start);
      if body.Failure? {
        AltBlame(p, NewGroup(at), atom.body, start);
      } else {
        ClosedIsSummary(at, atom.body, body.value);
        QuantReads(quant, at + |PrintAtom(atom)|);
        RepeatFindingIff(atom.body, at, quant, q);
        var c := CloseGroup(body.value);
        if RepeatFinding(c, q).Some? {
          FaultFound(atom.body, at, quant, q);
          FormEnd(quant.form, at + |PrintAtom(atom)|);
          ConstructText(p, at, atom.kind, atom.body, quant, RepeatFinding(c, q).value);
        } else {
          MergeAttributes(g, atom, quant, at, q);
          MergeKind(g, c, q);
        }
      }
    } else {
      SimpleAttributes(g, atom, quant, at);
      SimpleKind(g, atom, quant, at);
    }
  }

  lemma BodyText(p: Pattern, at: nat, gk: GroupKind, body: Alt)
    requires TextAt(p, at, PrintAtom(Sub(gk, body)))
    ensures TextAt(p, at + |Opener(gk)|, PrintAlt(body))
  {
    hide PrintAlt, Opener, TextAt;
    TextSplit(p, at, Opener(gk) + PrintAlt(body), [CLOSE]);
    TextSplit(p, at, Opener(gk), PrintAlt(body));
  }

  lemma MergeKind(parent: Group, c: Closed, q: Option<Quantifier>)
    ensures MergeChild(parent, c, q).Failure? ==> MergeChild(parent, c, q).error.kind == AmbiguousRepeat
  {
  }

  lemma SimpleKind(g: Group, atom: Atom, quant: Quant, at: nat)
    requires OkAtom(atom) && OkQuant(quant) && !atom.Sub?
    ensures var r := EvalPiece(g, atom, quant, at); r.Failure? ==> r.error.kind == AmbiguousRepeat
  {
  }

  lemma {:induction false} BranchBlame(p: Pattern, g: Group, s: Branch, at: nat)
    requires OkBranch(s) && TextAt(p, at, PrintBranch(s)) && (g.branchFirst.None? ==> g.branchNullable)
    requires EvalBranch(g, s, at).Failure?
    ensures var f := EvalBranch(g, s, at).error;
            BlamedInBranch(p, f, s) || (f.kind.AmbiguousRepeat? && Run(s, g.run).None?)
    decreases s, 0
  {
    hide EvalPiece, SafeAtom, NullablePiece, PrintAtom, PrintQuant, PieceEffect, BranchEffect, InAlt, Blamed, OkKind, TextAt;
    var r := EvalPiece(g, s.atom, s.quant, at);
    var next := at + |PrintAtom(s.atom)| + |PrintQuant(s.quant)|;
    TextSplit(p, at, PrintAtom(s.atom) + PrintQuant(s.quant), PrintBranch(s.rest));
    EvalPieceAttributes(g, s.atom, s.quant, at);
    if r.Failure? {
      PieceBlame(p, g, s.atom, s.quant, at);
      if s.atom.Sub? { InFirst(p, r.error, s); }
    } else {
      PieceRun(g, s.atom, s.quant, r.value);
      PieceFirst(g, s.atom, s.quant, r.value);
      BranchBlame(p, r.value, s.rest, next);
      var f := EvalBranch(r.value, s.rest, next).error;
      if BlamedInBranch(p, f, s.rest) { InRest(p, f, s); }
    }
  }

  lemma PieceFirst(g: Group, atom: Atom, quant: Quant, g': Group)
    requires OkAtom(atom) && OkQuant(quant) && PieceEffect(g, atom, quant, g')
    ensures g'.branchFirst.Some?
  {
    hide FirstAtom, NullablePiece, Adds, PieceDelta;
  }

  lemma InFirst(p: Pattern, f: Finding, s: Branch)
    requires s.Cons? && s.atom.Sub?
    ensures Blamed(p, f, s.atom.kind, s.atom.body, s.quant) || BlamedInAlt(p, f, s.atom.body) ==> BlamedInBranch(p, f, s)
  {
    hide Blamed, InAlt;
    if Blamed(p, f, s.atom.kind, s.atom.body, s.quant) { assert InBranch(Sub(s.atom.kind, s.atom.body), s.quant, s); }
    if BlamedInAlt(p, f, s.atom.body) {
      var gk, body, quant :| InAlt(Sub(gk, body), quant, s.atom.body) && Blamed(p, f, gk, body, quant);
      assert InBranch(Sub(gk, body), quant, s);
    }
  }

  lemma InRest(p: Pattern, f: Finding, s: Branch)
    requires s.Cons? && BlamedInBranch(p, f, s.rest)
    ensures BlamedInBranch(p, f, s)
  {
    hide Blamed, InAlt;
    var gk, body, quant :| InBranch(Sub(gk, body), quant, s.rest) && Blamed(p, f, gk, body, quant);
    assert InBranch(Sub(gk, body), quant, s);
  }

  lemma {:induction false} AltBlame(p: Pattern, g: Group, a: Alt, at: nat)
    requires OkAlt(a) && FreshBranch(g) && TextAt(p, at, PrintAlt(a)) && EvalAlt(g, a, at).Failure?
    ensures var f := EvalAlt(g, a, at).error;
            BlamedInAlt(p, f, a) || (f.kind.AmbiguousRepeat? && RunAlt(a, g.run).None?)
    decreases a, 0
  {
    hide EvalBranch, SafeBranch, Run, PrintBranch, BranchEffect, AltEffect, BlamedInBranch, BlamedInAlt, OkBranch, TextAt;
    var r := EvalBranch(g, a.branch, at);
    EvalBranchAttributes(g, a.branch, at);
    if a.Or? {
      TextSplit(p, at, PrintBranch(a.branch) + [BAR], PrintAlt(a.rest));
      TextSplit(p, at, PrintBranch(a.branch), [BAR]);
    }
    if r.Failure? {
      BranchBlame(p, g, a.branch, at);
      if BlamedInBranch(p, r.error, a.branch) { InThisBranch(p, r.error, a); }
    } else {
      BranchRun(g, a.branch, r.value);
      var next := at + |PrintBranch(a.branch)| + 1;
      AltBlame(p, NextBranch(r.value), a.rest, next);
      var f := EvalAlt(NextBranch(r.value), a.rest, next).error;
      if BlamedInAlt(p, f, a.rest) { InLaterBranch(p, f, a); }
    }
  }

  lemma InThisBranch(p: Pattern, f: Finding, a: Alt)
    requires BlamedInBranch(p, f, a.branch)
    ensures BlamedInAlt(p, f, a)
  {
    hide Blamed, InBranch;
    var gk, body, quant :| InBranch(Sub(gk, body), quant, a.branch) && Blamed(p, f, gk, body, quant);
    assert InAlt(Sub(gk, body), quant, a);
  }

  lemma InLaterBranch(p: Pattern, f: Finding, a: Alt)
    requires a.Or? && BlamedInAlt(p, f, a.rest)
    ensures BlamedInAlt(p, f, a)
  {
    hide Blamed, InBranch;
    var gk, body, quant :| InAlt(Sub(gk, body), quant, a.rest) && Blamed(p, f, gk, body, quant);
    assert InAlt(Sub(gk, body), quant, a);
  }

  // ---------------------------------------------------------------------------
  // In words
  // ---------------------------------------------------------------------------

  /** The fault that each kind names, in terms of what the body matches. An alternation is
      blamed when it may not be told apart by first characters, which no alternation of plain
      branches that are apart is; a split is then blamed when it is truly ambiguous. */
  ghost predicate FaultInWords(body: Alt, b: Bounds, kind: Kind)
    requires OkAlt(body)
  {
    && (b.max.None? || b.max.value >= 2)
    && match kind
       case NestedQuantifier => !NoneUnbounded(body) || (Large(b) && !NoneVariable(body))
       case AmbiguousAlternation => NoneUnbounded(body) && (PlainAlt(body) ==> !BranchesApart(body) || !ApartAlt(body))
       case AmbiguousRepeat =>
         && NoneUnbounded(body)
         && (|| (Large(b) && (b.max.Some? || b.min >= 8) && MatchAlt(body, []))
             || (PlainAlt(body) && ApartAlt(body) ==> BlurredAlt(body)))
  }

  lemma FaultMeans(body: Alt, b: Bounds, kind: Kind)
    requires OkAlt(body) && HasFault(body, b, kind)
    ensures FaultInWords(body, b, kind)
  {
    hide UnboundedAlt, AmbiguousAlt, VariableAlt, ClashesAlt, NullableAlt, MatchAlt, NoneUnbounded, NoneVariable, PlainAlt,
         BranchesApart, ApartAlt, BlurredAlt;
    UnboundedExact(body);
    VariableExact(body);
    NullableAltExact(body);
    if PlainAlt(body) && ApartAlt(body) {
      ClashesExact(body);
      if BranchesApart(body) { ApartNotAmbiguous(body); }
    }
  }

  /** The report is about this group: its text with its quantifier, and the fault it names. */
  ghost predicate ReportsGroup(kind: Kind, construct: Pattern, gk: GroupKind, body: Alt, quant: Quant) {
    && OkAlt(body) && OkQuant(quant) && quant.Times?
    && construct == PrintAtom(Sub(gk, body)) + PrintQuantForm(quant.form)
    && FaultInWords(body, BoundsOf(quant), kind)
  }

  ghost predicate SomeLongRun(a: Alt)
    requires OkAlt(a)
  {
    LongRun(a) || exists gk, body, quant :: InAlt(Sub(gk, body), quant, a) && OkAlt(body) && LongRun(body)
  }

  /** Every rejection is right about what it blames: the construct reported is the text of a
      repeated group of the pattern, and that group has the fault named; or an ambiguous repeat
      is reported and some body has a required piece behind eight that may be left out. */
  lemma RejectionBlamesRightly(a: Alt, kind: Kind, construct: Pattern)
    requires OkAlt(a) && Scan(PrintAlt(a)) == Rejected(kind, construct)
    ensures || (exists gk, body, quant :: InAlt(Sub(gk, body), quant, a) && ReportsGroup(kind, construct, gk, body, quant))
            || (kind == AmbiguousRepeat && SomeLongRun(a))
  {
    hide Scan, EvalAlt, InAlt, RunAlt, LongRun, PrintAlt, PrintAtom, PrintQuantForm, HasFault, FaultInWords;
    ScannerRefinesEvaluation(a);
    var p := PrintAlt(a);
    var f := EvalAlt(NewGroup(0), a, 0).error;
    assert p[0..0 + |p|] == p;
    AltBlame(p, NewGroup(0), a, 0);
    if BlamedInAlt(p, f, a) {
      var gk, body, quant :| InAlt(Sub(gk, body), quant, a) && Blamed(p, f, gk, body, quant);
      if NamesGroup(p, f, gk, body, quant) && HasFault(body, BoundsOf(quant), f.kind) {
        FaultMeans(body, BoundsOf(quant), f.kind);
        assert ReportsGroup(kind, construct, gk, body, quant);
      } else {
        LongRunExact(body);
      }
    } else {
      LongRunExact(a);
    }
  }
}
