/** The stack scanner agrees with the bottom-up evaluation of the syntax tree. */
module RegexRefinement {
  import opened Wrappers
  import opened CharSets
  import opened RegexScanner
  import opened RegexSyntax
  import opened RegexEval

  /** Carry on scanning after an evaluated piece, or report its finding. */
  function Resume(p: Pattern, below: seq<Group>, r: Result<Group, Finding>, next: nat): Outcome {
    if r.Success? then ScanFrom(p, next, below + [r.value]) else Report(p, r.error)
  }

  /** A position the main loop visits, with the height of the stack there. */
  datatype Visit = Visit(at: nat, height: nat)

  /** Every position the scanner visits from `i` on. */
  function Trace(p: Pattern, i: nat, stack: Stack): seq<Visit>
    decreases |p| - i
  {
    if i >= |p| then []
    else
      var turn := ScanTurn(p, i, stack);
      [Visit(i, |stack|)] + (if turn.Stop? then [] else Trace(p, turn.next, turn.stack))
  }

  /** The positions a syntax tree of nesting depth `depth` prescribes: one per atom, group
      parenthesis and bar, each one level above its depth. */
  function PieceVisits(atom: Atom, at: nat, depth: nat): seq<Visit>
    decreases atom, 0
  {
    [Visit(at, depth + 1)] +
    if atom.Sub? then
      var start := at + |Opener(atom.kind)|;
      AltVisits(atom.body, start, depth + 1) + [Visit(start + |PrintAlt(atom.body)|, depth + 2)]
    else []
  }

  function BranchVisits(s: Branch, at: nat, depth: nat): seq<Visit>
    decreases s, 0
  {
    if s.Nil? then []
    else PieceVisits(s.atom, at, depth)
         + BranchVisits(s.rest, at + |PrintAtom(s.atom)| + |PrintQuant(s.quant)|, depth)
  }

  function AltVisits(a: Alt, at: nat, depth: nat): seq<Visit>
    decreases a, 0
  {
    BranchVisits(a.branch, at, depth) +
    if a.Last? then []
    else var bar := at + |PrintBranch(a.branch)|;
         [Visit(bar, depth + 1)] + AltVisits(a.rest, bar + 1, depth)
  }

  /** The scanner visits what the tree prescribes, up to the point where it reports. */
  predicate Follows(p: Pattern, at: nat, below: seq<Group>, g: Group,
                    r: Result<Group, Finding>, next: nat, visits: seq<Visit>)
  {
    var trace := Trace(p, at, below + [g]);
    if r.Success? then trace == visits + Trace(p, next, below + [r.value]) else trace <= visits
  }

  lemma StandStill(p: Pattern, at: nat, below: seq<Group>, g: Group)
    ensures Follows(p, at, below, g, Success(g), at, [])
  {
  }

  lemma FollowsOn(p: Pattern, at: nat, below: seq<Group>, g: Group, mid: nat, g': Group,
                  r: Result<Group, Finding>, next: nat, v: seq<Visit>, w: seq<Visit>)
    requires Follows(p, at, below, g, Success(g'), mid, v)
    requires Follows(p, mid, below, g', r, next, w)
    ensures Follows(p, at, below, g, r, next, v + w)
  {
    hide Trace;
    if r.Success? {
      var tail := Trace(p, next, below + [r.value]);
      assert v + (w + tail) == v + w + tail;
    }
  }

  lemma FollowsShort(p: Pattern, at: nat, below: seq<Group>, g: Group, f: Finding, mid: nat, next: nat,
                     v: seq<Visit>, w: seq<Visit>)
    requires Follows(p, at, below, g, Failure(f), mid, v)
    ensures Follows(p, at, below, g, Failure(f), next, v + w)
  {
    hide Trace;
  }

  lemma AtomStart(a: Atom)
    requires OkAtom(a)
    ensures PrintAtom(a) != [] && !IsQuantifierStart(PrintAtom(a)[0])
  {
  }

  lemma BranchStart(s: Branch)
    requires OkBranch(s) && PrintBranch(s) != []
    ensures !IsQuantifierStart(PrintBranch(s)[0])
  {
    if s.Cons? { AtomStart(s.atom); }
  }

  lemma AltStart(a: Alt)
    requires OkAlt(a) && PrintAlt(a) != []
    ensures !IsQuantifierStart(PrintAlt(a)[0])
  {
    if PrintBranch(a.branch) != [] { BranchStart(a.branch); }
  }

  // ---------------------------------------------------------------------------
  // One turn of the scanner on each kind of printed piece
  // ---------------------------------------------------------------------------

  lemma AtomTurnAt(p: Pattern, at: nat, end: nat, below: seq<Group>, g: Group,
                   first: Option<CharSet>, anchor: bool, quant: Quant)
    requires at <= end && OkQuant(quant)
    requires TextAt(p, end + 1, PrintQuant(quant)) && CleanTail(p, end + 1 + |PrintQuant(quant)|)
    ensures AtomTurn(p, at, end, below + [g], first, anchor)
         == var q := QuantOf(quant, end + 1);
            GoOrReport(p, below, ApplyAtom(NoteQuantifier(g, q), first, anchor || MinIsZero(q), at),
                       end + 1 + |PrintQuant(quant)|)
  {
    hide PrintQuant, OkQuant, TextAt, CleanTail, QuantOf, ApplyAtom, NoteQuantifier, QuantifierAt;
    QuantAt(p, end + 1, quant);
    assert (below + [g])[..|below|] == below;
  }

  /** The set and the span the scanner reads for an atom that is not a group. */
  lemma SimpleAtomTurn(p: Pattern, at: nat, stack: Stack, atom: Atom)
    requires OkAtom(atom) && !atom.Sub? && TextAt(p, at, PrintAtom(atom))
    ensures at < |p|
    ensures ScanTurn(p, at, stack)
         == AtomTurn(p, at, at + |PrintAtom(atom)| - 1, stack, FirstOfAtom(atom), atom.Anchor?)
  {
    hide AtomTurn, PrintEscape, EscapeSet, ParseEscapeSet, CharClass, ClassSet, PrintParts, OkParts, TextAt;
    TextIndex(p, at, PrintAtom(atom));
    AtomStart(atom);
    assert At(p, at + 0) == PrintAtom(atom)[0];
    match atom
    case Escape(e) => EscapeAt(p, at, e); EscapeText(e);
    case Class(negated, parts) => ClassAt(p, at, negated, parts);
    case _ =>
  }

  lemma EscapeText(e: EscapeForm)
    ensures |PrintEscape(e)| >= 2 && PrintEscape(e)[0] == BACKSLASH
  {
  }

  lemma SimplePieceTurn(p: Pattern, at: nat, below: seq<Group>, g: Group, atom: Atom, quant: Quant)
    requires OkAtom(atom) && !atom.Sub? && OkQuant(quant)
    requires TextAt(p, at, PrintAtom(atom) + PrintQuant(quant))
    requires CleanTail(p, at + |PrintAtom(atom)| + |PrintQuant(quant)|)
    ensures at < |p|
    ensures ScanTurn(p, at, below + [g])
         == GoOrReport(p, below, EvalPiece(g, atom, quant, at), at + |PrintAtom(atom)| + |PrintQuant(quant)|)
  {
    hide PrintQuant, PrintAtom, TextAt, CleanTail, ScanTurn, AtomTurn, ApplyAtom, FirstOfAtom, QuantOf, OkAtom, OkQuant;
    AtomStart(atom);
    TextSplit(p, at, PrintAtom(atom), PrintQuant(quant));
    SimpleAtomTurn(p, at, below + [g], atom);
    AtomTurnAt(p, at, at + |PrintAtom(atom)| - 1, below, g, FirstOfAtom(atom), atom.Anchor?, quant);
  }

  lemma {:induction false} GreaterAt(p: Pattern, i: nat, n: nat)
    requires i + n < |p| && p[i + n] == GREATER
    requires forall k :: i <= k < i + n ==> p[k] != GREATER
    ensures IndexOfGreater(p, i) == i + n
    decreases n
  {
    if n > 0 { GreaterAt(p, i + 1, n - 1); }
  }

  lemma OpenTurnAt(p: Pattern, at: nat, stack: Stack, kind: GroupKind)
    requires OkKind(kind) && TextAt(p, at, Opener(kind))
    requires kind.Capturing? ==> At(p, at + 1) != QUESTION
    ensures at < |p| && ScanTurn(p, at, stack) == Go(at + |Opener(kind)|, stack + [NewGroup(at)])
  {
    hide AtomTurn, CloseTurn, ParseEscapeSet, CharClass;
    var t := Opener(kind);
    TextIndex(p, at, t);
    assert At(p, at + 0) == t[0] == OPEN;
    if !kind.Capturing? {
      assert At(p, at + 1) == t[1] == QUESTION;
      assert At(p, at + 2) == t[2];
    }
    if kind.Named? {
      var n := |kind.name|;
      assert At(p, at + 3) == t[3] == kind.name[0];
      assert At(p, at + (3 + n)) == t[3 + n] == GREATER;
      forall k | at + 3 <= k < at + 3 + n ensures p[k] != GREATER {
        assert At(p, at + (k - at)) == t[k - at] == kind.name[k - at - 3];
      }
      GreaterAt(p, at + 3, n);
    }
  }

  lemma CloseTurnAt(p: Pattern, i: nat, below: seq<Group>, g: Group, child: Group, quant: Quant)
    requires OkQuant(quant) && At(p, i) == CLOSE
    requires TextAt(p, i + 1, PrintQuant(quant)) && CleanTail(p, i + 1 + |PrintQuant(quant)|)
    ensures ScanTurn(p, i, below + [g] + [child])
         == var q := QuantOf(quant, i + 1);
            var verdict := RepeatFinding(CloseGroup(child), q);
            if verdict.Some? then Stop(Report(p, verdict.value))
            else GoOrReport(p, below, MergeChild(g, CloseGroup(child), q), i + 1 + |PrintQuant(quant)|)
  {
    hide PrintQuant, OkQuant, TextAt, CleanTail, QuantOf, MergeChild, RepeatFinding, CloseGroup,
         QuantifierAt, AtomTurn, ParseEscapeSet, CharClass;
    QuantAt(p, i + 1, quant);
    var stack := below + [g] + [child];
    assert stack[..|stack| - 1] == below + [g];
    assert (below + [g])[..|below|] == below;
  }

  lemma BarTurnAt(p: Pattern, i: nat, below: seq<Group>, g: Group)
    requires At(p, i) == BAR
    ensures ScanTurn(p, i, below + [g]) == Go(i + 1, below + [NextBranch(g)])
  {
    hide AtomTurn, CloseTurn, ParseEscapeSet, CharClass, NextBranch;
    assert (below + [g])[..|below|] == below;
  }

  // ---------------------------------------------------------------------------
  // Whole pieces, branches and alternatives
  // ---------------------------------------------------------------------------

  lemma {:induction false} ScanPiece(p: Pattern, at: nat, below: seq<Group>, g: Group, atom: Atom, quant: Quant)
    requires OkAtom(atom) && OkQuant(quant)
    requires TextAt(p, at, PrintAtom(atom) + PrintQuant(quant))
    requires CleanTail(p, at + |PrintAtom(atom)| + |PrintQuant(quant)|)
    ensures ScanFrom(p, at, below + [g])
         == Resume(p, below, EvalPiece(g, atom, quant, at), at + |PrintAtom(atom)| + |PrintQuant(quant)|)
    ensures Follows(p, at, below, g, EvalPiece(g, atom, quant, at),
                    at + |PrintAtom(atom)| + |PrintQuant(quant)|, PieceVisits(atom, at, |below|))
    decreases atom, 0
  {
    hide PrintQuant, TextAt, CleanTail, OkQuant, Opener, PrintAlt, EvalPiece, Resume, Follows, PieceVisits, ScanFrom;
    if !atom.Sub? {
      SimplePiece(p, at, below, g, atom, quant);
    } else {
      var start := at + |Opener(atom.kind)|;
      GroupText(p, at, atom, quant);
      DelimiterIsClean(p, start + |PrintAlt(atom.body)|);
      ScanAlt(p, start, below + [g], NewGroup(at), atom.body);
      var r := EvalAlt(NewGroup(at), atom.body, start);
      if r.Success? {
        BodyDone(p, start, below + [g], NewGroup(at), r.value, start + |PrintAlt(atom.body)|,
                 AltVisits(atom.body, start, |below| + 1));
        GroupCloses(p, at, below, g, atom, quant, r.value);
      } else {
        BodyFails(p, below + [g], r.error, start + |PrintAlt(atom.body)|);
        GroupFails(p, at, below, g, atom, quant, r.error);
      }
    }
  }

  lemma SimplePiece(p: Pattern, at: nat, below: seq<Group>, g: Group, atom: Atom, quant: Quant)
    requires OkAtom(atom) && !atom.Sub? && OkQuant(quant)
    requires TextAt(p, at, PrintAtom(atom) + PrintQuant(quant))
    requires CleanTail(p, at + |PrintAtom(atom)| + |PrintQuant(quant)|)
    ensures ScanFrom(p, at, below + [g])
         == Resume(p, below, EvalPiece(g, atom, quant, at), at + |PrintAtom(atom)| + |PrintQuant(quant)|)
    ensures Follows(p, at, below, g, EvalPiece(g, atom, quant, at),
                    at + |PrintAtom(atom)| + |PrintQuant(quant)|, PieceVisits(atom, at, |below|))
  {
    hide PrintQuant, PrintAtom, TextAt, CleanTail, OkQuant, EvalPiece, ScanTurn, OkAtom;
    SimplePieceTurn(p, at, below, g, atom, quant);
    assert PieceVisits(atom, at, |below|) == [Visit(at, |below| + 1)];
  }

  lemma GroupVisits(atom: Atom, at: nat, depth: nat)
    requires atom.Sub?
    ensures var start := at + |Opener(atom.kind)|;
            PieceVisits(atom, at, depth)
            == [Visit(at, depth + 1)]
               + (AltVisits(atom.body, start, depth + 1) + [Visit(start + |PrintAlt(atom.body)|, depth + 2)])
  {
  }

  /** Three consecutive stretches of a trace. */
  lemma Bracket(whole: seq<Visit>, a: Visit, inner: seq<Visit>, afterOpen: seq<Visit>,
                b: Visit, afterBody: seq<Visit>, rest: seq<Visit>)
    requires whole == [a] + afterOpen && afterOpen == inner + afterBody && afterBody == [b] + rest
    ensures whole == ([a] + (inner + [b])) + rest
  {
  }

  lemma BracketPrefix(whole: seq<Visit>, a: Visit, inner: seq<Visit>, afterOpen: seq<Visit>, b: Visit)
    requires whole == [a] + afterOpen && afterOpen <= inner
    ensures whole <= [a] + (inner + [b])
  {
  }

  /** Unfold one turn of the scan and of its trace. */
  lemma OneTurn(p: Pattern, i: nat, stack: Stack)
    requires i < |p|
    ensures var turn := ScanTurn(p, i, stack);
            && ScanFrom(p, i, stack) == (if turn.Stop? then turn.outcome else ScanFrom(p, turn.next, turn.stack))
            && Trace(p, i, stack)
               == [Visit(i, |stack|)] + (if turn.Stop? then [] else Trace(p, turn.next, turn.stack))
  {
    hide ScanTurn;
  }

  lemma BodyDone(p: Pattern, start: nat, below: seq<Group>, g: Group, child: Group, close: nat, v: seq<Visit>)
    requires ScanFrom(p, start, below + [g]) == Resume(p, below, Success(child), close)
    requires Follows(p, start, below, g, Success(child), close, v)
    ensures ScanFrom(p, start, below + [g]) == ScanFrom(p, close, below + [child])
    ensures Trace(p, start, below + [g]) == v + Trace(p, close, below + [child])
  {
    hide ScanFrom, Trace;
  }

  lemma BodyFails(p: Pattern, below: seq<Group>, f: Finding, close: nat)
    ensures Resume(p, below, Failure(f), close) == Report(p, f)
  {
  }

  /** A group whose body is known to scan as it evaluates: one with a finding inside ... */
  lemma GroupFails(p: Pattern, at: nat, below: seq<Group>, g: Group, atom: Atom, quant: Quant, f: Finding)
    requires OkAtom(atom) && atom.Sub? && OkQuant(quant)
    requires TextAt(p, at, PrintAtom(atom) + PrintQuant(quant))
    requires var start := at + |Opener(atom.kind)|;
             var close := start + |PrintAlt(atom.body)|;
             && EvalAlt(NewGroup(at), atom.body, start) == Failure(f)
             && ScanFrom(p, start, below + [g] + [NewGroup(at)]) == Report(p, f)
             && Follows(p, start, below + [g], NewGroup(at), Failure(f), close,
                        AltVisits(atom.body, start, |below| + 1))
    ensures ScanFrom(p, at, below + [g])
         == Resume(p, below, EvalPiece(g, atom, quant, at), at + |PrintAtom(atom)| + |PrintQuant(quant)|)
    ensures Follows(p, at, below, g, EvalPiece(g, atom, quant, at),
                    at + |PrintAtom(atom)| + |PrintQuant(quant)|, PieceVisits(atom, at, |below|))
  {
    hide PrintQuant, TextAt, ScanTurn, CloseGroup, RepeatFinding, MergeChild, QuantOf, OkQuant, Opener,
         EvalAlt, AltVisits, PrintAlt, OkAlt, NewGroup, PrintAtom, ScanFrom, Trace, PieceVisits;
    var start := at + |Opener(atom.kind)|;
    GroupText(p, at, atom, quant);
    OpenTurnAt(p, at, below + [g], atom.kind);
    OneTurn(p, at, below + [g]);
    BracketPrefix(Trace(p, at, below + [g]), Visit(at, |below| + 1), AltVisits(atom.body, start, |below| + 1),
                  Trace(p, start, below + [g] + [NewGroup(at)]),
                  Visit(start + |PrintAlt(atom.body)|, |below| + 2));
    GroupVisits(atom, at, |below|);
  }

  /** ... and one that evaluates to `child`. */
  lemma GroupCloses(p: Pattern, at: nat, below: seq<Group>, g: Group, atom: Atom, quant: Quant, child: Group)
    requires OkAtom(atom) && atom.Sub? && OkQuant(quant)
    requires TextAt(p, at, PrintAtom(atom) + PrintQuant(quant))
    requires CleanTail(p, at + |PrintAtom(atom)| + |PrintQuant(quant)|)
    requires var start := at + |Opener(atom.kind)|;
             var close := start + |PrintAlt(atom.body)|;
             var stack := below + [g] + [child];
             && EvalAlt(NewGroup(at), atom.body, start) == Success(child)
             && ScanFrom(p, start, below + [g] + [NewGroup(at)]) == ScanFrom(p, close, stack)
             && Trace(p, start, below + [g] + [NewGroup(at)])
                == AltVisits(atom.body, start, |below| + 1) + Trace(p, close, stack)
    ensures ScanFrom(p, at, below + [g])
         == Resume(p, below, EvalPiece(g, atom, quant, at), at + |PrintAtom(atom)| + |PrintQuant(quant)|)
    ensures Follows(p, at, below, g, EvalPiece(g, atom, quant, at),
                    at + |PrintAtom(atom)| + |PrintQuant(quant)|, PieceVisits(atom, at, |below|))
  {
    hide PrintQuant, TextAt, CleanTail, ScanTurn, CloseGroup, RepeatFinding, MergeChild, QuantOf, OkQuant,
         Opener, EvalAlt, AltVisits, PrintAlt, OkAlt, NewGroup, PrintAtom, ScanFrom, Trace, PieceVisits;
    var start := at + |Opener(atom.kind)|;
    var close := start + |PrintAlt(atom.body)|;
    var stack := below + [g] + [child];
    GroupText(p, at, atom, quant);
    OpenTurnAt(p, at, below + [g], atom.kind);
    OneTurn(p, at, below + [g]);
    CloseTurnAt(p, close, below, g, child, quant);
    OneTurn(p, close, stack);
    var result := EvalPiece(g, atom, quant, at);
    var rest := if result.Success? then Trace(p, close + 1 + |PrintQuant(quant)|, below + [result.value]) else [];
    var whole := Trace(p, at, below + [g]);
    Bracket(whole, Visit(at, |below| + 1), AltVisits(atom.body, start, |below| + 1),
            Trace(p, start, below + [g] + [NewGroup(at)]), Visit(close, |below| + 2), Trace(p, close, stack), rest);
    GroupVisits(atom, at, |below|);
    assert result.Failure? ==> whole + [] == whole;
  }

  /** Where the parts of a printed group stand. */
  lemma GroupText(p: Pattern, at: nat, atom: Atom, quant: Quant)
    requires OkAtom(atom) && atom.Sub?
    requires TextAt(p, at, PrintAtom(atom) + PrintQuant(quant))
    ensures var open, body := Opener(atom.kind), PrintAlt(atom.body);
            && TextAt(p, at, open) && TextAt(p, at + |open|, body)
            && At(p, at + |open| + |body|) == CLOSE
            && |PrintAtom(atom)| == |open| + |body| + 1
            && TextAt(p, at + |PrintAtom(atom)|, PrintQuant(quant))
            && (atom.kind.Capturing? ==> At(p, at + 1) != QUESTION)
  {
    hide PrintQuant, PrintAlt, TextAt, OkAlt;
    var open, body := Opener(atom.kind), PrintAlt(atom.body);
    TextSplit(p, at, PrintAtom(atom), PrintQuant(quant));
    TextSplit(p, at, open + body, [CLOSE]);
    TextSplit(p, at, open, body);
    TextIndex(p, at + |open + body|, [CLOSE]);
    assert At(p, at + |open + body| + 0) == CLOSE;
    TextIndex(p, at + |open|, body);
    if atom.kind.Capturing? && body != [] {
      AltStart(atom.body);
      assert At(p, at + |open| + 0) == body[0];
    }
  }

  /** Neither the text of a branch nor what may follow it can be taken for a quantifier. */
  lemma CleanStart(p: Pattern, at: nat, s: Branch)
    requires OkBranch(s) && TextAt(p, at, PrintBranch(s)) && CleanTail(p, at + |PrintBranch(s)|)
    ensures CleanTail(p, at)
  {
    hide PrintBranch;
    if PrintBranch(s) != [] {
      BranchStart(s);
      TextIndex(p, at, PrintBranch(s));
      assert At(p, at + 0) == PrintBranch(s)[0];
    }
  }

  lemma {:induction false} ScanBranch(p: Pattern, at: nat, below: seq<Group>, g: Group, s: Branch)
    requires OkBranch(s)
    requires TextAt(p, at, PrintBranch(s)) && CleanTail(p, at + |PrintBranch(s)|)
    ensures ScanFrom(p, at, below + [g])
         == Resume(p, below, EvalBranch(g, s, at), at + |PrintBranch(s)|)
    ensures Follows(p, at, below, g, EvalBranch(g, s, at), at + |PrintBranch(s)|, BranchVisits(s, at, |below|))
    decreases s, 0
  {
    hide PrintQuant, TextAt, CleanTail, EvalPiece, PrintAtom, OkQuant, ScanFrom, Follows, PieceVisits;
    if s.Nil? { StandStill(p, at, below, g); }
    if s.Cons? {
      var ta, tq, rest := PrintAtom(s.atom), PrintQuant(s.quant), PrintBranch(s.rest);
      TextSplit(p, at, ta + tq, rest);
      assert |ta + tq| == |ta| + |tq|;
      CleanStart(p, at + |ta| + |tq|, s.rest);
      ScanPiece(p, at, below, g, s.atom, s.quant);
      var r := EvalPiece(g, s.atom, s.quant, at);
      var mid, next := at + |ta| + |tq|, at + |PrintBranch(s)|;
      var v, w := PieceVisits(s.atom, at, |below|), BranchVisits(s.rest, mid, |below|);
      if r.Success? {
        ScanBranch(p, mid, below, r.value, s.rest);
        FollowsOn(p, at, below, g, mid, r.value, EvalBranch(r.value, s.rest, mid), next, v, w);
      } else {
        FollowsShort(p, at, below, g, r.error, mid, next, v, w);
      }
    }
  }

  lemma {:induction false} ScanAlt(p: Pattern, at: nat, below: seq<Group>, g: Group, a: Alt)
    requires OkAlt(a)
    requires TextAt(p, at, PrintAlt(a)) && CleanTail(p, at + |PrintAlt(a)|)
    ensures ScanFrom(p, at, below + [g])
         == Resume(p, below, EvalAlt(g, a, at), at + |PrintAlt(a)|)
    ensures Follows(p, at, below, g, EvalAlt(g, a, at), at + |PrintAlt(a)|, AltVisits(a, at, |below|))
    decreases a, 0
  {
    hide TextAt, CleanTail, EvalBranch, PrintBranch, ScanTurn, NextBranch, Follows, BranchVisits;
    match a
    case Last(s) =>
      ScanBranch(p, at, below, g, s);
      assert AltVisits(a, at, |below|) == BranchVisits(s, at, |below|);
    case Or(s, rest) =>
      var ts, tr := PrintBranch(s), PrintAlt(rest);
      var bar := at + |ts|;
      TextSplit(p, at, ts + [BAR], tr);
      TextSplit(p, at, ts, [BAR]);
      TextIndex(p, bar, [BAR]);
      assert At(p, bar + 0) == BAR;
      assert |ts + [BAR]| == |ts| + 1;
      assert CleanTail(p, bar) by { DelimiterIsClean(p, bar); }
      ScanBranch(p, at, below, g, s);
      var r := EvalBranch(g, s, at);
      var next := at + |PrintAlt(a)|;
      var v, b := BranchVisits(s, at, |below|), [Visit(bar, |below| + 1)];
      var w := AltVisits(rest, bar + 1, |below|);
      if r.Success? {
        var g' := NextBranch(r.value);
        BarTurnAt(p, bar, below, r.value);
        ScanAlt(p, bar + 1, below, g', rest);
        BarTrace(p, bar, below, r.value, g');
        FollowsOn(p, bar, below, r.value, bar + 1, g', EvalAlt(g', rest, bar + 1), next, b, w);
        FollowsOn(p, at, below, g, bar, r.value, EvalAlt(g', rest, bar + 1), next, v, b + w);
      } else {
        FollowsShort(p, at, below, g, r.error, bar, next, v, b + w);
      }
  }

  lemma BarTrace(p: Pattern, bar: nat, below: seq<Group>, g: Group, g': Group)
    requires bar < |p| && ScanTurn(p, bar, below + [g]) == Go(bar + 1, below + [g'])
    ensures Follows(p, bar, below, g, Success(g'), bar + 1, [Visit(bar, |below| + 1)])
  {
    hide ScanTurn;
  }

  lemma DelimiterIsClean(p: Pattern, i: int)
    requires At(p, i) == BAR || At(p, i) == CLOSE
    ensures CleanTail(p, i)
  {
  }

  /** Scanning the printed form of any pattern of the fragment returns exactly the verdict
      of the bottom-up evaluation; in particular the scan never fails on it. */
  lemma {:induction false} ScannerRefinesEvaluation(a: Alt)
    requires OkAlt(a)
    ensures Scan(PrintAlt(a)) == Verdict(a)
    ensures Scan(PrintAlt(a)) != Malformed
  {
    hide ScanFrom, EvalAlt, PrintAlt, Follows;
    ScanWhole(a);
    var r := EvalAlt(NewGroup(0), a, 0);
    if r.Success? { ScanEnd(|PrintAlt(a)|, PrintAlt(a), [] + [r.value]); }
  }

  lemma ScanWhole(a: Alt)
    requires OkAlt(a)
    ensures var p, r := PrintAlt(a), EvalAlt(NewGroup(0), a, 0);
            && ScanFrom(p, 0, [NewGroup(0)]) == Resume(p, [], r, |p|)
            && Follows(p, 0, [], NewGroup(0), r, |p|, AltVisits(a, 0, 0))
  {
    hide ScanFrom, EvalAlt, PrintAlt, Follows;
    var p := PrintAlt(a);
    assert p[0..0 + |p|] == p;
    assert [] + [NewGroup(0)] == [NewGroup(0)];
    ScanAlt(p, 0, [], NewGroup(0), a);
  }

  lemma ScanEnd(i: nat, p: Pattern, stack: Stack)
    requires i >= |p|
    ensures ScanFrom(p, i, stack) == Accepted && Trace(p, i, stack) == []
  {
  }

  /** The scanner visits the tree's positions in order, with a stack one higher than the
      nesting depth at each of them: all of them when it accepts, a prefix when it reports. */
  lemma {:induction false} StackFollowsNesting(a: Alt)
    requires OkAlt(a)
    ensures Trace(PrintAlt(a), 0, [NewGroup(0)]) <= AltVisits(a, 0, 0)
    ensures Scan(PrintAlt(a)) == Accepted ==> Trace(PrintAlt(a), 0, [NewGroup(0)]) == AltVisits(a, 0, 0)
  {
    hide ScanFrom, EvalAlt, PrintAlt, Trace, AltVisits;
    ScanWhole(a);
    var p, r := PrintAlt(a), EvalAlt(NewGroup(0), a, 0);
    assert [] + [NewGroup(0)] == [NewGroup(0)];
    if r.Success? { ScanEnd(|p|, p, [] + [r.value]); }
  }

  predicate Increasing(t: seq<Visit>) {
    forall m, n :: 0 <= m < n < |t| ==> t[m].at < t[n].at
  }

  /** Positions are visited in strictly increasing order, on any pattern. */
  lemma {:induction false} TraceIncreases(p: Pattern, i: nat, stack: Stack)
    ensures Increasing(Trace(p, i, stack))
    ensures forall k :: 0 <= k < |Trace(p, i, stack)| ==> i <= Trace(p, i, stack)[k].at < |p|
    decreases |p| - i
  {
    hide ScanTurn;
    if i < |p| {
      var turn := ScanTurn(p, i, stack);
      if turn.Go? {
        TraceIncreases(p, turn.next, turn.stack);
        assert Trace(p, i, stack) == [Visit(i, |stack|)] + Trace(p, turn.next, turn.stack);
      }
    }
  }
}
