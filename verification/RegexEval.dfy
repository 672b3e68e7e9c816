/** Bottom-up evaluation of a pattern's syntax tree with the scanner's bookkeeping, and the
    proof that scanning the printed pattern gives the same verdict. */
module RegexEval {
  import opened Wrappers
  import opened CharSets
  import opened RegexScanner
  import opened RegexSyntax

  /** The quantifier the scanner should read at `pos`. */
  function FormAt(form: QuantForm, pos: nat): Quantifier
    requires OkForm(form)
  {
    Quantifier(pos + |PrintQuantForm(form)| - 1, FormBounds(form).min, FormBounds(form).max)
  }

  function QuantOf(q: Quant, pos: nat): Option<Quantifier>
    requires OkQuant(q)
  {
    if q.Once? then None else Some(FormAt(q.form, pos))
  }

  function FirstOfAtom(a: Atom): Option<CharSet>
    requires OkAtom(a) && !a.Sub?
  {
    match a
    case Literal(c) => Some(SingleCharSet(c))
    case Dot => None
    case Anchor(_) => None
    case Escape(e) => Some(EscapeSet(e))
    case Class(negated, parts) => Some(ClassSet(negated, parts))
  }

  /** Evaluate one quantified atom that starts at `at`, inside group `g`. A group is
      evaluated on its own first; only its summary reaches the parent. */
  function EvalPiece(g: Group, atom: Atom, quant: Quant, at: nat): Result<Group, Finding>
    requires OkAtom(atom) && OkQuant(quant)
    decreases atom, 0
  {
    var q := QuantOf(quant, at + |PrintAtom(atom)|);
    if atom.Sub? then
      var body := EvalAlt(NewGroup(at), atom.body, at + |Opener(atom.kind)|);
      if body.Failure? then body
      else
        var c := CloseGroup(body.value);
        var verdict := RepeatFinding(c, q);
        if verdict.Some? then Failure(verdict.value) else MergeChild(g, c, q)
    else
      ApplyAtom(NoteQuantifier(g, q), FirstOfAtom(atom), atom.Anchor? || MinIsZero(q), at)
  }

  function EvalBranch(g: Group, s: Branch, at: nat): Result<Group, Finding>
    requires OkBranch(s)
    decreases s, 0
  {
    if s.Nil? then Success(g)
    else
      var r := EvalPiece(g, s.atom, s.quant, at);
      if r.Failure? then r
      else EvalBranch(r.value, s.rest, at + |PrintAtom(s.atom)| + |PrintQuant(s.quant)|)
  }

  function EvalAlt(g: Group, a: Alt, at: nat): Result<Group, Finding>
    requires OkAlt(a)
    decreases a, 0
  {
    var r := EvalBranch(g, a.branch, at);
    if a.Last? || r.Failure? then r
    else EvalAlt(NextBranch(r.value), a.rest, at + |PrintBranch(a.branch)| + 1)
  }

  /** The verdict on a whole pattern. */
  function Verdict(a: Alt): Outcome
    requires OkAlt(a)
  {
    var r := EvalAlt(NewGroup(0), a, 0);
    if r.Success? then Accepted else Report(PrintAlt(a), r.error)
  }

  // ---------------------------------------------------------------------------
  // Reading printed pieces back
  // ---------------------------------------------------------------------------

  /** `t` stands at position `at` of the pattern. */
  predicate TextAt(p: Pattern, at: nat, t: Pattern) {
    at + |t| <= |p| && p[at..at + |t|] == t
  }

  /** What follows cannot be taken for a quantifier. */
  predicate CleanTail(p: Pattern, at: int) {
    !IsQuantifierStart(At(p, at))
  }

  lemma TextSplit(p: Pattern, at: nat, a: Pattern, b: Pattern)
    requires TextAt(p, at, a + b)
    ensures TextAt(p, at, a) && TextAt(p, at + |a|, b)
  {
    assert p[at..at + |a|] == p[at..at + |a + b|][..|a|] == a;
    assert p[at + |a|..at + |a| + |b|] == p[at..at + |a + b|][|a|..] == b;
  }

  lemma TextIndex(p: Pattern, at: nat, t: Pattern)
    requires TextAt(p, at, t)
    ensures forall k :: 0 <= k < |t| ==> At(p, at + k) == t[k]
  {
    forall k | 0 <= k < |t|
      ensures At(p, at + k) == t[k]
    {
      assert p[at..at + |t|][k] == p[at + k];
    }
  }

  lemma {:induction false} DigitsEndAt(p: Pattern, i: nat, n: nat)
    requires i + n <= |p|
    requires forall k :: i <= k < i + n ==> IsDigit(At(p, k))
    requires !IsDigit(At(p, i + n))
    ensures DigitsEnd(p, i) == i + n
    decreases n
  {
    if n > 0 {
      assert IsDigit(At(p, i));
      DigitsEndAt(p, i + 1, n - 1);
    }
  }

  lemma NumberAt(p: Pattern, i: nat, n: Pattern)
    requires TextAt(p, i, n) && Digits(n) && !IsDigit(At(p, i + |n|))
    ensures DigitsEnd(p, i) == i + |n| && DecimalAt(p, i) == Decimal(n)
  {
    TextIndex(p, i, n);
    forall k | i <= k < i + |n| ensures IsDigit(At(p, k)) {
      assert At(p, i + (k - i)) == n[k - i];
    }
    DigitsEndAt(p, i, |n|);
  }

  /** An opening brace at `pos`, the digits of `n` and then `rest`. */
  lemma BraceNumber(p: Pattern, pos: nat, n: Pattern, rest: Pattern)
    requires Digits(n) && rest != [] && !IsDigit(rest[0])
    requires TextAt(p, pos, [LBRACE] + n + rest)
    ensures At(p, pos) == LBRACE && At(p, pos + 1 + |n|) == rest[0]
    ensures TextAt(p, pos + 1 + |n|, rest)
    ensures DigitsEnd(p, pos + 1) == pos + 1 + |n| && DecimalAt(p, pos + 1) == Decimal(n)
  {
    TextSplit(p, pos, [LBRACE] + n, rest);
    TextSplit(p, pos, [LBRACE], n);
    TextIndex(p, pos, [LBRACE]);
    assert At(p, pos + 0) == [LBRACE][0];
    TextIndex(p, pos + 1 + |n|, rest);
    assert At(p, pos + 1 + |n| + 0) == rest[0];
    NumberAt(p, pos + 1, n);
  }

  /** A comma at `d`, the digits of `m` and a closing brace. */
  lemma SecondNumber(p: Pattern, d: nat, m: Pattern)
    requires Digits(m) && TextAt(p, d, [COMMA] + m + [RBRACE])
    ensures DigitsEnd(p, d + 1) == d + 1 + |m| && DecimalAt(p, d + 1) == Decimal(m)
    ensures At(p, d + 1 + |m|) == RBRACE
  {
    TextSplit(p, d, [COMMA] + m, [RBRACE]);
    TextSplit(p, d, [COMMA], m);
    TextIndex(p, d + 1 + |m|, [RBRACE]);
    assert At(p, d + 1 + |m| + 0) == RBRACE;
    NumberAt(p, d + 1, m);
  }

  lemma ReadExactly(p: Pattern, pos: nat, d: nat)
    requires At(p, pos) == LBRACE && DigitsEnd(p, pos + 1) == d && d > pos + 1 && At(p, d) == RBRACE
    ensures QuantifierAt(p, pos) == Some(Quantifier(d, DecimalAt(p, pos + 1), Some(DecimalAt(p, pos + 1))))
  {
  }

  lemma ReadAtLeast(p: Pattern, pos: nat, d: nat)
    requires At(p, pos) == LBRACE && DigitsEnd(p, pos + 1) == d && d > pos + 1
    requires At(p, d) == COMMA && At(p, d + 1) == RBRACE
    ensures QuantifierAt(p, pos) == Some(Quantifier(d + 1, DecimalAt(p, pos + 1), None))
  {
  }

  lemma ReadBetween(p: Pattern, pos: nat, d: nat, d2: nat)
    requires At(p, pos) == LBRACE && DigitsEnd(p, pos + 1) == d && d > pos + 1
    requires At(p, d) == COMMA && DigitsEnd(p, d + 1) == d2 && d2 > d + 1 && At(p, d2) == RBRACE
    ensures QuantifierAt(p, pos) == Some(Quantifier(d2, DecimalAt(p, pos + 1), Some(DecimalAt(p, d + 1))))
  {
  }

  lemma ExactlyAt(p: Pattern, pos: nat, n: Pattern)
    requires Digits(n) && TextAt(p, pos, [LBRACE] + n + [RBRACE])
    ensures QuantifierAt(p, pos) == Some(Quantifier(pos + |n| + 1, Decimal(n), Some(Decimal(n))))
  {
    hide QuantifierAt, TextAt, Digits, At, DigitsEnd, DecimalAt, Decimal;
    BraceNumber(p, pos, n, [RBRACE]);
    NotEmpty(n);
    ReadExactly(p, pos, pos + 1 + |n|);
  }

  lemma AtLeastAt(p: Pattern, pos: nat, n: Pattern)
    requires Digits(n) && TextAt(p, pos, [LBRACE] + n + [COMMA, RBRACE])
    ensures QuantifierAt(p, pos) == Some(Quantifier(pos + |n| + 2, Decimal(n), None))
  {
    hide QuantifierAt, TextAt, Digits, At, DigitsEnd, DecimalAt, Decimal;
    var d := pos + 1 + |n|;
    BraceNumber(p, pos, n, [COMMA, RBRACE]);
    TextIndex(p, d, [COMMA, RBRACE]);
    assert At(p, d + 1) == [COMMA, RBRACE][1];
    NotEmpty(n);
    ReadAtLeast(p, pos, d);
  }

  lemma BetweenAt(p: Pattern, pos: nat, n: Pattern, m: Pattern)
    requires Digits(n) && Digits(m) && TextAt(p, pos, [LBRACE] + n + ([COMMA] + m + [RBRACE]))
    ensures QuantifierAt(p, pos) == Some(Quantifier(pos + |n| + |m| + 2, Decimal(n), Some(Decimal(m))))
  {
    hide QuantifierAt, TextAt, Digits, At, DigitsEnd, DecimalAt, Decimal;
    var d := pos + 1 + |n|;
    BraceNumber(p, pos, n, [COMMA] + m + [RBRACE]);
    SecondNumber(p, d, m);
    NotEmpty(m);
    NotEmpty(n);
    ReadBetween(p, pos, d, d + 1 + |m|);
  }

  lemma NotEmpty(n: Pattern)
    requires Digits(n)
    ensures |n| > 0
  {
  }

  lemma BracesAt(p: Pattern, pos: nat, form: QuantForm)
    requires OkForm(form) && !form.Star? && !form.Plus? && !form.Opt?
    requires TextAt(p, pos, [LBRACE] + form.n + BraceTail(form))
    ensures QuantifierAt(p, pos) ==
      Some(Quantifier(pos + |form.n| + |BraceTail(form)|, FormBounds(form).min, FormBounds(form).max))
  {
    hide QuantifierAt, TextAt, Digits, Decimal;
    match form
    case Exactly(n) => ExactlyAt(p, pos, n);
    case AtLeast(n) => AtLeastAt(p, pos, n);
    case Between(n, m) => BetweenAt(p, pos, n, m);
  }

  lemma OneSignAt(p: Pattern, pos: nat, form: QuantForm)
    requires (form.Star? || form.Plus? || form.Opt?) && TextAt(p, pos, PrintQuantForm(form))
    ensures OkForm(form) && QuantifierAt(p, pos) == Some(FormAt(form, pos))
  {
    hide DigitsEnd, DecimalAt;
    TextIndex(p, pos, PrintQuantForm(form));
    assert At(p, pos + 0) == PrintQuantForm(form)[0];
  }

  lemma FormReadBack(p: Pattern, pos: nat, form: QuantForm)
    requires OkForm(form) && TextAt(p, pos, PrintQuantForm(form))
    ensures QuantifierAt(p, pos) == Some(FormAt(form, pos))
  {
    hide QuantifierAt, TextAt, FormBounds;
    if form.Star? || form.Plus? || form.Opt? { OneSignAt(p, pos, form); } else { BracesAt(p, pos, form); }
  }

  lemma NothingToRead(p: Pattern, pos: nat)
    requires CleanTail(p, pos)
    ensures QuantifierAt(p, pos) == None
  {
  }

  /** What stands behind the form is the mark, or cannot be taken for one. */
  lemma MarkAt(p: Pattern, pos: nat, form: QuantForm, lazy: bool)
    requires TextAt(p, pos, PrintQuantForm(form) + if lazy then [QUESTION] else [])
    requires CleanTail(p, pos + |PrintQuantForm(form)| + if lazy then 1 else 0)
    ensures TextAt(p, pos, PrintQuantForm(form))
    ensures At(p, pos + |PrintQuantForm(form)|) == QUESTION <==> lazy
  {
    hide PrintQuantForm;
    var f, mark := PrintQuantForm(form), if lazy then [QUESTION] else [];
    TextSplit(p, pos, f, mark);
    TextIndex(p, pos + |f|, mark);
    if lazy { assert At(p, pos + |f| + 0) == mark[0]; }
  }

  /** The scanner reads a printed quantifier back and steps over its laziness mark. */
  lemma QuantAt(p: Pattern, pos: nat, quant: Quant)
    requires pos > 0 && OkQuant(quant) && TextAt(p, pos, PrintQuant(quant))
    requires CleanTail(p, pos + |PrintQuant(quant)|)
    ensures QuantifierAt(p, pos) == QuantOf(quant, pos)
    ensures QuantifierEnd(p, QuantOf(quant, pos), pos - 1) + 1 == pos + |PrintQuant(quant)|
  {
    hide QuantifierAt, TextAt, CleanTail, At, FormBounds, PrintQuantForm;
    if quant.Times? {
      MarkAt(p, pos, quant.form, quant.lazy);
      FormReadBack(p, pos, quant.form);
    } else {
      NothingToRead(p, pos);
    }
  }

  lemma EscapeAt(p: Pattern, at: nat, e: EscapeForm)
    requires OkEscape(e) && TextAt(p, at, PrintEscape(e))
    ensures ParseEscapeSet(p, at) == SetParse(Some(EscapeSet(e)), at + |PrintEscape(e)| - 1)
  {
    var t := PrintEscape(e);
    TextIndex(p, at, t);
    assert At(p, at + 1) == t[1];
    match e
    case Hex(_, _) => assert At(p, at + 2) == t[2] && At(p, at + 3) == t[3];
    case Wide(_, _, _, _) =>
      assert At(p, at + 2) == t[2] && At(p, at + 3) == t[3] && At(p, at + 4) == t[4] && At(p, at + 5) == t[5];
    case _ =>
  }

  // ---------------------------------------------------------------------------
  // Character classes
  // ---------------------------------------------------------------------------

  /** A set with two members is not taken for a single character. */
  lemma TwoMembers(s: CharSet, a: int, b: int)
    requires a != b && Has(s, a) && Has(s, b)
    ensures SingleOf(Some(s)) == None
  {
  }

  lemma PerlIsNotSingle(l: Code)
    requires OkEscape(Perl(l))
    ensures SingleOf(EscapeTable(l)) == None
  {
    hide Complement;
    if l in {0x44, 0x57, 0x53} {
      var s := if l == 0x44 then DIGIT_SET else if l == 0x57 then WORD_SET else SPACE_SET;
      forall c | 0 <= c <= 1 ensures Has(Complement(s), c) {
        ComplementExact(s, c);
      }
      TwoMembers(Complement(s), 0, 1);
    }
  }

  lemma ClassCharAt(p: Pattern, i: nat, a: ClassChar)
    requires OkClassChar(a) && TextAt(p, i, PrintClassChar(a))
    ensures i < |p| && p[i] != RBRACKET && (p[i] == if a.Raw? then a.c else BACKSLASH)
    ensures ParseClassAtom(p, i) == ClassAtom(if IsSingle(a) then Some(CodeOf(a)) else None,
              Some(ClassCharSet(a)), i + |PrintClassChar(a)| - 1)
  {
    TextIndex(p, i, PrintClassChar(a));
    assert At(p, i + 0) == PrintClassChar(a)[0];
    if a.Escaped? {
      EscapeAt(p, i, a.e);
      if a.e.Perl? { PerlIsNotSingle(a.e.letter); }
    }
  }

  /** No span can be read into a single character that is followed like this. */
  predicate NoSpanAfter(p: Pattern, e: nat) {
    At(p, e) != HYPHEN || At(p, e + 1) == RBRACKET
  }

  lemma SingleAt(p: Pattern, i: nat, a: ClassChar, acc: CharSet)
    requires OkClassChar(a) && TextAt(p, i, PrintClassChar(a))
    requires IsSingle(a) ==> NoSpanAfter(p, i + |PrintClassChar(a)|)
    ensures i < |p| && p[i] != RBRACKET
    ensures ClassItem(p, i, Some(acc)) == SetParse(Some(acc + ClassCharSet(a)), i + |PrintClassChar(a)|)
  {
    ClassCharAt(p, i, a);
  }

  lemma SpanAt(p: Pattern, i: nat, a: ClassChar, b: ClassChar, acc: CharSet)
    requires OkPart(Span(a, b)) && TextAt(p, i, PrintPart(Span(a, b)))
    ensures i < |p| && p[i] != RBRACKET
    ensures ClassItem(p, i, Some(acc))
         == SetParse(Some(acc + PartSet(Span(a, b))), i + |PrintPart(Span(a, b))|)
  {
    hide ParseClassAtom, PrintClassChar;
    var ta, tb := PrintClassChar(a), PrintClassChar(b);
    TextSplit(p, i, ta + [HYPHEN], tb);
    TextSplit(p, i, ta, [HYPHEN]);
    TextIndex(p, i + |ta|, [HYPHEN]);
    assert At(p, i + |ta| + 0) == HYPHEN;
    ClassCharAt(p, i, a);
    ClassCharAt(p, i + |ta| + 1, b);
  }

  lemma PartAt(p: Pattern, i: nat, x: ClassPart, acc: CharSet)
    requires OkPart(x) && TextAt(p, i, PrintPart(x))
    requires x.Single? && IsSingle(x.a) ==> NoSpanAfter(p, i + |PrintPart(x)|)
    ensures i < |p| && p[i] != RBRACKET
    ensures ClassItem(p, i, Some(acc)) == SetParse(Some(acc + PartSet(x)), i + |PrintPart(x)|)
  {
    hide ClassItem, PrintClassChar;
    if x.Single? { SingleAt(p, i, x.a, acc); } else { SpanAt(p, i, x.a, x.b, acc); }
  }

  lemma {:induction false} PartsAt(p: Pattern, i: nat, xs: seq<ClassPart>, acc: CharSet)
    requires OkParts(xs) && TextAt(p, i, PrintParts(xs) + [RBRACKET])
    ensures ClassItems(p, i, Some(acc)) == SetParse(Some(acc + PartsSet(xs)), i + |PrintParts(xs)|)
    decreases |xs|
  {
    hide ClassItem, PrintPart, PartSet, OkPart;
    if xs == [] {
      TextIndex(p, i, PrintParts(xs) + [RBRACKET]);
      assert At(p, i + 0) == RBRACKET;
      assert acc + PartsSet(xs) == acc;
    } else {
      var t := PrintPart(xs[0]);
      var e := i + |t|;
      assert PrintParts(xs) + [RBRACKET] == t + (PrintParts(xs[1..]) + [RBRACKET]);
      TextSplit(p, i, t, PrintParts(xs[1..]) + [RBRACKET]);
      if xs[0].Single? && IsSingle(xs[0].a) { FollowedWell(p, e, xs); }
      PartAt(p, i, xs[0], acc);
      PartsAt(p, e, xs[1..], acc + PartSet(xs[0]));
      assert acc + PartSet(xs[0]) + PartsSet(xs[1..]) == acc + PartsSet(xs);
    }
  }

  lemma FollowedWell(p: Pattern, e: nat, xs: seq<ClassPart>)
    requires xs != [] && OkParts(xs) && xs[0].Single? && IsSingle(xs[0].a)
    requires TextAt(p, e, PrintParts(xs[1..]) + [RBRACKET])
    ensures NoSpanAfter(p, e)
  {
    var rest := PrintParts(xs[1..]) + [RBRACKET];
    TextIndex(p, e, rest);
    assert At(p, e + 0) == rest[0];
    if |xs| > 1 {
      var y := xs[1..][0];
      assert OkPart(y) && y == xs[1];
      assert PrintParts(xs[1..]) == PrintPart(y) + PrintParts(xs[1..][1..]);
      assert rest[0] == PrintClassChar(y.a)[0];
      if rest[0] == HYPHEN {
        assert y.a == Raw(HYPHEN);
        assert xs[1..][1..] == [];
        assert rest == [HYPHEN, RBRACKET];
        assert At(p, e + 1) == rest[1];
      }
    }
  }

  /** The text of a class starts with a part, never with a caret of its own or a bracket. */
  lemma PartsStart(parts: seq<ClassPart>)
    requires parts != [] && OkParts(parts)
    ensures PrintParts(parts) != [] && PrintParts(parts)[0] != RBRACKET
    ensures PrintParts(parts)[0] == CARET ==> parts[0].a == Raw(CARET)
  {
    assert OkPart(parts[0]);
    assert PrintParts(parts)[0] == PrintClassChar(parts[0].a)[0];
  }

  lemma ClassBodyAt(p: Pattern, i: nat, parts: seq<ClassPart>)
    requires OkParts(parts) && TextAt(p, i, PrintParts(parts) + [RBRACKET])
    ensures At(p, i) == (PrintParts(parts) + [RBRACKET])[0]
    ensures parts == [] <==> At(p, i) == RBRACKET
    ensures ClassItems(p, i, Some([])) == SetParse(Some(PartsSet(parts)), i + |PrintParts(parts)|)
  {
    hide ClassItems, PartsSet;
    TextIndex(p, i, PrintParts(parts) + [RBRACKET]);
    assert At(p, i + 0) == (PrintParts(parts) + [RBRACKET])[0];
    if parts != [] { PartsStart(parts); }
    PartsAt(p, i, parts, []);
    assert [] + PartsSet(parts) == PartsSet(parts);
  }

  lemma ClassAt(p: Pattern, at: nat, negated: bool, parts: seq<ClassPart>)
    requires OkAtom(Class(negated, parts)) && TextAt(p, at, PrintAtom(Class(negated, parts)))
    ensures CharClass(p, at)
         == SetParse(Some(ClassSet(negated, parts)), at + |PrintAtom(Class(negated, parts))| - 1)
  {
    hide ClassItems, PrintPart, PrintParts, Complement, TextAt;
    var mark := if negated then [CARET] else [];
    var body := PrintParts(parts) + [RBRACKET];
    var i := at + 1 + |mark|;
    assert PrintAtom(Class(negated, parts)) == [LBRACKET] + mark + body;
    TextSplit(p, at, [LBRACKET] + mark, body);
    TextSplit(p, at, [LBRACKET], mark);
    TextIndex(p, at + 1, mark);
    if negated { assert At(p, at + 1 + 0) == mark[0]; }
    ClassBodyAt(p, i, parts);
    if parts != [] { PartsStart(parts); }
    if parts == [] { assert PartsSet(parts) == [] && PrintParts(parts) == []  by { NoParts(parts); } }
  }

  lemma NoParts(parts: seq<ClassPart>)
    requires parts == []
    ensures PartsSet(parts) == [] && PrintParts(parts) == []
  {
  }
}
