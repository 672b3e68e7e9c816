/** What the patterns of the fragment match: the set of words of every syntax tree. */
module RegexSemantics {
  import opened Wrappers
  import opened CharSets
  import opened RegexScanner
  import opened RegexSyntax

  type Word = seq<Code>

  predicate IsLineTerminator(c: int) { c in {0x0a, 0x0d, 0x2028, 0x2029} }

  /** WhiteSpace and LineTerminator of ECMA-262, section 12. */
  predicate IsSpace(c: int) {
    || c in {0x09, 0x0b, 0x0c, 0xfeff}
    || c in {0x20, 0xa0, 0x1680, 0x202f, 0x205f, 0x3000}
    || 0x2000 <= c <= 0x200a
    || IsLineTerminator(c)
  }

  predicate IsWord(c: int) { IsAlnum(c) || c == 0x5f }

  /** The characters an escape stands for. */
  predicate EscapeHas(e: EscapeForm, c: Code)
    requires OkEscape(e)
  {
    match e
    case Perl(l) =>
      if l == 0x64 then IsDigit(c) else if l == 0x44 then !IsDigit(c)
      else if l == 0x77 then IsWord(c) else if l == 0x57 then !IsWord(c)
      else if l == 0x73 then IsSpace(c) else !IsSpace(c)
    case _ => c == CodeOf(Escaped(e))
  }

  predicate PartHas(x: ClassPart, c: Code)
    requires OkPart(x)
  {
    match x
    case Single(Raw(d)) => c == d
    case Single(Escaped(e)) => EscapeHas(e, c)
    case Span(a, b) => CodeOf(a) <= c <= CodeOf(b)
  }

  predicate PartsHave(xs: seq<ClassPart>, c: Code)
    requires OkParts(xs)
  {
    xs != [] && (PartHas(xs[0], c) || PartsHave(xs[1..], c))
  }

  /** `w` is in the language of the atom. Anchors consume nothing. */
  ghost predicate MatchAtom(a: Atom, w: Word)
    requires OkAtom(a)
    decreases a, 1, 0
  {
    match a
    case Literal(c) => w == [c]
    case Dot => |w| == 1 && !IsLineTerminator(w[0])
    case Anchor(_) => w == []
    case Escape(e) => |w| == 1 && EscapeHas(e, w[0])
    case Class(negated, parts) => |w| == 1 && PartsHave(parts, w[0]) == !negated
    case Sub(_, body) => MatchAlt(body, w)
  }

  /** `n` words of the atom in a row. */
  ghost predicate MatchTimes(a: Atom, n: nat, w: Word)
    requires OkAtom(a)
    decreases a, 2, n
  {
    if n == 0 then w == []
    else exists k :: 0 <= k <= |w| && MatchAtom(a, w[..k]) && MatchTimes(a, n - 1, w[k..])
  }

  predicate Within(b: Bounds, n: nat) {
    b.min <= n && (b.max.Some? ==> n <= b.max.value)
  }

  ghost predicate MatchPiece(a: Atom, q: Quant, w: Word)
    requires OkAtom(a) && OkQuant(q)
    decreases a, 3, 0
  {
    exists n: nat :: Within(BoundsOf(q), n) && MatchTimes(a, n, w)
  }

  ghost predicate MatchBranch(s: Branch, w: Word)
    requires OkBranch(s)
    decreases s, 0, 0
  {
    if s.Nil? then w == []
    else exists k :: 0 <= k <= |w| && MatchPiece(s.atom, s.quant, w[..k]) && MatchBranch(s.rest, w[k..])
  }

  ghost predicate MatchAlt(a: Alt, w: Word)
    requires OkAlt(a)
    decreases a, 0, 0
  {
    MatchBranch(a.branch, w) || (a.Or? && MatchAlt(a.rest, w))
  }

  // ---------------------------------------------------------------------------
  // The scanner's sets are exact for characters
  // ---------------------------------------------------------------------------

  lemma PerlSetExact(l: Code, c: Code)
    requires OkEscape(Perl(l))
    ensures Has(EscapeSet(Perl(l)), c) <==> EscapeHas(Perl(l), c)
  {
    hide Complement;
    DigitsExact(c);
    WordsExact(c);
    SpacesExact(c);
    ComplementExact(DIGIT_SET, c);
    ComplementExact(WORD_SET, c);
    ComplementExact(SPACE_SET, c);
  }

  lemma DigitsExact(c: int)
    ensures Has(DIGIT_SET, c) <==> IsDigit(c)
  {
    HasOne(DIGIT_SET[0], c);
  }

  lemma WordsExact(c: int)
    ensures Has(WORD_SET, c) <==> IsWord(c)
  {
    assert Range(0x30, 0x39) in WORD_SET && Range(0x41, 0x5a) in WORD_SET;
    assert Range(0x5f, 0x5f) in WORD_SET && Range(0x61, 0x7a) in WORD_SET;
  }

  lemma SpacesExact(c: int)
    ensures Has(SPACE_SET, c) <==> IsSpace(c)
  {
    hide Has;
    var low := [SPACE_SET[0], SPACE_SET[1], SPACE_SET[2], SPACE_SET[3], SPACE_SET[4]];
    var high := [SPACE_SET[5], SPACE_SET[6], SPACE_SET[7], SPACE_SET[8], SPACE_SET[9]];
    assert SPACE_SET == low + high;
    HasConcat(low, high, c);
    HasFive(SPACE_SET[0], SPACE_SET[1], SPACE_SET[2], SPACE_SET[3], SPACE_SET[4], c);
    HasFive(SPACE_SET[5], SPACE_SET[6], SPACE_SET[7], SPACE_SET[8], SPACE_SET[9], c);
  }

  lemma HasFive(r: Range, s: Range, t: Range, u: Range, v: Range, c: int)
    ensures Has([r, s, t, u, v], c)
       <==> r.lo <= c <= r.hi || s.lo <= c <= s.hi || t.lo <= c <= t.hi || u.lo <= c <= u.hi || v.lo <= c <= v.hi
  {
    assert r in [r, s, t, u, v] && s in [r, s, t, u, v] && t in [r, s, t, u, v];
    assert u in [r, s, t, u, v] && v in [r, s, t, u, v];
  }

  lemma EscapeSetExact(e: EscapeForm, c: Code)
    requires OkEscape(e)
    ensures Has(EscapeSet(e), c) <==> EscapeHas(e, c)
  {
    hide Complement;
    if e.Perl? {
      PerlSetExact(e.letter, c);
    } else {
      HasOne(EscapeSet(e)[0], c);
    }
  }

  lemma PartSetExact(x: ClassPart, c: Code)
    requires OkPart(x)
    ensures Has(PartSet(x), c) <==> PartHas(x, c)
  {
    hide EscapeSet, EscapeHas;
    match x
    case Single(Raw(d)) => HasOne(Range(d, d), c);
    case Single(Escaped(e)) => EscapeSetExact(e, c);
    case Span(a, b) => HasOne(Range(CodeOf(a), CodeOf(b)), c);
  }

  lemma {:induction false} PartsSetExact(xs: seq<ClassPart>, c: Code)
    requires OkParts(xs)
    ensures Has(PartsSet(xs), c) <==> PartsHave(xs, c)
    decreases |xs|
  {
    hide PartSet, PartHas;
    if xs != [] {
      PartSetExact(xs[0], c);
      PartsSetExact(xs[1..], c);
      HasConcat(PartSet(xs[0]), PartsSet(xs[1..]), c);
    }
  }

  /** The set computed for a class holds exactly the characters the class matches. */
  lemma ClassSetExact(negated: bool, parts: seq<ClassPart>, c: Code)
    requires OkParts(parts)
    ensures Has(ClassSet(negated, parts), c) <==> PartsHave(parts, c) == !negated
  {
    hide Complement, PartsSet, PartsHave;
    PartsSetExact(parts, c);
    ComplementExact(PartsSet(parts), c);
  }
}
