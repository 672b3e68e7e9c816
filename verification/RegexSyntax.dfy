/** Abstract syntax of the patterns the soundness results speak about, and how it prints.
    Everything is case-sensitive; lookaround, word boundaries and backreferences are not
    part of the fragment. */
module RegexSyntax {
  import opened CharSets
  import opened RegexScanner

  /** An escape the scanner understands, by its spelling. */
  datatype EscapeForm =
    | Perl(letter: Code)                        // \d \D \w \W \s \S
    | Control(letter: Code)                     // \n \r \t \f \v
    | Hex(h1: Code, h2: Code)                   // \xHH
    | Wide(h1: Code, h2: Code, h3: Code, h4: Code) // \uHHHH
    | Identity(c: Code)                         // an escaped punctuation character

  datatype ClassChar = Raw(c: Code) | Escaped(e: EscapeForm)

  datatype ClassPart = Single(a: ClassChar) | Span(a: ClassChar, b: ClassChar)

  datatype GroupKind = Capturing | NonCapturing | Named(name: Pattern)

  datatype Atom =
    | Literal(c: Code)
    | Dot
    | Anchor(c: Code)                           // ^ or $
    | Escape(e: EscapeForm)
    | Class(negated: bool, parts: seq<ClassPart>)
    | Sub(kind: GroupKind, body: Alt)

  /** Numbers in braces keep their spelling, so leading zeros are covered. */
  datatype QuantForm =
    | Star | Plus | Opt
    | Exactly(n: Pattern) | AtLeast(n: Pattern) | Between(n: Pattern, m: Pattern)

  datatype Quant = Once | Times(form: QuantForm, lazy: bool)

  /** A branch: atoms with their quantifiers, in order. */
  datatype Branch = Nil | Cons(atom: Atom, quant: Quant, rest: Branch)

  /** One branch, or branches separated by bars. */
  datatype Alt = Last(branch: Branch) | Or(branch: Branch, rest: Alt)

  // ---------------------------------------------------------------------------
  // Printing
  // ---------------------------------------------------------------------------

  function PrintEscape(e: EscapeForm): Pattern {
    match e
    case Perl(l) => [BACKSLASH, l]
    case Control(l) => [BACKSLASH, l]
    case Hex(a, b) => [BACKSLASH, 0x78, a, b]
    case Wide(a, b, c, d) => [BACKSLASH, 0x75, a, b, c, d]
    case Identity(c) => [BACKSLASH, c]
  }

  function PrintClassChar(a: ClassChar): Pattern {
    match a
    case Raw(c) => [c]
    case Escaped(e) => PrintEscape(e)
  }

  function PrintPart(x: ClassPart): Pattern {
    match x
    case Single(a) => PrintClassChar(a)
    case Span(a, b) => PrintClassChar(a) + [HYPHEN] + PrintClassChar(b)
  }

  function PrintParts(xs: seq<ClassPart>): Pattern {
    if xs == [] then [] else PrintPart(xs[0]) + PrintParts(xs[1..])
  }

  function PrintQuantForm(q: QuantForm): Pattern {
    match q
    case Star => [STAR]
    case Plus => [PLUS]
    case Opt => [QUESTION]
    case _ => [LBRACE] + q.n + BraceTail(q)
  }

  /** What follows the first number in braces. */
  function BraceTail(q: QuantForm): Pattern {
    match q
    case AtLeast(_) => [COMMA, RBRACE]
    case Between(_, m) => [COMMA] + m + [RBRACE]
    case _ => [RBRACE]
  }

  function PrintQuant(q: Quant): Pattern {
    match q
    case Once => []
    case Times(form, lazy) => PrintQuantForm(form) + if lazy then [QUESTION] else []
  }

  function Opener(k: GroupKind): Pattern {
    match k
    case Capturing => [OPEN]
    case NonCapturing => [OPEN, QUESTION, 0x3a]
    case Named(name) => [OPEN, QUESTION, LESS] + name + [GREATER]
  }

  function PrintAtom(a: Atom): Pattern {
    match a
    case Literal(c) => [c]
    case Dot => [DOT]
    case Anchor(c) => [c]
    case Escape(e) => PrintEscape(e)
    case Class(negated, parts) =>
      [LBRACKET] + (if negated then [CARET] else []) + PrintParts(parts) + [RBRACKET]
    case Sub(kind, body) => Opener(kind) + PrintAlt(body) + [CLOSE]
  }

  function PrintBranch(s: Branch): Pattern {
    match s
    case Nil => []
    case Cons(atom, quant, rest) => PrintAtom(atom) + PrintQuant(quant) + PrintBranch(rest)
  }

  function PrintAlt(a: Alt): Pattern {
    match a
    case Last(s) => PrintBranch(s)
    case Or(s, rest) => PrintBranch(s) + [BAR] + PrintAlt(rest)
  }

  // ---------------------------------------------------------------------------
  // Well-formedness: the spellings a JavaScript pattern allows
  // ---------------------------------------------------------------------------

  predicate OkEscape(e: EscapeForm) {
    match e
    case Perl(l) => l in {0x64, 0x44, 0x77, 0x57, 0x73, 0x53}
    case Control(l) => l in {0x6e, 0x72, 0x74, 0x66, 0x76}
    case Hex(a, b) => IsHex(a) && IsHex(b)
    case Wide(a, b, c, d) => IsHex(a) && IsHex(b) && IsHex(c) && IsHex(d)
    case Identity(c) => !IsAlnum(c)
  }

  predicate OkClassChar(a: ClassChar) {
    match a
    case Raw(c) => c != BACKSLASH && c != RBRACKET
    case Escaped(e) => OkEscape(e)
  }

  /** The class character stands for one code unit. */
  predicate IsSingle(a: ClassChar) {
    a.Raw? || !a.e.Perl?
  }

  function CodeOf(a: ClassChar): Code
    requires OkClassChar(a) && IsSingle(a)
  {
    match a
    case Raw(c) => c
    case Escaped(Control(l)) =>
      if l == 0x6e then 0x0a else if l == 0x72 then 0x0d else if l == 0x74 then 0x09
      else if l == 0x66 then 0x0c else 0x0b
    case Escaped(Hex(h1, h2)) => 16 * HexValue(h1) + HexValue(h2)
    case Escaped(Wide(h1, h2, h3, h4)) =>
      4096 * HexValue(h1) + 256 * HexValue(h2) + 16 * HexValue(h3) + HexValue(h4)
    case Escaped(Identity(c)) => c
  }

  predicate OkPart(x: ClassPart) {
    match x
    case Single(a) => OkClassChar(a)
    case Span(a, b) =>
      OkClassChar(a) && OkClassChar(b) && IsSingle(a) && IsSingle(b) && CodeOf(a) <= CodeOf(b)
  }

  /** After a single character an unescaped hyphen would open a span, so it may only
      stand last. */
  predicate OkParts(xs: seq<ClassPart>)
    decreases |xs|
  {
    xs != [] ==>
      && OkPart(xs[0])
      && OkParts(xs[1..])
      && (|xs| > 1 && xs[0].Single? && IsSingle(xs[0].a) && xs[1].a == Raw(HYPHEN)
          ==> |xs| == 2 && xs[1].Single?)
  }

  predicate Digits(n: Pattern) {
    n != [] && forall k :: 0 <= k < |n| ==> IsDigit(n[k])
  }

  predicate OkForm(form: QuantForm) {
    match form
    case Exactly(n) => Digits(n)
    case AtLeast(n) => Digits(n)
    case Between(n, m) => Digits(n) && Digits(m) && Decimal(n) <= Decimal(m)
    case _ => true
  }

  predicate OkQuant(q: Quant) {
    q.Times? ==> OkForm(q.form)
  }

  predicate OkLiteral(c: Code) {
    c !in {BACKSLASH, LBRACKET, OPEN, CLOSE, BAR, STAR, PLUS, QUESTION, LBRACE, DOT, CARET, DOLLAR}
  }

  predicate OkKind(k: GroupKind) {
    k.Named? ==> k.name != [] && k.name[0] != EQUALS && k.name[0] != BANG
                 && forall i :: 0 <= i < |k.name| ==> k.name[i] != GREATER
  }

  predicate OkAtom(a: Atom) {
    match a
    case Literal(c) => OkLiteral(c)
    case Dot => true
    case Anchor(c) => c == CARET || c == DOLLAR
    case Escape(e) => OkEscape(e)
    case Class(negated, parts) =>
      OkParts(parts) && (!negated && parts != [] ==> parts[0].a != Raw(CARET))
    case Sub(kind, body) => OkKind(kind) && OkAlt(body)
  }

  /** Anchors take no quantifier. */
  predicate OkBranch(s: Branch) {
    s.Cons? ==> OkAtom(s.atom) && OkQuant(s.quant) && (s.atom.Anchor? ==> s.quant.Once?) && OkBranch(s.rest)
  }

  predicate OkAlt(a: Alt) {
    match a
    case Last(s) => OkBranch(s)
    case Or(s, rest) => OkBranch(s) && OkAlt(rest)
  }

  // ---------------------------------------------------------------------------
  // Quantifier bounds
  // ---------------------------------------------------------------------------

  datatype Bounds = Bounds(min: nat, max: Option<nat>)

  import opened Wrappers

  function FormBounds(form: QuantForm): (b: Bounds)
    requires OkForm(form)
    ensures b.max.Some? ==> b.min <= b.max.value
  {
    match form
    case Star => Bounds(0, None)
    case Plus => Bounds(1, None)
    case Opt => Bounds(0, Some(1))
    case Exactly(n) => Bounds(Decimal(n), Some(Decimal(n)))
    case AtLeast(n) => Bounds(Decimal(n), None)
    case Between(n, m) => Bounds(Decimal(n), Some(Decimal(m)))
  }

  function BoundsOf(q: Quant): (b: Bounds)
    requires OkQuant(q)
    ensures b.max.Some? ==> b.min <= b.max.value
  {
    if q.Once? then Bounds(1, Some(1)) else FormBounds(q.form)
  }

  // ---------------------------------------------------------------------------
  // The sets the scanner computes for atoms
  // ---------------------------------------------------------------------------

  function EscapeSet(e: EscapeForm): CharSet
    requires OkEscape(e)
  {
    match e
    case Perl(l) => EscapeTable(l).value
    case Control(l) => EscapeTable(l).value
    case Hex(h1, h2) => SingleCharSet(16 * HexValue(h1) + HexValue(h2))
    case Wide(h1, h2, h3, h4) =>
      SingleCharSet(4096 * HexValue(h1) + 256 * HexValue(h2) + 16 * HexValue(h3) + HexValue(h4))
    case Identity(c) => SingleCharSet(c)
  }

  function ClassCharSet(a: ClassChar): CharSet
    requires OkClassChar(a)
  {
    match a
    case Raw(c) => SingleCharSet(c)
    case Escaped(e) => EscapeSet(e)
  }

  function PartSet(x: ClassPart): CharSet
    requires OkPart(x)
  {
    match x
    case Single(a) => ClassCharSet(a)
    case Span(a, b) => [Range(CodeOf(a), CodeOf(b))]
  }

  function PartsSet(xs: seq<ClassPart>): CharSet
    requires OkParts(xs)
  {
    if xs == [] then [] else PartSet(xs[0]) + PartsSet(xs[1..])
  }

  function ClassSet(negated: bool, parts: seq<ClassPart>): CharSet
    requires OkParts(parts)
  {
    if negated then Complement(PartsSet(parts)) else PartsSet(parts)
  }
}
