/** The one-pass stack scanner that looks for catastrophic regex shapes
    (findCatastrophicRegexShape in src/tools/executors.ts), for case-sensitive patterns.
    Patterns are sequences of UTF-16 code units. */
module RegexScanner {
  import opened Wrappers
  import opened CharSets

  type Code = c: int | 0 <= c <= MAX_CODE

  type Pattern = seq<Code>

  // The code units the scanner looks at.
  const DOLLAR := 0x24
  const OPEN := 0x28
  const CLOSE := 0x29
  const STAR := 0x2a
  const PLUS := 0x2b
  const COMMA := 0x2c
  const HYPHEN := 0x2d
  const DOT := 0x2e
  const LESS := 0x3c
  const EQUALS := 0x3d
  const GREATER := 0x3e
  const QUESTION := 0x3f
  const BANG := 0x21
  const LBRACKET := 0x5b
  const BACKSLASH := 0x5c
  const RBRACKET := 0x5d
  const CARET := 0x5e
  const LBRACE := 0x7b
  const BAR := 0x7c
  const RBRACE := 0x7d

  /** `pattern[i]`, with -1 for undefined. */
  function At(p: Pattern, i: int): (c: int)
    ensures c == -1 <==> !(0 <= i < |p|)
  {
    if 0 <= i < |p| then p[i] else -1
  }

  /** `pattern.slice(a, b)`. */
  function Slice(p: Pattern, a: int, b: int): Pattern {
    var hi := if b < |p| then b else |p|;
    if 0 <= a <= hi then p[a..hi] else []
  }

  predicate IsDigit(c: int) { 0x30 <= c <= 0x39 }

  predicate IsHex(c: int) { IsDigit(c) || 0x41 <= c <= 0x46 || 0x61 <= c <= 0x66 }

  predicate IsAlnum(c: int) { IsDigit(c) || 0x41 <= c <= 0x5a || 0x61 <= c <= 0x7a }

  function HexValue(c: int): (v: int)
    requires IsHex(c)
    ensures 0 <= v <= 15
  {
    if IsDigit(c) then c - 0x30 else if c <= 0x46 then c - 0x41 + 10 else c - 0x61 + 10
  }

  // ---------------------------------------------------------------------------
  // Escapes
  // ---------------------------------------------------------------------------

  const DIGIT_SET: CharSet := [Range(0x30, 0x39)]
  const WORD_SET: CharSet := [Range(0x30, 0x39), Range(0x41, 0x5a), Range(0x5f, 0x5f), Range(0x61, 0x7a)]
  const SPACE_SET: CharSet := [
    Range(0x09, 0x0d), Range(0x20, 0x20), Range(0xa0, 0xa0), Range(0x1680, 0x1680),
    Range(0x2000, 0x200a), Range(0x2028, 0x2029), Range(0x202f, 0x202f), Range(0x205f, 0x205f),
    Range(0x3000, 0x3000), Range(0xfeff, 0xfeff)]

  function SingleCharSet(c: int): CharSet { [Range(c, c)] }

  /** The table of known one-letter escapes. */
  function EscapeTable(ch: int): Option<CharSet> {
    if ch == 0x64 then Some(DIGIT_SET)                    // d
    else if ch == 0x44 then Some(Complement(DIGIT_SET))   // D
    else if ch == 0x77 then Some(WORD_SET)                // w
    else if ch == 0x57 then Some(Complement(WORD_SET))    // W
    else if ch == 0x73 then Some(SPACE_SET)               // s
    else if ch == 0x53 then Some(Complement(SPACE_SET))   // S
    else if ch == 0x6e then Some([Range(0x0a, 0x0a)])     // n
    else if ch == 0x72 then Some([Range(0x0d, 0x0d)])     // r
    else if ch == 0x74 then Some([Range(0x09, 0x09)])     // t
    else if ch == 0x66 then Some([Range(0x0c, 0x0c)])     // f
    else if ch == 0x76 then Some([Range(0x0b, 0x0b)])     // v
    else None
  }

  /** A set (None = not understood) and the index of the last code unit consumed. */
  datatype SetParse = SetParse(chars: Option<CharSet>, end: int)

  function ParseEscapeSet(p: Pattern, index: int): (r: SetParse)
    requires 0 <= index
    ensures r.end > index
  {
    var at := index + 1;
    var ch := At(p, at);
    if ch == -1 then SetParse(None, at)
    else if EscapeTable(ch).Some? then SetParse(EscapeTable(ch), at)
    else if ch == 0x78 then // x
      var h1, h2 := At(p, at + 1), At(p, at + 2);
      if IsHex(h1) && IsHex(h2)
      then SetParse(Some(SingleCharSet(16 * HexValue(h1) + HexValue(h2))), at + 2)
      else SetParse(None, at)
    else if ch == 0x75 then // u
      var h1, h2, h3, h4 := At(p, at + 1), At(p, at + 2), At(p, at + 3), At(p, at + 4);
      if IsHex(h1) && IsHex(h2) && IsHex(h3) && IsHex(h4)
      then SetParse(Some(SingleCharSet(
             4096 * HexValue(h1) + 256 * HexValue(h2) + 16 * HexValue(h3) + HexValue(h4))), at + 4)
      else SetParse(None, at)
    else if IsAlnum(ch) then SetParse(None, at)
    else SetParse(Some(SingleCharSet(ch)), at)
  }

  // ---------------------------------------------------------------------------
  // Character classes
  // ---------------------------------------------------------------------------

  datatype ClassAtom = ClassAtom(single: Option<int>, chars: Option<CharSet>, end: int)

  /** The code unit of a set that consists of one one-element range. */
  function SingleOf(s: Option<CharSet>): Option<int> {
    if s.Some? && |s.value| == 1 && s.value[0].lo == s.value[0].hi then Some(s.value[0].lo) else None
  }

  function ParseClassAtom(p: Pattern, index: int): (r: ClassAtom)
    requires 0 <= index < |p|
    ensures r.end >= index
  {
    if p[index] != BACKSLASH then
      ClassAtom(Some(p[index]), Some(SingleCharSet(p[index])), index)
    else
      var esc := ParseEscapeSet(p, index);
      ClassAtom(SingleOf(esc.chars), esc.chars, esc.end)
  }

  /** One class item from `i` on: the extended ranges and the next index. */
  function ClassItem(p: Pattern, i: int, acc: Option<CharSet>): (r: SetParse)
    requires 0 <= i < |p|
    ensures r.end > i
  {
    var a := ParseClassAtom(p, i);
    if StartsSpan(p, a) then
      var b := ParseClassAtom(p, a.end + 2);
      SetParse(if b.single.None? then None else Extend(acc, [Range(a.single.value, b.single.value)]), b.end + 1)
    else
      SetParse(if a.chars.None? then None else Extend(acc, a.chars.value), a.end + 1)
  }

  predicate StartsSpan(p: Pattern, a: ClassAtom) {
    var next := a.end + 1;
    a.single.Some? && At(p, next) == HYPHEN && next + 1 < |p| && At(p, next + 1) != RBRACKET
  }

  /** The item loop of a class from `i` on: the ranges read so far (None once an item
      was not understood) and the index where the loop stops. */
  function ClassItems(p: Pattern, i: int, acc: Option<CharSet>): (r: SetParse)
    requires 0 <= i
    ensures r.end >= i
    decreases |p| - i
  {
    if i < |p| && p[i] != RBRACKET then
      var item := ClassItem(p, i, acc);
      ClassItems(p, item.end, item.chars)
    else SetParse(acc, i)
  }

  function Extend(acc: Option<CharSet>, more: CharSet): Option<CharSet> {
    if acc.None? then None else Some(acc.value + more)
  }

  function Negate(negated: bool, s: Option<CharSet>): Option<CharSet> {
    if s.Some? && negated then Some(Complement(s.value)) else s
  }

  /** parseCharClass as a function of the pattern. */
  function CharClass(p: Pattern, start: int): (r: SetParse)
    requires 0 <= start
    ensures r.end > start
  {
    var negated := At(p, start + 1) == CARET;
    var i := if negated then start + 2 else start + 1;
    if At(p, i) == RBRACKET then SetParse(Some(if negated then Complement([]) else []), i)
    else
      var items := ClassItems(p, i, Some([]));
      SetParse(Negate(negated, items.chars), items.end)
  }

  method ParseCharClass(p: Pattern, start: int) returns (r: SetParse)
    requires 0 <= start
    ensures r == CharClass(p, start)
  {
    hide ParseClassAtom, ParseEscapeSet, EscapeTable, Complement, HexValue;
    var i := start + 1;
    var negated := false;
    if At(p, i) == CARET {
      negated := true;
      i := i + 1;
    }
    if At(p, i) == RBRACKET {
      var all := ComplementCharSet([]);
      return SetParse(Some(if negated then all else []), i);
    }
    var ranges: CharSet := [];
    var understood := true;
    ghost var first := i;
    ghost var acc: Option<CharSet> := Some([]);
    while i < |p| && p[i] != RBRACKET
      invariant first <= i
      invariant acc == if understood then Some(ranges) else None
      invariant ClassItems(p, first, Some([])) == ClassItems(p, i, acc)
      decreases |p| - i
    {
      acc := ClassItem(p, i, acc).chars;
      var a := ParseClassAtom(p, i);
      var next := a.end + 1;
      if a.single.Some? && At(p, next) == HYPHEN && next + 1 < |p| && At(p, next + 1) != RBRACKET {
        var b := ParseClassAtom(p, next + 1);
        if b.single.None? {
          understood := false;
        } else {
          ranges := ranges + [Range(a.single.value, b.single.value)];
        }
        i := b.end + 1;
        continue;
      }
      if a.chars.Some? {
        ranges := ranges + a.chars.value;
      } else {
        understood := false;
      }
      i := next;
    }
    if !understood { return SetParse(None, i); }
    var inverse := ComplementCharSet(ranges);
    return SetParse(Some(if negated then inverse else ranges), i);
  }

  // ---------------------------------------------------------------------------
  // Quantifiers
  // ---------------------------------------------------------------------------

  /** `max` is None when unbounded; `end` is the last code unit of the quantifier. */
  datatype Quantifier = Quantifier(end: int, min: nat, max: Option<nat>)

  /** First index from `i` on that is not a digit. */
  function DigitsEnd(p: Pattern, i: nat): (e: nat)
    ensures i <= e
    ensures i <= |p| ==> e <= |p|
    ensures forall k :: i <= k < e ==> IsDigit(At(p, k))
    decreases |p| - i
  {
    if i < |p| && IsDigit(p[i]) then DigitsEnd(p, i + 1) else i
  }

  function Decimal(digits: Pattern): nat
    requires forall k :: 0 <= k < |digits| ==> IsDigit(digits[k])
  {
    if digits == [] then 0
    else
      var n := |digits| - 1;
      assert IsDigit(digits[n]);
      10 * Decimal(digits[..n]) + (digits[n] - 0x30)
  }

  function DecimalAt(p: Pattern, i: nat): nat
    requires i <= |p|
  {
    var e := DigitsEnd(p, i);
    assert forall k :: 0 <= k < e - i ==> p[i..e][k] == At(p, i + k);
    Decimal(p[i..e])
  }

  /** A quantifier at `index`, or None (for example at a literal brace). */
  function QuantifierAt(p: Pattern, index: int): (q: Option<Quantifier>)
    requires 0 <= index
    ensures q.Some? ==> index <= q.value.end < |p|
  {
    var ch := At(p, index);
    if ch == STAR then Some(Quantifier(index, 0, None))
    else if ch == PLUS then Some(Quantifier(index, 1, None))
    else if ch == QUESTION then Some(Quantifier(index, 0, Some(1)))
    else if ch != LBRACE then None
    else
      var d := DigitsEnd(p, index + 1);
      if d == index + 1 then None
      else
        var min := DecimalAt(p, index + 1);
        if At(p, d) == RBRACE then Some(Quantifier(d, min, Some(min)))
        else if At(p, d) != COMMA then None
        else
          var d2 := DigitsEnd(p, d + 1);
          if At(p, d2) != RBRACE then None
          else if d2 == d + 1 then Some(Quantifier(d2, min, None))
          else Some(Quantifier(d2, min, Some(DecimalAt(p, d + 1))))
  }

  /** Last code unit of an atom with its quantifier and laziness mark. */
  function QuantifierEnd(p: Pattern, q: Option<Quantifier>, fallback: int): int {
    if q.None? then fallback
    else if At(p, q.value.end + 1) == QUESTION then q.value.end + 1
    else q.value.end
  }

  function MinIsZero(q: Option<Quantifier>): bool {
    q.Some? && q.value.min == 0
  }

  // ---------------------------------------------------------------------------
  // Group records
  // ---------------------------------------------------------------------------

  /** `branchFirst` is None while the current branch has no atom; an inner None is the
      "cannot tell" set. `run`/`runStart` track consecutive nullable atoms. */
  datatype Group = Group(
    start: int,
    unbounded: bool,
    ambiguousAlternation: bool,
    variableRepeat: bool,
    ambiguousSequence: bool,
    branchFirst: Option<Option<CharSet>>,
    branchNullable: bool,
    branchFirsts: seq<Option<CharSet>>,
    branchNullables: seq<bool>,
    sawAlternation: bool,
    run: nat,
    runStart: int)

  function NewGroup(start: int): Group {
    Group(start, false, false, false, false, None, true, [], [], false, 0, start)
  }

  datatype Kind = NestedQuantifier | AmbiguousAlternation | AmbiguousRepeat

  /** A finding and the slice of the pattern it blames. */
  datatype Finding = Finding(kind: Kind, from: int, to: int)

  /** What the scanner reports. `Malformed` stands for the TypeError the source raises on
      an unbalanced closing parenthesis, which no valid pattern contains. */
  datatype Outcome = Accepted | Rejected(kind: Kind, construct: Pattern) | Malformed

  function Report(p: Pattern, f: Finding): Outcome {
    Rejected(f.kind, Slice(p, f.from, f.to))
  }

  const BOUNDED_OUTER_REPEAT_MAX: nat := 8

  function Union(a: Option<CharSet>, b: Option<CharSet>): Option<CharSet> {
    if a.None? || b.None? then None else Some(a.value + b.value)
  }

  predicate SequenceClash(bf: Option<CharSet>, first: Option<CharSet>, nullable: bool) {
    nullable || bf.None? || first.None? || !Disjoint(bf.value, first.value)
  }

  /** applyAtom: count the atom into the group, or report a long nullable run. */
  function ApplyAtom(g: Group, first: Option<CharSet>, nullable: bool, at: int): Result<Group, Finding> {
    if !nullable && g.run >= 8 then Failure(Finding(AmbiguousRepeat, g.runStart, at + 1))
    else
      var visible := g.branchFirst.Some? && g.branchNullable;
      Success(g.(
        runStart := if nullable && g.run == 0 then at else g.runStart,
        run := if nullable then g.run + 1 else 0,
        ambiguousSequence :=
          g.ambiguousSequence || (visible && SequenceClash(g.branchFirst.value, first, nullable)),
        branchFirst :=
          if g.branchFirst.None? then Some(first)
          else if visible then Some(Union(g.branchFirst.value, first))
          else g.branchFirst,
        branchNullable := g.branchNullable && nullable))
  }

  predicate IsVariable(q: Option<Quantifier>) {
    q.Some? && q.value.max.Some? && q.value.max.value >= 2 && q.value.min != q.value.max.value
  }

  predicate IsUnbounded(q: Option<Quantifier>) {
    q.Some? && q.value.max.None?
  }

  function NoteQuantifier(g: Group, q: Option<Quantifier>): Group {
    g.(unbounded := g.unbounded || IsUnbounded(q),
       variableRepeat := g.variableRepeat || IsVariable(q))
  }

  function Flat(o: Option<Option<CharSet>>): Option<CharSet> {
    if o.None? then None else o.value
  }

  /** Close the current branch at a bar. */
  function NextBranch(g: Group): Group {
    g.(branchFirsts := g.branchFirsts + [Flat(g.branchFirst)],
       branchNullables := g.branchNullables + [g.branchNullable],
       branchFirst := None,
       branchNullable := true,
       sawAlternation := true)
  }

  predicate AllKnown(sets: seq<Option<CharSet>>) {
    forall k :: 0 <= k < |sets| ==> sets[k].Some?
  }

  function Values(sets: seq<Option<CharSet>>): (r: seq<CharSet>)
    requires AllKnown(sets)
    ensures |r| == |sets| && forall k :: 0 <= k < |sets| ==> r[k] == sets[k].value
  {
    if sets == [] then [] else [sets[0].value] + Values(sets[1..])
  }

  function Concat(sets: seq<CharSet>): CharSet {
    if sets == [] then [] else sets[0] + Concat(sets[1..])
  }

  predicate BranchesDisjoint(firsts: seq<Option<CharSet>>) {
    AllKnown(firsts) && PairwiseDisjoint(Values(firsts))
  }

  /** What the closing parenthesis learns about a group. */
  datatype Closed = Closed(
    start: int, first: Option<CharSet>, nullable: bool,
    unbounded: bool, ambiguousAlternation: bool, variableRepeat: bool, ambiguousSequence: bool)

  function CloseGroup(g: Group): Closed {
    var firsts := g.branchFirsts + [Flat(g.branchFirst)];
    var nullables := g.branchNullables + [g.branchNullable];
    if g.sawAlternation then
      Closed(g.start,
        if BranchesDisjoint(firsts) then Some(Concat(Values(firsts))) else None,
        true in nullables,
        g.unbounded, !BranchesDisjoint(firsts), g.variableRepeat, g.ambiguousSequence)
    else
      Closed(g.start, firsts[0], g.branchNullable,
        g.unbounded, g.ambiguousAlternation, g.variableRepeat, g.ambiguousSequence)
  }

  /** The verdict on a closed group under its quantifier. */
  function RepeatFinding(c: Closed, q: Option<Quantifier>): Option<Finding> {
    if q.Some? && (q.value.max.None? || q.value.max.value >= 2) then
      var to := q.value.end + 1;
      var large := q.value.max.None? || q.value.max.value >= BOUNDED_OUTER_REPEAT_MAX;
      var reaches := q.value.max.Some? || q.value.min >= BOUNDED_OUTER_REPEAT_MAX;
      if c.unbounded then Some(Finding(NestedQuantifier, c.start, to))
      else if c.ambiguousAlternation then Some(Finding(AmbiguousAlternation, c.start, to))
      else if large && c.variableRepeat then Some(Finding(NestedQuantifier, c.start, to))
      else if large && reaches && c.nullable then Some(Finding(AmbiguousRepeat, c.start, to))
      else if c.ambiguousSequence then Some(Finding(AmbiguousRepeat, c.start, to))
      else None
    else None
  }

  /** Fold a closed group and its quantifier into the parent. */
  function MergeChild(parent: Group, c: Closed, q: Option<Quantifier>): Result<Group, Finding> {
    var parent := parent.(
      variableRepeat := parent.variableRepeat || IsVariable(q) || c.variableRepeat,
      unbounded := parent.unbounded || IsUnbounded(q) || c.unbounded,
      ambiguousAlternation := parent.ambiguousAlternation || c.ambiguousAlternation,
      ambiguousSequence := parent.ambiguousSequence || c.ambiguousSequence);
    ApplyAtom(parent, c.first, c.nullable || MinIsZero(q), c.start)
  }

  // ---------------------------------------------------------------------------
  // The scanner as a transition function
  // ---------------------------------------------------------------------------

  type Stack = s: seq<Group> | s != [] witness [NewGroup(0)]

  /** One turn of the main loop: go on at `next` with `stack`, or stop. */
  datatype Turn = Go(next: int, stack: Stack) | Stop(outcome: Outcome)

  function Top(stack: Stack): Group { stack[|stack| - 1] }

  function SetTop(stack: Stack, g: Group): Stack { stack[..|stack| - 1] + [g] }

  function GoOrReport(p: Pattern, below: seq<Group>, r: Result<Group, Finding>, next: int): Turn {
    if r.Success? then Go(next, below + [r.value]) else Stop(Report(p, r.error))
  }

  /** An atom that spans `i..end` with first set `first`. */
  function AtomTurn(p: Pattern, i: int, end: int, stack: Stack, first: Option<CharSet>, anchor: bool): Turn
    requires 0 <= i <= end
  {
    var q := QuantifierAt(p, end + 1);
    var g := NoteQuantifier(Top(stack), q);
    GoOrReport(p, stack[..|stack| - 1], ApplyAtom(g, first, anchor || MinIsZero(q), i),
               QuantifierEnd(p, q, end) + 1)
  }

  /** Index of the first `>` from `i` on, or -1. */
  function IndexOfGreater(p: Pattern, i: nat): (k: int)
    ensures k == -1 || k >= i
    decreases |p| - i
  {
    if i >= |p| then -1 else if p[i] == GREATER then i else IndexOfGreater(p, i + 1)
  }

  /** Where the content of the group opened at `i` starts. */
  function ContentStart(p: Pattern, i: nat): (content: int)
    ensures content > i
  {
    var content := i + 1;
    if At(p, content) == QUESTION then
      if At(p, content + 1) == LESS && (At(p, content + 2) == EQUALS || At(p, content + 2) == BANG)
      then content + 3
      else if At(p, content + 1) == LESS then
        var close := IndexOfGreater(p, content + 2);
        if close == -1 then content + 2 else close + 1
      else content + 2
    else content
  }

  function CloseTurn(p: Pattern, i: nat, stack: Stack): Turn {
    var c := CloseGroup(Top(stack));
    var below := stack[..|stack| - 1];
    var q := QuantifierAt(p, i + 1);
    var verdict := RepeatFinding(c, q);
    if verdict.Some? then Stop(Report(p, verdict.value))
    else if below == [] then Stop(Malformed)
    else GoOrReport(p, below[..|below| - 1], MergeChild(below[|below| - 1], c, q),
                    QuantifierEnd(p, q, i) + 1)
  }

  predicate IsQuantifierStart(ch: int) {
    ch == STAR || ch == PLUS || ch == QUESTION || ch == LBRACE
  }

  function ScanTurn(p: Pattern, i: nat, stack: Stack): (t: Turn)
    requires i < |p|
    ensures t.Go? ==> t.next > i
  {
    var ch := p[i];
    if ch == BACKSLASH then
      var esc := ParseEscapeSet(p, i);
      AtomTurn(p, i, esc.end, stack, esc.chars, false)
    else if ch == LBRACKET then
      var cls := CharClass(p, i);
      AtomTurn(p, i, cls.end, stack, cls.chars, false)
    else if ch == OPEN then Go(ContentStart(p, i), stack + [NewGroup(i)])
    else if ch == CLOSE then CloseTurn(p, i, stack)
    else if ch == BAR then Go(i + 1, SetTop(stack, NextBranch(Top(stack))))
    else if IsQuantifierStart(ch) && QuantifierAt(p, i).Some? then
      var stray := QuantifierAt(p, i);
      Go(stray.value.end + 1,
         SetTop(stack, Top(stack).(unbounded := Top(stack).unbounded || IsUnbounded(stray))))
    else if ch == DOT || ch == CARET || ch == DOLLAR then
      AtomTurn(p, i, i, stack, None, ch != DOT)
    else AtomTurn(p, i, i, stack, Some(SingleCharSet(ch)), false)
  }

  /** The whole scan from position `i` with the given stack. */
  function ScanFrom(p: Pattern, i: nat, stack: Stack): Outcome
    decreases |p| - i
  {
    if i >= |p| then Accepted
    else
      match ScanTurn(p, i, stack)
      case Stop(o) => o
      case Go(next, stack') => ScanFrom(p, next, stack')
  }

  function Scan(p: Pattern): Outcome { ScanFrom(p, 0, [NewGroup(0)]) }

  /** Count the atom at `i..end` into the group on top of the stack (the steps the source
      repeats for escapes, classes and plain characters). */
  method TakeAtom(p: Pattern, i: nat, end: nat, stack: Stack, first: Option<CharSet>, anchor: bool)
    returns (t: Turn)
    requires i <= end
    ensures t == AtomTurn(p, i, end, stack, first, anchor)
  {
    var top := |stack| - 1;
    var q := QuantifierAt(p, end + 1);
    var noted := NoteQuantifier(stack[top], q);
    var r := ApplyAtom(noted, first, anchor || MinIsZero(q), i);
    if r.Failure? { return Stop(Report(p, r.error)); }
    t := Go(QuantifierEnd(p, q, end) + 1, stack[..top] + [r.value]);
  }

  /** Close the group on top of the stack: judge it under its quantifier, then fold it
      into its parent. */
  method TakeClose(p: Pattern, i: nat, stack: Stack) returns (t: Turn)
    ensures t == CloseTurn(p, i, stack)
  {
    var top := |stack| - 1;
    var c := CloseGroup(stack[top]);
    var q := QuantifierAt(p, i + 1);
    var verdict := RepeatFinding(c, q);
    if verdict.Some? { return Stop(Report(p, verdict.value)); }
    if top == 0 { return Stop(Malformed); }
    var r := MergeChild(stack[top - 1], c, q);
    assert stack[..top][..top - 1] == stack[..top - 1];
    if r.Failure? { return Stop(Report(p, r.error)); }
    t := Go(QuantifierEnd(p, q, i) + 1, stack[..top - 1] + [r.value]);
  }

  /** findCatastrophicRegexShape, in the shape of the source: one loop over the pattern
      that updates a stack of group records. */
  method FindCatastrophicRegexShape(p: Pattern) returns (o: Outcome)
    ensures o == Scan(p)
  {
    var stack: Stack := [NewGroup(0)];
    var i := 0;
    while i < |p|
      invariant 0 <= i
      invariant Scan(p) == ScanFrom(p, i, stack)
      decreases |p| - i
    {
      var ch := p[i];
      var top := |stack| - 1;
      var turn: Turn;
      if ch == BACKSLASH {
        var esc := ParseEscapeSet(p, i);
        turn := TakeAtom(p, i, esc.end, stack, esc.chars, false);
      } else if ch == LBRACKET {
        var cls := ParseCharClass(p, i);
        turn := TakeAtom(p, i, cls.end, stack, cls.chars, false);
      } else if ch == OPEN {
        turn := Go(ContentStart(p, i), stack + [NewGroup(i)]);
      } else if ch == CLOSE {
        turn := TakeClose(p, i, stack);
      } else if ch == BAR {
        turn := Go(i + 1, stack[..top] + [NextBranch(stack[top])]);
      } else {
        var stray := if IsQuantifierStart(ch) then QuantifierAt(p, i) else None;
        if stray.Some? {
          var g := stack[top];
          turn := Go(stray.value.end + 1,
                     stack[..top] + [g.(unbounded := g.unbounded || stray.value.max.None?)]);
        } else if ch == DOT || ch == CARET || ch == DOLLAR {
          turn := TakeAtom(p, i, i, stack, None, ch != DOT);
        } else {
          turn := TakeAtom(p, i, i, stack, Some(SingleCharSet(ch)), false);
        }
      }
      assert turn == ScanTurn(p, i, stack);
      if turn.Stop? { return turn.outcome; }
      i, stack := turn.next, turn.stack;
    }
    return Accepted;
  }
}
