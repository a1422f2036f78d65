/** The problem parser of popup-debug.js: `problem.match(/(\d+)\s*(OP)\s*(\d+)/)`
    followed by `parseInt` of the two number groups, and `normalizeOperator`.

    The regular expression is modelled by what a backtracking engine returns:
    among all ways the pattern can match, the one it tries first, that is the
    leftmost start position and then, at that start, the longest choice for each
    greedy quantifier from left to right. MatchFrom computes that match
    directly; FindMatchIsFirst proves it is the first one in that order. */
module ProblemParser {
  import opened Text

  const Times: char := '\U{D7}'       // multiplication sign
  const Obelus: char := '\U{F7}'      // division sign
  const EnDash: char := '\U{2013}'
  const MinusSign: char := '\U{2212}'

  /** The characters the JavaScript class `\s` matches: WhiteSpace and LineTerminator. */
  predicate IsSpace(c: char) {
    c == '\t' || c == '\n' || c == '\U{B}' || c == '\U{C}' || c == '\r' || c == ' '
    || c == '\U{A0}' || c == '\U{1680}' || ('\U{2000}' <= c <= '\U{200A}')
    || c == '\U{2028}' || c == '\U{2029}' || c == '\U{202F}' || c == '\U{205F}'
    || c == '\U{3000}' || c == '\U{FEFF}'
  }

  /** `c` is one UTF-16 code unit: it lies in the Basic Multilingual Plane. */
  predicate InBmp(c: char) {
    (c as int) < 0x1_0000
  }

  /** The operator group of the pattern: `(\S)`, `([×÷+\-x*\/])` or `([×÷+–x*\/])`. */
  datatype OperatorClass = NonSpace | GlyphsWithHyphen | GlyphsWithEnDash

  /** Without the `u` flag the pattern reads UTF-16 code units, so `(\S)` takes
      one code unit. A character above the Basic Multilingual Plane is two: the
      group could take its first half only, and the second half, neither a
      space nor a digit, then stops the match. So such a character is never
      the operator (CodeUnits.FindMatchOnCodeUnits). */
  predicate InClass(cls: OperatorClass, c: char) {
    match cls
    case NonSpace => !IsSpace(c) && InBmp(c)
    case GlyphsWithHyphen => c in {Times, Obelus, '+', '-', 'x', '*', '/'}
    case GlyphsWithEnDash => c in {Times, Obelus, '+', EnDash, 'x', '*', '/'}
  }

  /** `s[i..j]` is all digits; stated one character at a time so that a
      proof only sees the characters it asks about. */
  predicate DigitsIn(s: string, i: nat, j: nat)
    requires i <= j <= |s|
    decreases j - i
  {
    i == j || (IsDigit(s[i]) && DigitsIn(s, i + 1, j))
  }

  /** `s[i..j]` is all `\s`. */
  predicate SpacesIn(s: string, i: nat, j: nat)
    requires i <= j <= |s|
    decreases j - i
  {
    i == j || (IsSpace(s[i]) && SpacesIn(s, i + 1, j))
  }

  lemma {:induction false} DigitsInEach(s: string, i: nat, j: nat)
    requires i <= j <= |s|
    ensures DigitsIn(s, i, j) <==> forall k :: i <= k < j ==> IsDigit(s[k])
    decreases j - i
  {
    if i < j {
      DigitsInEach(s, i + 1, j);
    }
  }

  lemma {:induction false} SpacesInEach(s: string, i: nat, j: nat)
    requires i <= j <= |s|
    ensures SpacesIn(s, i, j) <==> forall k :: i <= k < j ==> IsSpace(s[k])
    decreases j - i
  {
    if i < j {
      SpacesInEach(s, i + 1, j);
    }
  }

  /** Where one match lies: it starts at `start`; the first number has `len1`
      digits, then `gap1` spaces, the operator, `gap2` spaces and a second
      number of `len2` digits. */
  datatype Shape = Shape(start: nat, len1: nat, gap1: nat, gap2: nat, len2: nat)
  {
    function OpPos(): nat { start + len1 + gap1 }
    function SecondStart(): nat { start + len1 + gap1 + 1 + gap2 }
    function End(): nat { start + len1 + gap1 + 1 + gap2 + len2 }
  }

  /** The pattern matches `s` with its groups laid out as `m` says. */
  predicate IsMatch(s: string, cls: OperatorClass, m: Shape) {
    && m.len1 >= 1 && m.len2 >= 1 && m.End() <= |s|
    && DigitsIn(s, m.start, m.start + m.len1)
    && SpacesIn(s, m.start + m.len1, m.OpPos())
    && InClass(cls, s[m.OpPos()])
    && SpacesIn(s, m.OpPos() + 1, m.SecondStart())
    && DigitsIn(s, m.SecondStart(), m.End())
  }

  /** `a` is tried before `b`: leftmost start first, then each greedy
      quantifier (`\d+`, `\s*`, `\s*`, `\d+`) longest first. */
  predicate TriedBefore(a: Shape, b: Shape) {
    || a.start < b.start
    || (a.start == b.start && a.len1 > b.len1)
    || (a.start == b.start && a.len1 == b.len1 && a.gap1 > b.gap1)
    || (a.start == b.start && a.len1 == b.len1 && a.gap1 == b.gap1 && a.gap2 > b.gap2)
    || (a.start == b.start && a.len1 == b.len1 && a.gap1 == b.gap1 && a.gap2 == b.gap2 && a.len2 > b.len2)
  }

  /** The match a backtracking engine reports. */
  ghost predicate IsFirstMatch(s: string, cls: OperatorClass, m: Shape) {
    IsMatch(s, cls, m) && forall m' :: IsMatch(s, cls, m') && m' != m ==> TriedBefore(m, m')
  }

  /** Length of the run of digits starting at `i`. */
  function DigitRun(s: string, i: nat): (n: nat)
    requires i <= |s|
    ensures i + n <= |s| && DigitsIn(s, i, i + n)
    ensures i + n == |s| || !IsDigit(s[i + n])
    decreases |s| - i
  {
    if i < |s| && IsDigit(s[i]) then 1 + DigitRun(s, i + 1) else 0
  }

  /** Length of the run of `\s` characters starting at `i`. */
  function SpaceRun(s: string, i: nat): (n: nat)
    requires i <= |s|
    ensures i + n <= |s| && SpacesIn(s, i, i + n)
    ensures i + n == |s| || !IsSpace(s[i + n])
    decreases |s| - i
  {
    if i < |s| && IsSpace(s[i]) then 1 + SpaceRun(s, i + 1) else 0
  }

  /** The rest of the pattern once the first number is `s[p..p+len1]`. Since no
      operator class contains a space, both `\s*` must take the whole run of
      spaces, and the last `\d+` takes every digit that follows. */
  function MatchRest(s: string, cls: OperatorClass, p: nat, len1: nat): (r: Option<Shape>)
    requires p + len1 <= |s|
    ensures r.Some? ==> r.value.start == p && r.value.len1 == len1
    ensures r.Some? && len1 >= 1 && DigitsIn(s, p, p + len1) ==> IsMatch(s, cls, r.value)
  {
    var op := p + len1 + SpaceRun(s, p + len1);
    if op < |s| && InClass(cls, s[op]) then
      var second := op + 1 + SpaceRun(s, op + 1);
      var len2 := DigitRun(s, second);
      if len2 >= 1 then Some(Shape(p, len1, op - p - len1, second - op - 1, len2)) else None
    else None
  }

  /** Backtracking over the first `\d+` at start `p`: lengths `len1`, `len1 - 1`, ..., 1. */
  function MatchAtLength(s: string, cls: OperatorClass, p: nat, len1: nat): (r: Option<Shape>)
    requires p + len1 <= |s| && DigitsIn(s, p, p + len1)
    ensures r.Some? ==> IsMatch(s, cls, r.value) && r.value.start == p && r.value.len1 <= len1
    decreases len1
  {
    if len1 == 0 then None
    else
      match MatchRest(s, cls, p, len1)
      case Some(m) => Some(m)
      case None =>
        DigitsInEach(s, p, p + len1);
        DigitsInEach(s, p, p + len1 - 1);
        MatchAtLength(s, cls, p, len1 - 1)
  }

  /** Trying start positions `p`, `p + 1`, ... in turn. */
  function MatchFrom(s: string, cls: OperatorClass, p: nat): (r: Option<Shape>)
    requires p <= |s|
    ensures r.Some? ==> IsMatch(s, cls, r.value) && r.value.start >= p
    decreases |s| - p
  {
    if p == |s| then None
    else
      match MatchAtLength(s, cls, p, DigitRun(s, p))
      case Some(m) => Some(m)
      case None => MatchFrom(s, cls, p + 1)
  }

  /** `s.match(/(\d+)\s*(OP)\s*(\d+)/)`: where its groups lie, or no match. */
  function FindMatch(s: string, cls: OperatorClass): (r: Option<Shape>)
    ensures r.Some? ==> IsMatch(s, cls, r.value)
  {
    MatchFrom(s, cls, 0)
  }

  /** Both glyph classes lie inside `\S`. */
  lemma ClassInNonSpace(cls: OperatorClass, c: char)
    requires InClass(cls, c)
    ensures InClass(NonSpace, c)
  {
  }

  lemma ClassHasNoSpace(cls: OperatorClass, c: char)
    requires InClass(cls, c)
    ensures !IsSpace(c)
  {
  }

  /** A run of spaces that ends at a non-space is the one SpaceRun measures. */
  lemma {:induction false} SpaceRunUnique(s: string, i: nat, n: nat)
    requires i + n <= |s| && SpacesIn(s, i, i + n) && (i + n == |s| || !IsSpace(s[i + n]))
    ensures SpaceRun(s, i) == n
    decreases n
  {
    if n > 0 {
      SpaceRunUnique(s, i + 1, n - 1);
    }
  }

  /** A run of digits that ends at a non-digit is the one DigitRun measures. */
  lemma {:induction false} DigitRunUnique(s: string, i: nat, n: nat)
    requires i + n <= |s| && DigitsIn(s, i, i + n) && (i + n == |s| || !IsDigit(s[i + n]))
    ensures DigitRun(s, i) == n
    decreases n
  {
    if n > 0 {
      DigitRunUnique(s, i + 1, n - 1);
    }
  }

  /** Every run of digits at `i` is at most as long as the one DigitRun measures. */
  lemma {:induction false} DigitRunMaximal(s: string, i: nat, n: nat)
    requires i + n <= |s| && DigitsIn(s, i, i + n)
    ensures n <= DigitRun(s, i)
    decreases n
  {
    if n > 0 {
      DigitRunMaximal(s, i + 1, n - 1);
    }
  }

  /** Every match whose first number is `s[p..p+len1]` has the gaps MatchRest
      takes and at most the digits it takes after them; so MatchRest finds the
      first of these matches, and finds one whenever there is one. */
  lemma MatchRestIsFirst(s: string, cls: OperatorClass, p: nat, len1: nat, m': Shape)
    requires p + len1 <= |s| && len1 >= 1 && DigitsIn(s, p, p + len1)
    requires IsMatch(s, cls, m') && m'.start == p && m'.len1 == len1
    ensures MatchRest(s, cls, p, len1).Some?
    ensures MatchRest(s, cls, p, len1).value == m' || TriedBefore(MatchRest(s, cls, p, len1).value, m')
  {
    var op := m'.OpPos();
    ClassHasNoSpace(cls, s[op]);
    SpaceRunUnique(s, p + len1, m'.gap1);
    var second := m'.SecondStart();
    assert IsDigit(s[second]);
    SpaceRunUnique(s, op + 1, m'.gap2);
    DigitRunMaximal(s, second, m'.len2);
  }

  /** When MatchRest finds a match for a first number of `len1` digits, no
      match at `p` with a first number of at most `len1` digits comes before it. */
  lemma MatchRestFirstUpTo(s: string, cls: OperatorClass, p: nat, len1: nat)
    requires p + len1 <= |s| && len1 >= 1 && DigitsIn(s, p, p + len1)
    requires MatchRest(s, cls, p, len1).Some?
    ensures forall m' :: IsMatch(s, cls, m') && m'.start == p && m'.len1 <= len1 ==>
      m' == MatchRest(s, cls, p, len1).value || TriedBefore(MatchRest(s, cls, p, len1).value, m')
  {
    forall m' | IsMatch(s, cls, m') && m'.start == p && m'.len1 <= len1
      ensures m' == MatchRest(s, cls, p, len1).value || TriedBefore(MatchRest(s, cls, p, len1).value, m')
    {
      if m'.len1 == len1 {
        MatchRestIsFirst(s, cls, p, len1, m');
      }
    }
  }

  /** When MatchRest finds none, no match at `p` has a first number of `len1` digits. */
  lemma NoMatchOfLength(s: string, cls: OperatorClass, p: nat, len1: nat)
    requires p + len1 <= |s| && len1 >= 1 && DigitsIn(s, p, p + len1)
    ensures MatchRest(s, cls, p, len1).None? ==>
      forall m' :: IsMatch(s, cls, m') && m'.start == p ==> m'.len1 != len1
  {
    forall m' | IsMatch(s, cls, m') && m'.start == p && m'.len1 == len1
      ensures MatchRest(s, cls, p, len1).Some?
    {
      MatchRestIsFirst(s, cls, p, len1, m');
    }
  }

  /** Combines what is known of lengths `len1` and below into what is known of
      lengths up to `len1`, when there is no match of length `len1` itself. */
  lemma ShorterFirst(s: string, cls: OperatorClass, p: nat, len1: nat, r: Option<Shape>)
    requires len1 >= 1
    requires forall m' :: IsMatch(s, cls, m') && m'.start == p ==> m'.len1 != len1
    requires r.None? ==> forall m' :: IsMatch(s, cls, m') && m'.start == p ==> m'.len1 > len1 - 1
    requires r.Some? ==>
      forall m' :: IsMatch(s, cls, m') && m'.start == p && m'.len1 <= len1 - 1 ==> m' == r.value || TriedBefore(r.value, m')
    ensures r.None? ==> forall m' :: IsMatch(s, cls, m') && m'.start == p ==> m'.len1 > len1
    ensures r.Some? ==>
      forall m' :: IsMatch(s, cls, m') && m'.start == p && m'.len1 <= len1 ==> m' == r.value || TriedBefore(r.value, m')
  {
  }

  /** MatchAtLength returns the first match at start `p` whose first number has
      at most `len1` digits, and none only when every match at `p` has more. */
  lemma {:induction false} MatchAtLengthIsFirst(s: string, cls: OperatorClass, p: nat, len1: nat)
    requires p + len1 <= |s| && DigitsIn(s, p, p + len1)
    ensures MatchAtLength(s, cls, p, len1).None? ==>
      forall m' :: IsMatch(s, cls, m') && m'.start == p ==> m'.len1 > len1
    ensures MatchAtLength(s, cls, p, len1).Some? ==>
      forall m' :: IsMatch(s, cls, m') && m'.start == p && m'.len1 <= len1 ==>
        m' == MatchAtLength(s, cls, p, len1).value || TriedBefore(MatchAtLength(s, cls, p, len1).value, m')
    decreases len1
  {
    if len1 > 0 {
      DigitsInEach(s, p, p + len1);
      DigitsInEach(s, p, p + len1 - 1);
      var rest := MatchRest(s, cls, p, len1);
      if rest.Some? {
        assert MatchAtLength(s, cls, p, len1) == rest;
        MatchRestFirstUpTo(s, cls, p, len1);
      } else {
        assert MatchAtLength(s, cls, p, len1) == MatchAtLength(s, cls, p, len1 - 1);
        NoMatchOfLength(s, cls, p, len1);
        MatchAtLengthIsFirst(s, cls, p, len1 - 1);
        ShorterFirst(s, cls, p, len1, MatchAtLength(s, cls, p, len1 - 1));
      }
    }
  }

  /** MatchFrom returns the first match starting at `p` or later, and none only
      when no match starts there. */
  lemma {:induction false} MatchFromIsFirst(s: string, cls: OperatorClass, p: nat)
    requires p <= |s|
    ensures MatchFrom(s, cls, p).None? ==> forall m' :: IsMatch(s, cls, m') ==> m'.start < p
    ensures MatchFrom(s, cls, p).Some? ==>
      forall m' :: IsMatch(s, cls, m') && m'.start >= p ==>
        m' == MatchFrom(s, cls, p).value || TriedBefore(MatchFrom(s, cls, p).value, m')
    decreases |s| - p
  {
    if p < |s| {
      var run := DigitRun(s, p);
      var here := MatchAtLength(s, cls, p, run);
      MatchAtLengthIsFirst(s, cls, p, run);
      forall m' | IsMatch(s, cls, m') && m'.start == p
        ensures m'.len1 <= run
      {
        DigitRunMaximal(s, p, m'.len1);
      }
      if here.Some? {
        assert MatchFrom(s, cls, p) == here;
        forall m' | IsMatch(s, cls, m') && m'.start >= p
          ensures m' == here.value || TriedBefore(here.value, m')
        {
        }
      } else {
        assert MatchFrom(s, cls, p) == MatchFrom(s, cls, p + 1);
        MatchFromIsFirst(s, cls, p + 1);
      }
    } else {
      forall m' | IsMatch(s, cls, m')
        ensures m'.start < p
      {
      }
    }
  }

  /** FindMatch is the matcher of the regular expression: it reports a match
      exactly when one exists, and then the one a backtracking engine reports. */
  lemma FindMatchIsFirst(s: string, cls: OperatorClass)
    ensures FindMatch(s, cls).None? <==> forall m :: !IsMatch(s, cls, m)
    ensures FindMatch(s, cls).Some? ==> IsFirstMatch(s, cls, FindMatch(s, cls).value)
  {
    MatchFromIsFirst(s, cls, 0);
  }

  /** The fields of a parsed problem: `parseInt(match[1])`, `match[2]`, `parseInt(match[3])`. */
  datatype Parsed = Parsed(first: nat, op: char, second: nat)

  /** The captured groups of a match, with both numbers read by `parseInt`. */
  function GroupsOf(s: string, cls: OperatorClass, m: Shape): Parsed
    requires IsMatch(s, cls, m)
  {
    DigitsInEach(s, m.start, m.start + m.len1);
    DigitsInEach(s, m.SecondStart(), m.End());
    Parsed(DecimalValue(s[m.start..m.start + m.len1]), s[m.OpPos()], DecimalValue(s[m.SecondStart()..m.End()]))
  }

  function ParseWith(s: string, cls: OperatorClass): Option<Parsed> {
    match FindMatch(s, cls)
    case None => None
    case Some(m) => Some(GroupsOf(s, cls, m))
  }

  /** The parse that analyzeByNumber[Detailed], analyzeByOperator and
      analyzeByPattern[Debug] use: `/(\d+)\s*(\S)\s*(\d+)/`. */
  function Parse(s: string): Option<Parsed> {
    ParseWith(s, NonSpace)
  }

  /** The parse of analyzeByOperatorDetailed: the hyphen class, then the
      en-dash class, then `\S`. */
  function ParseWithFallback(s: string): Option<Parsed> {
    match ParseWith(s, GlyphsWithHyphen)
    case Some(p) => Some(p)
    case None =>
      match ParseWith(s, GlyphsWithEnDash)
      case Some(p) => Some(p)
      case None => Parse(s)
  }

  /** The fallback chain fails on exactly the problems the plain pattern fails
      on, since both strict classes lie inside `\S`. */
  lemma FallbackFailsExactlyWhenPlainFails(s: string)
    ensures ParseWithFallback(s).None? <==> Parse(s).None?
  {
    FindMatchIsFirst(s, NonSpace);
    FindMatchIsFirst(s, GlyphsWithHyphen);
    FindMatchIsFirst(s, GlyphsWithEnDash);
    if FindMatch(s, GlyphsWithHyphen).Some? {
      var m := FindMatch(s, GlyphsWithHyphen).value;
      ClassInNonSpace(GlyphsWithHyphen, s[m.OpPos()]);
      assert IsMatch(s, NonSpace, m);
    } else if FindMatch(s, GlyphsWithEnDash).Some? {
      var m := FindMatch(s, GlyphsWithEnDash).value;
      ClassInNonSpace(GlyphsWithEnDash, s[m.OpPos()]);
      assert IsMatch(s, NonSpace, m);
    }
  }

  /** The recognised operator glyphs. */
  predicate IsGlyph(c: char) {
    c in {Times, 'x', 'X', Obelus, EnDash, '-', MinusSign, '+', '*', '/'}
  }

  predicate IsCanonical(c: char) {
    c in {'+', '-', '*', '/'}
  }

  /** `normalizeOperator`: multiplication, division and dash glyphs to `* / -`. */
  function NormalizeOperator(glyph: char): char {
    if glyph == Times || glyph == 'x' || glyph == 'X' then '*'
    else if glyph == Obelus then '/'
    else if glyph == EnDash || glyph == '-' || glyph == MinusSign then '-'
    else if glyph == '+' then '+'
    else glyph
  }

  /** Which glyph becomes which canonical symbol; every other character is kept. */
  lemma NormalizeOperatorTable(glyph: char)
    ensures NormalizeOperator(glyph) == '*' <==> glyph in {Times, 'x', 'X', '*'}
    ensures NormalizeOperator(glyph) == '/' <==> glyph in {Obelus, '/'}
    ensures NormalizeOperator(glyph) == '-' <==> glyph in {EnDash, '-', MinusSign}
    ensures NormalizeOperator(glyph) == '+' <==> glyph == '+'
    ensures IsCanonical(NormalizeOperator(glyph)) <==> IsGlyph(glyph)
    ensures !IsGlyph(glyph) ==> NormalizeOperator(glyph) == glyph
  {
  }

  lemma NormalizeOperatorIdempotent(glyph: char)
    ensures NormalizeOperator(NormalizeOperator(glyph)) == NormalizeOperator(glyph)
  {
  }

  /** Where the match lies in `<A> <op> <B>` for digit strings `A` and `B`. */
  lemma FindMatchSpaced(A: string, op: char, B: string, cls: OperatorClass)
    requires |A| >= 1 && |B| >= 1 && AllDigits(A) && AllDigits(B) && InClass(cls, op)
    ensures FindMatch(A + [' ', op, ' '] + B, cls) == Some(Shape(0, |A|, 1, 1, |B|))
  {
    var s := A + [' ', op, ' '] + B;
    var n := |A|;
    assert s[n] == ' ' && s[n + 1] == op && s[n + 2] == ' ';
    assert DigitsIn(s, 0, n) by {
      forall k | 0 <= k < n ensures IsDigit(s[k]) { assert s[k] == A[k]; }
      DigitsInEach(s, 0, n);
    }
    assert DigitsIn(s, n + 3, |s|) by {
      forall k | n + 3 <= k < |s| ensures IsDigit(s[k]) { assert s[k] == B[k - n - 3]; }
      DigitsInEach(s, n + 3, |s|);
    }
    DigitRunUnique(s, 0, n);
    SpaceRunUnique(s, n, 1);
    SpaceRunUnique(s, n + 2, 1);
    DigitRunUnique(s, n + 3, |B|);
    var m := Shape(0, n, 1, 1, |B|);
    assert MatchRest(s, cls, 0, n) == Some(m);
    assert MatchAtLength(s, cls, 0, n) == Some(m);
  }

  lemma ParseSpacedDigits(A: string, op: char, B: string, cls: OperatorClass)
    requires |A| >= 1 && |B| >= 1 && AllDigits(A) && AllDigits(B) && InClass(cls, op)
    ensures ParseWith(A + [' ', op, ' '] + B, cls) == Some(Parsed(DecimalValue(A), op, DecimalValue(B)))
  {
    var s := A + [' ', op, ' '] + B;
    FindMatchSpaced(A, op, B, cls);
    var m := Shape(0, |A|, 1, 1, |B|);
    assert m.SecondStart() == |A| + 3 && m.End() == |s|;
    assert s[m.start..m.start + m.len1] == A;
    assert s[m.SecondStart()..m.End()] == B;
    assert s[m.OpPos()] == op;
    assert ParseWith(s, cls) == Some(GroupsOf(s, cls, m));
  }

  /** A problem written the way the game and the settings tweaker write it,
      `<a> <op> <b>` with single spaces, parses back into `a`, `op` and `b`
      under every operator class that admits `op`. */
  lemma ParseSpaced(a: nat, op: char, b: nat, cls: OperatorClass)
    requires InClass(cls, op)
    ensures ParseWith(NatToString(a) + [' ', op, ' '] + NatToString(b), cls) == Some(Parsed(a, op, b))
  {
    ParseSpacedDigits(NatToString(a), op, NatToString(b), cls);
    DecimalValueOfNatToString(a);
    DecimalValueOfNatToString(b);
  }

  /** A problem without a digit does not parse. */
  lemma NoDigitNoParse(s: string, cls: OperatorClass)
    requires forall i :: 0 <= i < |s| ==> !IsDigit(s[i])
    ensures ParseWith(s, cls) == None
  {
    FindMatchIsFirst(s, cls);
    forall m | IsMatch(s, cls, m)
      ensures false
    {
    }
  }
}
