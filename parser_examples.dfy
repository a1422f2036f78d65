/** Concrete problems as the tracker records them, read by the parser. */
module ParserExamples {
  import opened Text
  import opened ProblemParser

  /** The sample problems of the popup's "test parser" button. */
  const BuiltInTestProblems: seq<string> := [
    "5 \U{D7} 7", "12 \U{F7} 3", "45 - 28", "67 + 19", "8 x 9", "56 / 8", "23 \U{2013} 17", "4 * 6"
  ]

  /** A problem written `<a> <op> <b>`, as the game shows them, reads back as `a`, `op`, `b`. */
  lemma SpacedSample(problem: string, a: nat, op: char, b: nat)
    requires InClass(NonSpace, op)
    requires problem == NatToString(a) + [' ', op, ' '] + NatToString(b)
    ensures Parse(problem) == Some(Parsed(a, op, b))
  {
    ParseSpaced(a, op, b, NonSpace);
  }

  lemma SampleTimes(problem: string)
    requires problem == "5 \U{D7} 7"
    ensures Parse(problem) == Some(Parsed(5, Times, 7))
  {
    assert NatToString(5) == "5" && NatToString(7) == "7";
    SpacedSample(problem, 5, Times, 7);
  }

  lemma SampleObelus(problem: string)
    requires problem == "12 \U{F7} 3"
    ensures Parse(problem) == Some(Parsed(12, Obelus, 3))
  {
    assert NatToString(12) == "12" && NatToString(3) == "3";
    SpacedSample(problem, 12, Obelus, 3);
  }

  lemma SampleHyphen(problem: string)
    requires problem == "45 - 28"
    ensures Parse(problem) == Some(Parsed(45, '-', 28))
  {
    assert NatToString(45) == "45" && NatToString(28) == "28";
    SpacedSample(problem, 45, '-', 28);
  }

  lemma SamplePlus(problem: string)
    requires problem == "67 + 19"
    ensures Parse(problem) == Some(Parsed(67, '+', 19))
  {
    assert NatToString(67) == "67" && NatToString(19) == "19";
    SpacedSample(problem, 67, '+', 19);
  }

  lemma SampleLetterX(problem: string)
    requires problem == "8 x 9"
    ensures Parse(problem) == Some(Parsed(8, 'x', 9))
  {
    assert NatToString(8) == "8" && NatToString(9) == "9";
    SpacedSample(problem, 8, 'x', 9);
  }

  lemma SampleSlash(problem: string)
    requires problem == "56 / 8"
    ensures Parse(problem) == Some(Parsed(56, '/', 8))
  {
    assert NatToString(56) == "56" && NatToString(8) == "8";
    SpacedSample(problem, 56, '/', 8);
  }

  lemma SampleEnDash(problem: string)
    requires problem == "23 \U{2013} 17"
    ensures Parse(problem) == Some(Parsed(23, EnDash, 17))
  {
    assert NatToString(23) == "23" && NatToString(17) == "17";
    SpacedSample(problem, 23, EnDash, 17);
  }

  lemma SampleStar(problem: string)
    requires problem == "4 * 6"
    ensures Parse(problem) == Some(Parsed(4, '*', 6))
  {
    assert NatToString(4) == "4" && NatToString(6) == "6";
    SpacedSample(problem, 4, '*', 6);
  }

  /** `problem` parses and its operator glyph normalises to one of `+ - * /`. */
  predicate ParsesToCanonical(problem: string) {
    Parse(problem).Some? && IsCanonical(NormalizeOperator(Parse(problem).value.op))
  }

  /** Every sample problem parses, and its operator glyph normalises to one of `+ - * /`. */
  lemma BuiltInTestProblemsParse(t: seq<string>)
    requires t == BuiltInTestProblems
    ensures forall i :: 0 <= i < |t| ==> ParsesToCanonical(t[i])
  {
    forall i | 0 <= i < |t|
      ensures ParsesToCanonical(t[i])
    {
      if i == 0 { SampleTimes(t[i]); }
      else if i == 1 { SampleObelus(t[i]); }
      else if i == 2 { SampleHyphen(t[i]); }
      else if i == 3 { SamplePlus(t[i]); }
      else if i == 4 { SampleLetterX(t[i]); }
      else if i == 5 { SampleSlash(t[i]); }
      else if i == 6 { SampleEnDash(t[i]); }
      else { SampleStar(t[i]); }
    }
  }

  /** In a string of three digits the first number can take one, two or three
      of them; only the shortest leaves an operator and a second number. */
  lemma FirstNumberChoices(s: string)
    requires |s| == 3 && IsDigit(s[0]) && IsDigit(s[1]) && IsDigit(s[2])
    ensures MatchRest(s, NonSpace, 0, 3) == None
    ensures MatchRest(s, NonSpace, 0, 2) == None
    ensures MatchRest(s, NonSpace, 0, 1) == Some(Shape(0, 1, 0, 0, 1))
  {
    DigitRunUnique(s, 2, 1);
    DigitRunUnique(s, 3, 0);
    SpaceRunUnique(s, 3, 0);
    SpaceRunUnique(s, 2, 0);
    SpaceRunUnique(s, 1, 0);
  }

  lemma MatchOfThreeDigits(s: string)
    requires |s| == 3 && IsDigit(s[0]) && IsDigit(s[1]) && IsDigit(s[2])
    ensures FindMatch(s, NonSpace) == Some(Shape(0, 1, 0, 0, 1))
  {
    DigitRunUnique(s, 0, 3);
    FirstNumberChoices(s);
    var m := Shape(0, 1, 0, 0, 1);
    assert MatchAtLength(s, NonSpace, 0, 1) == Some(m);
    assert MatchAtLength(s, NonSpace, 0, 2) == Some(m);
    assert MatchAtLength(s, NonSpace, 0, 3) == Some(m);
  }

  /** The operator group accepts a digit: three digits such as `"123"` read as
      the first digit, the middle digit as operator, and the last digit. */
  lemma DigitAsOperator(s: string)
    requires |s| == 3 && IsDigit(s[0]) && IsDigit(s[1]) && IsDigit(s[2])
    ensures Parse(s) == Some(Parsed(DigitValue(s[0]), s[1], DigitValue(s[2])))
  {
    assert s[0..1] == [s[0]] && s[2..3] == [s[2]];
    assert DecimalValue([s[0]]) == DigitValue(s[0]) by { assert [s[0]][..0] == []; }
    assert DecimalValue([s[2]]) == DigitValue(s[2]) by { assert [s[2]][..0] == []; }
    MatchOfThreeDigits(s);
  }

  /** `"123"` reads as 1, `'2'`, 3. */
  lemma OneTwoThree()
    ensures Parse(['1', '2', '3']) == Some(Parsed(1, '2', 3))
  {
    DigitAsOperator(['1', '2', '3']);
  }

  /** A problem such as `"5a6 × 7"`: a digit, a letter, a digit, then ` × ` and a digit. */
  predicate LetterThenTimes(s: string) {
    && |s| == 7 && IsDigit(s[0]) && s[1] == 'a' && IsDigit(s[2])
    && s[3] == ' ' && s[4] == Times && s[5] == ' ' && IsDigit(s[6])
  }

  /** The plain pattern stops at the letter: the first digit, `'a'` as the
      operator, the second digit. */
  lemma LetterThenTimesPlainMatch(s: string)
    requires LetterThenTimes(s)
    ensures FindMatch(s, NonSpace) == Some(Shape(0, 1, 0, 0, 1))
  {
    DigitRunUnique(s, 0, 1);
    DigitRunUnique(s, 2, 1);
    SpaceRunUnique(s, 1, 0);
    SpaceRunUnique(s, 2, 0);
    assert MatchAtLength(s, NonSpace, 0, 1) == Some(Shape(0, 1, 0, 0, 1));
  }

  /** After the first digit the hyphen class fails on the letter. */
  lemma LetterStopsGlyphMatch(s: string)
    requires LetterThenTimes(s)
    ensures MatchAtLength(s, GlyphsWithHyphen, 0, 1) == None
  {
    SpaceRunUnique(s, 1, 0);
    assert MatchRest(s, GlyphsWithHyphen, 0, 1) == None;
  }

  /** From index 2 the hyphen class matches `6 × 7`. */
  lemma GlyphMatchAtTwo(s: string)
    requires LetterThenTimes(s)
    ensures MatchFrom(s, GlyphsWithHyphen, 2) == Some(Shape(2, 1, 1, 1, 1))
  {
    DigitRunUnique(s, 2, 1);
    DigitRunUnique(s, 6, 1);
    SpaceRunUnique(s, 3, 1);
    SpaceRunUnique(s, 5, 1);
    assert InClass(GlyphsWithHyphen, s[4]);
    assert MatchRest(s, GlyphsWithHyphen, 2, 1) == Some(Shape(2, 1, 1, 1, 1));
    assert MatchAtLength(s, GlyphsWithHyphen, 2, 1) == Some(Shape(2, 1, 1, 1, 1));
  }

  /** The hyphen class skips the letter and matches `6 × 7` at index 2. */
  lemma LetterThenTimesGlyphMatch(s: string)
    requires LetterThenTimes(s)
    ensures FindMatch(s, GlyphsWithHyphen) == Some(Shape(2, 1, 1, 1, 1))
  {
    DigitRunUnique(s, 0, 1);
    DigitRunUnique(s, 1, 0);
    LetterStopsGlyphMatch(s);
    GlyphMatchAtTwo(s);
    assert MatchFrom(s, GlyphsWithHyphen, 1) == Some(Shape(2, 1, 1, 1, 1));
  }

  /** The fallback chain of analyzeByOperatorDetailed is not the plain pattern:
      on `"5a6 × 7"` the plain pattern reads 5, `'a'`, 6, while the chain reads
      6, `×`, 7. */
  lemma FallbackDiffersFromPlain(s: string)
    requires LetterThenTimes(s)
    ensures Parse(s) == Some(Parsed(DigitValue(s[0]), 'a', DigitValue(s[2])))
    ensures ParseWithFallback(s) == Some(Parsed(DigitValue(s[2]), Times, DigitValue(s[6])))
  {
    assert s[0..1] == [s[0]] && s[2..3] == [s[2]] && s[6..7] == [s[6]];
    assert DecimalValue([s[0]]) == DigitValue(s[0]) by { assert [s[0]][..0] == []; }
    assert DecimalValue([s[2]]) == DigitValue(s[2]) by { assert [s[2]][..0] == []; }
    assert DecimalValue([s[6]]) == DigitValue(s[6]) by { assert [s[6]][..0] == []; }
    LetterThenTimesPlainMatch(s);
    LetterThenTimesGlyphMatch(s);
  }

  /** A problem without a digit is skipped by every analysis. */
  lemma TextWithoutDigits(s: string)
    requires s == "not a problem"
    ensures Parse(s) == None
  {
    NoDigitNoParse(s, NonSpace);
  }
}
