/** The pattern `/(\d+)\s*(\S)\s*(\d+)/` of popup-debug.js has no `u` flag, so
    the browser runs it over the UTF-16 code units of a problem rather than
    over its characters. This module writes a problem out as code units,
    states the pattern over them, and proves that FindMatch on the characters
    reports the match the browser reports on the code units, with the same
    groups. */
module CodeUnits {
  import opened Text
  import opened ProblemParser

  /** One UTF-16 code unit, named by the character it comes from: a character
      of the Basic Multilingual Plane is a single unit, any other one is a
      surrogate pair, a high half followed by a low half. */
  datatype Unit = Single(c: char) | HighHalf(c: char) | LowHalf(c: char)

  function UnitsOf(c: char): (u: seq<Unit>)
    ensures |u| == Width(c)
  {
    if InBmp(c) then [Single(c)] else [HighHalf(c), LowHalf(c)]
  }

  /** How many code units `c` takes. */
  function Width(c: char): nat {
    if InBmp(c) then 1 else 2
  }

  /** The UTF-16 form of the first `i` characters of `s`. */
  function EncodeUpTo(s: string, i: nat): seq<Unit>
    requires i <= |s|
  {
    if i == 0 then [] else EncodeUpTo(s, i - 1) + UnitsOf(s[i - 1])
  }

  /** The UTF-16 form of `s`. */
  function Encode(s: string): seq<Unit> {
    EncodeUpTo(s, |s|)
  }

  /** The code-unit index at which the units of `s[i]` begin. */
  function Offset(s: string, i: nat): nat
    requires i <= |s|
  {
    if i == 0 then 0 else Offset(s, i - 1) + Width(s[i - 1])
  }

  /** `\d` on a code unit: an ASCII digit; a surrogate half is none. */
  predicate UnitIsDigit(u: Unit) {
    u.Single? && IsDigit(u.c)
  }

  /** `\s` on a code unit; every space lies in the Basic Multilingual Plane. */
  predicate UnitIsSpace(u: Unit) {
    u.Single? && IsSpace(u.c)
  }

  /** The operator group on a code unit: `\S` takes a surrogate half, which is
      not a space; the glyph classes list single units only. */
  predicate UnitInClass(cls: OperatorClass, u: Unit) {
    match cls
    case NonSpace => !UnitIsSpace(u)
    case _ => u.Single? && InClass(cls, u.c)
  }

  predicate UnitDigitsIn(u: seq<Unit>, i: nat, j: nat)
    requires i <= j <= |u|
  {
    forall k :: i <= k < j ==> UnitIsDigit(u[k])
  }

  predicate UnitSpacesIn(u: seq<Unit>, i: nat, j: nat)
    requires i <= j <= |u|
  {
    forall k :: i <= k < j ==> UnitIsSpace(u[k])
  }

  /** The pattern matches the code units `u` with its groups laid out as `m` says. */
  predicate IsUnitMatch(u: seq<Unit>, cls: OperatorClass, m: Shape) {
    && m.len1 >= 1 && m.len2 >= 1 && m.End() <= |u|
    && UnitDigitsIn(u, m.start, m.start + m.len1)
    && UnitSpacesIn(u, m.start + m.len1, m.OpPos())
    && UnitInClass(cls, u[m.OpPos()])
    && UnitSpacesIn(u, m.OpPos() + 1, m.SecondStart())
    && UnitDigitsIn(u, m.SecondStart(), m.End())
  }

  /** The match the browser's backtracking engine reports on the code units. */
  ghost predicate IsFirstUnitMatch(u: seq<Unit>, cls: OperatorClass, m: Shape) {
    IsUnitMatch(u, cls, m) && forall m' :: IsUnitMatch(u, cls, m') && m' != m ==> TriedBefore(m, m')
  }

  /** A match laid out on characters, moved to code-unit positions. */
  function AtUnits(s: string, m: Shape): Shape
    requires m.start <= |s|
  {
    m.(start := Offset(s, m.start))
  }

  /** The encoding of the first `i` characters is a prefix, Offset(s, i)
      units long, of the encoding of the first `j`. */
  lemma {:induction false} EncodePrefix(s: string, i: nat, j: nat)
    requires i <= j <= |s|
    ensures |EncodeUpTo(s, i)| == Offset(s, i) <= |EncodeUpTo(s, j)| == Offset(s, j)
    ensures forall q :: 0 <= q < Offset(s, i) ==> EncodeUpTo(s, j)[q] == EncodeUpTo(s, i)[q]
    decreases j
  {
    if i < j {
      EncodePrefix(s, i, j - 1);
    } else if i > 0 {
      EncodePrefix(s, i - 1, i - 1);
    }
  }

  /** The units of `s[i]` lie at Offset(s, i), and those of `s[i + 1]` follow them. */
  lemma UnitsAt(s: string, i: nat)
    requires i < |s|
    ensures Offset(s, i + 1) == Offset(s, i) + Width(s[i]) <= |Encode(s)|
    ensures InBmp(s[i]) ==> Encode(s)[Offset(s, i)] == Single(s[i])
    ensures !InBmp(s[i]) ==> Encode(s)[Offset(s, i)] == HighHalf(s[i])
    ensures !InBmp(s[i]) ==> Encode(s)[Offset(s, i) + 1] == LowHalf(s[i])
  {
    EncodePrefix(s, i + 1, |s|);
    EncodePrefix(s, i, i);
    var q := Offset(s, i);
    assert Encode(s)[q] == EncodeUpTo(s, i + 1)[q];
    if !InBmp(s[i]) {
      assert Encode(s)[q + 1] == EncodeUpTo(s, i + 1)[q + 1];
    }
  }

  lemma OffsetEnds(s: string)
    ensures Offset(s, 0) == 0 && Offset(s, |s|) == |Encode(s)|
  {
    EncodePrefix(s, |s|, |s|);
  }

  /** The code units of `s[i]` stand at Offset(s, i) of `u`. */
  predicate CharLaidOut(s: string, u: seq<Unit>, i: nat)
    requires i < |s|
  {
    && Offset(s, i) + Width(s[i]) <= |u|
    && u[Offset(s, i)] == UnitsOf(s[i])[0]
    && (!InBmp(s[i]) ==> u[Offset(s, i) + 1] == LowHalf(s[i]))
  }

  /** `u` is laid out as the UTF-16 form of `s`: the units of each character
      one after the other. The proofs below use only this, one character at a
      time, and never unfold Encode. */
  predicate LaidOut(s: string, u: seq<Unit>) {
    && |u| == Offset(s, |s|)
    && forall i :: 0 <= i < |s| ==> CharLaidOut(s, u, i)
  }

  lemma EncodeLaidOut(s: string)
    ensures LaidOut(s, Encode(s))
  {
    OffsetEnds(s);
    forall i | 0 <= i < |s|
      ensures CharLaidOut(s, Encode(s), i)
    {
      UnitsAt(s, i);
    }
  }

  /** Each character takes at least one code unit. */
  lemma {:induction false} OffsetGrows(s: string, i: nat, j: nat)
    requires i <= j <= |s|
    ensures Offset(s, i) + (j - i) <= Offset(s, j)
    decreases j - i
  {
    if i < j {
      OffsetGrows(s, i, j - 1);
    }
  }

  /** Code-unit positions of characters are in the order of the characters. */
  lemma OffsetOrder(s: string, i: nat, j: nat)
    requires i <= |s| && j <= |s|
    ensures i < j <==> Offset(s, i) < Offset(s, j)
    ensures i == j <==> Offset(s, i) == Offset(s, j)
  {
    if i < j {
      OffsetGrows(s, i, j);
    } else if j < i {
      OffsetGrows(s, j, i);
    }
  }

  /** The character whose units cover code-unit position `q`. */
  lemma {:induction false} Locate(s: string, q: nat, from: nat) returns (i: nat)
    requires from <= |s| && Offset(s, from) <= q < Offset(s, |s|)
    ensures from <= i < |s| && Offset(s, i) <= q < Offset(s, i + 1)
    decreases |s| - from
  {
    if q < Offset(s, from + 1) {
      i := from;
    } else {
      i := Locate(s, q, from + 1);
    }
  }

  /** `s[i..j]` lies in the Basic Multilingual Plane. */
  predicate BmpIn(s: string, i: nat, j: nat)
    requires i <= j <= |s|
  {
    forall p :: i <= p < j ==> InBmp(s[p])
  }

  /** The units `u[q..q + k]` are the characters `s[i..i + k]`, one for one. */
  predicate UnitsAre(s: string, u: seq<Unit>, i: nat, q: nat, k: nat)
    requires i + k <= |s| && q + k <= |u|
  {
    forall r :: q <= r < q + k ==> u[r] == Single(s[i + (r - q)])
  }

  /** A run of characters of the Basic Multilingual Plane is laid out unit for character. */
  lemma {:induction false} SingleRun(s: string, u: seq<Unit>, i: nat, k: nat)
    requires LaidOut(s, u) && i + k <= |s| && BmpIn(s, i, i + k)
    ensures Offset(s, i + k) == Offset(s, i) + k <= |u|
    ensures UnitsAre(s, u, i, Offset(s, i), k)
    decreases k
  {
    if k > 0 {
      SingleRun(s, u, i, k - 1);
      var last := i + k - 1;
      assert CharLaidOut(s, u, last);
      var q := Offset(s, i);
      forall r | q <= r < q + k
        ensures u[r] == Single(s[i + (r - q)])
      {
        if r < q + k - 1 {
          assert UnitsAre(s, u, i, q, k - 1);
        }
      }
    } else {
      OffsetGrows(s, i, |s|);
    }
  }

  /** Within units that are the characters one for one, a run of digits on
      one side is one on the other. */
  lemma DigitSegmentCorresponds(s: string, u: seq<Unit>, i: nat, q: nat, k: nat, a: nat, b: nat)
    requires i + k <= |s| && q + k <= |u| && UnitsAre(s, u, i, q, k)
    requires i <= a <= b <= i + k
    ensures DigitsIn(s, a, b) <==> UnitDigitsIn(u, q + (a - i), q + (b - i))
  {
    DigitsInEach(s, a, b);
    forall p | a <= p < b
      ensures u[q + (p - i)] == Single(s[p])
    {
      assert u[q + (p - i)] == Single(s[i + ((q + (p - i)) - q)]);
    }
  }

  /** The same for a run of spaces. */
  lemma SpaceSegmentCorresponds(s: string, u: seq<Unit>, i: nat, q: nat, k: nat, a: nat, b: nat)
    requires i + k <= |s| && q + k <= |u| && UnitsAre(s, u, i, q, k)
    requires i <= a <= b <= i + k
    ensures SpacesIn(s, a, b) <==> UnitSpacesIn(u, q + (a - i), q + (b - i))
  {
    SpacesInEach(s, a, b);
    forall p | a <= p < b
      ensures u[q + (p - i)] == Single(s[p])
    {
      assert u[q + (p - i)] == Single(s[i + ((q + (p - i)) - q)]);
    }
  }

  /** On a unit that is a character of the Basic Multilingual Plane each
      operator class agrees with itself on the character. */
  lemma ClassOnSingle(cls: OperatorClass, c: char)
    requires InBmp(c)
    ensures UnitInClass(cls, Single(c)) <==> InClass(cls, c)
  {
  }

  /** Every unit of a match is a single unit except perhaps the operator. */
  lemma MatchUnitsSingle(u: seq<Unit>, cls: OperatorClass, m: Shape, p: nat)
    requires IsUnitMatch(u, cls, m)
    requires m.start <= p < m.End() && p != m.OpPos()
    ensures u[p].Single?
  {
    if p < m.start + m.len1 {
      assert UnitIsDigit(u[p]);
    } else if p < m.OpPos() {
      assert UnitIsSpace(u[p]);
    } else if p < m.SecondStart() {
      assert UnitIsSpace(u[p]);
    } else {
      assert UnitIsDigit(u[p]);
    }
  }

  /** Walking a code-unit match from a character boundary: none of the first
      `k` characters is a surrogate pair, since a high half in the match is
      either not the operator, or the operator followed by a low half, where
      the pattern wants a space or a digit. */
  lemma {:induction false} WalkUnitMatch(s: string, u: seq<Unit>, cls: OperatorClass, m: Shape, i: nat, k: nat)
    requires LaidOut(s, u) && IsUnitMatch(u, cls, m)
    requires i <= |s| && Offset(s, i) == m.start && k <= m.End() - m.start
    ensures i + k <= |s| && BmpIn(s, i, i + k)
    decreases k
  {
    if k > 0 {
      WalkUnitMatch(s, u, cls, m, i, k - 1);
      SingleRun(s, u, i, k - 1);
      var last := i + k - 1;
      var p := m.start + k - 1;
      if last == |s| {
        assert false;
      }
      assert CharLaidOut(s, u, last);
      if !InBmp(s[last]) {
        assert false;
      }
    }
  }

  lemma SpaceInBmp(c: char)
    requires IsSpace(c)
    ensures InBmp(c)
  {
  }

  lemma ClassInBmp(cls: OperatorClass, c: char)
    requires InClass(cls, c)
    ensures InBmp(c)
  {
  }

  /** The characters of a match all lie in the Basic Multilingual Plane. */
  lemma MatchInBmp(s: string, cls: OperatorClass, m: Shape)
    requires IsMatch(s, cls, m)
    ensures BmpIn(s, m.start, m.End())
  {
    DigitsInEach(s, m.start, m.start + m.len1);
    SpacesInEach(s, m.start + m.len1, m.OpPos());
    SpacesInEach(s, m.OpPos() + 1, m.SecondStart());
    DigitsInEach(s, m.SecondStart(), m.End());
    ClassInBmp(cls, s[m.OpPos()]);
    forall p | m.start <= p < m.End()
      ensures InBmp(s[p])
    {
      if m.start + m.len1 <= p < m.OpPos() || m.OpPos() < p < m.SecondStart() {
        SpaceInBmp(s[p]);
      }
    }
  }

  /** The two numbers of a match read the same on characters that stand one
      for one as units at `q`, and so does the operator. */
  lemma NumbersMove(s: string, u: seq<Unit>, m: Shape, q: nat)
    requires m.End() <= |s| && q + (m.End() - m.start) <= |u|
    requires UnitsAre(s, u, m.start, q, m.End() - m.start)
    ensures DigitsIn(s, m.start, m.start + m.len1) <==> UnitDigitsIn(u, q, q + m.len1)
    ensures DigitsIn(s, m.SecondStart(), m.End()) <==> UnitDigitsIn(u, q + (m.SecondStart() - m.start), q + (m.End() - m.start))
    ensures u[q + (m.OpPos() - m.start)] == Single(s[m.OpPos()])
  {
    var k := m.End() - m.start;
    DigitSegmentCorresponds(s, u, m.start, q, k, m.start, m.start + m.len1);
    DigitSegmentCorresponds(s, u, m.start, q, k, m.SecondStart(), m.End());
  }

  /** The two gaps of a match read the same there. */
  lemma GapsMove(s: string, u: seq<Unit>, m: Shape, q: nat)
    requires m.End() <= |s| && q + (m.End() - m.start) <= |u|
    requires UnitsAre(s, u, m.start, q, m.End() - m.start)
    ensures SpacesIn(s, m.start + m.len1, m.OpPos()) <==> UnitSpacesIn(u, q + m.len1, q + (m.OpPos() - m.start))
    ensures SpacesIn(s, m.OpPos() + 1, m.SecondStart()) <==> UnitSpacesIn(u, q + (m.OpPos() - m.start) + 1, q + (m.SecondStart() - m.start))
  {
    var k := m.End() - m.start;
    SpaceSegmentCorresponds(s, u, m.start, q, k, m.start + m.len1, m.OpPos());
    SpaceSegmentCorresponds(s, u, m.start, q, k, m.OpPos() + 1, m.SecondStart());
  }

  /** A match on characters that stand one for one as units at `q` is a
      match on the units at `q`, and the other way round. */
  lemma MatchMoves(s: string, u: seq<Unit>, cls: OperatorClass, m: Shape, q: nat)
    requires m.End() <= |s| && q + (m.End() - m.start) <= |u|
    requires UnitsAre(s, u, m.start, q, m.End() - m.start) && InBmp(s[m.OpPos()])
    ensures IsMatch(s, cls, m) <==> IsUnitMatch(u, cls, m.(start := q))
  {
    NumbersMove(s, u, m, q);
    GapsMove(s, u, m, q);
    ClassOnSingle(cls, s[m.OpPos()]);
  }

  /** A match on the characters is a match on the code units, each unit being
      the character at the same place in the match. */
  lemma ToUnits(s: string, u: seq<Unit>, cls: OperatorClass, m: Shape)
    requires LaidOut(s, u) && IsMatch(s, cls, m)
    ensures Offset(s, m.start) + (m.End() - m.start) <= |u|
    ensures IsUnitMatch(u, cls, AtUnits(s, m))
    ensures UnitsAre(s, u, m.start, Offset(s, m.start), m.End() - m.start)
  {
    MatchInBmp(s, cls, m);
    SingleRun(s, u, m.start, m.End() - m.start);
    MatchMoves(s, u, cls, m, Offset(s, m.start));
  }

  /** A match on the code units is a match on the characters, moved. */
  lemma FromUnits(s: string, u: seq<Unit>, cls: OperatorClass, mu: Shape) returns (m: Shape)
    requires LaidOut(s, u) && IsUnitMatch(u, cls, mu)
    ensures IsMatch(s, cls, m) && AtUnits(s, m) == mu
  {
    assert UnitIsDigit(u[mu.start]);
    var i := Locate(s, mu.start, 0);
    assert CharLaidOut(s, u, i);
    var k := mu.End() - mu.start;
    WalkUnitMatch(s, u, cls, mu, i, k);
    SingleRun(s, u, i, k);
    m := mu.(start := i);
    assert m.(start := mu.start) == mu;
    MatchMoves(s, u, cls, m, mu.start);
  }

  /** Moving two matches to code units keeps the order in which they are tried. */
  lemma SameOrder(s: string, a: Shape, b: Shape)
    requires a.start <= |s| && b.start <= |s|
    ensures TriedBefore(AtUnits(s, a), AtUnits(s, b)) <==> TriedBefore(a, b)
    ensures AtUnits(s, a) == AtUnits(s, b) <==> a == b
  {
    OffsetOrder(s, a.start, b.start);
  }

  /** The first match on the characters, moved, is the first match on the code units. */
  lemma FirstMatchOnUnits(s: string, u: seq<Unit>, cls: OperatorClass, m: Shape)
    requires LaidOut(s, u) && IsFirstMatch(s, cls, m)
    ensures IsFirstUnitMatch(u, cls, AtUnits(s, m))
  {
    ToUnits(s, u, cls, m);
    forall mu | IsUnitMatch(u, cls, mu) && mu != AtUnits(s, m)
      ensures TriedBefore(AtUnits(s, m), mu)
    {
      var m2 := FromUnits(s, u, cls, mu);
      SameOrder(s, m, m2);
    }
  }

  /** FindMatch is the browser's matcher: it finds a match exactly when the
      pattern matches the code units of the problem, and then the match the
      browser reports, every unit of which is the character FindMatch reads
      at that place; so both read the same groups. */
  lemma FindMatchOnCodeUnits(s: string, cls: OperatorClass)
    ensures FindMatch(s, cls).None? <==> forall m :: !IsUnitMatch(Encode(s), cls, m)
    ensures FindMatch(s, cls).Some? ==>
      var m := FindMatch(s, cls).value;
      && Offset(s, m.start) + (m.End() - m.start) <= |Encode(s)|
      && IsFirstUnitMatch(Encode(s), cls, AtUnits(s, m))
      && UnitsAre(s, Encode(s), m.start, Offset(s, m.start), m.End() - m.start)
  {
    var u := Encode(s);
    EncodeLaidOut(s);
    FindMatchIsFirst(s, cls);
    forall mu | IsUnitMatch(u, cls, mu)
      ensures FindMatch(s, cls).Some?
    {
      var m := FromUnits(s, u, cls, mu);
    }
    if FindMatch(s, cls).Some? {
      var m := FindMatch(s, cls).value;
      FirstMatchOnUnits(s, u, cls, m);
      ToUnits(s, u, cls, m);
    }
  }

  /** A problem such as `"5😀7"`, a digit, a character above the Basic
      Multilingual Plane and a digit, has no match on its characters. */
  lemma AstralOperatorNoMatch(s: string)
    requires |s| == 3 && IsDigit(s[0]) && !InBmp(s[1]) && IsDigit(s[2])
    ensures FindMatch(s, NonSpace).None?
  {
    FindMatchIsFirst(s, NonSpace);
    forall m | IsMatch(s, NonSpace, m)
      ensures false
    {
    }
  }

  /** The browser finds no match in such a problem, since `(\S)` can take only
      the high half of the emoji and `\d+` then fails on the low half; Parse
      finds none either. */
  lemma AstralOperatorDoesNotMatch(s: string)
    requires |s| == 3 && IsDigit(s[0]) && !InBmp(s[1]) && IsDigit(s[2])
    ensures Parse(s) == None
    ensures forall m :: !IsUnitMatch(Encode(s), NonSpace, m)
  {
    AstralOperatorNoMatch(s);
    FindMatchOnCodeUnits(s, NonSpace);
  }
}
