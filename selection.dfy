/** Reference descriptions of which results each bucket gathers, written
    without the analyses' code: a selector picks results by what the parser
    reads from their problem text. */
module Selection {
  import opened Text
  import opened ProblemParser
  import opened JsObject
  import opened Buckets

  datatype Selector =
    | Nothing                                 // no result
    | Parsing                                 // the plain pattern matches
    | NotParsing                              // the plain pattern does not match
    | WithOperator(op: char)                  // its operator normalises to `op`
    | FallbackWithOperator(op: char)          // the same, read by the fallback chain
    | WithFirst(n: nat)                       // its first number is `n`
    | WithSecond(n: nat)                      // its second number is `n`
    | WithOperatorFirst(op: char, n: nat)     // operator `op` and first number `n`
    | WithOperatorSecond(op: char, n: nat)    // operator `op` and second number `n`
    | Borrowing                               // `a - b` with `a % 10 < b % 10`

  /** `a - b` whose ones digit needs a borrow: the test of popup-debug.js for `sub_borrow`. */
  predicate NeedsBorrow(p: Parsed) {
    NormalizeOperator(p.op) == '-' && p.first % 10 < p.second % 10
  }

  predicate Selects(sel: Selector, r: Result) {
    Test(sel)(r)
  }

  /** The test a selector stands for. Each kind is its own function value, so
      a proof about an unknown selector does not unfold the parser. */
  function Test(sel: Selector): Result -> bool {
    match sel
    case Nothing => (r: Result) => false
    case Parsing => (r: Result) => Parse(r.problem).Some?
    case NotParsing => (r: Result) => Parse(r.problem).None?
    case WithOperator(op) => (r: Result) => HasOperator(Parse(r.problem), op)
    case FallbackWithOperator(op) => (r: Result) => HasOperator(ParseWithFallback(r.problem), op)
    case WithFirst(n) => (r: Result) => var m := Parse(r.problem); m.Some? && m.value.first == n
    case WithSecond(n) => (r: Result) => var m := Parse(r.problem); m.Some? && m.value.second == n
    case WithOperatorFirst(op, n) =>
      (r: Result) => var m := Parse(r.problem); HasOperator(m, op) && m.value.first == n
    case WithOperatorSecond(op, n) =>
      (r: Result) => var m := Parse(r.problem); HasOperator(m, op) && m.value.second == n
    case Borrowing => (r: Result) => var m := Parse(r.problem); m.Some? && NeedsBorrow(m.value)
  }

  predicate HasOperator(m: Option<Parsed>, op: char) {
    m.Some? && NormalizeOperator(m.value.op) == op
  }

  /** The selected results, in their recorded order. */
  function Filter(rs: seq<Result>, sel: Selector): (f: seq<Result>)
    ensures |f| <= |rs|
    ensures forall r :: r in f ==> r in rs && Selects(sel, r)
    decreases |rs|
  {
    if rs == [] then []
    else
      var last := rs[|rs| - 1];
      Filter(rs[..|rs| - 1], sel) + (if Selects(sel, last) then [last] else [])
  }

  function SumTimes(rs: seq<Result>): real
    decreases |rs|
  {
    if rs == [] then 0.0 else SumTimes(rs[..|rs| - 1]) + rs[|rs| - 1].time
  }

  function Indicator(sel: Selector, r: Result): nat {
    if Selects(sel, r) then 1 else 0
  }

  /** The last result adds its indicator to a selection's size ... */
  lemma FilterCountLast(rs: seq<Result>, sel: Selector)
    requires rs != []
    ensures |Filter(rs, sel)| == |Filter(rs[..|rs| - 1], sel)| + Indicator(sel, rs[|rs| - 1])
  {
  }

  /** ... and its time once when it is picked. */
  lemma FilterTimeLast(rs: seq<Result>, sel: Selector)
    requires rs != []
    ensures SumTimes(Filter(rs, sel)) == SumTimes(Filter(rs[..|rs| - 1], sel)) + Repeat(Indicator(sel, rs[|rs| - 1]), rs[|rs| - 1].time)
  {
    var front, last := rs[..|rs| - 1], rs[|rs| - 1];
    var e := if Selects(sel, last) then [last] else [];
    assert Filter(rs, sel) == Filter(front, sel) + e;
    SumTimesAppend(Filter(front, sel), e);
    if Selects(sel, last) {
      assert e[..0] == [];
    }
  }

  /** When every result feeds key `k` once for each of the selectors `a` and
      `b` that picks it, the fold gives `k` one increment per selected result
      and adds their times. */
  lemma OccurrencesBySelectors(rs: seq<Result>, keysOf: Result -> seq<PropertyKey>, k: PropertyKey, a: Selector, b: Selector)
    requires forall r :: multiset(keysOf(r))[k] == Indicator(a, r) + Indicator(b, r)
    ensures Occurrences(rs, keysOf, k) == |Filter(rs, a)| + |Filter(rs, b)|
    ensures TimeAdded(rs, keysOf, k) == SumTimes(Filter(rs, a)) + SumTimes(Filter(rs, b))
  {
    OccurrenceCount(rs, keysOf, k, a, b);
    OccurrenceTime(rs, keysOf, k, a, b);
  }

  lemma {:induction false} OccurrenceCount(rs: seq<Result>, keysOf: Result -> seq<PropertyKey>, k: PropertyKey, a: Selector, b: Selector)
    requires forall r :: multiset(keysOf(r))[k] == Indicator(a, r) + Indicator(b, r)
    ensures Occurrences(rs, keysOf, k) == |Filter(rs, a)| + |Filter(rs, b)|
    decreases |rs|
  {
    if rs != [] {
      var last := rs[|rs| - 1];
      OccurrenceCount(rs[..|rs| - 1], keysOf, k, a, b);
      FilterCountLast(rs, a);
      FilterCountLast(rs, b);
      assert multiset(keysOf(last))[k] == Indicator(a, last) + Indicator(b, last);
    }
  }

  lemma {:induction false} OccurrenceTime(rs: seq<Result>, keysOf: Result -> seq<PropertyKey>, k: PropertyKey, a: Selector, b: Selector)
    requires forall r :: multiset(keysOf(r))[k] == Indicator(a, r) + Indicator(b, r)
    ensures TimeAdded(rs, keysOf, k) == SumTimes(Filter(rs, a)) + SumTimes(Filter(rs, b))
    decreases |rs|
  {
    if rs != [] {
      var last := rs[|rs| - 1];
      OccurrenceTime(rs[..|rs| - 1], keysOf, k, a, b);
      FilterTimeLast(rs, a);
      FilterTimeLast(rs, b);
      var m := multiset(keysOf(last))[k];
      assert TimeAdded(rs, keysOf, k) == TimeAdded(rs[..|rs| - 1], keysOf, k) + Repeat(m, last.time);
      assert m == Indicator(a, last) + Indicator(b, last);
      RepeatAdd(Indicator(a, last), Indicator(b, last), last.time);
      assert Repeat(m, last.time) == Repeat(Indicator(a, last), last.time) + Repeat(Indicator(b, last), last.time);
    }
  }

  /** When every result feeds one key for each of the selectors `a` and `b`
      that picks it, the fold gives one increment per selected result. */
  lemma IncrementsBySelectors(rs: seq<Result>, keysOf: Result -> seq<PropertyKey>, a: Selector, b: Selector)
    requires forall r :: |keysOf(r)| == Indicator(a, r) + Indicator(b, r)
    ensures Increments(rs, keysOf) == |Filter(rs, a)| + |Filter(rs, b)|
    ensures IncrementTime(rs, keysOf) == SumTimes(Filter(rs, a)) + SumTimes(Filter(rs, b))
  {
    IncrementCount(rs, keysOf, a, b);
    IncrementTimeBySelectors(rs, keysOf, a, b);
  }

  lemma {:induction false} IncrementCount(rs: seq<Result>, keysOf: Result -> seq<PropertyKey>, a: Selector, b: Selector)
    requires forall r :: |keysOf(r)| == Indicator(a, r) + Indicator(b, r)
    ensures Increments(rs, keysOf) == |Filter(rs, a)| + |Filter(rs, b)|
    decreases |rs|
  {
    if rs != [] {
      var last := rs[|rs| - 1];
      IncrementCount(rs[..|rs| - 1], keysOf, a, b);
      FilterCountLast(rs, a);
      FilterCountLast(rs, b);
      assert |keysOf(last)| == Indicator(a, last) + Indicator(b, last);
    }
  }

  lemma {:induction false} IncrementTimeBySelectors(rs: seq<Result>, keysOf: Result -> seq<PropertyKey>, a: Selector, b: Selector)
    requires forall r :: |keysOf(r)| == Indicator(a, r) + Indicator(b, r)
    ensures IncrementTime(rs, keysOf) == SumTimes(Filter(rs, a)) + SumTimes(Filter(rs, b))
    decreases |rs|
  {
    if rs != [] {
      var last := rs[|rs| - 1];
      IncrementTimeBySelectors(rs[..|rs| - 1], keysOf, a, b);
      FilterTimeLast(rs, a);
      FilterTimeLast(rs, b);
      var m := |keysOf(last)|;
      assert IncrementTime(rs, keysOf) == IncrementTime(rs[..|rs| - 1], keysOf) + Repeat(m, last.time);
      assert m == Indicator(a, last) + Indicator(b, last);
      RepeatAdd(Indicator(a, last), Indicator(b, last), last.time);
      assert Repeat(m, last.time) == Repeat(Indicator(a, last), last.time) + Repeat(Indicator(b, last), last.time);
    }
  }

  /** One more result adds that result to the selection when it is picked. */
  lemma FilterStep(rs: seq<Result>, i: nat, sel: Selector)
    requires i < |rs|
    ensures Filter(rs[..i + 1], sel) == Filter(rs[..i], sel) + (if Selects(sel, rs[i]) then [rs[i]] else [])
  {
    assert rs[..i + 1][..|rs[..i + 1]| - 1] == rs[..i];
  }

  /** One more result adds its indicator to a selection's size. */
  lemma FilterCountStep(rs: seq<Result>, i: nat, sel: Selector)
    requires i < |rs|
    ensures |Filter(rs[..i + 1], sel)| == |Filter(rs[..i], sel)| + Indicator(sel, rs[i])
  {
    FilterStep(rs, i, sel);
  }

  /** Selectors of which each result satisfies at most one pick at most as
      many results as there are. */
  lemma {:induction false} DisjointFilters(rs: seq<Result>, a: Selector, b: Selector, c: Selector, d: Selector)
    requires forall r :: Indicator(a, r) + Indicator(b, r) + Indicator(c, r) + Indicator(d, r) <= 1
    ensures |Filter(rs, a)| + |Filter(rs, b)| + |Filter(rs, c)| + |Filter(rs, d)| <= |rs|
    decreases |rs|
  {
    if rs != [] {
      var last := rs[|rs| - 1];
      DisjointFilters(rs[..|rs| - 1], a, b, c, d);
      FilterCountLast(rs, a);
      FilterCountLast(rs, b);
      FilterCountLast(rs, c);
      FilterCountLast(rs, d);
      assert Indicator(a, last) + Indicator(b, last) + Indicator(c, last) + Indicator(d, last) <= 1;
    }
  }

  lemma {:induction false} SumTimesAppend(xs: seq<Result>, ys: seq<Result>)
    ensures SumTimes(xs + ys) == SumTimes(xs) + SumTimes(ys)
    decreases |ys|
  {
    if ys != [] {
      var zs := ys[..|ys| - 1];
      assert (xs + ys)[..|xs + ys| - 1] == xs + zs;
      SumTimesAppend(xs, zs);
    } else {
      assert xs + ys == xs;
    }
  }

  /** A result the plain pattern parses is selected by `WithFirst` of its first
      number and `WithSecond` of its second; one it does not parse by `NotParsing`. */
  lemma SelectorsOfParse(r: Result)
    ensures Parse(r.problem).None? <==> Selects(NotParsing, r)
    ensures Parse(r.problem).Some? <==> Selects(Parsing, r)
    ensures Parse(r.problem).Some? ==>
      Selects(WithFirst(Parse(r.problem).value.first), r) && Selects(WithSecond(Parse(r.problem).value.second), r)
  {
  }

  /** `FallbackWithOperator(op)` picks the results whose operator, read by the
      fallback chain, normalises to `op`. */
  lemma SelectsByFallback(r: Result, m: Parsed, op: char)
    requires ParseWithFallback(r.problem) == Some(m)
    ensures Selects(FallbackWithOperator(op), r) <==> NormalizeOperator(m.op) == op
  {
  }

  /** `WithFirst(n)` and `WithSecond(n)` read the operands of the plain parse. */
  lemma SelectsByOperands(r: Result, n: nat)
    ensures Selects(WithFirst(n), r) <==> Parse(r.problem).Some? && Parse(r.problem).value.first == n
    ensures Selects(WithSecond(n), r) <==> Parse(r.problem).Some? && Parse(r.problem).value.second == n
  {
  }
}
