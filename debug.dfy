/** `analyzeByPatternDebug`: the pattern analysis the debug popup shows. It
    differs from `analyzeByPattern` in counting only the divisor of a division,
    and it keeps counters and a few sample problems alongside the buckets. */
module PatternDebug {
  import opened Text
  import opened ProblemParser
  import opened JsObject
  import opened Buckets
  import opened Selection
  import opened Naming
  import opened Analysis

  /** `{ problem, status: 'NO_MATCH' }` or `{ problem, parsed: { n1, op, n2 } }`
      (the operator already normalised). */
  datatype Sample =
    | NoMatchSample(problem: string)
    | ParsedSample(problem: string, n1: nat, op: char, n2: nat)

  datatype DebugInfo = DebugInfo(
    totalProblems: nat,
    multiplicationProblems: nat,
    divisionProblems: nat,
    subtractionWithBorrow: nat,
    unmatchedProblems: nat,
    samples: seq<Sample>)

  /** The buckets a result feeds: both operands of a multiplication, only the
      divisor of a division, `sub_borrow` for a borrowing subtraction. */
  function DebugPatternKeys(r: Result): seq<PropertyKey> {
    match Parse(r.problem)
    case None => []
    case Some(p) => ProblemDebugKeys(p)
  }

  function ProblemDebugKeys(p: Parsed): seq<PropertyKey> {
    var op := NormalizeOperator(p.op);
    if op == '*' then OperandPatternKeys('*', p.first) + OperandPatternKeys('*', p.second)
    else if op == '/' then OperandPatternKeys('/', p.second)
    else if NeedsBorrow(p) then [NameKey(BorrowKey)]
    else []
  }

  /** The sample list after one more result: a NO_MATCH sample while fewer
      than five samples are held, a parsed one while fewer than ten. */
  function AddSample(samples: seq<Sample>, r: Result): seq<Sample> {
    match Parse(r.problem)
    case None => if |samples| < 5 then samples + [NoMatchSample(r.problem)] else samples
    case Some(p) =>
      if |samples| < 10 then samples + [ParsedSample(r.problem, p.first, NormalizeOperator(p.op), p.second)] else samples
  }

  function Samples(rs: seq<Result>): seq<Sample>
    decreases |rs|
  {
    if rs == [] then [] else AddSample(Samples(rs[..|rs| - 1]), rs[|rs| - 1])
  }

  /** The counters and samples after the results `rs`, of `total` results in all. */
  function DebugAfter(rs: seq<Result>, total: nat): DebugInfo {
    DebugInfo(total, |Filter(rs, WithOperator('*'))|, |Filter(rs, WithOperator('/'))|,
      |Filter(rs, Borrowing)|, |Filter(rs, NotParsing)|, Samples(rs))
  }

  /** `analyzeByPatternDebug(results)` */
  method AnalyzeByPatternDebug(results: seq<Result>) returns (patterns: Stats, debug: DebugInfo)
    ensures patterns == Tally(Empty(), results, DebugPatternKeys)
    ensures debug.totalProblems == |results|
    ensures debug.multiplicationProblems == |Filter(results, WithOperator('*'))|
    ensures debug.divisionProblems == |Filter(results, WithOperator('/'))|
    ensures debug.subtractionWithBorrow == |Filter(results, Borrowing)|
    ensures debug.unmatchedProblems == |Filter(results, NotParsing)|
    ensures debug.samples == Samples(results)
  {
    patterns := Empty();
    debug := DebugInfo(|results|, 0, 0, 0, 0, []);
    var i := 0;
    while i < |results|
      invariant 0 <= i <= |results|
      invariant patterns == Tally(Empty(), results[..i], DebugPatternKeys)
      invariant debug == DebugAfter(results[..i], |results|)
    {
      patterns, debug := RecordResult(patterns, debug, results, i);
      i := i + 1;
    }
    assert results[..|results|] == results;
  }

  /** The callback of `results.forEach` on result `i`. */
  method RecordResult(patterns: Stats, debug: DebugInfo, results: seq<Result>, i: nat)
    returns (patterns': Stats, debug': DebugInfo)
    requires i < |results|
    requires patterns == Tally(Empty(), results[..i], DebugPatternKeys)
    requires debug == DebugAfter(results[..i], |results|)
    ensures patterns' == Tally(Empty(), results[..i + 1], DebugPatternKeys)
    ensures debug' == DebugAfter(results[..i + 1], |results|)
  {
    TallyStep(Empty(), results, i, DebugPatternKeys);
    DebugAfterStep(results, i);
    debug' := RecordDebug(debug, results[i]);
    patterns' := RecordPatterns(patterns, results[i]);
  }

  /** One more result moves the counters by its indicators and offers it as a sample. */
  lemma DebugAfterStep(results: seq<Result>, i: nat)
    requires i < |results|
    ensures var d := DebugAfter(results[..i], |results|);
      DebugAfter(results[..i + 1], |results|) == d.(
        multiplicationProblems := d.multiplicationProblems + Indicator(WithOperator('*'), results[i]),
        divisionProblems := d.divisionProblems + Indicator(WithOperator('/'), results[i]),
        subtractionWithBorrow := d.subtractionWithBorrow + Indicator(Borrowing, results[i]),
        unmatchedProblems := d.unmatchedProblems + Indicator(NotParsing, results[i]),
        samples := AddSample(d.samples, results[i]))
  {
    FilterCountStep(results, i, WithOperator('*'));
    FilterCountStep(results, i, WithOperator('/'));
    FilterCountStep(results, i, Borrowing);
    FilterCountStep(results, i, NotParsing);
    assert results[..i + 1][..i] == results[..i];
  }

  /** The four counters' selectors, read off the parse of a result. */
  lemma DebugIndicators(r: Result, m: Option<Parsed>)
    requires m == Parse(r.problem)
    ensures Indicator(NotParsing, r) == if m.None? then 1 else 0
    ensures Indicator(WithOperator('*'), r) == if m.Some? && NormalizeOperator(m.value.op) == '*' then 1 else 0
    ensures Indicator(WithOperator('/'), r) == if m.Some? && NormalizeOperator(m.value.op) == '/' then 1 else 0
    ensures Indicator(Borrowing, r) == if m.Some? && NeedsBorrow(m.value) then 1 else 0
  {
  }

  /** The loop body's effect on the debug counters and samples. */
  method RecordDebug(debug: DebugInfo, result: Result) returns (debug': DebugInfo)
    ensures debug' == debug.(
      multiplicationProblems := debug.multiplicationProblems + Indicator(WithOperator('*'), result),
      divisionProblems := debug.divisionProblems + Indicator(WithOperator('/'), result),
      subtractionWithBorrow := debug.subtractionWithBorrow + Indicator(Borrowing, result),
      unmatchedProblems := debug.unmatchedProblems + Indicator(NotParsing, result),
      samples := AddSample(debug.samples, result))
  {
    debug' := debug;
    DebugIndicators(result, Parse(result.problem));
    match Parse(result.problem) {
      case None =>
        debug' := debug'.(unmatchedProblems := debug'.unmatchedProblems + 1);
        if |debug'.samples| < 5 {
          debug' := debug'.(samples := debug'.samples + [NoMatchSample(result.problem)]);
        }
      case Some(m) =>
        var n1, n2, op := m.first, m.second, NormalizeOperator(m.op);
        if |debug'.samples| < 10 {
          debug' := debug'.(samples := debug'.samples + [ParsedSample(result.problem, n1, op, n2)]);
        }
        if op == '*' {
          debug' := debug'.(multiplicationProblems := debug'.multiplicationProblems + 1);
        } else if op == '/' {
          debug' := debug'.(divisionProblems := debug'.divisionProblems + 1);
        } else if op == '-' && n1 % 10 < n2 % 10 {
          debug' := debug'.(subtractionWithBorrow := debug'.subtractionWithBorrow + 1);
        }
    }
  }

  /** The loop body's effect on the pattern buckets. */
  method RecordPatterns(patterns: Stats, result: Result) returns (patterns': Stats)
    requires patterns.Valid()
    ensures patterns' == BumpAll(patterns, DebugPatternKeys(result), result.time)
  {
    patterns' := patterns;
    match Parse(result.problem) {
      case None =>
      case Some(m) =>
        var n1, n2, op := m.first, m.second, NormalizeOperator(m.op);
        if op == '*' {
          BumpAllAppend(patterns, OperandPatternKeys('*', n1), OperandPatternKeys('*', n2), result.time);
          if 2 <= n1 <= 12 {
            BumpAllOne(patterns', OperandPatternKey('*', n1), result.time);
            patterns' := Bump(patterns', OperandPatternKey('*', n1), result.time);
          }
          assert patterns' == BumpAll(patterns, OperandPatternKeys('*', n1), result.time);
          if 2 <= n2 <= 12 {
            BumpAllOne(patterns', OperandPatternKey('*', n2), result.time);
            patterns' := Bump(patterns', OperandPatternKey('*', n2), result.time);
          }
        } else if op == '/' {
          if 2 <= n2 <= 12 {
            BumpAllOne(patterns', OperandPatternKey('/', n2), result.time);
            patterns' := Bump(patterns', OperandPatternKey('/', n2), result.time);
          }
        } else if op == '-' && n1 % 10 < n2 % 10 {
          BumpAllOne(patterns', NameKey(BorrowKey), result.time);
          patterns' := Bump(patterns', NameKey(BorrowKey), result.time);
        }
    }
  }

  // ---------------------------------------------------------------- buckets

  lemma ProblemDebugOperandCount(p: Parsed, op: char, n: nat)
    requires op == '*' || op == '/'
    requires 2 <= n <= 12
    ensures multiset(ProblemDebugKeys(p))[OperandPatternKey(op, n)]
      == (if op == '*' && NormalizeOperator(p.op) == op && p.first == n then 1 else 0)
       + (if NormalizeOperator(p.op) == op && p.second == n then 1 else 0)
  {
    var key := OperandPatternKey(op, n);
    var op' := NormalizeOperator(p.op);
    OperandPatternKeyIsNotBorrow(op, n);
    if op' == '*' || op' == '/' {
      OperandPatternKeyInjective(op', p.first, op, n);
      OperandPatternKeyInjective(op', p.second, op, n);
      var xs, ys := OperandPatternKeys(op', p.first), OperandPatternKeys(op', p.second);
      assert multiset(xs)[key] == (if op' == op && p.first == n then 1 else 0);
      assert multiset(ys)[key] == (if op' == op && p.second == n then 1 else 0);
      if op' == '*' {
        assert ProblemDebugKeys(p) == xs + ys;
      } else {
        assert ProblemDebugKeys(p) == ys;
      }
    }
  }

  /** Under `*` a number's bucket counts the multiplications with it as
      either operand; under `/` only the divisions with it as divisor. */
  lemma DebugOperandBucket(results: seq<Result>, op: char, n: nat)
    requires op == '*' || op == '/'
    requires 2 <= n <= 12
    ensures op == '*' ==>
      CountIn(Tally(Empty(), results, DebugPatternKeys).values, OperandPatternKey(op, n))
        == |Filter(results, WithOperatorFirst(op, n))| + |Filter(results, WithOperatorSecond(op, n))|
    ensures op == '/' ==>
      CountIn(Tally(Empty(), results, DebugPatternKeys).values, OperandPatternKey(op, n))
        == |Filter(results, WithOperatorSecond(op, n))|
    ensures TotalIn(Tally(Empty(), results, DebugPatternKeys).values, OperandPatternKey(op, n))
      == (if op == '*' then SumTimes(Filter(results, WithOperatorFirst(op, n))) else 0.0)
       + SumTimes(Filter(results, WithOperatorSecond(op, n)))
  {
    var key := OperandPatternKey(op, n);
    var a := if op == '*' then WithOperatorFirst(op, n) else Nothing;
    forall r ensures multiset(DebugPatternKeys(r))[key] == Indicator(a, r) + Indicator(WithOperatorSecond(op, n), r) {
      DebugOperandKeyCount(r, op, n);
    }
    OccurrencesBySelectors(results, DebugPatternKeys, key, a, WithOperatorSecond(op, n));
    TallyBuckets(Empty(), results, DebugPatternKeys, key);
    NothingSelectsNothing(results);
  }

  lemma DebugOperandKeyCount(r: Result, op: char, n: nat)
    requires op == '*' || op == '/'
    requires 2 <= n <= 12
    ensures multiset(DebugPatternKeys(r))[OperandPatternKey(op, n)]
      == Indicator(if op == '*' then WithOperatorFirst(op, n) else Nothing, r) + Indicator(WithOperatorSecond(op, n), r)
  {
    if Parse(r.problem).Some? {
      ProblemDebugOperandCount(Parse(r.problem).value, op, n);
    }
  }

  /** The two pattern analyses part on a division whose dividend is in
      2..12 and differs from the divisor: the original counts it under the
      dividend, the debug variant does not. */
  lemma DivisionVariantsDiffer(p: Parsed)
    requires NormalizeOperator(p.op) == '/'
    requires 2 <= p.first <= 12 && p.first != p.second
    ensures OperandPatternKey('/', p.first) in ProblemPatternKeys(p)
    ensures OperandPatternKey('/', p.first) !in ProblemDebugKeys(p)
  {
    OperandPatternKeyInjective('/', p.first, '/', p.second);
    assert ProblemPatternKeys(p)[0] == OperandPatternKey('/', p.first);
  }

  // ---------------------------------------------------------------- counters

  lemma CounterIndicators(r: Result)
    ensures Indicator(WithOperator('*'), r) + Indicator(WithOperator('/'), r)
      + Indicator(Borrowing, r) + Indicator(NotParsing, r) <= 1
  {
  }

  /** Each result bumps at most one counter, so the four counters add up to
      at most the number of problems. */
  lemma CountersBounded(results: seq<Result>)
    ensures |Filter(results, WithOperator('*'))| + |Filter(results, WithOperator('/'))|
      + |Filter(results, Borrowing)| + |Filter(results, NotParsing)| <= |results|
  {
    forall r ensures Indicator(WithOperator('*'), r) + Indicator(WithOperator('/'), r)
      + Indicator(Borrowing, r) + Indicator(NotParsing, r) <= 1 {
      CounterIndicators(r);
    }
    DisjointFilters(results, WithOperator('*'), WithOperator('/'), Borrowing, NotParsing);
  }

  // ---------------------------------------------------------------- samples

  /** A sample records what the parser read from a problem of the results. */
  predicate Describes(s: Sample, rs: seq<Result>) {
    match s
    case NoMatchSample(problem) =>
      (exists r :: r in rs && r.problem == problem) && Parse(problem).None?
    case ParsedSample(problem, n1, op, n2) =>
      (exists r :: r in rs && r.problem == problem)
      && Parse(problem).Some? && Parse(problem).value.first == n1
      && NormalizeOperator(Parse(problem).value.op) == op && Parse(problem).value.second == n2
  }

  /** At most ten samples are kept; a NO_MATCH sample only ever enters among
      the first five; and every sample describes a problem of the results. */
  lemma {:induction false} SamplesShape(rs: seq<Result>)
    ensures |Samples(rs)| <= 10
    ensures forall i :: 0 <= i < |Samples(rs)| && Samples(rs)[i].NoMatchSample? ==> i < 5
    ensures forall i :: 0 <= i < |Samples(rs)| ==> Describes(Samples(rs)[i], rs)
    decreases |rs|
  {
    if rs != [] {
      var front, last := rs[..|rs| - 1], rs[|rs| - 1];
      SamplesShape(front);
      var s := Samples(front);
      forall i | 0 <= i < |s| ensures Describes(s[i], rs) {
        assert Describes(s[i], front);
        match s[i]
        case NoMatchSample(problem) =>
          var r :| r in front && r.problem == problem;
          assert r in rs;
        case ParsedSample(problem, _, _, _) =>
          var r :| r in front && r.problem == problem;
          assert r in rs;
      }
      assert last in rs;
    }
  }

  /** While fewer than five samples are held every problem is sampled, so the
      first five results are always the first samples. */
  lemma {:induction false} FirstSamples(rs: seq<Result>)
    requires |rs| <= 5
    ensures |Samples(rs)| == |rs|
    ensures forall i :: 0 <= i < |rs| ==> Samples(rs)[i].problem == rs[i].problem
    decreases |rs|
  {
    if rs != [] {
      var front := rs[..|rs| - 1];
      FirstSamples(front);
      forall i | 0 <= i < |rs| ensures Samples(rs)[i].problem == rs[i].problem {
        if i < |front| {
          assert rs[i] == front[i];
        }
      }
    }
  }
}
