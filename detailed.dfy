/** The two analyses whose tables the debug popup shows:
    `analyzeByOperatorDetailed` (count, total, min, max and average per
    operator, read with the fallback chain of patterns) and
    `analyzeByNumberDetailed` (count, total and average per operand). */
module Detailed {
  import opened Text
  import opened ProblemParser
  import opened JsObject
  import opened Buckets
  import opened Selection
  import opened Analysis

  /** A minimum that starts at `Infinity`. */
  datatype Extended = Finite(value: real) | Infinity

  /** `{ count, total, min, max, avg }` */
  datatype OperatorSummary = OperatorSummary(count: nat, total: real, min: Extended, max: real, avg: real)

  /** `Math.min(m, time)` */
  function MinWith(m: Extended, time: real): Extended {
    match m
    case Infinity => Finite(time)
    case Finite(v) => Finite(if time < v then time else v)
  }

  /** `Math.max(m, time)` */
  function MaxWith(m: real, time: real): real {
    if time > m then time else m
  }

  /** `{ count: 0, total: 0, min: Infinity, max: 0, avg: 0 }` */
  const Unused := OperatorSummary(0, 0.0, Infinity, 0.0, 0.0)

  /** One result of that operator recorded in its bucket. */
  function Record(b: OperatorSummary, time: real): OperatorSummary {
    b.(count := b.count + 1, total := b.total + time, min := MinWith(b.min, time), max := MaxWith(b.max, time))
  }

  /** The bucket of results `rs` once the first loop is done. */
  function Accumulate(rs: seq<Result>): OperatorSummary
    decreases |rs|
  {
    if rs == [] then Unused else Record(Accumulate(rs[..|rs| - 1]), rs[|rs| - 1].time)
  }

  /** The second loop on one bucket: the average over a used bucket, and 0
      for a minimum still at `Infinity`. */
  function Finalize(b: OperatorSummary): OperatorSummary {
    var b' := if b.count > 0 then b.(avg := b.total / (b.count as real)) else b;
    if b'.min.Infinity? then b'.(min := Finite(0.0)) else b'
  }

  /** `analyzeByOperatorDetailed(results)` */
  method AnalyzeByOperatorDetailed(results: seq<Result>) returns (stats: Object<OperatorSummary>)
    ensures stats.Valid()
    ensures stats.order == OperatorInit().order
    ensures forall op :: OperatorKey(op) in stats.values <==> IsCanonical(op)
    ensures forall op :: IsCanonical(op) ==>
      stats.values[OperatorKey(op)] == Finalize(Accumulate(Filter(results, FallbackWithOperator(op))))
  {
    stats := OperatorObject(Unused);
    forall op ensures OperatorKey(op) in stats.values <==> IsCanonical(op) {
      OperatorObjectKeys(Unused, op);
    }
    var i := 0;
    while i < |results|
      invariant 0 <= i <= |results|
      invariant stats.Valid()
      invariant stats.order == OperatorInit().order
      invariant forall op :: OperatorKey(op) in stats.values <==> IsCanonical(op)
      invariant forall op :: IsCanonical(op) ==>
        stats.values[OperatorKey(op)] == Accumulate(Filter(results[..i], FallbackWithOperator(op)))
    {
      stats := RecordOperator(stats, results, i);
      i := i + 1;
    }
    assert results[..|results|] == results;
    stats := FinalizeOperators(stats);
  }

  /** The loop body of the first pass: record result `i` in its bucket. */
  method RecordOperator(stats: Object<OperatorSummary>, results: seq<Result>, i: nat) returns (stats': Object<OperatorSummary>)
    requires i < |results|
    requires stats.Valid()
    requires forall op :: OperatorKey(op) in stats.values <==> IsCanonical(op)
    requires forall op :: IsCanonical(op) ==>
      stats.values[OperatorKey(op)] == Accumulate(Filter(results[..i], FallbackWithOperator(op)))
    ensures stats'.Valid() && stats'.order == stats.order
    ensures forall op :: OperatorKey(op) in stats'.values <==> IsCanonical(op)
    ensures forall op :: IsCanonical(op) ==>
      stats'.values[OperatorKey(op)] == Accumulate(Filter(results[..i + 1], FallbackWithOperator(op)))
  {
    var result := results[i];
    stats' := stats;
    match ParseWithFallback(result.problem) {
      case None =>
        forall op | IsCanonical(op)
          ensures stats'.values[OperatorKey(op)] == Accumulate(Filter(results[..i + 1], FallbackWithOperator(op)))
        {
          RecordStep(results, i, op);
          assert !Selects(FallbackWithOperator(op), result);
        }
      case Some(m) =>
        var op := NormalizeOperator(m.op);
        if OperatorKey(op) in stats.values {
          var b := stats.values[OperatorKey(op)];
          stats' := Put(stats, OperatorKey(op), Record(b, result.time));
        }
        forall op' | IsCanonical(op')
          ensures stats'.values[OperatorKey(op')] == Accumulate(Filter(results[..i + 1], FallbackWithOperator(op')))
        {
          RecordStep(results, i, op');
          OperatorKeyInjective(op, op');
          SelectsByFallback(result, m, op');
        }
    }
  }

  /** One more result of an operator is one more `Record` of its bucket. */
  lemma RecordStep(results: seq<Result>, i: nat, op: char)
    requires i < |results|
    ensures Accumulate(Filter(results[..i + 1], FallbackWithOperator(op)))
      == if Selects(FallbackWithOperator(op), results[i])
         then Record(Accumulate(Filter(results[..i], FallbackWithOperator(op))), results[i].time)
         else Accumulate(Filter(results[..i], FallbackWithOperator(op)))
  {
    FilterStep(results, i, FallbackWithOperator(op));
    var f := Filter(results[..i], FallbackWithOperator(op));
    if Selects(FallbackWithOperator(op), results[i]) {
      var g := f + [results[i]];
      assert g[..|g| - 1] == f && g[|g| - 1] == results[i];
      assert Accumulate(g) == Record(Accumulate(f), results[i].time);
    } else {
      assert f + [] == f;
    }
  }

  /** The second pass: `Object.keys(stats).forEach(…)` finalising every bucket. */
  method FinalizeOperators(stats: Object<OperatorSummary>) returns (stats': Object<OperatorSummary>)
    requires stats.Valid()
    requires forall op :: OperatorKey(op) in stats.values <==> IsCanonical(op)
    ensures stats'.Valid() && stats'.order == stats.order
    ensures forall op :: OperatorKey(op) in stats'.values <==> IsCanonical(op)
    ensures forall op :: IsCanonical(op) ==> stats'.values[OperatorKey(op)] == Finalize(stats.values[OperatorKey(op)])
  {
    var keys := stats.order;
    stats' := stats;
    var j := 0;
    while j < |keys|
      invariant UpdatedUpTo(stats', stats, Finalize, j)
    {
      var key := keys[j];
      UpdatedStep(stats', stats, Finalize, j);
      var b := stats'.values[key];
      if b.count > 0 {
        b := b.(avg := b.total / (b.count as real));
      }
      if b.min.Infinity? {
        b := b.(min := Finite(0.0));
      }
      assert b == Finalize(stats'.values[key]);
      stats' := Put(stats', key, b);
      j := j + 1;
    }
    UpdatedAll(stats', stats, Finalize);
  }

  // ---------------------------------------------------------------- bucket facts

  lemma {:induction false} AccumulateFacts(rs: seq<Result>)
    ensures Accumulate(rs).count == |rs| && Accumulate(rs).total == SumTimes(rs) && Accumulate(rs).avg == 0.0
    ensures Accumulate(rs).min.Infinity? <==> rs == []
    ensures Accumulate(rs).max >= 0.0
    ensures forall r :: r in rs ==> r.time <= Accumulate(rs).max
    ensures Accumulate(rs).max == 0.0 || exists r :: r in rs && r.time == Accumulate(rs).max
    ensures Accumulate(rs).min.Finite? ==>
      && (forall r :: r in rs ==> Accumulate(rs).min.value <= r.time)
      && (exists r :: r in rs && r.time == Accumulate(rs).min.value)
    decreases |rs|
  {
    if rs != [] {
      var front, last := rs[..|rs| - 1], rs[|rs| - 1];
      AccumulateFacts(front);
      assert rs == front + [last];
      assert forall r :: r in rs ==> r in front || r == last;
      var b := Accumulate(front);
      if b.max != 0.0 && last.time <= b.max {
        var w :| w in front && w.time == b.max;
        assert w in rs;
      }
      if b.min.Finite? && b.min.value <= last.time {
        var w :| w in front && w.time == b.min.value;
        assert w in rs;
      }
    }
  }

  lemma {:induction false} SumTimesBounds(rs: seq<Result>, lo: real, hi: real)
    requires forall r :: r in rs ==> lo <= r.time <= hi
    ensures Repeat(|rs|, lo) <= SumTimes(rs) <= Repeat(|rs|, hi)
    decreases |rs|
  {
    if rs != [] {
      var front := rs[..|rs| - 1];
      assert forall r :: r in front ==> r in rs;
      assert rs[|rs| - 1] in rs;
      SumTimesBounds(front, lo, hi);
    }
  }

  lemma {:induction false} RepeatIsProduct(n: nat, x: real)
    ensures Repeat(n, x) == (n as real) * x
  {
    if n > 0 {
      RepeatIsProduct(n - 1, x);
      assert ((n - 1) as real) * x + x == (n as real) * x;
    }
  }

  lemma AverageBetween(total: real, n: nat, lo: real, hi: real)
    requires n > 0
    requires (n as real) * lo <= total <= (n as real) * hi
    ensures lo <= total / (n as real) <= hi
  {
    var q := total / (n as real);
    assert total == q * (n as real);
  }

  /** A finalised operator bucket over results `rs`: its count and total are
      theirs; an unused bucket shows average, minimum and maximum 0; a used one
      the exact average, a minimum that is one of its times and no larger than
      any, and a maximum no smaller than any time (one of them, unless every
      time is negative, when it is the starting 0). */
  lemma SummaryFacts(rs: seq<Result>)
    ensures Finalize(Accumulate(rs)).count == |rs|
    ensures Finalize(Accumulate(rs)).total == SumTimes(rs)
    ensures rs == [] ==>
      Finalize(Accumulate(rs)).avg == 0.0 && Finalize(Accumulate(rs)).min == Finite(0.0) && Finalize(Accumulate(rs)).max == 0.0
    ensures rs != [] ==> Finalize(Accumulate(rs)).avg == SumTimes(rs) / (|rs| as real)
    ensures Finalize(Accumulate(rs)).min.Finite?
    ensures rs != [] ==>
      && (exists r :: r in rs && r.time == Finalize(Accumulate(rs)).min.value)
      && (forall r :: r in rs ==> Finalize(Accumulate(rs)).min.value <= r.time <= Finalize(Accumulate(rs)).max)
    ensures Finalize(Accumulate(rs)).max >= 0.0
    ensures Finalize(Accumulate(rs)).max == 0.0 || exists r :: r in rs && r.time == Finalize(Accumulate(rs)).max
  {
    AccumulateFacts(rs);
  }

  /** The mean of times that all lie between `lo` and `hi` lies between them too. */
  lemma MeanWithin(rs: seq<Result>, lo: real, hi: real)
    requires rs != []
    requires forall r :: r in rs ==> lo <= r.time <= hi
    ensures lo <= SumTimes(rs) / (|rs| as real) <= hi
  {
    SumTimesBounds(rs, lo, hi);
    AverageBetweenRepeats(SumTimes(rs), |rs|, lo, hi);
  }

  lemma AverageBetweenRepeats(total: real, n: nat, lo: real, hi: real)
    requires n > 0
    requires Repeat(n, lo) <= total <= Repeat(n, hi)
    ensures lo <= total / (n as real) <= hi
  {
    RepeatIsProduct(n, lo);
    RepeatIsProduct(n, hi);
    AverageBetween(total, n, lo, hi);
  }

  /** In every finalised bucket min <= avg <= max. */
  lemma SummaryOrdered(rs: seq<Result>)
    ensures Finalize(Accumulate(rs)).min.Finite?
    ensures Finalize(Accumulate(rs)).min.value <= Finalize(Accumulate(rs)).avg <= Finalize(Accumulate(rs)).max
  {
    SummaryFacts(rs);
    if rs != [] {
      var b := Finalize(Accumulate(rs));
      MeanWithin(rs, b.min.value, b.max);
    }
  }

  /** The operator table: each of `+ - * /` summarises the results whose
      operator, read by the fallback chain, normalises to it. */
  lemma OperatorDetailedBucket(results: seq<Result>, op: char)
    requires IsCanonical(op)
    ensures Finalize(Accumulate(Filter(results, FallbackWithOperator(op)))).count
      == |Filter(results, FallbackWithOperator(op))|
    ensures var b := Finalize(Accumulate(Filter(results, FallbackWithOperator(op))));
      b.count == 0 ==> b.avg == 0.0 && b.min == Finite(0.0) && b.max == 0.0
    ensures var b := Finalize(Accumulate(Filter(results, FallbackWithOperator(op))));
      b.count > 0 ==>
        && b.avg == b.total / (b.count as real)
        && b.total == SumTimes(Filter(results, FallbackWithOperator(op)))
        && b.min.Finite? && b.min.value <= b.avg <= b.max
        && exists r :: r in results && Selects(FallbackWithOperator(op), r) && r.time == b.min.value
  {
    var f := Filter(results, FallbackWithOperator(op));
    SummaryFacts(f);
    SummaryOrdered(f);
    if f != [] {
      var r :| r in f && r.time == Finalize(Accumulate(f)).min.value;
      assert r in results && Selects(FallbackWithOperator(op), r);
    }
  }

  // ---------------------------------------------------------------- numbers

  /** `{ count, total, avg }` */
  datatype NumberSummary = NumberSummary(count: nat, total: real, avg: real)

  /** `analyzeByNumberDetailed(results)`: the counting pass of analyzeByNumber
      into buckets that also hold `avg: 0`, then the averaging pass. */
  method AnalyzeByNumberDetailed(results: seq<Result>) returns (stats: Object<NumberSummary>)
    ensures stats.Valid()
    ensures stats.order == Tally(Empty(), results, NumberKeys).order
    ensures forall k :: k in stats.values <==> k in Tally(Empty(), results, NumberKeys).values
    ensures forall k :: k in stats.values ==>
      && stats.values[k].count == CountIn(Tally(Empty(), results, NumberKeys).values, k)
      && stats.values[k].total == TotalIn(Tally(Empty(), results, NumberKeys).values, k)
      && stats.values[k].count > 0
      && stats.values[k].avg == stats.values[k].total / (stats.values[k].count as real)
  {
    var counted := AnalyzeByNumber(results);
    forall k | k in counted.values ensures counted.values[k].c > 0 {
      TallyBuckets(Empty(), results, NumberKeys, k);
    }
    stats := Object(map k | k in counted.values :: NumberSummary(counted.values[k].c, counted.values[k].t, 0.0), counted.order);
    stats := AverageNumbers(stats);
  }

  /** The second pass: `Object.keys(stats).forEach(…)` setting each average. */
  method AverageNumbers(stats: Object<NumberSummary>) returns (stats': Object<NumberSummary>)
    requires stats.Valid()
    ensures stats'.Valid() && stats'.order == stats.order
    ensures stats'.values.Keys == stats.values.Keys
    ensures forall k :: k in stats.values ==> stats'.values[k] == Averaged(stats.values[k])
  {
    var keys := stats.order;
    stats' := stats;
    var j := 0;
    while j < |keys|
      invariant UpdatedUpTo(stats', stats, Averaged, j)
    {
      var key := keys[j];
      UpdatedStep(stats', stats, Averaged, j);
      var b := stats'.values[key];
      if b.count > 0 {
        b := b.(avg := b.total / (b.count as real));
      }
      assert b == Averaged(stats'.values[key]);
      stats' := Put(stats', key, b);
      j := j + 1;
    }
    UpdatedAll(stats', stats, Averaged);
  }

  function Averaged(b: NumberSummary): NumberSummary {
    if b.count > 0 then b.(avg := b.total / (b.count as real)) else b
  }
}
