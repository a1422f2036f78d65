/** The three analyses behind popup-debug.js's recommendation:
    `analyzeByOperator`, `analyzeByNumber` and `analyzeByPattern`. Each is a
    loop over the results that bumps buckets in place; each is proved equal to
    a fold (`Tally`) of the keys a result feeds, and lemmas say which results
    each bucket gathers. */
module Analysis {
  import opened Text
  import opened ProblemParser
  import opened JsObject
  import opened Buckets
  import opened Selection
  import opened Naming

  // ---------------------------------------------------------------- operators

  /** The bucket of an operator: the property named by that one character. */
  function OperatorKey(op: char): PropertyKey {
    NameKey([op])
  }

  lemma OperatorKeyInjective(a: char, b: char)
    ensures OperatorKey(a) == OperatorKey(b) <==> a == b
  {
    if OperatorKey(a) == OperatorKey(b) {
      assert [a][0] == a && [b][0] == b;
    }
  }

  /** An object with the four operator properties `+ - * /`, in that order, all set to `v`. */
  function OperatorObject<V>(v: V): (s: Object<V>)
    ensures s.Valid()
    ensures s.order == [OperatorKey('+'), OperatorKey('-'), OperatorKey('*'), OperatorKey('/')]
    ensures forall k :: k in s.values ==> s.values[k] == v
  {
    var order := [OperatorKey('+'), OperatorKey('-'), OperatorKey('*'), OperatorKey('/')];
    Object(map[order[0] := v, order[1] := v, order[2] := v, order[3] := v], order)
  }

  /** The properties of that object are the four canonical operators. */
  lemma OperatorObjectKeys<V>(v: V, op: char)
    ensures OperatorKey(op) in OperatorObject(v).values <==> IsCanonical(op)
  {
    if OperatorKey(op) in OperatorObject(v).values {
      assert OperatorKey(op) in OperatorObject(v).order;
      assert [op][0] == op;
    }
  }

  /** `{ '+': { c: 0, t: 0 }, '-': …, '*': …, '/': … }` */
  function OperatorInit(): Stats {
    OperatorObject(Bucket(0, 0.0))
  }

  lemma OperatorInitKeys(op: char)
    ensures OperatorKey(op) in OperatorInit().values <==> IsCanonical(op)
  {
    OperatorObjectKeys(Bucket(0, 0.0), op);
  }

  /** The bucket a result feeds in analyzeByOperator: that of its normalised
      operator, when the object has one (`if (stats[op])`). */
  function OperatorKeys(r: Result): seq<PropertyKey> {
    match Parse(r.problem)
    case None => []
    case Some(p) =>
      var op := NormalizeOperator(p.op);
      if IsCanonical(op) then [OperatorKey(op)] else []
  }

  /** `analyzeByOperator(results)` */
  method AnalyzeByOperator(results: seq<Result>) returns (stats: Stats)
    ensures stats == Tally(OperatorInit(), results, OperatorKeys)
  {
    stats := OperatorInit();
    var i := 0;
    while i < |results|
      invariant 0 <= i <= |results|
      invariant stats == Tally(OperatorInit(), results[..i], OperatorKeys)
      invariant stats.values.Keys == OperatorInit().values.Keys
    {
      var result := results[i];
      TallyStep(OperatorInit(), results, i, OperatorKeys);
      match Parse(result.problem) {
        case None =>
        case Some(m) =>
          var op := NormalizeOperator(m.op);
          OperatorInitKeys(op);
          if OperatorKey(op) in stats.values {
            BumpAllOne(stats, OperatorKey(op), result.time);
            stats := Bump(stats, OperatorKey(op), result.time);
          }
      }
      i := i + 1;
    }
    assert results[..|results|] == results;
  }

  /** The operator buckets are exactly `+ - * /`, in that order, whatever
      the results: every other operator is dropped. */
  lemma OperatorOrder(results: seq<Result>, op: char)
    ensures Tally(OperatorInit(), results, OperatorKeys).order == OperatorInit().order
    ensures OperatorKey(op) in Tally(OperatorInit(), results, OperatorKeys).values <==> IsCanonical(op)
  {
    forall r, k | k in OperatorKeys(r) ensures k in OperatorInit().values {
      OperatorInitKeys(NormalizeOperator(Parse(r.problem).value.op));
    }
    TallyKeepsOrder(OperatorInit(), results, OperatorKeys);
    OperatorInitKeys(op);
  }

  lemma OperatorKeysCount(r: Result, op: char)
    requires IsCanonical(op)
    ensures multiset(OperatorKeys(r))[OperatorKey(op)] == Indicator(WithOperator(op), r) + Indicator(Nothing, r)
  {
    if Parse(r.problem).Some? {
      var op' := NormalizeOperator(Parse(r.problem).value.op);
      assert OperatorKey(op') == OperatorKey(op) <==> op' == op by { assert [op'][0] == op'; }
    }
  }

  /** The bucket of each of `+ - * /` counts the results whose operator
      normalises to that symbol and adds up their times. */
  lemma OperatorBuckets(results: seq<Result>, op: char)
    requires IsCanonical(op)
    ensures CountIn(Tally(OperatorInit(), results, OperatorKeys).values, OperatorKey(op)) == |Filter(results, WithOperator(op))|
    ensures TotalIn(Tally(OperatorInit(), results, OperatorKeys).values, OperatorKey(op)) == SumTimes(Filter(results, WithOperator(op)))
  {
    forall r ensures multiset(OperatorKeys(r))[OperatorKey(op)] == Indicator(WithOperator(op), r) + Indicator(Nothing, r) {
      OperatorKeysCount(r, op);
    }
    OccurrencesBySelectors(results, OperatorKeys, OperatorKey(op), WithOperator(op), Nothing);
    TallyBuckets(OperatorInit(), results, OperatorKeys, OperatorKey(op));
    assert Filter(results, Nothing) == [] by { NothingSelectsNothing(results); }
  }

  lemma {:induction false} NothingSelectsNothing(rs: seq<Result>)
    ensures Filter(rs, Nothing) == []
  {
    if rs != [] {
      NothingSelectsNothing(rs[..|rs| - 1]);
    }
  }

  // ---------------------------------------------------------------- operands

  /** The buckets a result feeds in analyzeByNumber: `[n1, n2]`. */
  function NumberKeys(r: Result): seq<PropertyKey> {
    match Parse(r.problem)
    case None => []
    case Some(p) => [NumberKey(p.first), NumberKey(p.second)]
  }

  /** `analyzeByNumber(results)` */
  method AnalyzeByNumber(results: seq<Result>) returns (stats: Stats)
    ensures stats == Tally(Empty(), results, NumberKeys)
  {
    stats := Empty();
    var i := 0;
    while i < |results|
      invariant 0 <= i <= |results|
      invariant stats == Tally(Empty(), results[..i], NumberKeys)
    {
      var result := results[i];
      TallyStep(Empty(), results, i, NumberKeys);
      match Parse(result.problem) {
        case None =>
        case Some(m) =>
          BumpAllPair(stats, NumberKey(m.first), NumberKey(m.second), result.time);
          stats := Bump(stats, NumberKey(m.first), result.time);
          stats := Bump(stats, NumberKey(m.second), result.time);
      }
      i := i + 1;
    }
    assert results[..|results|] == results;
  }

  /** The bucket of a number counts the parsed results whose first number it
      is plus those whose second number it is (a result such as `7 × 7` counts
      twice), and adds their times the same way; it exists exactly when some
      result has that number as an operand. */
  lemma NumberBuckets(results: seq<Result>, n: nat)
    ensures CountIn(Tally(Empty(), results, NumberKeys).values, NumberKey(n))
      == |Filter(results, WithFirst(n))| + |Filter(results, WithSecond(n))|
    ensures TotalIn(Tally(Empty(), results, NumberKeys).values, NumberKey(n))
      == SumTimes(Filter(results, WithFirst(n))) + SumTimes(Filter(results, WithSecond(n)))
    ensures NumberKey(n) in Tally(Empty(), results, NumberKeys).values
      <==> |Filter(results, WithFirst(n))| + |Filter(results, WithSecond(n))| > 0
  {
    var key := NumberKey(n);
    forall r ensures multiset(NumberKeys(r))[key] == Indicator(WithFirst(n), r) + Indicator(WithSecond(n), r) {
      NumberKeyCount(r, n);
    }
    OccurrencesBySelectors(results, NumberKeys, key, WithFirst(n), WithSecond(n));
    TallyBuckets(Empty(), results, NumberKeys, key);
  }

  /** A result feeds number `n` once for each of its operands equal to `n`. */
  lemma NumberKeyCount(r: Result, n: nat)
    ensures multiset(NumberKeys(r))[NumberKey(n)] == Indicator(WithFirst(n), r) + Indicator(WithSecond(n), r)
  {
    SelectsByOperands(r, n);
    match Parse(r.problem)
    case None =>
    case Some(p) =>
      NumberKeyInjective(p.first, n);
      NumberKeyInjective(p.second, n);
      assert NumberKeys(r) == [NumberKey(p.first), NumberKey(p.second)];
      assert multiset(NumberKeys(r)) == multiset{NumberKey(p.first)} + multiset{NumberKey(p.second)};
  }

  /** Every parsed result gives exactly two increments, one per operand: the
      counts of all buckets add up to twice the number of parsed results, and
      their totals to twice the parsed results' time. */
  lemma NumberSums(results: seq<Result>)
    ensures CountSum(Tally(Empty(), results, NumberKeys).order, Tally(Empty(), results, NumberKeys).values)
      == 2 * |Filter(results, Parsing)|
    ensures TotalSum(Tally(Empty(), results, NumberKeys).order, Tally(Empty(), results, NumberKeys).values)
      == SumTimes(Filter(results, Parsing)) + SumTimes(Filter(results, Parsing))
  {
    TallySums(Empty(), results, NumberKeys);
    forall r ensures |NumberKeys(r)| == Indicator(Parsing, r) + Indicator(Parsing, r) {
    }
    IncrementsBySelectors(results, NumberKeys, Parsing, Parsing);
  }

  /** Both numbers of the problem, when it parses, are array indices (below 2^32 - 1). */
  predicate OperandsAreIndices(r: Result) {
    match Parse(r.problem)
    case None => true
    case Some(p) => p.first <= MaxArrayIndex && p.second <= MaxArrayIndex
  }

  /** Every key is an array index, in strictly increasing order. */
  predicate AscendingIndices(order: seq<PropertyKey>) {
    forall i, j :: 0 <= i < j < |order| ==> order[i].IndexKey? && order[j].IndexKey? && order[i].index < order[j].index
  }

  /** When every operand is an array index, `Object.keys`
      lists the number buckets in increasing numeric order. */
  lemma NumberOrder(results: seq<Result>)
    requires forall i :: 0 <= i < |results| ==> OperandsAreIndices(results[i])
    ensures AscendingIndices(Tally(Empty(), results, NumberKeys).order)
  {
    var s := Tally(Empty(), results, NumberKeys);
    forall k | k in s.order ensures k.IndexKey? {
      NumberKeyIsIndex(results, k);
    }
    IndicesAscending(s.order);
  }

  lemma NumberKeyIsIndex(results: seq<Result>, k: PropertyKey)
    requires forall i :: 0 <= i < |results| ==> OperandsAreIndices(results[i])
    requires k in Tally(Empty(), results, NumberKeys).order
    ensures k.IndexKey?
  {
    assert k in Tally(Empty(), results, NumberKeys).values;
    TallyKeys(Empty(), results, NumberKeys, k);
    KeyStreamMember(results, NumberKeys, k);
    var i :| 0 <= i < |results| && k in NumberKeys(results[i]);
    IndexOperandKeys(results[i], k);
  }

  lemma IndexOperandKeys(r: Result, k: PropertyKey)
    requires OperandsAreIndices(r) && k in NumberKeys(r)
    ensures k.IndexKey?
  {
    var m := Parse(r.problem);
    assert m.Some? && k in [NumberKey(m.value.first), NumberKey(m.value.second)];
  }

  /** Keys in `Object.keys` order that are all array indices ascend. */
  lemma IndicesAscending(order: seq<PropertyKey>)
    requires WellOrdered(order)
    requires forall k :: k in order ==> k.IndexKey?
    ensures AscendingIndices(order)
  {
    forall i, j | 0 <= i < j < |order| ensures order[i].IndexKey? && order[j].IndexKey? && order[i].index < order[j].index {
      assert order[i] in order && order[j] in order;
      assert Precedes(order[i], order[j]);
    }
  }

  // ---------------------------------------------------------------- patterns

  /** The pattern key `<op>_<n>`. */
  function OperandPatternKey(op: char, n: nat): PropertyKey {
    NameKey([op] + "_" + NatToString(n))
  }

  /** The bucket an operand feeds under `*` or `/`: only the numbers 2 to 12 count. */
  function OperandPatternKeys(op: char, n: nat): seq<PropertyKey> {
    if 2 <= n <= 12 then [OperandPatternKey(op, n)] else []
  }

  /** The buckets a result feeds in analyzeByPattern: under `*` and `/` one per
      operand in 2..12; under `-` with a borrow the `sub_borrow` bucket. */
  function PatternKeys(r: Result): seq<PropertyKey> {
    match Parse(r.problem)
    case None => []
    case Some(p) => ProblemPatternKeys(p)
  }

  function ProblemPatternKeys(p: Parsed): seq<PropertyKey> {
    var op := NormalizeOperator(p.op);
    (if op == '*' || op == '/' then OperandPatternKeys(op, p.first) + OperandPatternKeys(op, p.second) else [])
    + (if NeedsBorrow(p) then [NameKey(BorrowKey)] else [])
  }

  /** `analyzeByPattern(results)` */
  method AnalyzeByPattern(results: seq<Result>) returns (stats: Stats)
    ensures stats == Tally(Empty(), results, PatternKeys)
  {
    stats := Empty();
    var i := 0;
    while i < |results|
      invariant 0 <= i <= |results|
      invariant stats == Tally(Empty(), results[..i], PatternKeys)
    {
      var result := results[i];
      TallyStep(Empty(), results, i, PatternKeys);
      match Parse(result.problem) {
        case None =>
        case Some(m) =>
          var op := NormalizeOperator(m.op);
          ghost var xs := OperandPatternKeys(op, m.first);
          ghost var ys := OperandPatternKeys(op, m.second);
          ghost var zs := if NeedsBorrow(m) then [NameKey(BorrowKey)] else [];
          ghost var s0 := stats;
          if op == '*' || op == '/' {
            BumpAllAppend(s0, xs, ys, result.time);
            if 2 <= m.first <= 12 {
              BumpAllOne(stats, OperandPatternKey(op, m.first), result.time);
              stats := Bump(stats, OperandPatternKey(op, m.first), result.time);
            }
            assert stats == BumpAll(s0, xs, result.time);
            if 2 <= m.second <= 12 {
              BumpAllOne(stats, OperandPatternKey(op, m.second), result.time);
              stats := Bump(stats, OperandPatternKey(op, m.second), result.time);
            }
            assert stats == BumpAll(s0, xs + ys, result.time);
          }
          ghost var s1 := stats;
          if op == '-' && m.first % 10 < m.second % 10 {
            BumpAllOne(stats, NameKey(BorrowKey), result.time);
            stats := Bump(stats, NameKey(BorrowKey), result.time);
          }
          assert stats == BumpAll(s1, zs, result.time);
          BumpAllAppend(s0, if op == '*' || op == '/' then xs + ys else [], zs, result.time);
      }
      i := i + 1;
    }
    assert results[..|results|] == results;
  }

  lemma OperandPatternKeyInjective(op: char, n: nat, op': char, n': nat)
    ensures OperandPatternKey(op, n) == OperandPatternKey(op', n') ==> op == op' && n == n'
  {
    var a, b := [op] + "_" + NatToString(n), [op'] + "_" + NatToString(n');
    if a == b {
      assert a[0] == op && b[0] == op';
      assert a[2..] == NatToString(n) && b[2..] == NatToString(n');
      NatToStringInjective(n, n');
    }
  }

  /** No operand key is the borrow key: they start with `*` or `/`, it with `s`. */
  lemma OperandPatternKeyIsNotBorrow(op: char, n: nat)
    requires op == '*' || op == '/'
    ensures OperandPatternKey(op, n) != NameKey(BorrowKey)
  {
    assert ([op] + "_" + NatToString(n))[0] == op != BorrowKey[0];
  }

  /** What a result feeds: at most two buckets, each either `sub_borrow` or
      `<op>_<n>` with `op` one of `* /` and `n` in 2..12; a multiplication or
      division feeds the keys of its operands, and only a borrowing
      subtraction feeds `sub_borrow`. */
  lemma PatternKeysShape(r: Result)
    ensures |PatternKeys(r)| <= 2
    ensures forall k :: k in PatternKeys(r) ==>
      k == NameKey(BorrowKey) || exists op, n :: (op == '*' || op == '/') && 2 <= n <= 12 && k == OperandPatternKey(op, n)
    ensures NameKey(BorrowKey) in PatternKeys(r) <==> Selects(Borrowing, r)
  {
    match Parse(r.problem)
    case None =>
    case Some(p) =>
      ProblemPatternKeysShape(p);
  }

  lemma ProblemPatternKeysShape(p: Parsed)
    ensures |ProblemPatternKeys(p)| <= 2
    ensures forall k :: k in ProblemPatternKeys(p) ==>
      k == NameKey(BorrowKey) || exists op, n :: (op == '*' || op == '/') && 2 <= n <= 12 && k == OperandPatternKey(op, n)
    ensures NameKey(BorrowKey) in ProblemPatternKeys(p) <==> NeedsBorrow(p)
  {
    var op := NormalizeOperator(p.op);
    if op == '*' || op == '/' {
      OperandPatternKeyIsNotBorrow(op, p.first);
      OperandPatternKeyIsNotBorrow(op, p.second);
      assert !NeedsBorrow(p);
    }
  }

  lemma BorrowKeyCount(r: Result)
    ensures multiset(PatternKeys(r))[NameKey(BorrowKey)] == Indicator(Borrowing, r) + Indicator(Nothing, r)
  {
    if Parse(r.problem).Some? {
      ProblemBorrowKeyCount(Parse(r.problem).value);
    }
  }

  lemma ProblemBorrowKeyCount(p: Parsed)
    ensures multiset(ProblemPatternKeys(p))[NameKey(BorrowKey)] == if NeedsBorrow(p) then 1 else 0
  {
    var op := NormalizeOperator(p.op);
    var key := NameKey(BorrowKey);
    var zs := if NeedsBorrow(p) then [key] else [];
    if op == '*' || op == '/' {
      OperandPatternKeyIsNotBorrow(op, p.first);
      OperandPatternKeyIsNotBorrow(op, p.second);
      var xs, ys := OperandPatternKeys(op, p.first), OperandPatternKeys(op, p.second);
      assert multiset(xs)[key] == 0 && multiset(ys)[key] == 0;
      assert ProblemPatternKeys(p) == xs + ys + zs;
    } else {
      assert ProblemPatternKeys(p) == [] + zs;
    }
  }

  /** The `sub_borrow` bucket counts the subtractions whose first ones digit
      is smaller than the second's, and adds up their times. */
  lemma BorrowBucket(results: seq<Result>)
    ensures CountIn(Tally(Empty(), results, PatternKeys).values, NameKey(BorrowKey)) == |Filter(results, Borrowing)|
    ensures TotalIn(Tally(Empty(), results, PatternKeys).values, NameKey(BorrowKey)) == SumTimes(Filter(results, Borrowing))
  {
    forall r ensures multiset(PatternKeys(r))[NameKey(BorrowKey)] == Indicator(Borrowing, r) + Indicator(Nothing, r) {
      BorrowKeyCount(r);
    }
    OccurrencesBySelectors(results, PatternKeys, NameKey(BorrowKey), Borrowing, Nothing);
    TallyBuckets(Empty(), results, PatternKeys, NameKey(BorrowKey));
    NothingSelectsNothing(results);
  }

  lemma OperandKeyCount(r: Result, op: char, n: nat)
    requires op == '*' || op == '/'
    requires 2 <= n <= 12
    ensures multiset(PatternKeys(r))[OperandPatternKey(op, n)]
      == Indicator(WithOperatorFirst(op, n), r) + Indicator(WithOperatorSecond(op, n), r)
  {
    if Parse(r.problem).Some? {
      ProblemOperandKeyCount(Parse(r.problem).value, op, n);
    }
  }

  lemma ProblemOperandKeyCount(p: Parsed, op: char, n: nat)
    requires op == '*' || op == '/'
    requires 2 <= n <= 12
    ensures multiset(ProblemPatternKeys(p))[OperandPatternKey(op, n)]
      == (if NormalizeOperator(p.op) == op && p.first == n then 1 else 0)
       + (if NormalizeOperator(p.op) == op && p.second == n then 1 else 0)
  {
    var key := OperandPatternKey(op, n);
    var op' := NormalizeOperator(p.op);
    OperandPatternKeyIsNotBorrow(op, n);
    var zs := if NeedsBorrow(p) then [NameKey(BorrowKey)] else [];
    assert multiset(zs)[key] == 0;
    if op' == '*' || op' == '/' {
      OperandPatternKeyInjective(op', p.first, op, n);
      OperandPatternKeyInjective(op', p.second, op, n);
      var xs, ys := OperandPatternKeys(op', p.first), OperandPatternKeys(op', p.second);
      assert multiset(xs)[key] == (if op' == op && p.first == n then 1 else 0);
      assert multiset(ys)[key] == (if op' == op && p.second == n then 1 else 0);
      assert ProblemPatternKeys(p) == xs + ys + zs;
    } else {
      assert ProblemPatternKeys(p) == [] + zs;
    }
  }

  /** The bucket `<op>_<n>` of a multiplication or division number counts the
      results with that operator whose first number is `n` plus those whose
      second number is, and adds their times the same way; operands outside
      2..12 get no bucket. */
  lemma OperandBucket(results: seq<Result>, op: char, n: nat)
    requires op == '*' || op == '/'
    ensures 2 <= n <= 12 ==>
      && CountIn(Tally(Empty(), results, PatternKeys).values, OperandPatternKey(op, n))
        == |Filter(results, WithOperatorFirst(op, n))| + |Filter(results, WithOperatorSecond(op, n))|
      && TotalIn(Tally(Empty(), results, PatternKeys).values, OperandPatternKey(op, n))
        == SumTimes(Filter(results, WithOperatorFirst(op, n))) + SumTimes(Filter(results, WithOperatorSecond(op, n)))
    ensures !(2 <= n <= 12) ==> OperandPatternKey(op, n) !in Tally(Empty(), results, PatternKeys).values
  {
    var key := OperandPatternKey(op, n);
    if 2 <= n <= 12 {
      forall r ensures multiset(PatternKeys(r))[key] == Indicator(WithOperatorFirst(op, n), r) + Indicator(WithOperatorSecond(op, n), r) {
        OperandKeyCount(r, op, n);
      }
      OccurrencesBySelectors(results, PatternKeys, key, WithOperatorFirst(op, n), WithOperatorSecond(op, n));
      TallyBuckets(Empty(), results, PatternKeys, key);
    } else {
      TallyKeys(Empty(), results, PatternKeys, key);
      KeyStreamMember(results, PatternKeys, key);
      forall i | 0 <= i < |results| ensures key !in PatternKeys(results[i]) {
        PatternKeysShape(results[i]);
        if key in PatternKeys(results[i]) {
          OperandPatternKeyIsNotBorrow(op, n);
          var op', n' :| (op' == '*' || op' == '/') && 2 <= n' <= 12 && key == OperandPatternKey(op', n');
          OperandPatternKeyInjective(op, n, op', n');
        }
      }
    }
  }

  /** Every bucket analyzeByPattern fills is `sub_borrow`, or `*_n` / `/_n`
      with `n` in 2..12; in the second case `op` and `n` are returned. */
  lemma PatternBucketShape(results: seq<Result>, key: PropertyKey) returns (op: char, n: nat)
    requires key in Tally(Empty(), results, PatternKeys).values
    ensures key == NameKey(BorrowKey) || ((op == '*' || op == '/') && 2 <= n <= 12 && key == OperandPatternKey(op, n))
  {
    TallyKeys(Empty(), results, PatternKeys, key);
    KeyStreamMember(results, PatternKeys, key);
    var j :| 0 <= j < |results| && key in PatternKeys(results[j]);
    PatternKeysShape(results[j]);
    op, n := '*', 2;
    if key != NameKey(BorrowKey) {
      op, n :| (op == '*' || op == '/') && 2 <= n <= 12 && key == OperandPatternKey(op, n);
    }
  }

  /** `Object.keys` lists the pattern buckets in the order the results first
      fed them: every pattern key is a name, never an array index. */
  lemma PatternOrder(results: seq<Result>)
    ensures Tally(Empty(), results, PatternKeys).order == FirstOccurrences(KeyStream(results, PatternKeys))
  {
    forall r, k | k in PatternKeys(r) ensures k.NameKey? {
      PatternKeysShape(r);
    }
    TallyNameOrder(results, PatternKeys);
  }
}
