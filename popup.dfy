/** What the debug popup decides from the recorded results: the data summary
    line, whether the original analysis runs, and that analysis itself
    (`runOriginalAnalysis`), whose pattern winner becomes the training goal. */
module Popup {
  import opened Text
  import opened ProblemParser
  import opened JsObject
  import opened Buckets
  import opened Naming
  import opened Analysis
  import opened Slowest

  /** The message under "Total Problems Tracked". */
  datatype DataSummary = NoData | NeedTen | MoreWillHelp | GoodAmount

  function Summarize(total: nat): (s: DataSummary)
    ensures s == NoData <==> total == 0
    ensures s == NeedTen <==> 0 < total < 10
    ensures s == MoreWillHelp <==> 10 <= total < 50
    ensures s == GoodAmount <==> total >= 50
  {
    if total == 0 then NoData
    else if total < 10 then NeedTen
    else if total < 50 then MoreWillHelp
    else GoodAmount
  }

  /** What runOriginalAnalysis shows and arms: the three winners, the names
      displayed for the operation and the pattern, the state of the train
      button and the goal its click stores. */
  datatype Recommendation = Recommendation(
    slowestOperation: Option<Slowest>,
    troubleNumber: Option<Slowest>,
    troublePattern: Option<Slowest>,
    operationName: Option<string>,
    patternName: Option<string>,
    trainEnabled: bool,
    trainingGoal: Option<string>)

  const OperatorThreshold: Option<nat> := None
  const NumberThreshold: Option<nat> := Some(3)
  const PatternThreshold: Option<nat> := Some(3)

  /** The recommendation for `results`: each winner is findSlowest of its
      analysis, the displayed names are those of the winners, and the train
      button is armed with the pattern winner's key exactly when there is one. */
  ghost predicate RecommendationFor(results: seq<Result>, r: Recommendation) {
    && IsSlowest(Tally(OperatorInit(), results, OperatorKeys), Threshold(OperatorThreshold), r.slowestOperation)
    && IsSlowest(Tally(Empty(), results, NumberKeys), Threshold(NumberThreshold), r.troubleNumber)
    && IsSlowest(Tally(Empty(), results, PatternKeys), Threshold(PatternThreshold), r.troublePattern)
    && r.operationName == (if r.slowestOperation.Some? then Some(OperationName(r.slowestOperation.value.name)) else None)
    && r.patternName == (if r.troublePattern.Some? then Some(PatternName(r.troublePattern.value.name)) else None)
    && (r.trainEnabled <==> r.troublePattern.Some?)
    && r.trainingGoal == (if r.troublePattern.Some? then Some(r.troublePattern.value.name) else None)
  }

  /** `runOriginalAnalysis(results)` */
  method RunOriginalAnalysis(results: seq<Result>) returns (r: Recommendation)
    ensures RecommendationFor(results, r)
  {
    var operatorStats := AnalyzeByOperator(results);
    var slowestOp := FindSlowest(operatorStats, OperatorThreshold);
    var opName := None;
    if slowestOp.Some? {
      opName := Some(OperationName(slowestOp.value.name));
    }
    var numberStats := AnalyzeByNumber(results);
    var troubleNum := FindSlowest(numberStats, NumberThreshold);
    var patternStats := AnalyzeByPattern(results);
    var troublePattern := FindSlowest(patternStats, PatternThreshold);
    var patName := None;
    var enabled := false;
    var goal := None;
    if troublePattern.Some? {
      patName := Some(PatternName(troublePattern.value.name));
      enabled := true;
      goal := Some(troublePattern.value.name);
    }
    r := Recommendation(slowestOp, troubleNum, troublePattern, opName, patName, enabled, goal);
  }

  /** The popup once the results are loaded: the summary line always, the
      original analysis only from ten results on. */
  method ShowPopup(results: seq<Result>) returns (summary: DataSummary, original: Option<Recommendation>)
    ensures summary == Summarize(|results|)
    ensures original.Some? <==> |results| >= 10
    ensures original.Some? ==> RecommendationFor(results, original.value)
  {
    summary := Summarize(|results|);
    original := None;
    if |results| >= 10 {
      var r := RunOriginalAnalysis(results);
      original := Some(r);
    }
  }

  // ---------------------------------------------------------------- winners

  /** The slowest operation is always one of `+ - * /`, so its displayed
      name is never "Unknown". */
  lemma SlowestOperationIsCanonical(results: seq<Result>, w: Slowest)
    requires IsSlowest(Tally(OperatorInit(), results, OperatorKeys), 1, Some(w))
    ensures w.name in {"+", "-", "*", "/"}
    ensures OperationName(w.name) != "Unknown"
  {
    var s := Tally(OperatorInit(), results, OperatorKeys);
    OperatorOrder(results, '+');
    var i :| FirstSlowestAt(s, 1, i) && w == Slowest(KeyString(s.order[i]), AverageAt(s, 1, i));
    assert s.order[i] in OperatorInit().order;
  }

  /** The pattern winner is `sub_borrow`, or `*_n` / `/_n` with `n` in 2..12;
      in the second case `op` and `n` are returned. */
  lemma PatternWinnerShape(results: seq<Result>, w: Slowest) returns (op: char, n: nat)
    requires IsSlowest(Tally(Empty(), results, PatternKeys), 3, Some(w))
    ensures w.name == BorrowKey || ((op == '*' || op == '/') && 2 <= n <= 12 && w.name == [op] + "_" + NatToString(n))
  {
    var s := Tally(Empty(), results, PatternKeys);
    var i :| FirstSlowestAt(s, 3, i) && w == Slowest(KeyString(s.order[i]), AverageAt(s, 3, i));
    op, n := PatternBucketShape(results, s.order[i]);
  }

  /** Every training goal is the key of a pattern seen at least three times:
      `sub_borrow`, or `*_n` / `/_n` with `n` in 2..12, shown under the
      matching name. */
  lemma TrainingGoalShape(results: seq<Result>, r: Recommendation)
    requires RecommendationFor(results, r)
    requires r.trainingGoal.Some?
    ensures r.trainEnabled
    ensures
      || (r.trainingGoal.value == BorrowKey && r.patternName == Some("Subtraction (with Borrowing)"))
      || exists op: char, n: nat :: (op == '*' || op == '/') && 2 <= n <= 12
           && r.trainingGoal.value == [op] + "_" + NatToString(n)
           && r.patternName == Some(OperationName([op]) + " with " + NatToString(n) + "s")
  {
    var w := r.troublePattern.value;
    var op, n := PatternWinnerShape(results, w);
    if w.name != BorrowKey {
      PatternNameOfOperandKey([op], n);
      assert r.trainingGoal.value == [op] + "_" + NatToString(n);
    }
  }

  /** When every operand is an array index, a tie for trouble number goes to
      the smaller number: every smaller number used at least three times has a
      strictly lower average. */
  lemma TroubleNumberTieBreak(results: seq<Result>, w: Slowest, n: nat, m: nat)
    requires forall i :: 0 <= i < |results| ==> OperandsAreIndices(results[i])
    requires IsSlowest(Tally(Empty(), results, NumberKeys), 3, Some(w))
    requires w.name == NatToString(n)
    requires m < n
    requires NumberKey(m) in Tally(Empty(), results, NumberKeys).values
    requires CountIn(Tally(Empty(), results, NumberKeys).values, NumberKey(m)) >= 3
    ensures TotalIn(Tally(Empty(), results, NumberKeys).values, NumberKey(m))
      / (CountIn(Tally(Empty(), results, NumberKeys).values, NumberKey(m)) as real) < w.average
  {
    NumberOrder(results);
    IndexTieBreak(Tally(Empty(), results, NumberKeys), w, n, m);
  }

  /** The same over any object whose keys are ascending array indices. */
  lemma IndexTieBreak(s: Stats, w: Slowest, n: nat, m: nat)
    requires s.Valid()
    requires AscendingIndices(s.order)
    requires IsSlowest(s, 3, Some(w))
    requires w.name == NatToString(n)
    requires m < n
    requires NumberKey(m) in s.values && CountIn(s.values, NumberKey(m)) >= 3
    ensures TotalIn(s.values, NumberKey(m)) / (CountIn(s.values, NumberKey(m)) as real) < w.average
  {
    var i :| FirstSlowestAt(s, 3, i) && w == Slowest(KeyString(s.order[i]), AverageAt(s, 3, i));
    var key := s.order[i];
    assert NumberKey(m) in s.order;
    var j :| 0 <= j < |s.order| && s.order[j] == NumberKey(m);
    if j == i {
      NumberKeyInjective(m, n);
      assert KeyString(NumberKey(m)) == NatToString(m);
      NatToStringInjective(m, n);
      assert false;
    }
    var lo, hi := if i < j then i else j, if i < j then j else i;
    assert s.order[lo].IndexKey? && s.order[hi].IndexKey?;
    assert key.IndexKey?;
    NatToStringInjective(key.index, n);
    assert NumberKey(m) == IndexKey(m);
    assert j < i;
    assert QualifiesAt(s, 3, j);
  }
}
