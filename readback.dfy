/** What the popup's parser makes of the generated lists: every times-table
    and division-table entry parses back as the numbers it was built from,
    and so lands in the bucket of the trained number. */
module GeneratorReadback {
  import opened Text
  import opened ProblemParser
  import opened Selection
  import opened Analysis
  import opened Generators

  /** A problem written out by the generators parses back as itself. */
  lemma SpacedParses(a: nat, op: char, b: nat)
    requires InClass(NonSpace, op)
    ensures Parse(Spaced(a, op, b)) == Some(Parsed(a, op, b))
  {
    ParseSpaced(a, op, b, NonSpace);
  }

  /** Every entry pairs `num` with a factor in 2..12, `num × i` before
      `i × num`; read back by the popup's parser each is a multiplication
      with those operands, and so feeds the bucket `*_num` when `num` is in
      2..12. */
  lemma MultiplyListReadsBack(num: nat, k: nat)
    requires k < 22
    ensures var i := k / 2 + 2;
      && 2 <= i <= 12
      && Parse(MultiplyList(num)[k]) == Some(if k % 2 == 0 then Parsed(num, Times, i) else Parsed(i, Times, num))
      && NormalizeOperator(Times) == '*'
      && (2 <= num <= 12 ==> OperandPatternKey('*', num) in ProblemPatternKeys(Parse(MultiplyList(num)[k]).value))
  {
    var i := k / 2 + 2;
    MultiplyOpsAt(num, 13);
    var e := MultiplyOps(num, 13)[k];
    assert MultiplyList(num)[k] == Spaced(e.left, e.op, e.right);
    assert InClass(NonSpace, Times);
    if k % 2 == 0 {
      assert e == Problem(num, Times, i);
      SpacedParses(num, Times, i);
    } else {
      assert e == Problem(i, Times, num);
      SpacedParses(i, Times, num);
    }
  }

  /** Entry `k` reads back as `(num·i) ÷ num` with `i = k + 1`: a division by
      `num` of a multiple of `num`, feeding `/_num` when `num` is in 2..12. */
  lemma DivideListReadsBack(num: nat, k: nat)
    requires k < 12
    ensures Parse(DivideList(num)[k]) == Some(Parsed(num * (k + 1), Obelus, num))
    ensures NormalizeOperator(Obelus) == '/'
    ensures 2 <= num <= 12 ==> OperandPatternKey('/', num) in ProblemPatternKeys(Parse(DivideList(num)[k]).value)
  {
    MulAtLeast(num, k + 1);
    var a: nat := num * (k + 1);
    DivideOpsAt(num, 13);
    assert DivideList(num)[k] == Spaced(a, Obelus, num);
    SpacedParses(a, Obelus, num);
  }
}
