/** The custom problem lists settings_tweaker.js writes into the start page
    for one number: its times table and its division table. Each generator is
    the source's loop, proved equal to a description of the list; lemmas say
    what the lists hold and that the popup's parser reads every generated
    problem back as the numbers it was made from. */
module Generators {
  import opened Text
  import opened ProblemParser

  /** `a + ' op ' + b` */
  function Spaced(a: int, op: char, b: int): string {
    IntToString(a) + [' ', op, ' '] + IntToString(b)
  }

  /** A generated problem before it is written out: two operands and the
      operator glyph between them. */
  datatype Problem = Problem(left: int, op: char, right: int)

  /** The problems as the script writes them, `left + ' op ' + right`. */
  function Rendered(ps: seq<Problem>): (r: seq<string>)
    ensures |r| == |ps|
  {
    seq(|ps|, k requires 0 <= k < |ps| => Spaced(ps[k].left, ps[k].op, ps[k].right))
  }

  /** Pushing a problem pushes its text. */
  lemma RenderedAppend(ps: seq<Problem>, p: Problem)
    ensures Rendered(ps + [p]) == Rendered(ps) + [Spaced(p.left, p.op, p.right)]
  {
    var l, r := Rendered(ps + [p]), Rendered(ps) + [Spaced(p.left, p.op, p.right)];
    forall k | 0 <= k < |l|
      ensures l[k] == r[k]
    {
      if k < |ps| {
        assert (ps + [p])[k] == ps[k];
      }
    }
  }

  // ---------------------------------------------------------------- multiply

  /** The problems the loop has pushed before reaching factor `upTo`: for each
      factor `i` in 2..upTo-1, `num × i` then `i × num`. */
  function MultiplyOps(num: int, upTo: nat): (t: seq<Problem>)
    ensures |t| == if upTo <= 2 then 0 else 2 * (upTo - 2)
    decreases upTo, num
  {
    if upTo <= 2 then []
    else MultiplyOps(num, upTo - 1) + [Problem(num, Times, upTo - 1), Problem(upTo - 1, Times, num)]
  }

  /** The times table for factors 2..12. */
  function MultiplyList(num: int): seq<string> {
    Rendered(MultiplyOps(num, 13))
  }

  /** Entry `k` of the times table on its own: `num × i` at even `k`, `i × num`
      at odd `k`, with `i = k / 2 + 2`. */
  function MultiplyEntry(num: int, k: nat): Problem {
    var i := k / 2 + 2;
    if k % 2 == 0 then Problem(num, Times, i) else Problem(i, Times, num)
  }

  /** The loop's table agrees entry by entry with MultiplyEntry. */
  lemma {:induction false} MultiplyOpsAt(num: int, upTo: nat)
    requires upTo >= 2
    ensures forall k :: 0 <= k < 2 * (upTo - 2) ==> MultiplyOps(num, upTo)[k] == MultiplyEntry(num, k)
    decreases upTo
  {
    if upTo > 2 {
      MultiplyOpsAt(num, upTo - 1);
    }
  }

  /** One round of the loop pushes the texts of `num × i` and `i × num`. */
  lemma MultiplyStep(num: int, i: nat)
    requires i >= 2
    ensures Rendered(MultiplyOps(num, i + 1)) == Rendered(MultiplyOps(num, i)) + [Spaced(num, Times, i), Spaced(i, Times, num)]
  {
    var ops := MultiplyOps(num, i);
    RenderedAppend(ops, Problem(num, Times, i));
    RenderedAppend(ops + [Problem(num, Times, i)], Problem(i, Times, num));
    assert MultiplyOps(num, i + 1) == ops + [Problem(num, Times, i)] + [Problem(i, Times, num)];
  }

  /** The body of the loop of lines 52-55 for factor `i`. */
  method PushFactor(customProblems: seq<string>, num: int, i: nat) returns (pushed: seq<string>)
    requires i >= 2 && customProblems == Rendered(MultiplyOps(num, i))
    ensures pushed == Rendered(MultiplyOps(num, i + 1))
  {
    MultiplyStep(num, i);
    pushed := customProblems + [Spaced(num, Times, i), Spaced(i, Times, num)];
  }

  /** The loop of lines 51-55. */
  method MultiplyProblems(num: int) returns (customProblems: seq<string>)
    ensures customProblems == MultiplyList(num)
  {
    customProblems := [];
    var i := 2;
    while i <= 12
      invariant 2 <= i <= 13
      invariant customProblems == Rendered(MultiplyOps(num, i))
    {
      customProblems := PushFactor(customProblems, num, i);
      i := i + 1;
    }
    assert i == 13;
  }


  // ---------------------------------------------------------------- divide

  /** The problems pushed before reaching `upTo`: `(num·i) ÷ num` for each `i`
      in 1..upTo-1. */
  function DivideOps(num: int, upTo: nat): (t: seq<Problem>)
    ensures |t| == if upTo <= 1 then 0 else upTo - 1
    decreases upTo, num
  {
    if upTo <= 1 then [] else DivideOps(num, upTo - 1) + [Problem(num * (upTo - 1), Obelus, num)]
  }

  /** The division table for quotients 1..12. */
  function DivideList(num: int): seq<string> {
    Rendered(DivideOps(num, 13))
  }

  /** Entry `k` on its own: `(num·(k+1)) ÷ num`. */
  function DivideEntry(num: int, k: nat): Problem {
    Problem(num * (k + 1), Obelus, num)
  }

  lemma {:induction false} DivideOpsAt(num: int, upTo: nat)
    requires upTo >= 1
    ensures forall k :: 0 <= k < upTo - 1 ==> DivideOps(num, upTo)[k] == DivideEntry(num, k)
    decreases upTo
  {
    if upTo > 1 {
      DivideOpsAt(num, upTo - 1);
    }
  }

  /** One round of the loop pushes the text of `(num·i) ÷ num`. */
  lemma DivideStep(num: int, i: nat)
    requires i >= 1
    ensures Rendered(DivideOps(num, i + 1)) == Rendered(DivideOps(num, i)) + [Spaced(num * i, Obelus, num)]
  {
    RenderedAppend(DivideOps(num, i), Problem(num * i, Obelus, num));
  }

  /** The loop of lines 70-73. */
  method DivideProblems(num: int) returns (customProblems: seq<string>)
    ensures customProblems == DivideList(num)
  {
    customProblems := [];
    var i := 1;
    while i <= 12
      invariant 1 <= i <= 13
      invariant customProblems == Rendered(DivideOps(num, i))
    {
      DivideStep(num, i);
      customProblems := customProblems + [Spaced(num * i, Obelus, num)];
      i := i + 1;
    }
    assert i == 13;
  }


  lemma MulAtLeast(a: nat, k: int)
    requires k >= 1
    ensures a * k >= a
  {
    assert a * k == a + a * (k - 1);
  }

  /** `num * i` divided by `num` leaves `i` and no remainder. */
  lemma ExactQuotient(num: nat, i: int)
    requires num > 0
    ensures (num * i) / num == i && (num * i) % num == 0
  {
    var x := num * i;
    var q, r := x / num, x % num;
    assert x == num * q + r;
    assert num * (i - q) == r by {
      assert num * (i - q) == num * i - num * q;
    }
    if i - q >= 1 {
      MulAtLeast(num, i - q);
    } else if i - q <= -1 {
      MulAtLeast(num, q - i);
    }
  }

  /** For a positive divisor, entry `k` of the division table divides exactly,
      with quotient `k + 1`: every generated division has a whole answer, and
      the answers run through 1..12 in order. */
  lemma DivisionTableExact(num: nat, k: nat)
    requires num > 0 && k < 12
    ensures var p := DivideList(num)[k];
      var e := DivideOps(num, 13)[k];
      && p == Spaced(e.left, Obelus, e.right)
      && e.right == num
      && e.left % e.right == 0 && e.left / e.right == k + 1
  {
    DivideOpsAt(num, 13);
    ExactQuotient(num, k + 1);
  }
}
