/** The subtraction problems settings_tweaker.js generates for borrow
    practice (lines 86-101): the loops, a direct description of the list they
    build, what that list holds, and the random pick of 30. */
module BorrowGenerator {
  import opened Text
  import opened ProblemParser
  import opened Selection
  import opened Analysis
  import opened JsObject
  import opened Naming
  import opened Generators

  /** The pairs the borrow loops produce: a first number of 20..94 whose ones
      digit is at most 4, and a second number in the ten below whose ones
      digit is larger. */
  predicate IsBorrowPair(a: nat, b: nat) {
    20 <= a <= 94 && a % 10 <= 4 && b / 10 == a / 10 - 1 && a % 10 < b % 10
  }

  /** `num1 = tens * 10 + ones1`, `num2 = (tens - 1) * 10 + ones2` */
  function Pair(tens: nat, ones1: nat, ones2: nat): (nat, nat)
    requires tens >= 1
  {
    (tens * 10 + ones1, (tens - 1) * 10 + ones2)
  }

  /** For one `tens` the loops emit a row of `9 - ones1` pairs for each
      `ones1` in 0..4, 35 pairs in all; row `ones1` starts at this offset. */
  function RowStart(ones1: nat): nat
    requires ones1 <= 5
  {
    if ones1 == 0 then 0
    else if ones1 == 1 then 9
    else if ones1 == 2 then 17
    else if ones1 == 3 then 24
    else if ones1 == 4 then 30
    else 35
  }

  /** The row holding offset `r` of a block. */
  function RowOf(r: nat): (ones1: nat)
    requires r < 35
    ensures ones1 <= 4 && RowStart(ones1) <= r < RowStart(ones1 + 1)
  {
    if r < 9 then 0 else if r < 17 then 1 else if r < 24 then 2 else if r < 30 then 3 else 4
  }

  /** Pair `r` of the block for `tens`. */
  function BlockPair(tens: nat, r: nat): (nat, nat)
    requires tens >= 1 && r < 35
  {
    var ones1 := RowOf(r);
    Pair(tens, ones1, ones1 + 1 + (r - RowStart(ones1)))
  }

  /** Pair `k` of the whole list: blocks of 35 for `tens` = 2..9. */
  function PairAt(k: nat): (nat, nat)
    requires k < 280
  {
    BlockPair(2 + k / 35, k % 35)
  }

  function BlockPairs(tens: nat): (ps: seq<(nat, nat)>)
    requires tens >= 1
    ensures |ps| == 35
  {
    seq(35, r requires 0 <= r < 35 => BlockPair(tens, r))
  }

  function BorrowPairs(): (ps: seq<(nat, nat)>)
    ensures |ps| == 280
  {
    seq(280, k requires 0 <= k < 280 => PairAt(k))
  }

  /** `num1 + ' - ' + num2` for each pair. */
  function Formatted(pairs: seq<(nat, nat)>): (ps: seq<string>)
    ensures |ps| == |pairs|
  {
    seq(|pairs|, k requires 0 <= k < |pairs| => Spaced(pairs[k].0, '-', pairs[k].1))
  }

  /** The list the loops of lines 86-98 build, before the shuffle. */
  function BorrowList(): (ps: seq<string>)
    ensures |ps| == 280
  {
    Formatted(BorrowPairs())
  }

  lemma FormattedConcat(xs: seq<(nat, nat)>, ys: seq<(nat, nat)>)
    ensures Formatted(xs + ys) == Formatted(xs) + Formatted(ys)
  {
    assert forall k :: 0 <= k < |xs| + |ys| ==> (xs + ys)[k] == if k < |xs| then xs[k] else ys[k - |xs|];
  }

  /** Appending the next slice element extends the formatted slice by one. */
  lemma FormattedSliceStep(s: seq<(nat, nat)>, i: nat, j: nat)
    requires i <= j < |s|
    ensures Formatted(s[i..j + 1]) == Formatted(s[i..j]) + [Spaced(s[j].0, '-', s[j].1)]
  {
    assert s[i..j + 1] == s[i..j] + [s[j]];
    FormattedConcat(s[i..j], [s[j]]);
  }

  /** Joining two adjacent slices formats as the slice they cover. */
  lemma FormattedSlices(s: seq<(nat, nat)>, i: nat, j: nat, k: nat)
    requires i <= j <= k <= |s|
    ensures Formatted(s[i..k]) == Formatted(s[i..j]) + Formatted(s[j..k])
  {
    assert s[i..k] == s[i..j] + s[j..k];
    FormattedConcat(s[i..j], s[j..k]);
  }

  lemma RowOfStart(ones1: nat, j: nat)
    requires ones1 <= 4 && j < 9 - ones1
    ensures RowStart(ones1) + j < 35 && RowOf(RowStart(ones1) + j) == ones1
  {
  }

  lemma RowStartNext(ones1: nat)
    requires ones1 <= 4
    ensures RowStart(ones1 + 1) == RowStart(ones1) + (9 - ones1)
  {
  }

  lemma BlockOfIndex(tens: nat, r: nat)
    requires r < 35
    ensures (35 * tens + r) / 35 == tens && (35 * tens + r) % 35 == r
  {
  }

  /** The innermost loop of lines 88-97, for one `tens` and `ones1`. */
  method BorrowRow(tens: nat, ones1: nat) returns (row: seq<string>)
    requires 2 <= tens <= 9 && ones1 <= 4
    ensures row == Formatted(BlockPairs(tens)[RowStart(ones1)..RowStart(ones1 + 1)])
  {
    row := [];
    var ones2 := ones1 + 1;
    while ones2 <= 9
      invariant ones1 + 1 <= ones2 <= 10
      invariant row == Formatted(BlockPairs(tens)[RowStart(ones1)..RowStart(ones1) + (ones2 - ones1 - 1)])
    {
      var num1 := tens * 10 + ones1;
      var num2 := (tens - 1) * 10 + ones2;
      ghost var r := RowStart(ones1) + (ones2 - ones1 - 1);
      RowOfStart(ones1, ones2 - ones1 - 1);
      assert BlockPairs(tens)[r] == (num1, num2);
      FormattedSliceStep(BlockPairs(tens), RowStart(ones1), r);
      if num2 > 0 && num1 > num2 {
        row := row + [Spaced(num1, '-', num2)];
      }
      ones2 := ones2 + 1;
    }
    RowStartNext(ones1);
  }

  /** The loop over `ones1` (lines 87-98), for one `tens`. */
  method BorrowBlock(tens: nat) returns (block: seq<string>)
    requires 2 <= tens <= 9
    ensures block == Formatted(BlockPairs(tens))
  {
    block := [];
    var ones1 := 0;
    while ones1 <= 4
      invariant 0 <= ones1 <= 5
      invariant block == Formatted(BlockPairs(tens)[..RowStart(ones1)])
    {
      var row := BorrowRow(tens, ones1);
      FormattedSlices(BlockPairs(tens), 0, RowStart(ones1), RowStart(ones1 + 1));
      assert BlockPairs(tens)[..RowStart(ones1)] == BlockPairs(tens)[0..RowStart(ones1)];
      assert BlockPairs(tens)[..RowStart(ones1 + 1)] == BlockPairs(tens)[0..RowStart(ones1 + 1)];
      block := block + row;
      ones1 := ones1 + 1;
    }
    assert BlockPairs(tens)[..35] == BlockPairs(tens);
  }

  /** The loops of lines 86-99: every borrow subtraction, in loop order. */
  method BorrowProblems() returns (customProblems: seq<string>)
    ensures customProblems == BorrowList()
  {
    customProblems := [];
    var tens := 2;
    while tens <= 9
      invariant 2 <= tens <= 10
      invariant customProblems == Formatted(BorrowPairs()[..35 * (tens - 2)])
    {
      var block := BorrowBlock(tens);
      ghost var start := 35 * (tens - 2);
      forall r | 0 <= r < 35
        ensures BorrowPairs()[start + r] == BlockPairs(tens)[r]
      {
        BlockOfIndex(tens - 2, r);
      }
      assert BorrowPairs()[start..start + 35] == BlockPairs(tens);
      FormattedSlices(BorrowPairs(), 0, start, start + 35);
      assert BorrowPairs()[..start] == BorrowPairs()[0..start];
      assert BorrowPairs()[..start + 35] == BorrowPairs()[0..start + 35];
      customProblems := customProblems + block;
      tens := tens + 1;
    }
    assert BorrowPairs()[..280] == BorrowPairs();
  }

  // what the borrow list holds

  /** Division by ten of a number known to lie in the decade `tens`. */
  lemma Decade(x: int, tens: int)
    requires tens * 10 <= x < tens * 10 + 10
    ensures x / 10 == tens && x % 10 == x - tens * 10
  {
  }

  /** Every pair in the list is a borrow pair, first number above second. */
  lemma PairAtIsBorrow(k: nat)
    requires k < 280
    ensures IsBorrowPair(PairAt(k).0, PairAt(k).1)
    ensures PairAt(k).0 > PairAt(k).1 >= 10
  {
    var tens := 2 + k / 35;
    var r := k % 35;
    var ones1 := RowOf(r);
    RowStartNext(ones1);
    var ones2 := ones1 + 1 + (r - RowStart(ones1));
    assert PairAt(k) == (tens * 10 + ones1, (tens - 1) * 10 + ones2);
    Decade(tens * 10 + ones1, tens);
    Decade((tens - 1) * 10 + ones2, tens - 1);
  }

  /** Where a borrow pair sits in the list. */
  function IndexOf(a: nat, b: nat): (k: nat)
    requires IsBorrowPair(a, b)
    ensures k < 280
  {
    RowStartNext(a % 10);
    35 * (a / 10 - 2) + RowStart(a % 10) + (b % 10 - a % 10 - 1)
  }

  lemma PairAtIndexOf(a: nat, b: nat)
    requires IsBorrowPair(a, b)
    ensures PairAt(IndexOf(a, b)) == (a, b)
  {
    var k := IndexOf(a, b);
    var j := b % 10 - a % 10 - 1;
    RowOfStart(a % 10, j);
    BlockOfIndex(a / 10 - 2, RowStart(a % 10) + j);
  }

  lemma IndexOfPairAt(k: nat)
    requires k < 280
    ensures IsBorrowPair(PairAt(k).0, PairAt(k).1) && IndexOf(PairAt(k).0, PairAt(k).1) == k
  {
    PairAtIsBorrow(k);
    var tens := 2 + k / 35;
    var r := k % 35;
    var ones1 := RowOf(r);
    RowStartNext(ones1);
    var ones2 := ones1 + 1 + (r - RowStart(ones1));
    Decade(tens * 10 + ones1, tens);
    Decade((tens - 1) * 10 + ones2, tens - 1);
  }

  /** The loops produce exactly the borrow pairs, ... */
  lemma BorrowPairsMembers(p: (nat, nat))
    ensures p in BorrowPairs() <==> IsBorrowPair(p.0, p.1)
  {
    if p in BorrowPairs() {
      var k :| 0 <= k < 280 && BorrowPairs()[k] == p;
      PairAtIsBorrow(k);
    }
    if IsBorrowPair(p.0, p.1) {
      PairAtIndexOf(p.0, p.1);
      assert BorrowPairs()[IndexOf(p.0, p.1)] == p;
    }
  }

  /** ... each of them once. */
  lemma BorrowPairsDistinct(i: nat, j: nat)
    requires i < j < 280
    ensures BorrowPairs()[i] != BorrowPairs()[j]
  {
    IndexOfPairAt(i);
    IndexOfPairAt(j);
  }

  /** Two subtractions of naturals print alike only when their operands agree. */
  lemma SpacedInjective(a: nat, b: nat, c: nat, d: nat)
    requires Spaced(a, '-', b) == Spaced(c, '-', d)
    ensures a == c && b == d
  {
    ParseSpaced(a, '-', b, NonSpace);
    ParseSpaced(c, '-', d, NonSpace);
  }

  /** The 280 problems are pairwise different, ... */
  lemma BorrowListDistinct(i: nat, j: nat)
    requires i < j < 280
    ensures BorrowList()[i] != BorrowList()[j]
  {
    BorrowPairsDistinct(i, j);
    var p, q := BorrowPairs()[i], BorrowPairs()[j];
    if BorrowList()[i] == BorrowList()[j] {
      SpacedInjective(p.0, p.1, q.0, q.1);
    }
  }

  /** ... are exactly the borrow subtractions, ... */
  lemma BorrowListMembers(a: nat, b: nat)
    ensures Spaced(a, '-', b) in BorrowList() <==> IsBorrowPair(a, b)
  {
    if Spaced(a, '-', b) in BorrowList() {
      var k :| 0 <= k < 280 && BorrowList()[k] == Spaced(a, '-', b);
      var p := BorrowPairs()[k];
      SpacedInjective(a, b, p.0, p.1);
      BorrowPairsMembers(p);
    }
    if IsBorrowPair(a, b) {
      BorrowPairsMembers((a, b));
      var k :| 0 <= k < 280 && BorrowPairs()[k] == (a, b);
      assert BorrowList()[k] == Spaced(a, '-', b);
    }
  }

  /** ... and each reads back as a subtraction the popup counts under
      `sub_borrow`: the first operand's ones digit is below the second's. */
  lemma BorrowListReadsBack(k: nat)
    requires k < 280
    ensures var p := BorrowPairs()[k];
      && p.0 > p.1 >= 10
      && Parse(BorrowList()[k]) == Some(Parsed(p.0, '-', p.1))
      && NeedsBorrow(Parsed(p.0, '-', p.1))
      && NameKey(BorrowKey) in ProblemPatternKeys(Parsed(p.0, '-', p.1))
  {
    var p := BorrowPairs()[k];
    PairAtIsBorrow(k);
    ParseSpaced(p.0, '-', p.1, NonSpace);
    BorrowPairKeys(p.0, p.1);
  }

  lemma BorrowPairKeys(a: nat, b: nat)
    requires IsBorrowPair(a, b)
    ensures NeedsBorrow(Parsed(a, '-', b))
    ensures ProblemPatternKeys(Parsed(a, '-', b)) == [NameKey(BorrowKey)]
  {
    assert NormalizeOperator('-') == '-';
  }

  // ---------------------------------------------------------------- shuffle

  /** `order` lists every index below `n` exactly once: the order in which
      `sort(() => Math.random() - 0.5)` leaves `n` items, whichever it is. */
  predicate IsShuffle(order: seq<nat>, n: nat) {
    && |order| == n
    && (forall i :: 0 <= i < n ==> order[i] < n)
    && (forall i, j :: 0 <= i < j < n ==> order[i] != order[j])
  }

  /** `items` rearranged: position `i` receives item `order[i]`. */
  function Shuffle<T>(items: seq<T>, order: seq<nat>): (r: seq<T>)
    requires IsShuffle(order, |items|)
    ensures |r| == |items|
  {
    seq(|items|, i requires 0 <= i < |items| => items[order[i]])
  }

  /** `s.slice(0, n)` */
  function Take<T>(s: seq<T>, n: nat): (r: seq<T>)
    ensures |r| == if |s| <= n then |s| else n
    ensures forall i :: 0 <= i < |r| ==> r[i] == s[i]
  {
    if |s| <= n then s else s[..n]
  }

  /** The 30 borrow problems kept after the shuffle. */
  function BorrowPick(order: seq<nat>): seq<string>
    requires IsShuffle(order, 280)
  {
    Take(Shuffle(BorrowList(), order), 30)
  }

  /** Whatever the shuffle, 30 problems are kept, all different, each a
      borrow subtraction of the list. */
  lemma BorrowPickFacts(order: seq<nat>)
    requires IsShuffle(order, 280)
    ensures |BorrowPick(order)| == 30
    ensures forall i, j :: 0 <= i < j < 30 ==> BorrowPick(order)[i] != BorrowPick(order)[j]
    ensures forall i :: 0 <= i < 30 ==> BorrowPick(order)[i] in BorrowList()
  {
    var picked := BorrowPick(order);
    forall i, j | 0 <= i < j < 30
      ensures picked[i] != picked[j]
    {
      assert picked[i] == BorrowList()[order[i]] && picked[j] == BorrowList()[order[j]];
      if order[i] < order[j] {
        BorrowListDistinct(order[i], order[j]);
      } else {
        BorrowListDistinct(order[j], order[i]);
      }
    }
    forall i | 0 <= i < 30
      ensures picked[i] in BorrowList()
    {
      assert picked[i] == BorrowList()[order[i]];
    }
  }
}
