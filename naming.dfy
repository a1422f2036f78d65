/** The display names of popup-debug.js: `getOperationName` and `getPatternName`. */
module Naming {
  import opened Text

  const BorrowKey: string := "sub_borrow"

  /** `getOperationName(op)`: the name of a canonical operator, `'Unknown'` otherwise. */
  function OperationName(op: string): (name: string)
    ensures name == "Unknown" <==> op !in {"+", "-", "*", "/"}
  {
    if op == "+" then "Addition"
    else if op == "-" then "Subtraction"
    else if op == "*" then "Multiplication"
    else if op == "/" then "Division"
    else "Unknown"
  }

  /** `getPatternName(key)`: the borrow key has its own name; a key with exactly
      one `_` reads as `<operation name> with <rest>s`; any other key is shown as is. */
  function PatternName(key: string): string {
    if key == BorrowKey then "Subtraction (with Borrowing)"
    else
      var parts := Split(key, '_');
      if |parts| == 2 then OperationName(parts[0]) + " with " + parts[1] + "s"
      else key
  }

  /** The name of the key `<op>_<n>` of a multiplication or division bucket. */
  lemma PatternNameOfOperandKey(op: string, n: nat)
    requires op in {"*", "/"}
    ensures PatternName(op + "_" + NatToString(n)) == OperationName(op) + " with " + NatToString(n) + "s"
  {
    var digits := NatToString(n);
    assert '_' !in op;
    assert '_' !in digits by {
      forall i | 0 <= i < |digits| ensures digits[i] != '_' { assert IsDigit(digits[i]); }
    }
    assert op + "_" + digits == op + ['_'] + digits;
    SplitAround(op, '_', digits);
    assert (op + "_" + digits)[0] == op[0] != BorrowKey[0];
  }

  /** Keys without `_` are shown unchanged, and so are keys with two or more. */
  lemma {:induction false} PatternNameOfOtherKeys(key: string)
    requires key != BorrowKey && Count(key, '_') != 1
    ensures PatternName(key) == key
  {
    SplitJoin(key, '_');
  }

  /** Example: `*_7`. */
  lemma MultiplicationPatternExample()
    ensures PatternName("*_" + NatToString(7)) == "Multiplication with 7s"
  {
    assert NatToString(7) == "7";
    PatternNameOfOperandKey("*", 7);
    assert "*_" + NatToString(7) == "*" + "_" + NatToString(7);
    assert OperationName("*") + " with " + "7" + "s" == "Multiplication with 7s";
  }

  /** Example: `/_12`. */
  lemma DivisionPatternExample()
    ensures PatternName("/_" + NatToString(12)) == "Division with 12s"
  {
    assert NatToString(12) == "12";
    PatternNameOfOperandKey("/", 12);
    assert "/_" + NatToString(12) == "/" + "_" + NatToString(12);
    assert OperationName("/") + " with " + "12" + "s" == "Division with 12s";
  }
}
