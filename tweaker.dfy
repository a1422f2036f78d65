/** The start-page side of a training session (settings_tweaker.js): given the
    stored goal and training type, clear the four operation checkboxes, tick
    the one the training needs and, where the page has them, fill the custom
    problem field or the number range. */
module SettingsTweaker {
  import opened Text
  import opened Generators
  import opened BorrowGenerator

  /** The stored `trainingType` object: `type`, `operation`, `number`. */
  datatype TrainingType = TrainingType(kind: string, operation: string, number: int)

  /** The form controls the script looks up. `None` is a control the page does
      not have; a checkbox holds its `checked` state, an input its `value`. */
  datatype Form = Form(
    add: Option<bool>, sub: Option<bool>, mul: Option<bool>, div: Option<bool>,
    minValue: Option<string>, maxValue: Option<string>, custom: Option<string>)

  /** `!goal`: a missing or empty goal string. */
  predicate NoGoal(goal: Option<string>) {
    goal.None? || goal.value == ""
  }

  predicate AllCheckboxes(f: Form) {
    f.add.Some? && f.sub.Some? && f.mul.Some? && f.div.Some?
  }

  /** The script goes past both early returns (lines 5-7 and 27-30). */
  predicate Proceeds(f: Form, goal: Option<string>, t: Option<TrainingType>) {
    !NoGoal(goal) && t.Some? && AllCheckboxes(f)
  }

  predicate IsSpecific(t: TrainingType) {
    t.kind == "specific_number"
  }

  predicate IsBorrow(t: TrainingType) {
    t.kind == "borrow"
  }

  /** `Math.max(2, num - 2)` and `Math.min(12, num + 2)` */
  function RangeLow(num: int): int {
    Max(2, num - 2)
  }

  function RangeHigh(num: int): int {
    Min(12, num + 2)
  }

  /** The configuration the script leaves behind, as a function of the form
      before it ran, the stored goal and type, and the shuffle order. */
  function Configure(f: Form, goal: Option<string>, tt: Option<TrainingType>, order: seq<nat>): Form
    requires IsShuffle(order, 280)
  {
    if !Proceeds(f, goal, tt) then f
    else
      var cleared := f.(add := Some(false), sub := Some(false), mul := Some(false), div := Some(false));
      var t := tt.value;
      if IsSpecific(t) then
        if t.operation == "*" then
          var g := cleared.(mul := Some(true));
          if f.custom.Some? then g.(custom := Some(Join(MultiplyList(t.number), ", ")))
          else if f.minValue.Some? && f.maxValue.Some? then
            g.(minValue := Some(IntToString(RangeLow(t.number))), maxValue := Some(IntToString(RangeHigh(t.number))))
          else g
        else if t.operation == "/" then
          var g := cleared.(div := Some(true));
          if f.custom.Some? then g.(custom := Some(Join(DivideList(t.number), ", "))) else g
        else cleared
      else if IsBorrow(t) then
        var g := cleared.(sub := Some(true));
        if f.custom.Some? then g.(custom := Some(Join(BorrowPick(order), ", "))) else g
      else if t.operation == "-" then cleared.(sub := Some(true))
      else if t.operation == "*" then cleared.(mul := Some(true))
      else if t.operation == "/" then cleared.(div := Some(true))
      else if t.operation == "+" then cleared.(add := Some(true))
      else cleared
  }

  class StartForm {
    var add: Option<bool>
    var sub: Option<bool>
    var mul: Option<bool>
    var div: Option<bool>
    var minValue: Option<string>
    var maxValue: Option<string>
    var custom: Option<string>

    function State(): Form
      reads this
    {
      Form(add, sub, mul, div, minValue, maxValue, custom)
    }

    constructor (f: Form)
      ensures State() == f
    {
      add, sub, mul, div := f.add, f.sub, f.mul, f.div;
      minValue, maxValue, custom := f.minValue, f.maxValue, f.custom;
    }

    /** Lines 5-114 of the storage callback and its timer. `order` is the
        order the random shuffle of the borrow list produces. */
    method ApplyTraining(goal: Option<string>, trainingType: Option<TrainingType>, order: seq<nat>)
      requires IsShuffle(order, 280)
      modifies this
      ensures State() == Configure(old(State()), goal, trainingType, order)
    {
      if NoGoal(goal) || trainingType.None? {
        return;
      }
      if add.None? || sub.None? || mul.None? || div.None? {
        return;
      }
      add := Some(false);
      sub := Some(false);
      mul := Some(false);
      div := Some(false);
      var t := trainingType.value;
      if t.kind == "specific_number" {
        var op := t.operation;
        var num := t.number;
        if op == "*" {
          mul := Some(true);
          if custom.Some? {
            var customProblems := MultiplyProblems(num);
            custom := Some(Join(customProblems, ", "));
          } else if minValue.Some? && maxValue.Some? {
            minValue := Some(IntToString(Max(2, num - 2)));
            maxValue := Some(IntToString(Min(12, num + 2)));
          }
        } else if op == "/" {
          div := Some(true);
          if custom.Some? {
            var customProblems := DivideProblems(num);
            custom := Some(Join(customProblems, ", "));
          }
        }
      } else if t.kind == "borrow" {
        sub := Some(true);
        if custom.Some? {
          var customProblems := BorrowProblems();
          customProblems := Take(Shuffle(customProblems, order), 30);
          custom := Some(Join(customProblems, ", "));
        }
      } else {
        if t.operation == "-" {
          sub := Some(true);
        } else if t.operation == "*" {
          mul := Some(true);
        } else if t.operation == "/" {
          div := Some(true);
        } else if t.operation == "+" {
          add := Some(true);
        }
      }
    }
  }

  // ---------------------------------------------------------------- properties

  function Ticked(b: Option<bool>): nat {
    if b == Some(true) then 1 else 0
  }

  function TickedCount(f: Form): nat {
    Ticked(f.add) + Ticked(f.sub) + Ticked(f.mul) + Ticked(f.div)
  }

  /** Without a goal, a training type or all four checkboxes nothing changes. */
  lemma NothingWithoutGoalOrControls(f: Form, goal: Option<string>, t: Option<TrainingType>, order: seq<nat>)
    requires IsShuffle(order, 280)
    requires NoGoal(goal) || t.None? || !AllCheckboxes(f)
    ensures Configure(f, goal, t, order) == f
  {
  }

  /** Otherwise every checkbox ends set, at most one of them ticked, and which
      one follows the training type: `specific_number` ticks mul for `*` and div
      for `/`, `borrow` ticks sub, and any other type ticks the box its
      operation names. */
  lemma CheckboxOutcome(f: Form, goal: Option<string>, t: Option<TrainingType>, order: seq<nat>)
    requires IsShuffle(order, 280)
    requires Proceeds(f, goal, t)
    ensures var g := Configure(f, goal, t, order);
      var tt := t.value;
      var general := !IsSpecific(tt) && !IsBorrow(tt);
      && AllCheckboxes(g)
      && TickedCount(g) <= 1
      && (g.mul == Some(true) <==> tt.operation == "*" && (IsSpecific(tt) || general))
      && (g.div == Some(true) <==> tt.operation == "/" && (IsSpecific(tt) || general))
      && (g.sub == Some(true) <==> IsBorrow(tt) || (general && tt.operation == "-"))
      && (g.add == Some(true) <==> general && tt.operation == "+")
  {
    assert "specific_number" != "borrow";
  }

  /** A control the page lacks stays missing, and the number range and the
      custom field change only in the multiply, divide and borrow branches. */
  lemma FieldsWrittenOnlyByTheirBranches(f: Form, goal: Option<string>, t: Option<TrainingType>, order: seq<nat>)
    requires IsShuffle(order, 280)
    ensures var g := Configure(f, goal, t, order);
      && g.minValue.Some? == f.minValue.Some?
      && g.maxValue.Some? == f.maxValue.Some?
      && g.custom.Some? == f.custom.Some?
      && (g.minValue != f.minValue || g.maxValue != f.maxValue ==>
            Proceeds(f, goal, t) && IsSpecific(t.value) && t.value.operation == "*" && f.custom.None?)
      && (g.custom != f.custom ==>
            Proceeds(f, goal, t) && (IsBorrow(t.value) || (IsSpecific(t.value) && t.value.operation in {"*", "/"})))
  {
  }

  /** The general branch touches only the checkboxes. */
  lemma GeneralTouchesOnlyCheckboxes(f: Form, goal: Option<string>, t: Option<TrainingType>, order: seq<nat>)
    requires IsShuffle(order, 280)
    requires t.Some? && !IsSpecific(t.value) && !IsBorrow(t.value)
    ensures var g := Configure(f, goal, t, order);
      g.minValue == f.minValue && g.maxValue == f.maxValue && g.custom == f.custom
  {
  }

  /** Multiply with a custom field: the times table of `num` joined by `", "`;
      without one but with both range inputs: the range around `num`; with
      neither: only the checkbox. */
  lemma MultiplyOutcome(f: Form, goal: Option<string>, t: Option<TrainingType>, order: seq<nat>)
    requires IsShuffle(order, 280)
    requires Proceeds(f, goal, t) && IsSpecific(t.value) && t.value.operation == "*"
    ensures var g := Configure(f, goal, t, order);
      var num := t.value.number;
      && (f.custom.Some? ==>
            g.custom == Some(Join(MultiplyList(num), ", ")) && g.minValue == f.minValue && g.maxValue == f.maxValue)
      && (f.custom.None? && f.minValue.Some? && f.maxValue.Some? ==>
            g.minValue == Some(IntToString(RangeLow(num))) && g.maxValue == Some(IntToString(RangeHigh(num))))
      && (f.custom.None? && (f.minValue.None? || f.maxValue.None?) ==>
            g == f.(add := Some(false), sub := Some(false), mul := Some(true), div := Some(false)))
  {
    assert "specific_number" != "borrow";
  }

  /** For a number of the tables the range holds it, stays inside 2..12 and
      spans at most two either side. */
  lemma RangeAroundNumber(num: int)
    requires 2 <= num <= 12
    ensures 2 <= RangeLow(num) <= num <= RangeHigh(num) <= 12
    ensures num - RangeLow(num) <= 2 && RangeHigh(num) - num <= 2
  {
  }

  /** Divide fills only the custom field, with the division table of `num`;
      there is no range fallback. */
  lemma DivideOutcome(f: Form, goal: Option<string>, t: Option<TrainingType>, order: seq<nat>)
    requires IsShuffle(order, 280)
    requires Proceeds(f, goal, t) && IsSpecific(t.value) && t.value.operation == "/"
    ensures var g := Configure(f, goal, t, order);
      && g.minValue == f.minValue && g.maxValue == f.maxValue
      && g.custom == if f.custom.Some? then Some(Join(DivideList(t.value.number), ", ")) else f.custom
  {
    assert "specific_number" != "borrow";
  }

  /** Borrow fills the custom field with 30 different borrow subtractions of
      the generated list, and leaves the range alone. */
  lemma BorrowOutcome(f: Form, goal: Option<string>, t: Option<TrainingType>, order: seq<nat>)
    requires IsShuffle(order, 280)
    requires Proceeds(f, goal, t) && IsBorrow(t.value) && f.custom.Some?
    ensures var g := Configure(f, goal, t, order);
      && g.minValue == f.minValue && g.maxValue == f.maxValue
      && exists picked: seq<string> ::
           (&& g.custom == Some(Join(picked, ", "))
            && |picked| == 30
            && (forall i, j :: 0 <= i < j < 30 ==> picked[i] != picked[j])
            && (forall i :: 0 <= i < 30 ==> picked[i] in BorrowList()))
  {
    assert "specific_number" != "borrow";
    BorrowPickFacts(order);
    var picked := BorrowPick(order);
    assert Configure(f, goal, t, order).custom == Some(Join(picked, ", "));
  }
}
