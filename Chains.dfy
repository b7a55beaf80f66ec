/**
  Operator chaining: a run of typed operands and operators, closed by equals,
  is evaluated strictly from left to right, and every step that hits no
  guard, the implicit ones included, is logged in the capped history.
 */
module Chains {
  import opened Wrappers
  import opened Text
  import opened Numbers
  import opened Entry
  import opened History
  import opened Engine

  /** An operator press followed by the keys of the next operand. */
  datatype Step = Step(op: Op, keys: seq<char>)

  predicate KeysOk(steps: seq<Step>) {
    forall i :: 0 <= i < |steps| ==> IsOperand(steps[i].keys)
  }

  /** The display after `start` followed by `steps`, evaluated left to right with no precedence. */
  function ChainDisplay(lib: FloatLib, start: string, steps: seq<Step>): (r: string)
    requires KeysOk(steps)
    decreases |steps|
  {
    if steps == [] then start
    else
      var last := steps[|steps| - 1];
      var left := ChainDisplay(lib, start, steps[..|steps| - 1]);
      ResultText(lib, Evaluate(lib, last.op, lib.parse(left), lib.parse(Operand(lib, last.keys))))
  }

  /**
    The log after the same run: one entry per step that did not hit a domain
    error, newest first, with only the newest `MaxEntries` kept.
   */
  function ChainLog(lib: FloatLib, start: string, steps: seq<Step>): (r: seq<string>)
    requires KeysOk(steps)
    ensures |r| <= MaxEntries
    decreases |steps|
  {
    if steps == [] then []
    else
      var last := steps[|steps| - 1];
      var left := ChainDisplay(lib, start, steps[..|steps| - 1]);
      var right := Operand(lib, last.keys);
      Logged(ChainLog(lib, start, steps[..|steps| - 1]),
             Evaluate(lib, last.op, lib.parse(left), lib.parse(right)),
             BinaryLhs(left, last.op, right), ChainDisplay(lib, start, steps))
  }

  /** One more step of the fold: the computation of the k-th step on the display before it. */
  lemma ChainUnfold(lib: FloatLib, start: string, steps: seq<Step>, k: nat)
    requires KeysOk(steps) && 0 < k <= |steps|
    ensures
      var before, last := steps[..k - 1], steps[k - 1];
      var left, right := ChainDisplay(lib, start, before), Operand(lib, last.keys);
      var o := Evaluate(lib, last.op, lib.parse(left), lib.parse(right));
      && ChainDisplay(lib, start, steps[..k]) == ResultText(lib, o)
      && ChainLog(lib, start, steps[..k]) == Logged(ChainLog(lib, start, before), o, BinaryLhs(left, last.op, right), ResultText(lib, o))
  {
    assert steps[..k][..k - 1] == steps[..k - 1];
  }

  /** The state after the first k steps: the k-th operator pending on the display before it, the k-th operand typed. */
  ghost predicate AfterSteps(calculator: Calculator, lib: FloatLib, start: string, steps: seq<Step>, k: nat)
    requires KeysOk(steps) && 0 < k <= |steps|
    reads calculator
  {
    && calculator.Valid() && calculator.lib == lib && !calculator.waitingForNew
    && calculator.operator == Some(steps[k - 1].op)
    && calculator.previous == Some(ChainDisplay(lib, start, steps[..k - 1]))
    && calculator.current == Operand(lib, steps[k - 1].keys)
    && calculator.history == ChainLog(lib, start, steps[..k - 1])
  }

  /** Typing `keys` while an operand is being extended: the display becomes their fold. */
  method TypeInto(calculator: Calculator, keys: seq<char>)
    requires calculator.Valid() && !calculator.waitingForNew && AllKeys(keys)
    modifies calculator
    ensures calculator.Valid() && !calculator.waitingForNew
    ensures calculator.current == TypeKeys(calculator.lib, old(calculator.current), keys)
    ensures calculator.previous == old(calculator.previous) && calculator.operator == old(calculator.operator)
    ensures calculator.history == old(calculator.history)
  {
    ghost var lib, start := calculator.lib, calculator.current;
    var j := 0;
    while j < |keys|
      invariant 0 <= j <= |keys|
      invariant calculator.Valid() && !calculator.waitingForNew && calculator.lib == lib
      invariant calculator.current == TypeKeys(lib, start, keys[..j])
      invariant calculator.previous == old(calculator.previous) && calculator.operator == old(calculator.operator)
      invariant calculator.history == old(calculator.history)
    {
      ghost var typed := TypeKeys(lib, start, keys[..j]);
      calculator.InputDigit(keys[j]);
      assert keys[..j + 1][..j] == keys[..j];
      assert TypeKeys(lib, start, keys[..j + 1]) == Typed(lib, typed, keys[j]);
      j := j + 1;
    }
    assert keys[..|keys|] == keys;
  }

  /** Pressing an operator, then typing the keys of the operand after it. */
  method PressStep(calculator: Calculator, step: Step)
    requires calculator.Valid() && IsOperand(step.keys)
    modifies calculator
    ensures calculator.Valid() && !calculator.waitingForNew
    ensures calculator.operator == Some(step.op) && calculator.current == Operand(calculator.lib, step.keys)
    ensures old(calculator.operator).None? || old(calculator.waitingForNew) ==>
      calculator.previous == Some(old(calculator.current)) && calculator.history == old(calculator.history)
    ensures old(calculator.operator).Some? && !old(calculator.waitingForNew) ==>
      var lib := calculator.lib;
      var prev, op, cur := old(calculator.previous).value, old(calculator.operator).value, old(calculator.current);
      var o := Evaluate(lib, op, lib.parse(prev), lib.parse(cur));
      && calculator.previous == Some(ResultText(lib, o))
      && calculator.history == Logged(old(calculator.history), o, BinaryLhs(prev, op, cur), ResultText(lib, o))
  {
    calculator.HandleOperator(step.op);
    calculator.InputDigit(step.keys[0]);
    TypeInto(calculator, step.keys[1..]);
  }

  /** Pressing the next step's operator and operand: the pending step is computed and logged. */
  method Advance(calculator: Calculator, lib: FloatLib, start: string, steps: seq<Step>, k: nat)
    requires KeysOk(steps) && 0 < k < |steps|
    requires AfterSteps(calculator, lib, start, steps, k)
    modifies calculator
    ensures AfterSteps(calculator, lib, start, steps, k + 1)
  {
    ChainUnfold(lib, start, steps, k);
    PressStep(calculator, steps[k]);
    assert steps[..k + 1][..k] == steps[..k];
  }

  /** A fresh calculator fed the keys `first` and the first step. */
  method Begin(lib: FloatLib, first: seq<char>, steps: seq<Step>) returns (calculator: Calculator)
    requires WellBehaved(lib) && AllKeys(first) && KeysOk(steps) && steps != []
    ensures fresh(calculator) && AfterSteps(calculator, lib, TypeKeys(lib, "0", first), steps, 1)
  {
    calculator := new Calculator(lib);
    TypeInto(calculator, first);
    PressStep(calculator, steps[0]);
    assert steps[..0] == [];
  }

  /** Pressing equals after the last step: the display and the log are the folds of all steps. */
  method Finish(calculator: Calculator, lib: FloatLib, start: string, steps: seq<Step>)
    requires KeysOk(steps) && steps != []
    requires AfterSteps(calculator, lib, start, steps, |steps|)
    modifies calculator
    ensures calculator.current == ChainDisplay(lib, start, steps)
    ensures calculator.history == ChainLog(lib, start, steps)
  {
    ChainUnfold(lib, start, steps, |steps|);
    calculator.Compute();
    assert steps[..|steps|] == steps;
  }

  /** A fresh calculator fed the keys `first`, then equals: nothing is pending, so the typed text stays. */
  method TypeAlone(lib: FloatLib, first: seq<char>) returns (display: string, log: seq<string>)
    requires WellBehaved(lib) && AllKeys(first)
    ensures display == TypeKeys(lib, "0", first) && log == []
  {
    var calculator := new Calculator(lib);
    TypeInto(calculator, first);
    calculator.Compute();
    display, log := calculator.current, calculator.history;
  }

  /**
    A fresh calculator fed the keys `first`, then each step's operator and
    operand keys, then equals: the display is the left-to-right fold of the
    steps and the log holds one entry per successful step, newest first,
    with only the newest `MaxEntries` kept.
   */
  method EvaluateChain(lib: FloatLib, first: seq<char>, steps: seq<Step>) returns (display: string, log: seq<string>)
    requires WellBehaved(lib) && AllKeys(first) && KeysOk(steps)
    ensures display == ChainDisplay(lib, TypeKeys(lib, "0", first), steps)
    ensures log == ChainLog(lib, TypeKeys(lib, "0", first), steps)
  {
    if steps == [] {
      display, log := TypeAlone(lib, first);
      return;
    }
    var start := TypeKeys(lib, "0", first);
    var calculator := Begin(lib, first, steps);
    var k := 1;
    while k < |steps|
      invariant 1 <= k <= |steps|
      invariant AfterSteps(calculator, lib, start, steps, k)
    {
      Advance(calculator, lib, start, steps, k);
      k := k + 1;
    }
    Finish(calculator, lib, start, steps);
    display, log := calculator.current, calculator.history;
  }

  /** "5 ÷ 0 =" shows the error sentinel and logs nothing. */
  method DivideByZero(lib: FloatLib) returns (display: string, log: seq<string>)
    requires WellBehaved(lib) && IsZero(lib.parse("0"))
    ensures display == ErrorText && log == []
  {
    var calculator := new Calculator(lib);
    calculator.InputDigit('5');
    calculator.HandleOperator(Divide);
    calculator.InputDigit('0');
    calculator.Compute();
    display, log := calculator.current, calculator.history;
  }

  /** The reciprocal of the initial "0" shows the error sentinel and logs nothing. */
  method ReciprocalOfZero(lib: FloatLib) returns (display: string, log: seq<string>)
    requires WellBehaved(lib) && IsZero(lib.parse("0"))
    ensures display == ErrorText && log == []
  {
    var calculator := new Calculator(lib);
    calculator.ApplyUnary(Reciprocal);
    display, log := calculator.current, calculator.history;
  }

  /** The fold of two steps, written out. */
  lemma TwoSteps(lib: FloatLib, start: string, first: Step, second: Step)
    requires IsOperand(first.keys) && IsOperand(second.keys)
    ensures
      var o1 := Evaluate(lib, first.op, lib.parse(start), lib.parse(Operand(lib, first.keys)));
      var left := ResultText(lib, o1);
      var o2 := Evaluate(lib, second.op, lib.parse(left), lib.parse(Operand(lib, second.keys)));
      && ChainDisplay(lib, start, [first, second]) == ResultText(lib, o2)
      && ChainLog(lib, start, [first, second]) ==
           Logged(Logged([], o1, BinaryLhs(start, first.op, Operand(lib, first.keys)), left),
                  o2, BinaryLhs(left, second.op, Operand(lib, second.keys)), ResultText(lib, o2))
  {
    var steps := [first, second];
    assert steps[..1] == [first] && steps[..1][..0] == [] && steps[..2] == steps;
    ChainUnfold(lib, start, steps, 1);
    ChainUnfold(lib, start, steps, 2);
  }

  /** The log entries of "12 + 34 × 5", spelled out. */
  lemma ExampleEntries(sum: string, product: string)
    ensures Summary(BinaryLhs("12", Add, "34"), sum) == "12 + 34 = " + sum
    ensures Summary(BinaryLhs(sum, Multiply, "5"), product) == sum + " × 5 = " + product
  {
    assert "12" + " " + "+" + " " + "34" + " = " == "12 + 34 = ";
    assert " " + "×" + " " + "5" + " = " == " × 5 = ";
  }

  /** The texts the keys of "12 + 34 × 5" type. */
  lemma ExampleOperands(lib: FloatLib)
    ensures TypeKeys(lib, "0", "12") == "12"
    ensures Operand(lib, "34") == "34" && Operand(lib, "5") == "5"
  {
    assert "12"[..1] == "1" && "1"[..0] == [];
    assert TypeKeys(lib, "0", "1") == "1";
    assert "34"[1..] == "4";
    TypedRun(lib, "3", "4");
    assert "5"[1..] == [];
  }

  /**
    "12 + 34 × 5 =": the typed operands are read whole, the sum is computed
    when × is pressed and logged, then multiplied by 5 (no precedence), and
    the log holds both steps.
   */
  lemma ChainedSteps(lib: FloatLib, first: seq<char>, steps: seq<Step>)
    requires first == "12" && steps == [Step(Add, "34"), Step(Multiply, "5")]
    ensures
      var sum := FormatResult(lib, lib.add(lib.parse("12"), lib.parse("34")));
      var product := FormatResult(lib, lib.mul(lib.parse(sum), lib.parse("5")));
      && ChainDisplay(lib, TypeKeys(lib, "0", first), steps) == product
      && ChainLog(lib, TypeKeys(lib, "0", first), steps) == [sum + " × 5 = " + product, "12 + 34 = " + sum]
  {
    var sum := FormatResult(lib, lib.add(lib.parse("12"), lib.parse("34")));
    var product := FormatResult(lib, lib.mul(lib.parse(sum), lib.parse("5")));
    ExampleOperands(lib);
    assert steps == [steps[0], steps[1]];
    TwoSteps(lib, "12", steps[0], steps[1]);
    ExampleEntries(sum, product);
  }
}
