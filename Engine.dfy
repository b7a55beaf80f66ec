/**
  The calculator engine: the display operand, the pending operand and
  operator, the "waiting for a new entry" flag, the memory register and the
  history log, with the operations that update them in place.
 */
module Engine {
  import opened Wrappers
  import opened Text
  import opened Numbers
  import opened Entry
  import opened History

  /** The binary operators, evaluated strictly left to right. */
  datatype Op = Add | Subtract | Multiply | Divide

  /** The unary functions of the advanced panel. */
  datatype Unary = Sqrt | Square | Reciprocal | TaxPlus | TaxMinus

  /** The symbol an operator has in a history entry. */
  function OperatorSymbol(op: Op): (r: string)
    ensures |r| == 1 && IsDisplay(r)
  {
    match op
    case Add => "+"
    case Subtract => "-"
    case Multiply => "×"
    case Divide => "÷"
  }

  /** Distinct operators are told apart in the log. */
  lemma OperatorSymbolInjective(a: Op, b: Op)
    requires OperatorSymbol(a) == OperatorSymbol(b)
    ensures a == b
  {
  }

  /** The action name of a unary function, which its history entry starts with. */
  function UnaryName(u: Unary): (r: string)
    ensures '=' !in r
  {
    match u
    case Sqrt => "sqrt"
    case Square => "square"
    case Reciprocal => "reciprocal"
    case TaxPlus => "taxplus"
    case TaxMinus => "taxminus"
  }

  /** The default sales tax factor of the tax keys. */
  const TaxFactor := Finite(1.1)

  /** A computation either yields a number or hits a guarded domain error. */
  datatype Outcome = Value(v: Float) | DomainError

  /** `previous op current` on parsed operands; only a division by zero is an error. */
  function Evaluate(lib: FloatLib, op: Op, a: Float, b: Float): (r: Outcome)
    ensures r.DomainError? <==> op == Divide && IsZero(b)
  {
    match op
    case Add => Value(lib.add(a, b))
    case Subtract => Value(lib.sub(a, b))
    case Multiply => Value(lib.mul(a, b))
    case Divide => if IsZero(b) then DomainError else Value(lib.div(a, b))
  }

  /** A unary function on a parsed operand; the square root of a negative and the reciprocal of zero are errors. */
  function UnaryOutcome(lib: FloatLib, u: Unary, x: Float): (r: Outcome)
    ensures r.DomainError? <==> (u == Sqrt && IsNegative(x)) || (u == Reciprocal && IsZero(x))
  {
    match u
    case Sqrt => if IsNegative(x) then DomainError else Value(lib.sqrt(x))
    case Square => Value(lib.mul(x, x))
    case Reciprocal => if IsZero(x) then DomainError else Value(lib.div(Finite(1.0), x))
    case TaxPlus => Value(lib.mul(x, TaxFactor))
    case TaxMinus => Value(lib.div(x, TaxFactor))
  }

  /**
    The display text of an outcome: display text, and the error sentinel
    exactly after a guarded error or for a result that is not finite.
   */
  function ResultText(lib: FloatLib, o: Outcome): (r: string)
    ensures o.DomainError? ==> r == ErrorText
    ensures WellBehaved(lib) ==>
      && IsDisplay(r)
      && (r == ErrorText <==> o.DomainError? || (o.Value? && !IsFinite(o.v)))
  {
    match o
    case DomainError => ErrorText
    case Value(v) => FormatResult(lib, v)
  }

  /** The left-hand side of the history entry of a binary computation. */
  function BinaryLhs(prev: string, op: Op, cur: string): (r: string) {
    prev + " " + OperatorSymbol(op) + " " + cur
  }

  /** The left-hand side of the history entry of a unary function. */
  function UnaryLhs(lib: FloatLib, u: Unary, x: Float): (r: string) {
    UnaryName(u) + "(" + lib.show(x) + ")"
  }

  /** The log after an outcome: unchanged by a domain error, otherwise with the new summary in front. */
  function Logged(log: seq<string>, o: Outcome, lhs: string, result: string): (r: seq<string>)
  {
    if o.DomainError? then log else Pushed(log, Summary(lhs, result))
  }

  /**
    Logging keeps the log within its cap and every entry recallable, and a
    logged result is exactly what its entry recalls.
   */
  lemma LoggedRecalls(log: seq<string>, o: Outcome, lhs: string, result: string)
    requires |log| <= MaxEntries && forall i :: 0 <= i < |log| ==> Recalls(log[i])
    requires '=' !in lhs && IsDisplay(result)
    ensures |Logged(log, o, lhs, result)| <= MaxEntries
    ensures forall i :: 0 <= i < |Logged(log, o, lhs, result)| ==> Recalls(Logged(log, o, lhs, result)[i])
    ensures o.Value? ==> RecallParse(Logged(log, o, lhs, result)[0]) == Some(result)
  {
    if o.Value? {
      RecallSummary(lhs, result);
      PushedRecalls(log, Summary(lhs, result));
    }
  }

  class Calculator {
    /** The number library the engine computes with. */
    const lib: FloatLib
    /** The display text, edited while an operand is typed. */
    var current: string
    /** The left operand of the pending operator. */
    var previous: Option<string>
    var operator: Option<Op>
    /** The next key starts a new operand instead of extending `current`. */
    var waitingForNew: bool
    /** The memory register. */
    var memory: Float
    /** Completed computations, newest first. */
    var history: seq<string>

    ghost predicate Valid()
      reads this
    {
      && WellBehaved(lib)
      && (operator.None? <==> previous.None?)
      && IsDisplay(current)
      && (previous.Some? ==> IsDisplay(previous.value))
      && |history| <= MaxEntries
      && (forall i :: 0 <= i < |history| ==> Recalls(history[i]))
    }

    constructor (lib: FloatLib)
      requires WellBehaved(lib)
      ensures Valid() && this.lib == lib
      ensures current == "0" && previous == None && operator == None && !waitingForNew
      ensures memory == Finite(0.0) && history == []
    {
      this.lib := lib;
      current := "0";
      previous := None;
      operator := None;
      waitingForNew := false;
      memory := Finite(0.0);
      history := [];
    }

    /** Enters a digit or the decimal point. */
    method InputDigit(d: char)
      requires Valid() && IsKey(d)
      modifies this
      ensures Valid() && !waitingForNew
      ensures old(waitingForNew) ==> current == FreshEntry(d)
      ensures !old(waitingForNew) ==> current == Typed(lib, old(current), d)
      ensures previous == old(previous) && operator == old(operator)
      ensures memory == old(memory) && history == old(history)
    {
      if waitingForNew {
        current := FreshEntry(d);
        waitingForNew := false;
        return;
      }
      if d == '.' && '.' in current {
        return;
      }
      current := AppendKey(current, d);
      if |current| > MaxEntryLength {
        current := lib.exponential(lib.parse(current));
      }
    }

    /** Resets the operands and the pending operator; memory and history stay. */
    method ClearAll()
      requires Valid()
      modifies this
      ensures Valid()
      ensures current == "0" && previous == None && operator == None && !waitingForNew
      ensures memory == old(memory) && history == old(history)
    {
      current := "0";
      previous := None;
      operator := None;
      waitingForNew := false;
    }

    /** Negates the displayed number, unless it is the literal "0". */
    method PlusMinus()
      requires Valid()
      modifies this
      ensures Valid()
      ensures old(current) == "0" ==> current == old(current)
      ensures old(current) != "0" ==> current == lib.show(lib.mul(lib.parse(old(current)), Finite(-1.0)))
      ensures previous == old(previous) && operator == old(operator) && waitingForNew == old(waitingForNew)
      ensures memory == old(memory) && history == old(history)
    {
      if current == "0" {
        return;
      }
      current := lib.show(lib.mul(lib.parse(current), Finite(-1.0)));
    }

    /** Divides the displayed number by 100. */
    method Percent()
      requires Valid()
      modifies this
      ensures Valid()
      ensures current == lib.show(lib.div(lib.parse(old(current)), Finite(100.0)))
      ensures previous == old(previous) && operator == old(operator) && waitingForNew == old(waitingForNew)
      ensures memory == old(memory) && history == old(history)
    {
      current := lib.show(lib.div(lib.parse(current), Finite(100.0)));
    }

    /**
      Selects the next operator.  When an operator is pending and a second
      operand has been typed, that computation runs first.
     */
    method HandleOperator(next: Op)
      requires Valid()
      modifies this
      ensures Valid()
      ensures operator == Some(next) && previous == Some(current) && waitingForNew
      ensures old(operator).None? || old(waitingForNew) ==>
        current == old(current) && history == old(history)
      ensures old(operator).Some? && !old(waitingForNew) ==>
        var o := Evaluate(lib, old(operator).value, lib.parse(old(previous).value), lib.parse(old(current)));
        && current == ResultText(lib, o)
        && history == Logged(old(history), o, BinaryLhs(old(previous).value, old(operator).value, old(current)), current)
      ensures memory == old(memory)
    {
      if operator.Some? && !waitingForNew {
        Compute();
      }
      previous := Some(current);
      operator := Some(next);
      waitingForNew := true;
    }

    /**
      Completes the pending computation: a no-op without one, otherwise the
      result (or "Error") is displayed, the pending pair is cleared, and a
      successful computation is logged.
     */
    method Compute()
      requires Valid()
      modifies this
      ensures Valid()
      ensures old(operator).None? || old(previous).None? ==>
        && current == old(current) && previous == old(previous) && operator == old(operator)
        && waitingForNew == old(waitingForNew) && history == old(history)
      ensures old(operator).Some? && old(previous).Some? ==>
        var o := Evaluate(lib, old(operator).value, lib.parse(old(previous).value), lib.parse(old(current)));
        && current == ResultText(lib, o)
        && previous == None && operator == None && waitingForNew
        && history == Logged(old(history), o, BinaryLhs(old(previous).value, old(operator).value, old(current)), current)
      ensures memory == old(memory)
    {
      if operator.None? || previous.None? {
        return;
      }
      var op, prev := operator.value, previous.value;
      var outcome := Evaluate(lib, op, lib.parse(prev), lib.parse(current));
      var lhs := BinaryLhs(prev, op, current);
      current := ResultText(lib, outcome);
      operator := None;
      previous := None;
      waitingForNew := true;
      LogOutcome(outcome, lhs);
    }

    /** Removes the last typed character; does nothing while a fresh entry is awaited. */
    method Backspace()
      requires Valid()
      modifies this
      ensures Valid()
      ensures old(waitingForNew) ==> current == old(current)
      ensures !old(waitingForNew) ==> current == Backspaced(old(current))
      ensures previous == old(previous) && operator == old(operator) && waitingForNew == old(waitingForNew)
      ensures memory == old(memory) && history == old(history)
    {
      if waitingForNew {
        return;
      }
      BackspacedKeepsDisplay(current);
      current := Backspaced(current);
    }

    method MemoryClear()
      requires Valid()
      modifies this
      ensures Valid() && memory == Finite(0.0)
      ensures current == old(current) && previous == old(previous) && operator == old(operator)
      ensures waitingForNew == old(waitingForNew) && history == old(history)
    {
      memory := Finite(0.0);
    }

    /** Displays the memory register as a new operand that typing extends. */
    method MemoryRecall()
      requires Valid()
      modifies this
      ensures Valid()
      ensures current == lib.show(memory) && !waitingForNew
      ensures previous == old(previous) && operator == old(operator)
      ensures memory == old(memory) && history == old(history)
    {
      current := lib.show(memory);
      waitingForNew := false;
    }

    /** The number `parseFloat(current || 0)` that the memory keys accumulate. */
    function MemoryOperand(): (r: Float)
      reads this
    {
      lib.parse(if current == "" then "0" else current)
    }

    method MemoryAdd()
      requires Valid()
      modifies this
      ensures Valid() && memory == lib.add(old(memory), old(MemoryOperand()))
      ensures current == old(current) && previous == old(previous) && operator == old(operator)
      ensures waitingForNew == old(waitingForNew) && history == old(history)
    {
      memory := lib.add(memory, MemoryOperand());
    }

    method MemorySubtract()
      requires Valid()
      modifies this
      ensures Valid() && memory == lib.sub(old(memory), old(MemoryOperand()))
      ensures current == old(current) && previous == old(previous) && operator == old(operator)
      ensures waitingForNew == old(waitingForNew) && history == old(history)
    {
      memory := lib.sub(memory, MemoryOperand());
    }

    /**
      Applies a unary function to the displayed number.  The pending
      operator, if any, stays pending.
     */
    method ApplyUnary(u: Unary)
      requires Valid()
      modifies this
      ensures Valid() && waitingForNew
      ensures
        var x := lib.parse(old(current));
        var o := UnaryOutcome(lib, u, x);
        && current == ResultText(lib, o)
        && history == Logged(old(history), o, UnaryLhs(lib, u, x), current)
      ensures previous == old(previous) && operator == old(operator) && memory == old(memory)
    {
      var x := lib.parse(current);
      var outcome := UnaryOutcome(lib, u, x);
      var lhs := UnaryLhs(lib, u, x);
      current := ResultText(lib, outcome);
      waitingForNew := true;
      LogOutcome(outcome, lhs);
    }

    /** Logs "lhs = current" unless the computation hit a guarded error. */
    method LogOutcome(outcome: Outcome, lhs: string)
      requires Valid() && '=' !in lhs
      modifies this
      ensures Valid() && history == Logged(old(history), outcome, lhs, current)
      ensures current == old(current) && previous == old(previous) && operator == old(operator)
      ensures waitingForNew == old(waitingForNew) && memory == old(memory)
    {
      if outcome.Value? {
        RecallSummary(lhs, current);
        AddHistory(Summary(lhs, current));
      }
    }

    /** Puts an entry in front of the log and evicts entries beyond the cap. */
    method AddHistory(entry: string)
      requires Valid() && Recalls(entry)
      modifies this
      ensures Valid() && history == Pushed(old(history), entry)
      ensures current == old(current) && previous == old(previous) && operator == old(operator)
      ensures waitingForNew == old(waitingForNew) && memory == old(memory)
    {
      history := [entry] + history;
      ghost var grown := history;
      while |history| > MaxEntries
        invariant |history| <= |grown| && history == grown[..|history|]
        invariant |history| >= MaxEntries || history == grown
        invariant current == old(current) && previous == old(previous) && operator == old(operator)
        invariant waitingForNew == old(waitingForNew) && memory == old(memory)
      {
        history := history[..|history| - 1];
      }
      PushedRecalls(old(history), entry);
    }

    method ClearHistory()
      requires Valid()
      modifies this
      ensures Valid() && history == []
      ensures current == old(current) && previous == old(previous) && operator == old(operator)
      ensures waitingForNew == old(waitingForNew) && memory == old(memory)
    {
      history := [];
    }

    /**
      Clicking the i-th history entry: the text after its `=` becomes the
      operand being typed.
     */
    method RecallHistory(i: nat)
      requires Valid() && i < |history|
      modifies this
      ensures Valid()
      ensures current == RecallParse(old(history)[i]).value && !waitingForNew
      ensures previous == old(previous) && operator == old(operator)
      ensures memory == old(memory) && history == old(history)
    {
      var m := RecallParse(history[i]);
      if m.Some? {
        current := m.value;
        waitingForNew := false;
      }
    }
  }
}
