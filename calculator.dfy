/**
  The `Calculator` class as the program has it: the intent handlers reassign the instance
  fields one after another, `calculate` and `advanced_operation` append to the history in
  place, and `set_operator` calls `calculate` before its own updates. Each handler is
  proved to leave the object in the state the matching function of `Machine` computes.
  The display and the status label are fields holding the text last written to them.
*/
module CalculatorApp {
  import opened Wrappers
  import opened Numerals
  import opened Machine

  class Calculator {
    const num: Numerics
    var current: string
    var previous: Option<real>
    var operator: Option<Op>
    var history: seq<string>
    var display: string
    var status: string

    /** The object's fields as a `Machine.State`. */
    function Snapshot(): State
      reads this
    {
      State(current, previous, operator, history, display, status)
    }

    constructor (num: Numerics)
      ensures this.num == num
      ensures Snapshot() == Initial
    {
      this.num := num;
      current := "";
      operator := None;
      previous := None;
      history := [];
      display := "";
      status := "";
    }

    method UpdateDisplay()
      modifies this`display
      ensures display == Render(current)
    {
      display := if current != "" then current else "0";
    }

    method AppendNumber(number: string)
      modifies this
      ensures Snapshot() == Machine.AppendNumber(old(Snapshot()), number)
    {
      if number == "." && '.' in current {
        return;
      }
      current := current + number;
      UpdateDisplay();
    }

    method SetOperator(op: Op) returns (alert: Option<Error>, raised: bool)
      modifies this
      ensures Outcome(Snapshot(), alert, raised) == Machine.SetOperator(num, old(Snapshot()), op)
    {
      alert, raised := None, false;
      if current != "" {
        if previous.Some? && operator.Some? {
          alert := Calculate();
        }
        var parsed := num.parse(current);
        if parsed.None? {
          raised := true;
          return;
        }
        previous := parsed;
        operator := Some(op);
        status := current + " " + Symbol(op);
        current := "";
      }
    }

    method Calculate() returns (alert: Option<Error>)
      modifies this
      ensures Outcome(Snapshot(), alert, false) == Machine.Calculate(num, old(Snapshot()))
    {
      alert := None;
      if current != "" && previous.Some? && operator.Some? {
        var parsed := num.parse(current);
        if parsed.None? {
          alert := Some(ParseFailure);
          Clear();
          return;
        }
        var y := parsed.value;
        if operator.value == Div && y == 0.0 {
          alert := Some(DivisionByZero);
          Clear();
          return;
        }
        var result := Apply(operator.value, previous.value, y);
        var entry := BinaryEntry(num, previous.value, operator.value, y, result);
        history := history + [entry];
        current := num.show(result);
        UpdateDisplay();
        status := entry;
        previous := None;
        operator := None;
      }
    }

    method AdvancedOperation(operation: string) returns (alert: Option<Error>)
      modifies this
      ensures Outcome(Snapshot(), alert, false) == Machine.AdvancedOperation(num, old(Snapshot()), operation)
    {
      alert := None;
      if current != "" {
        var parsed := num.parse(current);
        if parsed.None? {
          alert := Some(ParseFailure);
          Clear();
          return;
        }
        var x := parsed.value;
        if operation != "sqrt" {
          alert := Some(UnknownOperation);
          Clear();
          return;
        }
        if x < 0.0 {
          alert := Some(NegativeSqrt);
          Clear();
          return;
        }
        var result := num.sqrt(x);
        history := history + [SqrtEntry(num, x, result)];
        current := num.show(result);
        UpdateDisplay();
        status := history[|history| - 1];
      }
    }

    method ToggleSign()
      modifies this
      ensures Snapshot() == Machine.ToggleSign(old(Snapshot()))
    {
      if current != "" && current != "0" {
        if current[0] == '-' {
          current := current[1..];
        } else {
          current := "-" + current;
        }
        UpdateDisplay();
      }
    }

    method Backspace()
      modifies this
      ensures Snapshot() == Machine.Backspace(old(Snapshot()))
    {
      if current != "" {
        current := current[..|current| - 1];
        UpdateDisplay();
      }
    }

    method Clear()
      modifies this
      ensures Snapshot() == Machine.Clear(old(Snapshot()))
    {
      current := "";
      previous := None;
      operator := None;
      UpdateDisplay();
      status := "";
    }

    /** Reads the history and changes nothing. */
    method ShowHistory() returns (p: Popup)
      ensures p == Machine.ShowHistory(Snapshot())
      ensures history == [] <==> p.title == "History"
    {
      if history == [] {
        return Popup("History", "No calculations in history");
      }
      p := Popup("Calculation History", JoinLines(Recent(history)));
    }
  }
}
