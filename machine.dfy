/**
  The calculator's accumulator state machine as pure functions: one function per intent
  handler of the `Calculator` class, each mapping the state before the handler to the
  state after it (and, for the handlers that can fail, the error it reports).

  The state holds the four fields of the class (`current`, `previous`, `operator`,
  `history`) and the text of the two widgets the handlers write: the main display and
  the status label above the buttons.
*/
module Machine {
  import opened Wrappers
  import opened Numerals

  datatype Op = Add | Sub | Mul | Div

  function Symbol(op: Op): (sym: string)
    ensures |sym| == 1
  {
    match op
    case Add => "+"
    case Sub => "-"
    case Mul => "*"
    case Div => "/"
  }

  /** The four binary operations; division is only applied to a non-zero divisor. */
  function Apply(op: Op, x: real, y: real): real
    requires op == Div ==> y != 0.0
  {
    match op
    case Add => x + y
    case Sub => x - y
    case Mul => x * y
    case Div => x / y
  }

  /** What the error dialog reports. */
  datatype Error =
    | DivisionByZero    // ZeroDivisionError raised in `calculate`
    | NegativeSqrt      // ValueError raised in `advanced_operation('sqrt')`
    | ParseFailure      // ValueError from `float()` on the entry buffer
    | UnknownOperation  // `advanced_operation` with anything but 'sqrt' leaves `result` unbound

  datatype State = State(
    current: string,          // the entry buffer
    previous: Option<real>,   // the pending left operand
    operator: Option<Op>,     // the pending operator
    history: seq<string>,     // every completed calculation, oldest first
    display: string,          // text of the main display
    status: string)           // text of the label above the buttons

  /**
    What a handler leaves behind: the new state, the error dialog it showed (if any), and
    whether an exception escaped the handler (`set_operator` calls `float()` outside any `try`).
  */
  datatype Outcome = Outcome(state: State, alert: Option<Error>, raised: bool)

  /** The state right after construction: both widgets start out empty. */
  const Initial: State := State("", None, None, [], "", "")

  /** The display rule: the buffer, or "0" when it is empty. */
  function Render(current: string): (text: string)
    ensures text != ""
    ensures current != "" ==> text == current
    ensures current == "" ==> text == "0"
  {
    if current == "" then "0" else current
  }

  /** The pending operand and the pending operator are set and cleared together. */
  predicate Paired(s: State) {
    s.previous.None? <==> s.operator.None?
  }

  /** `h2` is `h` with zero or more entries appended. */
  predicate Extends(h: seq<string>, h2: seq<string>) {
    |h| <= |h2| && h2[..|h|] == h
  }

  /** Everything except the history is reset. */
  function Clear(s: State): (r: State)
    ensures r.current == "" && r.previous == None && r.operator == None
    ensures r.history == s.history
    ensures r.display == "0" && r.status == ""
  {
    s.(current := "", previous := None, operator := None, display := "0", status := "")
  }

  /** The same state with the buffer replaced and the display redrawn. */
  function WithBuffer(s: State, buffer: string): (r: State)
    ensures r.current == buffer && r.display == Render(buffer)
    ensures r.previous == s.previous && r.operator == s.operator
    ensures r.history == s.history && r.status == s.status
  {
    s.(current := buffer, display := Render(buffer))
  }

  /** A digit or point key: a second point is ignored, anything else is appended verbatim. */
  function AppendNumber(s: State, number: string): (r: State)
    ensures number == "." && '.' in s.current ==> r == s
    ensures !(number == "." && '.' in s.current) ==> r == WithBuffer(s, s.current + number)
    ensures Paired(s) ==> Paired(r)
  {
    if number == "." && '.' in s.current then s
    else WithBuffer(s, s.current + number)
  }

  /** The sign key: no effect on "" or "0"; otherwise strip a leading minus or add one. */
  function ToggleSign(s: State): (r: State)
    ensures s.current == "" || s.current == "0" ==> r == s
    ensures s.current != "" && s.current != "0" ==>
      && r == WithBuffer(s, r.current)
      && (s.current[0] == '-' ==> [s.current[0]] + r.current == s.current)
      && (s.current[0] != '-' ==> r.current == ['-'] + s.current)
    ensures Paired(s) ==> Paired(r)
  {
    if s.current != "" && s.current != "0" then
      if s.current[0] == '-' then WithBuffer(s, s.current[1..])
      else WithBuffer(s, "-" + s.current)
    else s
  }

  /** The backspace key: drop the last character of a non-empty buffer. */
  function Backspace(s: State): (r: State)
    ensures s.current == "" ==> r == s
    ensures s.current != "" ==>
      && r == WithBuffer(s, r.current)
      && |r.current| == |s.current| - 1
      && r.current + [s.current[|s.current| - 1]] == s.current
    ensures Paired(s) ==> Paired(r)
  {
    if s.current != "" then WithBuffer(s, s.current[..|s.current| - 1])
    else s
  }

  /** The history line of a binary calculation: "<left> <op> <right> = <result>". */
  function BinaryEntry(num: Numerics, x: real, op: Op, y: real, result: real): string {
    num.show(x) + " " + Symbol(op) + " " + num.show(y) + " = " + num.show(result)
  }

  /** The history line of a square root: "√<operand> = <result>". */
  function SqrtEntry(num: Numerics, x: real, result: real): string {
    "\U{221A}" + num.show(x) + " = " + num.show(result)
  }

  /** The state after a completed operation: one entry logged, the result in the buffer. */
  function Completed(s: State, num: Numerics, result: real, entry: string): (r: State)
    ensures r.history == s.history + [entry] && r.status == entry
    ensures r.current == num.show(result) && r.display == Render(r.current)
    ensures r.previous == s.previous && r.operator == s.operator
  {
    var text := num.show(result);
    s.(history := s.history + [entry], current := text, display := Render(text), status := entry)
  }

  /** An error: the dialog shows it and the handler clears. */
  function Failed(s: State, e: Error): (o: Outcome)
    ensures o.state == Clear(s) && o.alert == Some(e) && !o.raised
  {
    Outcome(Clear(s), Some(e), false)
  }

  /** `=` has an effect only with a non-empty buffer and a pending operand and operator. */
  predicate Ready(s: State) {
    s.current != "" && s.previous.Some? && s.operator.Some?
  }

  /** The `=` key: apply the pending operator to the pending operand and the buffer. */
  function Calculate(num: Numerics, s: State): (o: Outcome)
    ensures !o.raised
    ensures !Ready(s) ==> o == Outcome(s, None, false)
    ensures o.alert.Some? ==> o.state == Clear(s)
    ensures o.alert == Some(ParseFailure) <==> Ready(s) && num.parse(s.current).None?
    ensures o.alert == Some(DivisionByZero) <==>
      Ready(s) && s.operator == Some(Div) && num.parse(s.current) == Some(0.0)
    ensures o.alert != Some(NegativeSqrt) && o.alert != Some(UnknownOperation)
    ensures Ready(s) && o.alert.None? ==>
      && num.parse(s.current).Some?
      && var y := num.parse(s.current).value;
      && (s.operator.value == Div ==> y != 0.0)
      && var result := Apply(s.operator.value, s.previous.value, y);
      && o.state.history == s.history + [BinaryEntry(num, s.previous.value, s.operator.value, y, result)]
      && o.state.current == num.show(result)
      && o.state.display == Render(o.state.current)
      && o.state.status == BinaryEntry(num, s.previous.value, s.operator.value, y, result)
      && o.state.previous == None && o.state.operator == None
    ensures Extends(s.history, o.state.history) && |o.state.history| <= |s.history| + 1
    ensures Paired(s) ==> Paired(o.state)
  {
    if !Ready(s) then Outcome(s, None, false)
    else
      match num.parse(s.current)
      case None => Failed(s, ParseFailure)
      case Some(y) =>
        var x, op := s.previous.value, s.operator.value;
        if op == Div && y == 0.0 then Failed(s, DivisionByZero)
        else
          var result := Apply(op, x, y);
          var entry := BinaryEntry(num, x, op, y, result);
          Outcome(Completed(s, num, result, entry).(previous := None, operator := None), None, false)
  }

  /** The second half of an operator key: parse the buffer into the pending operand. */
  function StoreOperand(num: Numerics, t: State, op: Op, alert: Option<Error>): (o: Outcome)
    ensures o.alert == alert
    ensures o.raised <==> num.parse(t.current).None?
    ensures o.raised ==> o.state == t
    ensures !o.raised ==>
      && o.state.previous == num.parse(t.current) && o.state.operator == Some(op)
      && o.state.current == "" && o.state.status == t.current + " " + Symbol(op)
      && o.state.history == t.history && o.state.display == t.display
  {
    match num.parse(t.current)
    case None => Outcome(t, alert, true)
    case Some(v) =>
      Outcome(t.(previous := Some(v), operator := Some(op), current := "",
                 status := t.current + " " + Symbol(op)), alert, false)
  }

  /**
    An operator key: fold a pending pair first, then store the parsed buffer and the
    operator. The `float()` call stands outside any `try`, so a buffer it rejects makes the
    handler raise and leaves the state as it stood at that point.
  */
  function SetOperator(num: Numerics, s: State, op: Op): (o: Outcome)
    ensures s.current == "" ==> o == Outcome(s, None, false)
    ensures s.current != "" && !(s.previous.Some? && s.operator.Some?) ==>
      o == StoreOperand(num, s, op, None)
    ensures s.current != "" && s.previous.Some? && s.operator.Some? ==>
      var c := Calculate(num, s);
      o == StoreOperand(num, c.state, op, c.alert)
    ensures Paired(s) ==> Paired(o.state)
    ensures Extends(s.history, o.state.history) && |o.state.history| <= |s.history| + 1
  {
    if s.current == "" then Outcome(s, None, false)
    else if s.previous.Some? && s.operator.Some? then
      var c := Calculate(num, s);
      StoreOperand(num, c.state, op, c.alert)
    else StoreOperand(num, s, op, None)
  }

  /**
    The advanced-operation key. Only "sqrt" is implemented: a negative operand is an error,
    and any other operation name leaves the result unbound, which the handler's `except`
    reports as an error too.
  */
  function AdvancedOperation(num: Numerics, s: State, operation: string): (o: Outcome)
    ensures !o.raised
    ensures s.current == "" ==> o == Outcome(s, None, false)
    ensures o.alert.Some? ==> o.state == Clear(s)
    ensures s.current != "" && o.alert.None? ==>
      && operation == "sqrt"
      && num.parse(s.current).Some? && 0.0 <= num.parse(s.current).value
      && var x := num.parse(s.current).value;
      && o.state.history == s.history + [SqrtEntry(num, x, num.sqrt(x))]
      && o.state.current == num.show(num.sqrt(x))
      && o.state.display == Render(o.state.current)
      && o.state.status == SqrtEntry(num, x, num.sqrt(x))
      && o.state.previous == s.previous && o.state.operator == s.operator
    ensures o.alert == Some(NegativeSqrt) <==>
      s.current != "" && operation == "sqrt" && num.parse(s.current).Some? && num.parse(s.current).value < 0.0
    ensures o.alert == Some(ParseFailure) <==> s.current != "" && num.parse(s.current).None?
    ensures o.alert == Some(UnknownOperation) <==>
      s.current != "" && num.parse(s.current).Some? && operation != "sqrt"
    ensures (s.current != "" && operation == "sqrt" && num.parse(s.current).Some? &&
             0.0 <= num.parse(s.current).value) ==> o.alert.None?
    ensures o.alert != Some(DivisionByZero)
    ensures Paired(s) ==> Paired(o.state)
    ensures Extends(s.history, o.state.history) && |o.state.history| <= |s.history| + 1
  {
    if s.current == "" then Outcome(s, None, false)
    else
      match num.parse(s.current)
      case None => Failed(s, ParseFailure)
      case Some(x) =>
        if operation != "sqrt" then Failed(s, UnknownOperation)
        else if x < 0.0 then Failed(s, NegativeSqrt)
        else
          var result := num.sqrt(x);
          Outcome(Completed(s, num, result, SqrtEntry(num, x, result)), None, false)
  }

  /** The history popup: a title and a text. */
  datatype Popup = Popup(title: string, text: string)

  const HistoryLimit: nat := 10

  /** Python's `history[-10:]`. */
  function Recent(h: seq<string>): (r: seq<string>)
    ensures |r| == if |h| < HistoryLimit then |h| else HistoryLimit
    ensures forall i | 0 <= i < |r| :: r[i] == h[|h| - |r| + i]
  {
    if |h| <= HistoryLimit then h else h[|h| - HistoryLimit..]
  }

  /** Python's `"\n".join(lines)`. */
  function JoinLines(lines: seq<string>): string {
    if lines == [] then ""
    else if |lines| == 1 then lines[0]
    else lines[0] + "\n" + JoinLines(lines[1..])
  }

  /** The history popup: a notice when nothing was calculated, else the recent entries. */
  function ShowHistory(s: State): (p: Popup)
    ensures s.history == [] <==> p == Popup("History", "No calculations in history")
    ensures s.history != [] ==> p == Popup("Calculation History", JoinLines(Recent(s.history)))
  {
    if s.history == [] then Popup("History", "No calculations in history")
    else Popup("Calculation History", JoinLines(Recent(s.history)))
  }
}
