/**
  Properties of the state machine that relate several handlers, or a handler and the
  numeric layer: what the entry keys keep true of the buffer, which key undoes which,
  the uncaught `float()` error in the operator keys, and what the history popup shows.
*/
module MachineProperties {
  import opened Wrappers
  import opened Numerals
  import opened Machine

  // ---------------------------------------------------------------- entry keys

  /** Appending one character never lets a second decimal point in. */
  lemma AppendKeepsOnePoint(s: State, number: string)
    requires |number| == 1
    requires CountChar(s.current, '.') <= 1
    ensures CountChar(AppendNumber(s, number).current, '.') <= 1
    ensures number == "." ==> CountChar(AppendNumber(s, number).current, '.') == 1
  {
    var r := AppendNumber(s, number);
    if r != s {
      CountCharAppend(s.current, number, '.');
      assert CountChar(number, '.') == (if number[0] == '.' then 1 else 0);
    }
  }

  /** The number keys keep the buffer in the keypad's shape. */
  lemma AppendKeepsKeypadShape(s: State, number: string)
    requires KeypadShaped(s.current) && IsKeyToken(number)
    ensures KeypadShaped(AppendNumber(s, number).current)
  {
    var c := AppendNumber(s, number).current;
    if c != s.current {
      var m := Magnitude(s.current);
      assert c == s.current + number;
      assert Magnitude(c) == m + number by {
        if |s.current| > 0 && s.current[0] == '-' {
          assert c[1..] == s.current[1..] + number;
        } else {
          assert number[0] != '-';
        }
      }
      CountCharAppend(m, number, '.');
      assert CountChar(number, '.') == (if number[0] == '.' then 1 else 0);
      assert number == "." ==> '.' !in s.current;
      assert number == "." ==> '.' !in m;
      forall i | 0 <= i < |Magnitude(c)| ensures IsDigit(Magnitude(c)[i]) || Magnitude(c)[i] == '.' {
        if i < |m| { assert Magnitude(c)[i] == m[i]; } else { assert Magnitude(c)[i] == number[0]; }
      }
    }
  }

  /** The sign key keeps the buffer in the keypad's shape. */
  lemma ToggleKeepsKeypadShape(s: State)
    requires KeypadShaped(s.current)
    ensures KeypadShaped(ToggleSign(s).current)
  {
    var c := ToggleSign(s).current;
    if s.current != "" && s.current != "0" {
      if s.current[0] == '-' {
        var m := s.current[1..];
        assert m == Magnitude(s.current);
        assert |m| > 0 ==> m[0] != '-' by { if |m| > 0 { assert IsDigit(m[0]) || m[0] == '.'; } }
        assert Magnitude(c) == m;
      } else {
        assert c == "-" + s.current;
        assert Magnitude(c) == s.current;
      }
    }
  }

  /** The backspace key keeps the buffer in the keypad's shape. */
  lemma BackspaceKeepsKeypadShape(s: State)
    requires KeypadShaped(s.current)
    ensures KeypadShaped(Backspace(s).current)
  {
    var c := Backspace(s).current;
    if s.current != "" {
      var m := Magnitude(s.current);
      if |s.current| > 0 && s.current[0] == '-' {
        if |c| > 0 {
          assert Magnitude(c) == m[..|m| - 1];
        } else {
          assert Magnitude(c) == [];
        }
      } else {
        assert |c| > 0 ==> c[0] == s.current[0];
        assert Magnitude(c) == m[..|m| - 1];
      }
      CountCharPrefix(m, |Magnitude(c)|, '.');
      assert Magnitude(c) == m[..|Magnitude(c)|];
    }
  }

  /** Toggling twice restores a buffer without a leading minus. */
  lemma ToggleTwice(s: State)
    requires s.current != "" && s.current != "0" && s.current[0] != '-'
    ensures ToggleSign(ToggleSign(s)) == WithBuffer(s, s.current)
  {
    var t := ToggleSign(s);
    assert t.current == "-" + s.current;
    assert t.current[1..] == s.current;
  }

  /**
    Toggling twice restores a buffer with a leading minus exactly when what follows the
    minus is neither empty nor "0": "-0" toggles to "0", on which the key does nothing.
  */
  lemma ToggleTwiceNegative(s: State)
    requires KeypadShaped(s.current) && s.current != "" && s.current[0] == '-'
    ensures ToggleSign(ToggleSign(s)).current == s.current <==> s.current[1..] != "" && s.current[1..] != "0"
  {
    var t := ToggleSign(s);
    assert t.current == s.current[1..];
    if t.current != "" && t.current != "0" {
      assert t.current[0] == Magnitude(s.current)[0];
      assert ToggleSign(t).current == "-" + t.current;
      assert "-" + s.current[1..] == s.current;
    } else {
      assert ToggleSign(t).current == t.current;
      assert |t.current| < |s.current|;
    }
  }

  /** Backspace undoes a one-character append that took effect. */
  lemma BackspaceUndoesAppend(s: State, number: string)
    requires |number| == 1 && !(number == "." && '.' in s.current)
    ensures Backspace(AppendNumber(s, number)) == WithBuffer(s, s.current)
  {
    var a := AppendNumber(s, number);
    assert a.current[..|a.current| - 1] == s.current;
  }

  // ---------------------------------------------------------------- operator keys

  /**
    The buffers the keys can build but `float()` rejects: "." (the point key alone), "-."
    (then the sign key) and "-" (a digit, the sign key, backspace). An operator key with
    nothing pending raises on them, and changes nothing.
  */
  lemma OperatorOnBareBufferRaises(num: Numerics, s: State, op: Op)
    requires KeypadParse(num)
    requires s.current == "." || s.current == "-" || s.current == "-."
    requires !(s.previous.Some? && s.operator.Some?)
    ensures SetOperator(num, s, op) == Outcome(s, None, true)
  {
    BareBuffersRejected();
    assert KeypadShaped(s.current) by {
      assert CountChar(Magnitude(s.current), '.') <= |Magnitude(s.current)| <= 1;
    }
  }

  /**
    On a keypad buffer with nothing pending, an operator key raises exactly when the
    buffer holds no digit; otherwise it stores the buffer's decimal value.
  */
  lemma OperatorRaisesIffNoDigit(num: Numerics, s: State, op: Op)
    requires KeypadParse(num) && KeypadShaped(s.current) && s.current != ""
    requires !(s.previous.Some? && s.operator.Some?)
    ensures SetOperator(num, s, op).raised <==> NoDigit(s.current)
    ensures !NoDigit(s.current) ==> SetOperator(num, s, op).state.previous == Decimal(s.current)
  {
  }

  /**
    An operator key after "x / 0": the folded division fails and clears, and then
    `float("")` raises. The error dialog is shown and the history is kept.
  */
  lemma ChainedDivisionByZeroRaises(num: Numerics, s: State, op: Op)
    requires KeypadParse(num)
    requires Ready(s) && s.operator == Some(Div) && num.parse(s.current) == Some(0.0)
    ensures SetOperator(num, s, op) == Outcome(Clear(s), Some(DivisionByZero), true)
  {
    EmptyRejected(num);
  }

  /** `float("")` fails, so a formatted number that reads back is never empty. */
  lemma EmptyRejected(num: Numerics)
    requires KeypadParse(num)
    ensures num.parse("") == None
  {
    assert KeypadShaped("");
  }

  /** The value a successful `=` computes from a ready state. */
  function Folded(num: Numerics, s: State): real
    requires Ready(s) && Calculate(num, s).alert.None?
  {
    Apply(s.operator.value, s.previous.value, num.parse(s.current).value)
  }

  /**
    An operator key with a pair pending folds it left to right: the result of the pending
    calculation becomes the new left operand, and exactly one entry is logged. It relies
    on `float(str(result))` giving the result back.
  */
  lemma ChainingFolds(num: Numerics, s: State, op: Op)
    requires Ready(s) && Calculate(num, s).alert.None?
    requires ShowReadsBack(num, Folded(num, s))
    ensures var o := SetOperator(num, s, op);
      && !o.raised && o.alert.None?
      && o.state.previous == Some(Folded(num, s))
      && o.state.operator == Some(op) && o.state.current == ""
      && |o.state.history| == |s.history| + 1
  {
  }

  /**
    After `=`, an operator key takes the result left in the buffer as the new left operand
    ("2 + 3 = *" continues from 5), and logs nothing more.
  */
  lemma ResultFeedsNextOperator(num: Numerics, s: State, op: Op)
    requires KeypadParse(num)
    requires Ready(s) && Calculate(num, s).alert.None?
    requires ShowReadsBack(num, Folded(num, s))
    ensures var t := Calculate(num, s).state;
      var o := SetOperator(num, t, op);
      && !o.raised && o.alert.None?
      && o.state.previous == Some(Folded(num, s)) && o.state.operator == Some(op)
      && o.state.history == t.history && o.state.current == ""
  {
    var t := Calculate(num, s).state;
    assert t.current == num.show(Folded(num, s));
    EmptyRejected(num);
  }

  /**
    After `√`, an operator key takes the root left in the buffer as the new left operand:
    a non-negative number whose square is the operand.
  */
  lemma SqrtFeedsNextOperator(num: Numerics, s: State, op: Op)
    requires KeypadParse(num) && SqrtLaw(num)
    requires s.current != "" && AdvancedOperation(num, s, "sqrt").alert.None?
    requires ShowReadsBack(num, num.sqrt(num.parse(s.current).value))
    requires !(s.previous.Some? && s.operator.Some?)
    ensures var x := num.parse(s.current).value;
      var o := SetOperator(num, AdvancedOperation(num, s, "sqrt").state, op);
      && !o.raised && o.state.previous.Some?
      && 0.0 <= o.state.previous.value && o.state.previous.value * o.state.previous.value == x
  {
    var x := num.parse(s.current).value;
    var t := AdvancedOperation(num, s, "sqrt").state;
    assert t.current == num.show(num.sqrt(x)) && t.previous == s.previous && t.operator == s.operator;
    EmptyRejected(num);
  }

  // ---------------------------------------------------------------- history popup

  predicate NoNewline(line: string) {
    '\n' !in line
  }

  /** Python's `text.split("\n")`: the pieces between newlines. */
  function SplitLines(text: string): (lines: seq<string>)
    ensures |lines| >= 1
    decreases |text|
  {
    if text == [] then [""]
    else if text[0] == '\n' then [""] + SplitLines(text[1..])
    else
      var rest := SplitLines(text[1..]);
      [[text[0]] + rest[0]] + rest[1..]
  }

  lemma {:induction false} SplitSingle(line: string)
    requires NoNewline(line)
    ensures SplitLines(line) == [line]
  {
    if line != [] {
      SplitSingle(line[1..]);
      assert [line[0]] + line[1..] == line;
    }
  }

  lemma {:induction false} SplitAfterLine(line: string, rest: string)
    requires NoNewline(line)
    ensures SplitLines(line + "\n" + rest) == [line] + SplitLines(rest)
  {
    if line == [] {
      assert line + "\n" + rest == "\n" + rest;
      assert ("\n" + rest)[1..] == rest;
    } else {
      var t := line + "\n" + rest;
      assert t[0] == line[0] && t[1..] == line[1..] + "\n" + rest;
      SplitAfterLine(line[1..], rest);
      assert [line[0]] + line[1..] == line;
    }
  }

  /** Splitting the joined popup text at newlines gives back the lines. */
  lemma {:induction false} SplitJoin(lines: seq<string>)
    requires lines != []
    requires forall i | 0 <= i < |lines| :: NoNewline(lines[i])
    ensures SplitLines(JoinLines(lines)) == lines
  {
    if |lines| == 1 {
      SplitSingle(lines[0]);
    } else {
      SplitAfterLine(lines[0], JoinLines(lines[1..]));
      SplitJoin(lines[1..]);
    }
  }

  /**
    With entries free of newlines, the popup lists exactly the last ten entries (all of
    them when there are fewer), oldest first.
  */
  lemma HistoryPopupLists(s: State)
    requires s.history != []
    requires forall i | 0 <= i < |s.history| :: NoNewline(s.history[i])
    ensures var p := ShowHistory(s);
      var n := if |s.history| < 10 then |s.history| else 10;
      && p.title == "Calculation History"
      && SplitLines(p.text) == s.history[|s.history| - n..]
  {
    var r := Recent(s.history);
    var n := if |s.history| < 10 then |s.history| else 10;
    assert r == s.history[|s.history| - n..];
    forall i | 0 <= i < |r| ensures NoNewline(r[i]) { assert r[i] == s.history[|s.history| - n + i]; }
    SplitJoin(r);
  }
}
