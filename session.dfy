/**
  A session: the sequence of intents handled one after another. All but `History` are
  delivered by the buttons and keys; no button or key calls `show_history`, so `History`
  stands for a call made by other code. An exception escaping a handler does not end the session (the event loop
  reports it and goes on), so a run simply continues from the state the handler left.
*/
module Session {
  import opened Wrappers
  import opened Numerals
  import opened Machine
  import opened MachineProperties

  datatype Intent =
    | Number(token: string)        // a digit key or the point key
    | Operator(op: Op)             // + - * /
    | Equals                       // = or Return
    | Advanced(operation: string)  // the square-root key sends "sqrt"
    | Sign                         // ±
    | Back                         // ⌫ or BackSpace
    | ClearKey                     // C or Escape
    | History                      // `show_history`: bound to no button or key

  function Step(num: Numerics, s: State, i: Intent): (o: Outcome)
    ensures Paired(s) ==> Paired(o.state)
    ensures Extends(s.history, o.state.history) && |o.state.history| <= |s.history| + 1
  {
    match i
    case Number(t) => Outcome(AppendNumber(s, t), None, false)
    case Operator(op) => SetOperator(num, s, op)
    case Equals => Calculate(num, s)
    case Advanced(operation) => AdvancedOperation(num, s, operation)
    case Sign => Outcome(ToggleSign(s), None, false)
    case Back => Outcome(Backspace(s), None, false)
    case ClearKey => Outcome(Clear(s), None, false)
    case History => Outcome(s, None, false)
  }

  function Run(num: Numerics, s: State, intents: seq<Intent>): State
    decreases |intents|
  {
    if intents == [] then s
    else Run(num, Step(num, s, intents[0]).state, intents[1..])
  }

  /** A session never separates the pending operand from the pending operator. */
  lemma {:induction false} RunKeepsPaired(num: Numerics, s: State, intents: seq<Intent>)
    requires Paired(s)
    ensures Paired(Run(num, s, intents))
    decreases |intents|
  {
    if intents != [] {
      RunKeepsPaired(num, Step(num, s, intents[0]).state, intents[1..]);
    }
  }

  /** The history is only ever appended to, at most one entry per intent. */
  lemma {:induction false} RunExtendsHistory(num: Numerics, s: State, intents: seq<Intent>)
    ensures Extends(s.history, Run(num, s, intents).history)
    ensures |Run(num, s, intents).history| <= |s.history| + |intents|
    decreases |intents|
  {
    if intents != [] {
      var t := Step(num, s, intents[0]).state;
      RunExtendsHistory(num, t, intents[1..]);
      var h := Run(num, s, intents).history;
      assert h[..|s.history|] == h[..|t.history|][..|s.history|];
    }
  }

  /** The intents that only edit the entry buffer (or change nothing). */
  predicate EntryIntent(i: Intent) {
    (i.Number? && IsKeyToken(i.token)) || i.Sign? || i.Back? || i.ClearKey? || i.History?
  }

  /** One editing key keeps the buffer in the keypad's shape and the history as it was. */
  lemma EditingStep(num: Numerics, s: State, i: Intent)
    requires KeypadShaped(s.current) && EntryIntent(i)
    ensures KeypadShaped(Step(num, s, i).state.current)
    ensures Step(num, s, i).state.history == s.history
  {
    match i {
      case Number(token) => AppendKeepsKeypadShape(s, token);
      case Sign => ToggleKeepsKeypadShape(s);
      case Back => BackspaceKeepsKeypadShape(s);
      case ClearKey => assert KeypadShaped("");
      case History =>
    }
  }

  /**
    Editing keys keep the buffer in the keypad's shape (so at most one point) and never
    touch the history.
  */
  lemma {:induction false} EditingKeepsKeypadShape(num: Numerics, s: State, intents: seq<Intent>)
    requires KeypadShaped(s.current)
    requires forall k | 0 <= k < |intents| :: EntryIntent(intents[k])
    ensures KeypadShaped(Run(num, s, intents).current)
    ensures Run(num, s, intents).history == s.history
    decreases |intents|
  {
    if intents != [] {
      EditingStep(num, s, intents[0]);
      EditingKeepsKeypadShape(num, Step(num, s, intents[0]).state, intents[1..]);
    }
  }

  /** After editing keys only, `float()` reads the buffer as the decimal grammar does. */
  lemma EditedBufferParsesAsDecimal(num: Numerics, s: State, intents: seq<Intent>)
    requires KeypadParse(num) && KeypadShaped(s.current)
    requires forall k | 0 <= k < |intents| :: EntryIntent(intents[k])
    ensures num.parse(Run(num, s, intents).current) == Decimal(Run(num, s, intents).current)
  {
    EditingKeepsKeypadShape(num, s, intents);
  }

  /** Handling a first intent and then the rest is handling all of them. */
  lemma RunFirst(num: Numerics, s: State, i: Intent, rest: seq<Intent>)
    ensures Run(num, s, [i] + rest) == Run(num, Step(num, s, i).state, rest)
  {
    assert ([i] + rest)[1..] == rest;
  }

  /** The number keys that type `t`, one key per character. */
  function Keys(t: string): (keys: seq<Intent>)
    ensures |keys| == |t|
    ensures forall k | 0 <= k < |t| :: keys[k] == Number([t[k]])
  {
    if t == [] then [] else [Number([t[0]])] + Keys(t[1..])
  }

  /** Typing a string without a point appends it to the buffer and redraws the display. */
  lemma {:induction false} TypingAppends(num: Numerics, s: State, t: string)
    requires t != [] && '.' !in t
    ensures Run(num, s, Keys(t)) == WithBuffer(s, s.current + t)
    decreases |t|
  {
    var s1 := AppendNumber(s, [t[0]]);
    assert s1 == WithBuffer(s, s.current + [t[0]]);
    RunFirst(num, s, Number([t[0]]), Keys(t[1..]));
    if |t| == 1 {
      assert Keys(t[1..]) == [];
      assert s.current + [t[0]] == s.current + t;
    } else {
      TypingAppends(num, s1, t[1..]);
      assert s1.current + t[1..] == s.current + t;
    }
  }

  /**
    Typing the decimal digits of `n` on a fresh calculator leaves them in the buffer and
    on the display, and `float()` reads them as `n`.
  */
  lemma TypedNumber(num: Numerics, n: nat)
    requires KeypadParse(num)
    ensures var r := Run(num, Initial, Keys(NatDigits(n)));
      && r.current == NatDigits(n) && r.display == NatDigits(n)
      && r.previous == None && r.operator == None && r.history == []
      && num.parse(r.current) == Some(n as real)
  {
    var d := NatDigits(n);
    assert '.' !in d by {
      forall k | 0 <= k < |d| ensures d[k] != '.' { assert IsDigit(d[k]); }
    }
    TypingAppends(num, Initial, d);
    assert Initial.current + d == d;
    NatDigitsDecimal(n);
  }

  // ---------------------------------------------------------------- worked sessions

  lemma DigitParses(num: Numerics, d: string, v: real)
    requires KeypadParse(num)
    requires |d| == 1 && IsDigit(d[0]) && v == (d[0] as int - '0' as int) as real
    ensures num.parse(d) == Some(v)
  {
    assert Magnitude(d) == d;
    assert CountChar(d, '.') == 0;
    assert KeypadShaped(d);
    assert d[..0] == [];
    assert DigitsValue(d) == d[0] as int - '0' as int;
  }

  /** "3 +": the operand is stored, the display still shows it. */
  lemma ThreePlus(num: Numerics)
    requires num.parse("3") == Some(3.0)
    ensures SetOperator(num, AppendNumber(Initial, "3"), Add)
      == Outcome(State("", Some(3.0), Some(Add), [], "3", "3 +"), None, false)
  {
    var s1 := AppendNumber(Initial, "3");
    assert s1 == State("3", None, None, [], "3", "");
    assert "3" + " " + Symbol(Add) == "3 +";
  }

  /** "4 +" after "3 +": 3 + 4 is folded and 7 becomes the pending operand. */
  lemma FourPlus(num: Numerics)
    requires num.parse("4") == Some(4.0) && num.parse(num.show(7.0)) == Some(7.0)
    ensures var s := State("", Some(3.0), Some(Add), [], "3", "3 +");
      var entry := BinaryEntry(num, 3.0, Add, 4.0, 7.0);
      SetOperator(num, AppendNumber(s, "4"), Add)
        == Outcome(State("", Some(7.0), Some(Add), [entry], Render(num.show(7.0)), num.show(7.0) + " +"), None, false)
  {
    var s3 := AppendNumber(State("", Some(3.0), Some(Add), [], "3", "3 +"), "4");
    assert s3.current == "4";
    var c := Calculate(num, s3);
    assert c.state == State(num.show(7.0), None, None, [BinaryEntry(num, 3.0, Add, 4.0, 7.0)], Render(num.show(7.0)), BinaryEntry(num, 3.0, Add, 4.0, 7.0));
  }

  /** "5 =" after "3 + 4 +": 7 + 5 is computed. */
  lemma FiveEquals(num: Numerics, h: seq<string>, d: string, st: string)
    requires num.parse("5") == Some(5.0)
    ensures var s := State("", Some(7.0), Some(Add), h, d, st);
      var entry := BinaryEntry(num, 7.0, Add, 5.0, 12.0);
      Calculate(num, AppendNumber(s, "5"))
        == Outcome(State(num.show(12.0), None, None, h + [entry], Render(num.show(12.0)), entry), None, false)
  {
    var s5 := AppendNumber(State("", Some(7.0), Some(Add), h, d, st), "5");
    assert s5.current == "5" && Ready(s5);
    assert Apply(Add, 7.0, 5.0) == 12.0;
  }

  /**
    "3 + 4 + 5 =": the second `+` folds 3 + 4 first, `=` then adds 5. Two entries are
    logged and the buffer holds the formatted 12.
  */
  lemma ChainedAddition(num: Numerics)
    requires KeypadParse(num) && ShowReadsBack(num, 7.0)
    ensures var r := Run(num, Initial, [Number("3"), Operator(Add), Number("4"), Operator(Add), Number("5"), Equals]);
      && r.current == num.show(12.0)
      && r.history == [BinaryEntry(num, 3.0, Add, 4.0, 7.0), BinaryEntry(num, 7.0, Add, 5.0, 12.0)]
      && r.previous == None && r.operator == None
  {
    DigitParses(num, "3", 3.0);
    DigitParses(num, "4", 4.0);
    DigitParses(num, "5", 5.0);
    ChainedAdditionRun(num);
  }

  lemma ChainedAdditionRun(num: Numerics)
    requires num.parse("3") == Some(3.0) && num.parse("4") == Some(4.0) && num.parse("5") == Some(5.0)
    requires num.parse(num.show(7.0)) == Some(7.0)
    ensures var r := Run(num, Initial, [Number("3"), Operator(Add), Number("4"), Operator(Add), Number("5"), Equals]);
      && r.current == num.show(12.0)
      && r.history == [BinaryEntry(num, 3.0, Add, 4.0, 7.0), BinaryEntry(num, 7.0, Add, 5.0, 12.0)]
      && r.previous == None && r.operator == None
  {
    var s1 := AppendNumber(Initial, "3");
    RunFirst(num, Initial, Number("3"), [Operator(Add), Number("4"), Operator(Add), Number("5"), Equals]);
    ThreePlus(num);
    var s2 := State("", Some(3.0), Some(Add), [], "3", "3 +");
    RunFirst(num, s1, Operator(Add), [Number("4"), Operator(Add), Number("5"), Equals]);
    var s3 := AppendNumber(s2, "4");
    RunFirst(num, s2, Number("4"), [Operator(Add), Number("5"), Equals]);
    FourPlus(num);
    var e1 := BinaryEntry(num, 3.0, Add, 4.0, 7.0);
    var s4 := State("", Some(7.0), Some(Add), [e1], Render(num.show(7.0)), num.show(7.0) + " +");
    RunFirst(num, s3, Operator(Add), [Number("5"), Equals]);
    var s5 := AppendNumber(s4, "5");
    RunFirst(num, s4, Number("5"), [Equals]);
    FiveEquals(num, [e1], Render(num.show(7.0)), num.show(7.0) + " +");
    RunFirst(num, s5, Equals, []);
    assert [e1] + [BinaryEntry(num, 7.0, Add, 5.0, 12.0)] == [e1, BinaryEntry(num, 7.0, Add, 5.0, 12.0)];
  }

  /**
    "5 / 0 =": the division reports an error and the state is the one Clear leaves;
    the history (empty here) is not touched.
  */
  lemma DivisionByZeroSession(num: Numerics)
    requires KeypadParse(num)
    ensures var s := Run(num, Initial, [Number("5"), Operator(Div), Number("0")]);
      && Calculate(num, s) == Outcome(Clear(s), Some(DivisionByZero), false)
      && Clear(s) == State("", None, None, [], "0", "")
  {
    DigitParses(num, "5", 5.0);
    DigitParses(num, "0", 0.0);
    DivisionByZeroRun(num);
  }

  lemma DivisionByZeroRun(num: Numerics)
    requires num.parse("5") == Some(5.0) && num.parse("0") == Some(0.0)
    ensures var s := Run(num, Initial, [Number("5"), Operator(Div), Number("0")]);
      && Calculate(num, s) == Outcome(Clear(s), Some(DivisionByZero), false)
      && Clear(s) == State("", None, None, [], "0", "")
  {
    var s1 := AppendNumber(Initial, "5");
    assert s1 == State("5", None, None, [], "5", "");
    RunFirst(num, Initial, Number("5"), [Operator(Div), Number("0")]);
    var s2 := SetOperator(num, s1, Div).state;
    assert s2.previous == Some(5.0) && s2.operator == Some(Div) && s2.history == [];
    RunFirst(num, s1, Operator(Div), [Number("0")]);
    var s3 := AppendNumber(s2, "0");
    RunFirst(num, s2, Number("0"), []);
    assert s3.current == "0";
  }

  /** "4 ± √": the square root of -4 reports an error and clears. */
  lemma NegativeSqrtSession(num: Numerics)
    requires KeypadParse(num)
    ensures var s := Run(num, Initial, [Number("4"), Sign]);
      && s.current == "-4"
      && AdvancedOperation(num, s, "sqrt") == Outcome(Clear(s), Some(NegativeSqrt), false)
  {
    assert Magnitude("-4") == "4";
    assert KeypadShaped("-4");
    assert "-4"[1..] == "4";
    DigitParses(num, "4", 4.0);
    assert UnsignedDecimal("4") == Some(4.0);
    NegativeSqrtRun(num);
  }

  lemma NegativeSqrtRun(num: Numerics)
    requires num.parse("-4") == Some(-4.0)
    ensures var s := Run(num, Initial, [Number("4"), Sign]);
      && s.current == "-4"
      && AdvancedOperation(num, s, "sqrt") == Outcome(Clear(s), Some(NegativeSqrt), false)
  {
    var s1 := AppendNumber(Initial, "4");
    assert s1 == State("4", None, None, [], "4", "");
    RunFirst(num, Initial, Number("4"), [Sign]);
    var s2 := ToggleSign(s1);
    assert "-" + "4" == "-4";
    RunFirst(num, s1, Sign, []);
    assert s2.current == "-4";
  }

  /** "5 ± ⌫ +": the buffer "-" reaches `float()` and the operator key raises. */
  lemma BareMinusSession(num: Numerics)
    requires KeypadParse(num)
    ensures var s := Run(num, Initial, [Number("5"), Sign, Back]);
      && s.current == "-"
      && SetOperator(num, s, Add) == Outcome(s, None, true)
  {
    BareBuffersRejected();
    assert Magnitude("-") == "";
    assert KeypadShaped("-");
    BareMinusRun(num);
  }

  lemma BareMinusRun(num: Numerics)
    requires num.parse("-") == None
    ensures var s := Run(num, Initial, [Number("5"), Sign, Back]);
      && s.current == "-"
      && SetOperator(num, s, Add) == Outcome(s, None, true)
  {
    var s1 := AppendNumber(Initial, "5");
    assert s1 == State("5", None, None, [], "5", "");
    RunFirst(num, Initial, Number("5"), [Sign, Back]);
    var s2 := ToggleSign(s1);
    assert "-" + "5" == "-5";
    RunFirst(num, s1, Sign, [Back]);
    assert s2.current == "-5";
    var s3 := Backspace(s2);
    RunFirst(num, s2, Back, []);
    assert s3.current == "-";
    assert s3 == State("-", None, None, [], "-", "");
    assert StoreOperand(num, s3, Add, None) == Outcome(s3, None, true);
  }

  /** ". +": the point key alone builds a buffer `float()` rejects; the operator key raises. */
  lemma PointOperatorSession(num: Numerics)
    requires KeypadParse(num)
    ensures var s := Run(num, Initial, [Number(".")]);
      && s.current == "."
      && SetOperator(num, s, Add) == Outcome(s, None, true)
  {
    BareBuffersRejected();
    assert KeypadShaped(".") by { assert Magnitude(".") == "."; }
    PointOperatorRun(num);
  }

  lemma PointOperatorRun(num: Numerics)
    requires num.parse(".") == None
    ensures var s := Run(num, Initial, [Number(".")]);
      && s.current == "."
      && SetOperator(num, s, Add) == Outcome(s, None, true)
  {
    var s1 := AppendNumber(Initial, ".");
    assert s1 == State(".", None, None, [], ".", "");
    RunFirst(num, Initial, Number("."), []);
    assert StoreOperand(num, s1, Add, None) == Outcome(s1, None, true);
  }
}
