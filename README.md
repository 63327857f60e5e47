# Calculator accumulator state machine, in Dafny

This project models the logic of the tkinter desktop calculator in `calculator.py`: the
`Calculator` object's entry buffer (`current`), pending left operand (`previous`), pending
operator (`operator`) and calculation log (`history`), and its intent handlers:
`append_number`, `set_operator`, `calculate`, `advanced_operation`, `toggle_sign`,
`backspace` and `clear`, which the buttons and keys call, and `show_history`, which no
button or key calls (calculator.py:102-127 and 151-165 never name it). It also models the
display rule of `update_display`. The model records the text last written to the main display and
to the status label, because the handlers write them as part of their work.

Layout:

- `numerals.dfy` (module `Numerals`): the numeric layer. Python's `float()`, `str(float)`
  and `math.sqrt` are fields of a `Numerics` record of function values. The state machine
  is parameterised by that record. The lemmas assume of it only what each needs:
  `KeypadParse` (on keypad-shaped buffers, an optional leading `-` then digits and at most
  one `.`, `float()` agrees with the decimal grammar `Decimal`; `DecimalIsAKeypadParse`
  shows a record meeting it), `ShowReadsBack(num, x)` (`float(str(x)) == x`, assumed only
  at the one value whose text is parsed again) and `SqrtLaw` (the square root is the
  non-negative root). `Decimal` accepts a keypad string exactly when it holds a digit, so
  it rejects `""`, `"."`, `"-"` and `"-."`.
- `machine.dfy` (module `Machine`): one pure function per handler, from the state before
  to the state after, plus the error dialog shown and whether an exception escaped.
- `calculator.dfy` (module `CalculatorApp`): the `Calculator` class. Its fields are
  reassigned step by step as in the program. `SetOperator` calls `Calculate` first,
  `Calculate` and `AdvancedOperation` append to `history`, and every handler is proved to
  leave exactly the state the matching `Machine` function gives.
- `properties.dfy` (module `MachineProperties`): properties that link handlers: buffer
  shape, which key undoes which, the uncaught `float()` error, continuing from a result,
  and the history popup.
- `session.dfy` (module `Session`): a sequence of intents handled in order, invariants over
  whole sessions, typing a whole number key by key, and worked sessions (`3 + 4 + 5 =`,
  `5 / 0 =`, `√` of `-4`, a `-` buffer).

Behaviour captured from the code:

- `set_operator` calls `float(self.current)` outside any `try` (calculator.py:190). A buffer
  `float` rejects (`"."` from the point key alone, `"-."` one sign key later, `"-"` after a digit, the sign key and backspace) makes the
  handler raise and change nothing. If the chained `calculate` fails, it clears, and then
  `float("")` raises. Both are `Outcome.raised`. The event loop carries on, so a `Session.Run`
  goes on from the state the handler left.
- Errors in `calculate` and `advanced_operation` reset `current`, `previous` and `operator`
  through `clear` and keep every history entry: `clear` does not touch `history`
  (calculator.py:272-278). Its docstring reads "Clear all values and reset the
  calculator." (calculator.py:273), yet the body never assigns `history`.
- `set_operator` does not redraw the display, so after an operator key the display still
  shows the operand while `current` is empty. The display starts out empty, not `"0"`,
  until the first redraw.
- `advanced_operation` with any name but `'sqrt'` leaves `result` unbound. The `except`
  reports that as an error and clears (`UnknownOperation`).
- The chained session `3 + 4 + 5 =` leaves `str(12.0)` in the buffer, not `"12"`.

## Model

| member | source | states |
|---|---|---|
| `Numerals.Decimal` | calculator.py:190 | `float()` on keypad strings: a keypad-shaped string is accepted exactly when it holds a digit; an all-digit string reads as its value; a string with no digit at all (`""`, `"."`, `"-"`, `"-."`) is rejected |
| `Numerals.NegatedDecimal` | calculator.py:259-263 | a leading `-`, as the sign key adds it, negates the value and is accepted exactly when the rest is |
| `Numerals.PointedValue` | calculator.py:174-177 | a buffer `whole.frac` with at least one digit reads as the whole part plus the fraction scaled by its length |
| `Numerals.OneAndAHalf` | calculator.py:190 | the buffer `"1.5"` reads as 1.5 |
| `Numerals.MinusThree` | calculator.py:190 | the buffer `"-3"` reads as -3 |
| `Numerals.BareBuffersRejected` | calculator.py:190 | the buffers `""`, `"."`, `"-"`, `"-."` are not numbers |
| `Numerals.CountCharAppend` | calculator.py:174-177 | counting decimal points distributes over concatenation (used for the one-point invariant) |
| `Machine.Render` | calculator.py:280-283 | the display text is never empty: the buffer when non-empty, else `"0"` |
| `Machine.Clear` | calculator.py:272-278 | buffer emptied, operand and operator unset, display `"0"`, label empty, history unchanged |
| `Machine.AppendNumber` | calculator.py:167-178 | a second `.` leaves the state unchanged; any other token is appended verbatim and redrawn; the operand/operator pairing is kept |
| `Machine.ToggleSign` | calculator.py:257-264 | no effect on `""` or `"0"`; otherwise a leading `-` is removed or one is prepended, nothing else but the display changes |
| `Machine.Backspace` | calculator.py:266-270 | no effect on an empty buffer; otherwise exactly the last character is removed, nothing else but the display changes |
| `Machine.Calculate` | calculator.py:195-230 | no effect unless the buffer is non-empty and operand and operator are pending; a parse failure or a zero divisor is reported and ends in the `Clear` state; success appends exactly one entry `left op right = result`, puts the formatted result in the buffer and on the display, shows the entry in the label and unsets operand and operator; history only grows |
| `Machine.StoreOperand` | calculator.py:190-193 | raises exactly when `float()` rejects the buffer, and then changes nothing; otherwise stores the parsed operand and the operator, empties the buffer, sets the label, keeps history and display |
| `Machine.SetOperator` | calculator.py:180-193 | no effect on an empty buffer; with nothing pending it stores the operand; with a pair pending it first runs `Calculate` and then stores its outcome's buffer; keeps the pairing; at most one history entry |
| `Machine.AdvancedOperation` | calculator.py:232-255 | no effect on an empty buffer; a parse failure, an operation other than `'sqrt'`, or a negative operand is reported (each exactly in its case) and ends in the `Clear` state; `'sqrt'` of a parsed non-negative operand succeeds, and only it does, appending exactly one `√x = r` entry, putting the formatted root in the buffer and on the display, showing the entry in the label and leaving operand and operator untouched |
| `Machine.Recent` | calculator.py:291 | `history[-10:]`: the last `min(10, |h|)` entries, in their original order |
| `Machine.ShowHistory` | calculator.py:285-292 | the no-history notice exactly when the history is empty, otherwise the recent entries joined by newlines |
| `CalculatorApp.Calculator.constructor` | calculator.py:42-46 | the fields start as the initial state: empty buffer, nothing pending, empty history |
| `CalculatorApp.Calculator.UpdateDisplay` | calculator.py:280-283 | the display shows the rendered buffer |
| `CalculatorApp.Calculator.AppendNumber` | calculator.py:167-178 | the object ends in the state `Machine.AppendNumber` gives |
| `CalculatorApp.Calculator.SetOperator` | calculator.py:180-193 | calls `Calculate` in place, then ends in the state, dialog and raise `Machine.SetOperator` gives |
| `CalculatorApp.Calculator.Calculate` | calculator.py:195-230 | appends to `history` in place and ends in the state and dialog `Machine.Calculate` gives |
| `CalculatorApp.Calculator.AdvancedOperation` | calculator.py:232-255 | ends in the state and dialog `Machine.AdvancedOperation` gives |
| `CalculatorApp.Calculator.ToggleSign` | calculator.py:257-264 | ends in the state `Machine.ToggleSign` gives |
| `CalculatorApp.Calculator.Backspace` | calculator.py:266-270 | ends in the state `Machine.Backspace` gives |
| `CalculatorApp.Calculator.Clear` | calculator.py:272-278 | ends in the state `Machine.Clear` gives, history untouched |
| `CalculatorApp.Calculator.ShowHistory` | calculator.py:285-292 | changes nothing and returns the popup `Machine.ShowHistory` gives: the "History" notice exactly when the history is empty |
| `MachineProperties.AppendKeepsOnePoint` | calculator.py:174-177 | a buffer with at most one `.` keeps at most one after any one-character key; after `.` it holds exactly one |
| `MachineProperties.AppendKeepsKeypadShape` | calculator.py:174-177 | digit and point keys keep the buffer keypad-shaped |
| `MachineProperties.ToggleKeepsKeypadShape` | calculator.py:259-263 | the sign key keeps the buffer keypad-shaped |
| `MachineProperties.BackspaceKeepsKeypadShape` | calculator.py:268-269 | backspace keeps the buffer keypad-shaped |
| `MachineProperties.ToggleTwice` | calculator.py:259-263 | on a non-empty buffer other than `"0"` without a leading `-`, toggling twice restores the buffer |
| `MachineProperties.ToggleTwiceNegative` | calculator.py:259-263 | on a keypad buffer with a leading `-`, toggling twice restores it exactly when the rest is neither `""` nor `"0"` (`"-0"` becomes `"0"`) |
| `MachineProperties.BackspaceUndoesAppend` | calculator.py:266-270 | backspace after a one-character append that took effect gives back the buffer |
| `MachineProperties.OperatorOnBareBufferRaises` | calculator.py:187-190 | with nothing pending, an operator key on `"."`, `"-"` or `"-."` raises and changes nothing |
| `MachineProperties.OperatorRaisesIffNoDigit` | calculator.py:187-193 | with nothing pending, an operator key on a non-empty keypad buffer raises exactly when the buffer holds no digit, and otherwise stores its decimal value |
| `MachineProperties.ChainedDivisionByZeroRaises` | calculator.py:188-190 | an operator key after `x / 0` shows the division error, clears, and then raises on the empty buffer |
| `MachineProperties.ChainingFolds` | calculator.py:188-191 | an operator key with a pair pending makes the folded result the new left operand and logs one entry, given that `float(str(result))` gives the result back |
| `MachineProperties.ResultFeedsNextOperator` | calculator.py:217-218 | after `=`, an operator key takes the result left in the buffer as the new left operand and logs nothing more |
| `MachineProperties.SqrtFeedsNextOperator` | calculator.py:249-250 | after `√` with nothing pending, an operator key takes the root left in the buffer as the new left operand: non-negative, and its square is the operand |
| `MachineProperties.SplitJoin` | calculator.py:291 | splitting the newline-joined popup text gives back the lines |
| `MachineProperties.HistoryPopupLists` | calculator.py:285-292 | the popup lists exactly the last `min(10, |history|)` entries, oldest first |
| `Session.Step` | calculator.py:151-165 | every intent keeps the operand/operator pairing and adds at most one history entry, never removing one |
| `Session.RunKeepsPaired` | calculator.py:188-191 | over any session the pending operand is set exactly when the pending operator is |
| `Session.RunExtendsHistory` | calculator.py:212-214 | over any session the history is only appended to, at most one entry per intent |
| `Session.EditingKeepsKeypadShape` | calculator.py:167-178 | a session of digit, point, sign, backspace and clear keys keeps the buffer keypad-shaped and the history unchanged |
| `Session.TypingAppends` | calculator.py:167-178 | typing a string without a point, key by key, appends it to the buffer and redraws the display, changing nothing else |
| `Session.TypedNumber` | calculator.py:158-178 | typing the decimal digits of `n` on a fresh calculator leaves them in the buffer and on the display, with nothing pending, and `float()` reads them as `n` |
| `Session.EditedBufferParsesAsDecimal` | calculator.py:190 | after editing keys only, `float()` reads the buffer as the decimal grammar does |
| `Session.ChainedAddition` | calculator.py:188-189 | `3 + 4 + 5 =` logs `3 + 4 = 7` and `7 + 5 = 12` and leaves the formatted 12 in the buffer, nothing pending |
| `Session.DivisionByZeroSession` | calculator.py:207-209 | `5 / 0 =` reports division by zero and ends in the `Clear` state |
| `Session.NegativeSqrtSession` | calculator.py:244-245 | `4 ± √` reports the negative operand and ends in the `Clear` state |
| `Session.BareMinusSession` | calculator.py:190 | `5 ± ⌫ +` leaves `"-"` in the buffer and the operator key raises |
| `Session.PointOperatorSession` | calculator.py:174-190 | `. +` on a fresh calculator: the point key alone leaves `"."` and the operator key raises, changing nothing |

## Left out

- Widget construction, styling, grid layout and key binding (`setup_styles`, `create_display`,
  `create_buttons`, `bind_keyboard_events`, `main`): presentation only. `Session.Intent`
  lists the intents those bindings deliver, plus `History`, which no binding delivers.
- The message texts of the error dialogs and the popup windows themselves: a dialog is
  modelled as the `Error` kind it reports, and the history popup as its title and text.
- IEEE floating point: operands are exact reals, so overflow to `inf`, `nan` and rounding
  are not modelled. `float()`, `str(float)` and `math.sqrt` are opaque function values.
  Only their guards are explicit: parse failure, zero divisor and negative radicand.
- Python's full `float()` grammar (exponents, `inf`, `nan`, underscores, whitespace, a
  leading `+`): `KeypadParse` pins `float()` down only on keypad-shaped strings. That
  `float(str(x)) == x` is assumed only at the values the lemmas name, since exact reals
  such as `1/3` have no text that reads back exactly.
- The "power" and "percentage" operations named in the class docstring: they are not
  implemented. Any name other than `'sqrt'` takes the error path.
- The traceback Tk prints for the exception `set_operator` lets escape: modelled only as
  `Outcome.raised`.
