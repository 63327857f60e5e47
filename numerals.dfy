/**
  The numeric layer under the calculator: what Python's `float(...)`, `str(float)` and
  `math.sqrt` do is not modelled bit for bit. Instead a `Numerics` record carries three
  function values (parse, show, square root) that the state machine is parameterised by.
  The lemmas assume about them only what each one needs: `KeypadParse` (on the strings
  the keypad can produce, parsing agrees with the decimal grammar defined here),
  `ShowReadsBack` at the one value whose formatted text is parsed again, and `SqrtLaw`.
*/
module Numerals {
  import opened Wrappers

  /** The host's float primitives, left abstract. */
  datatype Numerics = Numerics(parse: string -> Option<real>, show: real -> string, sqrt: real -> real)

  predicate IsDigit(c: char) {
    '0' <= c <= '9'
  }

  predicate AllDigits(s: string) {
    forall i | 0 <= i < |s| :: IsDigit(s[i])
  }

  predicate NoDigit(s: string) {
    forall i | 0 <= i < |s| :: !IsDigit(s[i])
  }

  /** Number of occurrences of `c` in `s`. */
  function CountChar(s: string, c: char): (n: nat)
    ensures n <= |s|
    ensures n == 0 <==> c !in s
  {
    if s == [] then 0
    else CountChar(s[1..], c) + (if s[0] == c then 1 else 0)
  }

  /** Index of the first occurrence of `c` in `s`. */
  function IndexOf(s: string, c: char): (i: nat)
    requires c in s
    ensures i < |s| && s[i] == c && c !in s[..i]
  {
    if s[0] == c then 0
    else
      assert c in s[1..] by { var k :| 0 <= k < |s| && s[k] == c; assert s[1..][k - 1] == c; }
      IndexOf(s[1..], c) + 1
  }

  /** The value of a string of decimal digits, most significant first. */
  function DigitsValue(s: string): nat
    requires AllDigits(s)
  {
    if s == [] then 0
    else DigitsValue(s[..|s| - 1]) * 10 + (s[|s| - 1] as int - '0' as int)
  }

  function Pow10(n: nat): (p: nat)
    ensures p >= 1
  {
    if n == 0 then 1 else 10 * Pow10(n - 1)
  }

  /** The value of `whole.frac`: the fraction's digits are scaled down by their count. */
  function PointValue(whole: string, frac: string): real
    requires AllDigits(whole) && AllDigits(frac)
  {
    DigitsValue(whole) as real + DigitsValue(frac) as real / Pow10(|frac|) as real
  }

  /** `digits [. digits]` or `. digits`, with at least one digit (Python's float grammar without sign or exponent). */
  function UnsignedDecimal(s: string): Option<real>
  {
    if '.' in s then
      var i := IndexOf(s, '.');
      var whole, frac := s[..i], s[i + 1..];
      if AllDigits(whole) && AllDigits(frac) && |whole| + |frac| > 0 then
        Some(PointValue(whole, frac))
      else None
    else if s != [] && AllDigits(s) then Some(DigitsValue(s) as real)
    else None
  }

  /** Counting around one occurrence of `c`. */
  lemma CountCharAround(m: string, i: nat, c: char)
    requires i < |m| && m[i] == c
    ensures CountChar(m, c) == CountChar(m[..i], c) + 1 + CountChar(m[i + 1..], c)
  {
    assert m == m[..i] + ([c] + m[i + 1..]);
    CountCharAppend(m[..i], [c] + m[i + 1..], c);
    assert ([c] + m[i + 1..])[1..] == m[i + 1..];
  }

  /**
    A string of digits and at most one point is accepted as soon as it holds a digit:
    the digits before the point and the digits after it.
  */
  lemma UnsignedAccepts(m: string)
    requires forall i | 0 <= i < |m| :: IsDigit(m[i]) || m[i] == '.'
    requires CountChar(m, '.') <= 1 && !NoDigit(m)
    ensures UnsignedDecimal(m).Some?
  {
    if '.' in m {
      var i := IndexOf(m, '.');
      var whole, frac := m[..i], m[i + 1..];
      CountCharAround(m, i, '.');
      assert '.' !in frac;
      assert AllDigits(whole) by {
        forall k | 0 <= k < |whole| ensures IsDigit(whole[k]) { assert whole[k] == m[k]; }
      }
      assert AllDigits(frac) by {
        forall k | 0 <= k < |frac| ensures IsDigit(frac[k]) { assert frac[k] == m[i + 1 + k]; }
      }
    }
  }

  /** A keypad string holding a digit has an acceptable magnitude. */
  lemma KeypadAccepts(s: string)
    ensures KeypadShaped(s) && !NoDigit(s) ==> UnsignedDecimal(Magnitude(s)).Some?
  {
    if KeypadShaped(s) && !NoDigit(s) {
      var k :| 0 <= k < |s| && IsDigit(s[k]);
      if |s| > 0 && s[0] == '-' {
        assert Magnitude(s)[k - 1] == s[k];
      }
      UnsignedAccepts(Magnitude(s));
    }
  }

  /**
    An optional leading minus followed by an unsigned decimal. On the strings the keypad
    builds, exactly those holding a digit are accepted.
  */
  function Decimal(s: string): (r: Option<real>)
    ensures s != [] && AllDigits(s) ==> r == Some(DigitsValue(s) as real)
    ensures NoDigit(s) ==> r == None
    ensures KeypadShaped(s) ==> (r.None? <==> NoDigit(s))
  {
    if |s| > 0 && s[0] == '-' then
      NoDigitSuffix(s, 1);
      KeypadAccepts(s);
      match UnsignedDecimal(s[1..])
      case Some(v) => Some(-v)
      case None => None
    else
      if NoDigit(s) && '.' in s then
        var i := IndexOf(s, '.');
        assert s[..i] != [] ==> !IsDigit(s[..i][0]);
        assert s[i + 1..] != [] ==> !IsDigit(s[i + 1..][0]);
        UnsignedDecimal(s)
      else
        KeypadAccepts(s);
        UnsignedDecimal(s)
  }

  /** A leading minus negates the value of a keypad number, and rejects what it rejects. */
  lemma NegatedDecimal(s: string)
    requires s != [] && s[0] != '-'
    ensures Decimal("-" + s).Some? <==> Decimal(s).Some?
    ensures Decimal(s).Some? ==> Decimal("-" + s) == Some(-Decimal(s).value)
  {
    assert ("-" + s)[1..] == s;
  }

  /** Without a leading minus, `Decimal` is the unsigned grammar. */
  lemma UnsignedWithoutMinus(s: string)
    requires s == [] || s[0] != '-'
    ensures Decimal(s) == UnsignedDecimal(s)
  {
  }

  /** The first occurrence of `c` is wherever `c` occurs with none before it. */
  lemma IndexOfAt(s: string, i: nat, c: char)
    requires i < |s| && s[i] == c && c !in s[..i]
    ensures IndexOf(s, c) == i
  {
  }

  /** A string whose only point is at `i` reads as the digits around it. */
  lemma UnsignedPointed(s: string, i: nat)
    requires i < |s| && s[i] == '.' && '.' !in s[..i]
    requires AllDigits(s[..i]) && AllDigits(s[i + 1..]) && |s| > 1
    ensures UnsignedDecimal(s) == Some(PointValue(s[..i], s[i + 1..]))
  {
    IndexOfAt(s, i, '.');
  }

  /** `whole.frac` reads as the whole part plus the fraction scaled by its length. */
  lemma PointedValue(whole: string, frac: string)
    requires AllDigits(whole) && AllDigits(frac) && |whole| + |frac| > 0
    ensures Decimal(whole + "." + frac) == Some(PointValue(whole, frac))
  {
    var s := whole + "." + frac;
    assert s[..|whole|] == whole && s[|whole| + 1..] == frac && s[|whole|] == '.';
    assert '.' !in whole by {
      forall k | 0 <= k < |whole| ensures whole[k] != '.' { assert IsDigit(whole[k]); }
    }
    UnsignedPointed(s, |whole|);
    assert s[0] != '-' by { if |whole| > 0 { assert s[0] == whole[0] && IsDigit(whole[0]); } }
    UnsignedWithoutMinus(s);
  }

  /** A buffer with a point, with its value. */
  lemma OneAndAHalf()
    ensures Decimal("1.5") == Some(1.5)
  {
    assert DigitsValue("1") == 1 && DigitsValue("5") == 5 by {
      assert "1"[..0] == [] && "5"[..0] == [];
    }
    assert PointValue("1", "5") == 1.5;
    assert "1" + "." + "5" == "1.5";
    PointedValue("1", "5");
  }

  /** A buffer with a leading minus, with its value. */
  lemma MinusThree()
    ensures Decimal("-3") == Some(-3.0)
  {
    assert DigitsValue("3") == 3 by { assert "3"[..0] == []; }
    assert Decimal("3") == Some(3.0);
    assert "-" + "3" == "-3";
    NegatedDecimal("3");
  }

  lemma NoDigitSuffix(s: string, k: nat)
    requires k <= |s|
    ensures NoDigit(s) ==> NoDigit(s[k..])
  {
    if NoDigit(s) {
      forall i | 0 <= i < |s[k..]| ensures !IsDigit(s[k..][i]) { assert s[k..][i] == s[k + i]; }
    }
  }

  /** The part of a buffer after an optional leading minus. */
  function Magnitude(s: string): (m: string)
    ensures |m| <= |s|
  {
    if |s| > 0 && s[0] == '-' then s[1..] else s
  }

  /**
    The strings the keypad can build: an optional leading minus, then digits and
    at most one decimal point.
  */
  predicate KeypadShaped(s: string) {
    var m := Magnitude(s);
    (forall i | 0 <= i < |m| :: IsDigit(m[i]) || m[i] == '.') && CountChar(m, '.') <= 1
  }

  /** A token the number keys send: one digit or the decimal point. */
  predicate IsKeyToken(t: string) {
    |t| == 1 && (IsDigit(t[0]) || t[0] == '.')
  }

  /**
    Python's `float` on the strings the keypad builds: it agrees with `Decimal`, so it
    accepts exactly those that hold a digit. `DecimalIsAKeypadParse` shows the hypothesis
    can be met.
  */
  ghost predicate KeypadParse(num: Numerics) {
    forall s :: KeypadShaped(s) ==> num.parse(s) == Decimal(s)
  }

  /** `str(x)` reads back as `x` under `float`; assumed only at the values that matter. */
  predicate ShowReadsBack(num: Numerics, x: real) {
    num.parse(num.show(x)) == Some(x)
  }

  /** `math.sqrt` returns the non-negative root of a non-negative number. */
  ghost predicate SqrtLaw(num: Numerics) {
    forall x :: 0.0 <= x ==> 0.0 <= num.sqrt(x) && num.sqrt(x) * num.sqrt(x) == x
  }

  /** A parser that is `Decimal` itself meets `KeypadParse`. */
  lemma DecimalIsAKeypadParse(show: real -> string, sqrt: real -> real)
    ensures KeypadParse(Numerics(s => Decimal(s), show, sqrt))
  {
  }

  /** The decimal digits of `n`, as the digit keys would type them. */
  function NatDigits(n: nat): (s: string)
    ensures s != [] && AllDigits(s)
  {
    if n < 10 then ['0' + n as char]
    else NatDigits(n / 10) + ['0' + (n % 10) as char]
  }

  /** Typing the digits of `n` and parsing them gives back `n`. */
  lemma {:induction false} NatDigitsValue(n: nat)
    ensures DigitsValue(NatDigits(n)) == n
  {
    if n >= 10 {
      var s := NatDigits(n);
      assert s[..|s| - 1] == NatDigits(n / 10);
      NatDigitsValue(n / 10);
    }
  }

  lemma NatDigitsDecimal(n: nat)
    ensures KeypadShaped(NatDigits(n))
    ensures Decimal(NatDigits(n)) == Some(n as real)
  {
    NatDigitsValue(n);
  }

  /** Counting distributes over concatenation. */
  lemma {:induction false} CountCharAppend(a: string, b: string, c: char)
    ensures CountChar(a + b, c) == CountChar(a, c) + CountChar(b, c)
  {
    if a == [] {
      assert a + b == b;
    } else {
      assert (a + b)[1..] == a[1..] + b;
      CountCharAppend(a[1..], b, c);
    }
  }

  lemma CountCharPrefix(s: string, k: nat, c: char)
    requires k <= |s|
    ensures CountChar(s[..k], c) <= CountChar(s, c)
  {
    CountCharAppend(s[..k], s[k..], c);
    assert s[..k] + s[k..] == s;
  }

  /**
    The buffers no `float()` accepts that the keys can build: the point key alone on an
    empty buffer gives ".", the sign key turns it into "-.", backspace reaches "-" and "".
  */
  lemma BareBuffersRejected()
    ensures Decimal("") == None && Decimal(".") == None
    ensures Decimal("-") == None && Decimal("-.") == None
  {
    assert NoDigit(".") && NoDigit("-") && NoDigit("-.");
  }
}
