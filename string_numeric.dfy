/**
 * `Number(s)` for a string (StringToNumber, ECMAScript 2023, section
 * 7.1.4.1.1): white space at either end is skipped, nothing left reads as 0,
 * and what is left must be a StrNumericLiteral: a decimal literal with an
 * optional sign, fraction and exponent, or an integer written after `0x`,
 * `0o` or `0b`. Values are exact reals; None stands for NaN.
 */
module StringNumeric {
  import opened Wrappers

  /** WhiteSpace and LineTerminator (ECMAScript 2023, sections 12.2 and
      12.3): tab, vertical tab, form feed, the byte order mark, every space
      separator of Unicode, line feed, carriage return and the two Unicode
      line and paragraph separators. */
  predicate IsWhiteSpace(c: char) {
    var n := c as int;
    || n == 0x09 || n == 0x0B || n == 0x0C || n == 0xFEFF
    || n == 0x20 || n == 0xA0 || n == 0x1680 || (0x2000 <= n <= 0x200A) || n == 0x202F || n == 0x205F || n == 0x3000
    || n == 0x0A || n == 0x0D || n == 0x2028 || n == 0x2029
  }

  predicate AllWhiteSpace(s: string) {
    forall i :: 0 <= i < |s| ==> IsWhiteSpace(s[i])
  }

  /** `s` without its leading white space. */
  function TrimStart(s: string): (r: string)
    ensures |r| <= |s| && r == s[|s| - |r|..]
    ensures AllWhiteSpace(s[..|s| - |r|])
    ensures r == [] || !IsWhiteSpace(r[0])
    decreases |s|
  {
    if s != [] && IsWhiteSpace(s[0]) then
      var r := TrimStart(s[1..]);
      assert s[..|s| - |r|] == [s[0]] + s[1..][..|s| - 1 - |r|];
      r
    else s
  }

  /** `s` without its trailing white space. */
  function TrimEnd(s: string): (r: string)
    ensures |r| <= |s| && r == s[..|r|]
    ensures AllWhiteSpace(s[|r|..])
    ensures r == [] || !IsWhiteSpace(r[|r| - 1])
    decreases |s|
  {
    if s != [] && IsWhiteSpace(s[|s| - 1]) then
      var r := TrimEnd(s[..|s| - 1]);
      assert s[|r|..] == s[..|s| - 1][|r|..] + [s[|s| - 1]];
      r
    else s
  }

  /** The value of `c` as a digit of a base up to 16, and 16 for a character
      that is no such digit. */
  function DigitValue(c: char): (r: nat)
    ensures r <= 16
    ensures r < 10 <==> '0' <= c <= '9'
    ensures r < 16 <==> '0' <= c <= '9' || 'a' <= c <= 'f' || 'A' <= c <= 'F'
  {
    if '0' <= c <= '9' then c as int - '0' as int
    else if 'a' <= c <= 'f' then c as int - 'a' as int + 10
    else if 'A' <= c <= 'F' then c as int - 'A' as int + 10
    else 16
  }

  predicate AllDigits(s: string, radix: nat) {
    forall i :: 0 <= i < |s| ==> DigitValue(s[i]) < radix
  }

  /** The value of a string of digits in base `radix`, most significant first. */
  function DigitsValue(s: string, radix: nat): nat
    requires AllDigits(s, radix)
    decreases |s|
  {
    if s == [] then 0
    else radix * DigitsValue(s[..|s| - 1], radix) + DigitValue(s[|s| - 1])
  }

  /** `m` times ten to the power `e`: a tenfold step per unit of `e`. */
  function Scaled(m: real, e: int): real
    decreases if e >= 0 then e else -e
  {
    if e == 0 then m else if e > 0 then Scaled(m, e - 1) * 10.0 else Scaled(m, e + 1) / 10.0
  }

  /** The index of the first character of `s` in `cs`, or `|s|`. */
  function FirstOf(s: string, cs: set<char>): (i: nat)
    ensures i <= |s|
    ensures i < |s| ==> s[i] in cs
    ensures forall j :: 0 <= j < i ==> s[j] !in cs
    decreases |s|
  {
    if s == [] then 0
    else if s[0] in cs then 0
    else 1 + FirstOf(s[1..], cs)
  }

  /** The digits after `e` or `E`, with an optional sign. */
  function ExponentValue(x: string): Option<int> {
    if x != [] && (x[0] == '+' || x[0] == '-') then
      if |x| > 1 && AllDigits(x[1..], 10) then
        Some(if x[0] == '-' then -(DigitsValue(x[1..], 10) as int) else DigitsValue(x[1..], 10))
      else None
    else if x != [] && AllDigits(x, 10) then Some(DigitsValue(x, 10))
    else None
  }

  /** StrUnsignedDecimalLiteral: decimal digits with at most one `.` and at
      least one digit, then an optional exponent. `Infinity` is not read. */
  function UnsignedDecimal(t: string): Option<real> {
    var e := FirstOf(t, {'e', 'E'});
    Mantissa(t[..e], if e < |t| then ExponentValue(t[e + 1..]) else Some(0))
  }

  /** The digits before the exponent, split at the first `.`. */
  function Mantissa(m: string, exponent: Option<int>): Option<real> {
    var d := FirstOf(m, {'.'});
    PointedDigits(m[..d], if d < |m| then m[d + 1..] else [], exponent)
  }

  /** The whole part, the fraction and the exponent of a decimal literal. */
  function PointedDigits(whole: string, fraction: string, exponent: Option<int>): Option<real> {
    if |whole| + |fraction| == 0 || !AllDigits(whole, 10) || !AllDigits(fraction, 10) || exponent.None? then None
    else
      Some(Scaled(DigitsValue(whole, 10) as real + FractionValue(fraction),
                  exponent.value))
  }

  /** The digits after a decimal point, each worth a tenth of the one before. */
  function FractionValue(fraction: string): (r: real)
    requires AllDigits(fraction, 10)
    ensures 0.0 <= r < 1.0
  {
    if fraction == [] then 0.0 else (DigitValue(fraction[0]) as real + FractionValue(fraction[1..])) / 10.0
  }

  /** NonDecimalIntegerLiteral after its prefix: at least one digit of the base. */
  function RadixInteger(s: string, radix: nat): Option<real> {
    if s != [] && AllDigits(s, radix) then Some(DigitsValue(s, radix) as real) else None
  }

  /** StrNumericLiteral, for a text without white space at either end. */
  function NumericLiteral(t: string): Option<real> {
    if |t| >= 2 && t[0] == '0' && (t[1] == 'x' || t[1] == 'X') then RadixInteger(t[2..], 16)
    else if |t| >= 2 && t[0] == '0' && (t[1] == 'o' || t[1] == 'O') then RadixInteger(t[2..], 8)
    else if |t| >= 2 && t[0] == '0' && (t[1] == 'b' || t[1] == 'B') then RadixInteger(t[2..], 2)
    else if t != [] && t[0] == '-' then
      match UnsignedDecimal(t[1..])
      case None => None
      case Some(r) => Some(-r)
    else if t != [] && t[0] == '+' then UnsignedDecimal(t[1..])
    else UnsignedDecimal(t)
  }

  /** `Number(s)`: None where the result is NaN. White space alone reads as
      0, and a string of decimal digits reads as its value. */
  function Parse(s: string): (r: Option<real>)
    ensures AllWhiteSpace(s) ==> r == Some(0.0)
    ensures s != [] && AllDigits(s, 10) ==> r == Some(DigitsValue(s, 10) as real)
  {
    var t := TrimEnd(TrimStart(s));
    assert s != [] && AllDigits(s, 10) ==> t == s && NumericLiteral(s) == Some(DigitsValue(s, 10) as real) by {
      if s != [] && AllDigits(s, 10) {
        DigitsLiteral(s);
      }
    }
    if t == [] then Some(0.0) else NumericLiteral(t)
  }

  /** A string of decimal digits has no white space to skip and reads as its
      value. */
  lemma DigitsLiteral(s: string)
    requires s != [] && AllDigits(s, 10)
    ensures TrimEnd(TrimStart(s)) == s
    ensures NumericLiteral(s) == Some(DigitsValue(s, 10) as real)
  {
    DigitsUntrimmed(s);
    DigitsUnsigned(s);
    DigitsDecimal(s);
  }

  lemma DigitsUntrimmed(s: string)
    requires s != [] && AllDigits(s, 10)
    ensures TrimEnd(TrimStart(s)) == s
  {
    DigitsAvoid(s, 10);
  }

  lemma DigitsUnsigned(s: string)
    requires s != [] && AllDigits(s, 10)
    ensures NumericLiteral(s) == UnsignedDecimal(s)
  {
    DigitsAvoid(s, 10);
  }

  lemma DigitsDecimal(s: string)
    requires s != [] && AllDigits(s, 10)
    ensures UnsignedDecimal(s) == Some(DigitsValue(s, 10) as real)
  {
    DigitsAvoid(s, 10);
    NoneOf(s, {'e', 'E'});
    assert s[..|s|] == s;
    assert UnsignedDecimal(s) == Mantissa(s, Some(0));
    NoneOf(s, {'.'});
    assert Mantissa(s, Some(0)) == PointedDigits(s, [], Some(0));
    NoFraction(s);
    ScaledByZero(DigitsValue(s, 10) as real);
  }

  lemma ScaledByZero(m: real)
    ensures Scaled(m, 0) == m
  {
  }

  /** An empty fraction adds nothing to the whole part. */
  lemma NoFraction(whole: string)
    requires AllDigits(whole, 10)
    ensures DigitsValue(whole, 10) as real + FractionValue([]) == DigitsValue(whole, 10) as real
  {
  }

  /** Digits of a base up to 16 are neither white space nor a character
      that has a role of its own in a literal. */
  lemma DigitsAvoid(s: string, radix: nat)
    requires radix <= 16 && AllDigits(s, radix)
    ensures forall i :: 0 <= i < |s| ==> !IsWhiteSpace(s[i]) && s[i] !in {'.', '+', '-', 'x', 'X', 'o', 'O'}
    ensures radix <= 10 ==> forall i :: 0 <= i < |s| ==> s[i] !in {'e', 'E', 'b', 'B'}
  {
  }

  /** No character of `s` is in `cs`. */
  lemma NoneOf(s: string, cs: set<char>)
    requires forall i :: 0 <= i < |s| ==> s[i] !in cs
    ensures FirstOf(s, cs) == |s|
  {
  }

  /** `i` holds the first character of `s` in `cs`. */
  lemma FirstOfAt(s: string, cs: set<char>, i: nat)
    requires i < |s| && s[i] in cs
    requires forall j :: 0 <= j < i ==> s[j] !in cs
    ensures FirstOf(s, cs) == i
  {
  }

  /** Digits, a point and digits read as the whole part plus the fraction. */
  lemma DecimalPoint(whole: string, fraction: string)
    requires AllDigits(whole, 10) && AllDigits(fraction, 10) && |whole| + |fraction| > 0
    ensures UnsignedDecimal(whole + "." + fraction)
              == Some(DigitsValue(whole, 10) as real + FractionValue(fraction))
  {
    PointMantissa(whole, fraction);
    PointSplit(whole, fraction);
    PointValue(whole, fraction);
  }

  lemma PointMantissa(whole: string, fraction: string)
    requires AllDigits(whole, 10) && AllDigits(fraction, 10)
    ensures UnsignedDecimal(whole + "." + fraction) == Mantissa(whole + "." + fraction, Some(0))
  {
    var t := whole + "." + fraction;
    PointWithoutExponent(whole, fraction);
    assert t[..|t|] == t;
  }

  lemma PointSplit(whole: string, fraction: string)
    requires AllDigits(whole, 10)
    ensures Mantissa(whole + "." + fraction, Some(0)) == PointedDigits(whole, fraction, Some(0))
  {
    var t := whole + "." + fraction;
    PointPosition(whole, fraction);
    assert t[..|whole|] == whole && t[|whole| + 1..] == fraction;
  }

  lemma PointValue(whole: string, fraction: string)
    requires AllDigits(whole, 10) && AllDigits(fraction, 10) && |whole| + |fraction| > 0
    ensures PointedDigits(whole, fraction, Some(0))
              == Some(DigitsValue(whole, 10) as real + FractionValue(fraction))
  {
    ScaledByZero(DigitsValue(whole, 10) as real + FractionValue(fraction));
  }

  lemma PointWithoutExponent(whole: string, fraction: string)
    requires AllDigits(whole, 10) && AllDigits(fraction, 10)
    ensures FirstOf(whole + "." + fraction, {'e', 'E'}) == |whole + "." + fraction|
  {
    var t := whole + "." + fraction;
    DigitsAvoid(whole, 10);
    DigitsAvoid(fraction, 10);
    forall i | 0 <= i < |t| ensures t[i] !in {'e', 'E'} {
      if i < |whole| {
        assert t[i] == whole[i];
      } else if i > |whole| {
        assert t[i] == fraction[i - |whole| - 1];
      }
    }
    NoneOf(t, {'e', 'E'});
  }

  lemma PointPosition(whole: string, fraction: string)
    requires AllDigits(whole, 10)
    ensures FirstOf(whole + "." + fraction, {'.'}) == |whole|
  {
    var t := whole + "." + fraction;
    DigitsAvoid(whole, 10);
    forall j | 0 <= j < |whole| ensures t[j] !in {'.'} {
      assert t[j] == whole[j];
    }
    FirstOfAt(t, {'.'}, |whole|);
  }

  /** Digits, `e` and digits read as the number times that power of ten. */
  lemma DecimalExponent(digits: string, exponent: string)
    requires digits != [] && AllDigits(digits, 10)
    requires exponent != [] && AllDigits(exponent, 10)
    ensures UnsignedDecimal(digits + "e" + exponent)
              == Some(Scaled(DigitsValue(digits, 10) as real, DigitsValue(exponent, 10)))
  {
    ExponentMantissa(digits, exponent);
    ExponentValueOf(digits, DigitsValue(exponent, 10));
  }

  lemma ExponentMantissa(digits: string, exponent: string)
    requires AllDigits(digits, 10)
    requires exponent != [] && AllDigits(exponent, 10)
    ensures UnsignedDecimal(digits + "e" + exponent) == Mantissa(digits, Some(DigitsValue(exponent, 10) as int))
  {
    var t := digits + "e" + exponent;
    ExponentPosition(digits, exponent);
    assert t[..|digits|] == digits && t[|digits| + 1..] == exponent;
    UnsignedExponent(exponent);
  }

  lemma ExponentValueOf(digits: string, x: nat)
    requires digits != [] && AllDigits(digits, 10)
    ensures Mantissa(digits, Some(x)) == Some(Scaled(DigitsValue(digits, 10) as real, x))
  {
    WholeMantissa(digits, Some(x));
    WholeValue(digits, x);
  }

  lemma WholeMantissa(digits: string, x: Option<int>)
    requires AllDigits(digits, 10)
    ensures Mantissa(digits, x) == PointedDigits(digits, [], x)
  {
    DigitsAvoid(digits, 10);
    NoneOf(digits, {'.'});
    assert digits[..|digits|] == digits;
  }

  lemma WholeValue(digits: string, x: nat)
    requires digits != [] && AllDigits(digits, 10)
    ensures PointedDigits(digits, [], Some(x)) == Some(Scaled(DigitsValue(digits, 10) as real, x))
  {
    WholeScaled(digits, x);
    NoFraction(digits);
  }

  lemma WholeScaled(digits: string, x: nat)
    requires digits != [] && AllDigits(digits, 10)
    ensures PointedDigits(digits, [], Some(x))
              == Some(Scaled(DigitsValue(digits, 10) as real + FractionValue([]), x))
  {
  }

  lemma ExponentPosition(digits: string, exponent: string)
    requires AllDigits(digits, 10)
    ensures FirstOf(digits + "e" + exponent, {'e', 'E'}) == |digits|
  {
    var t := digits + "e" + exponent;
    DigitsAvoid(digits, 10);
    forall j | 0 <= j < |digits| ensures t[j] !in {'e', 'E'} {
      assert t[j] == digits[j];
    }
    FirstOfAt(t, {'e', 'E'}, |digits|);
  }

  lemma UnsignedExponent(exponent: string)
    requires exponent != [] && AllDigits(exponent, 10)
    ensures ExponentValue(exponent) == Some(DigitsValue(exponent, 10) as int)
  {
    DigitsAvoid(exponent, 10);
  }

  /** A leading `-` negates an unsigned decimal and a leading `+` keeps it. */
  lemma SignedDecimal(t: string)
    requires t != [] && (DigitValue(t[0]) < 10 || t[0] == '.')
    ensures NumericLiteral("-" + t) == (match UnsignedDecimal(t) case None => None case Some(r) => Some(-r))
    ensures NumericLiteral("+" + t) == UnsignedDecimal(t)
  {
    assert ("-" + t)[1..] == t && ("+" + t)[1..] == t;
  }

  /** `0x` and hexadecimal digits read as their value in base 16. */
  lemma HexInteger(h: string)
    requires h != [] && AllDigits(h, 16)
    ensures Parse("0x" + h) == Some(DigitsValue(h, 16) as real)
  {
    var t := "0x" + h;
    DigitsAvoid(h, 16);
    assert t[|t| - 1] == h[|h| - 1];
    SurroundingWhiteSpace([], t, []);
    assert t[2..] == h;
  }

  /** White space around a literal is skipped: the text reads as the literal
      alone, with or without it. */
  lemma SurroundingWhiteSpace(before: string, t: string, after: string)
    requires AllWhiteSpace(before) && AllWhiteSpace(after)
    requires t != [] && !IsWhiteSpace(t[0]) && !IsWhiteSpace(t[|t| - 1])
    ensures Parse(before + t + after) == NumericLiteral(t)
    ensures Parse(t) == NumericLiteral(t)
  {
    TrimStartPast(before, t + after);
    assert before + t + after == before + (t + after);
    TrimEndPast(t, after);
    TrimStartPast([], t);
    TrimEndPast(t, []);
    assert [] + t == t && t + [] == t;
  }

  lemma {:induction false} TrimStartPast(ws: string, rest: string)
    requires AllWhiteSpace(ws)
    requires rest != [] && !IsWhiteSpace(rest[0])
    ensures TrimStart(ws + rest) == rest
    decreases |ws|
  {
    if ws != [] {
      assert (ws + rest)[1..] == ws[1..] + rest;
      TrimStartPast(ws[1..], rest);
    } else {
      assert ws + rest == rest;
    }
  }

  lemma {:induction false} TrimEndPast(rest: string, ws: string)
    requires AllWhiteSpace(ws)
    requires rest != [] && !IsWhiteSpace(rest[|rest| - 1])
    ensures TrimEnd(rest + ws) == rest
    decreases |ws|
  {
    if ws != [] {
      assert (rest + ws)[..|rest + ws| - 1] == rest + ws[..|ws| - 1];
      TrimEndPast(rest, ws[..|ws| - 1]);
    } else {
      assert rest + ws == rest;
    }
  }

  /** The decimal text of a whole number, as `String(n)` writes it. */
  function DecimalText(n: nat): (r: string)
    ensures r != []
    decreases n
  {
    if n < 10 then [('0' as int + n) as char] else DecimalText(n / 10) + [('0' as int + n % 10) as char]
  }

  /** The decimal text of a whole number reads back as that number. */
  lemma DecimalTextRoundTrip(n: nat)
    ensures Parse(DecimalText(n)) == Some(n as real)
  {
    DecimalTextDigits(n);
  }

  lemma {:induction false} DecimalTextDigits(n: nat)
    ensures AllDigits(DecimalText(n), 10)
    ensures DigitsValue(DecimalText(n), 10) == n
    decreases n
  {
    var s := DecimalText(n);
    if n >= 10 {
      DecimalTextDigits(n / 10);
      var head := DecimalText(n / 10);
      assert s == head + [('0' as int + n % 10) as char];
      assert s[..|s| - 1] == head;
      assert DigitValue(s[|s| - 1]) == n % 10;
    } else {
      assert DigitValue(s[0]) == n;
      assert s[..0] == [];
    }
  }

  /** White space before a string of decimal digits is skipped. */
  lemma SpacedDigits(ws: string, digits: string)
    requires AllWhiteSpace(ws)
    requires digits != [] && AllDigits(digits, 10)
    ensures Parse(ws + digits) == Some(DigitsValue(digits, 10) as real)
  {
    DigitsAvoid(digits, 10);
    SurroundingWhiteSpace(ws, digits, []);
    assert ws + digits + [] == ws + digits;
    DigitsLiteral(digits);
  }

  /** Digits around a point read as the whole part plus the fraction. */
  lemma PointLiteral(whole: string, fraction: string)
    requires whole != [] && AllDigits(whole, 10) && AllDigits(fraction, 10)
    ensures Parse(whole + "." + fraction)
              == Some(DigitsValue(whole, 10) as real + FractionValue(fraction))
  {
    var t := whole + "." + fraction;
    DigitsAvoid(whole, 10);
    assert t[0] == whole[0];
    if fraction != [] {
      DigitsAvoid(fraction, 10);
      assert t[|t| - 1] == fraction[|fraction| - 1];
    }
    SurroundingWhiteSpace([], t, []);
    PointUnsigned(whole, fraction);
    DecimalPoint(whole, fraction);
  }

  lemma PointUnsigned(whole: string, fraction: string)
    requires whole != [] && AllDigits(whole, 10)
    ensures NumericLiteral(whole + "." + fraction) == UnsignedDecimal(whole + "." + fraction)
  {
    var t := whole + "." + fraction;
    DigitsAvoid(whole, 10);
    assert t[0] == whole[0];
    if |whole| > 1 {
      assert t[1] == whole[1];
    }
  }

  /** Digits, `e` and digits read as the number times that power of ten. */
  lemma ExponentLiteral(digits: string, exponent: string)
    requires digits != [] && AllDigits(digits, 10)
    requires exponent != [] && AllDigits(exponent, 10)
    ensures Parse(digits + "e" + exponent) == Some(Scaled(DigitsValue(digits, 10) as real, DigitsValue(exponent, 10)))
  {
    var t := digits + "e" + exponent;
    DigitsAvoid(digits, 10);
    DigitsAvoid(exponent, 10);
    assert t[0] == digits[0];
    assert t[|t| - 1] == exponent[|exponent| - 1];
    SurroundingWhiteSpace([], t, []);
    ExponentUnsigned(digits, exponent);
    DecimalExponent(digits, exponent);
  }

  lemma ExponentUnsigned(digits: string, exponent: string)
    requires digits != [] && AllDigits(digits, 10)
    requires AllDigits(exponent, 10)
    ensures NumericLiteral(digits + "e" + exponent) == UnsignedDecimal(digits + "e" + exponent)
  {
    var t := digits + "e" + exponent;
    DigitsAvoid(digits, 10);
    assert t[0] == digits[0];
    if |digits| > 1 {
      assert t[1] == digits[1];
    } else {
      assert t[1] == 'e';
    }
  }

  /** The digit strings of the examples below and their values. */
  lemma ExampleDigits()
    ensures AllDigits("12", 10) && DigitsValue("12", 10) == 12
    ensures AllDigits("5", 10) && FractionValue("5") == 0.5
    ensures AllDigits("7", 10) && DigitsValue("7", 10) == 7
    ensures AllDigits("1", 10) && DigitsValue("1", 10) == 1
    ensures AllDigits("2", 10) && DigitsValue("2", 10) == 2
    ensures Scaled(1.0, 2) == 100.0
    ensures AllWhiteSpace(" ")
  {
    assert Scaled(1.0, 1) == 10.0;
  }

  /** `Number("12.5")` is 12.5. */
  lemma PointForm()
    ensures Parse("12.5") == Some(12.5)
  {
    assert "12.5" == "12" + "." + "5";
    ExampleDigits();
    PointLiteral("12", "5");
  }

  /** `Number(" 7")` is 7. */
  lemma SpaceForm()
    ensures Parse(" 7") == Some(7.0)
  {
    assert " 7" == " " + "7";
    ExampleDigits();
    SpacedDigits(" ", "7");
  }

  /** `Number("1e2")` is 100. */
  lemma ExponentForm()
    ensures Parse("1e2") == Some(100.0)
  {
    assert "1e2" == "1" + "e" + "2";
    ExampleDigits();
    ExponentLiteral("1", "2");
  }

  /** `Number("0x1F")` is 31. */
  lemma HexForm()
    ensures Parse("0x1F") == Some(31.0)
  {
    assert "0x1F" == "0x" + "1F";
    HexInteger("1F");
    assert DigitsValue("1F", 16) == 31;
  }
}
