/**
 * The PHP built-ins the plugin's logic rests on: `empty()`, the scalar casts, `trim`,
 * `strtolower`, `preg_replace('/[^0-9]/', '', ...)`, `stripos`, `rtrim`, `rawurlencode`,
 * `strval`, `implode`, `substr`, `array_filter` and `array_unique`.
 *
 * A PHP string is a byte string; here it is a `string` whose characters stand for bytes.
 */
module Php {

  /** A PHP scalar as it comes out of a settings array, a constant or `$_POST`. */
  datatype Value = Null | Bool(b: bool) | Int(i: int) | Str(s: string)

  // ---------------------------------------------------------------------------------------------
  // empty() and the scalar casts
  // ---------------------------------------------------------------------------------------------

  /** `empty($s)` for a string: the empty string and "0" are empty. */
  predicate IsEmptyString(s: string) {
    s == "" || s == "0"
  }

  /** `empty($v)` for a scalar. */
  predicate IsEmpty(v: Value) {
    match v
    case Null => true
    case Bool(b) => !b
    case Int(i) => i == 0
    case Str(s) => IsEmptyString(s)
  }

  /** `(bool) $v`: for a scalar it is exactly the negation of `empty($v)`. */
  predicate ToBool(v: Value) {
    !IsEmpty(v)
  }

  /** `(string) $v` and string interpolation of a scalar. */
  function ToStr(v: Value): string {
    match v
    case Null => ""
    case Bool(b) => if b then "1" else ""
    case Int(i) => IntToString(i)
    case Str(s) => s
  }

  /** The largest and the smallest integer PHP holds on a 64-bit build. */
  const PhpIntMax: int := 0x7FFF_FFFF_FFFF_FFFF
  const PhpIntMin: int := -0x8000_0000_0000_0000

  predicate IsPhpInt(n: int) {
    PhpIntMin <= n <= PhpIntMax
  }

  /** A PHP integer: the ids WooCommerce hands out and the status codes of HTTP replies are these. */
  type PhpInt = n: int | IsPhpInt(n)

  /**
   * `(int) $v` and `intval($v)`. A string is read, as PHP 7.1 and later do, as its longest
   * numeric prefix (see `ParseLeadingInt`); no numeric prefix gives 0.
   */
  function ToInt(v: Value): int {
    match v
    case Null => 0
    case Bool(b) => if b then 1 else 0
    case Int(i) => i
    case Str(s) => ParseLeadingInt(s)
  }

  predicate IsCastSpace(c: char) {
    c == ' ' || c == '\t' || c == '\n' || c == '\r' || c == '\U{0B}' || c == '\U{0C}'
  }

  function SkipCastSpace(s: string): string {
    if s != [] && IsCastSpace(s[0]) then SkipCastSpace(s[1..]) else s
  }

  /** The longest prefix of `s` made of decimal digits. */
  function LeadingDigits(s: string): (r: string)
    ensures |r| <= |s|
    ensures |r| < |s| ==> !IsDigit(s[|r|])
  {
    if s != [] && IsDigit(s[0]) then [s[0]] + LeadingDigits(s[1..]) else []
  }

  /** The run `LeadingDigits` finds is a prefix of its input made only of digits. */
  lemma {:induction false} LeadingDigitsAreDigits(s: string)
    ensures AllDigits(LeadingDigits(s)) && LeadingDigits(s) == s[..|LeadingDigits(s)|]
  {
    if s != [] && IsDigit(s[0]) {
      LeadingDigitsAreDigits(s[1..]);
    }
  }

  function Pow10(k: nat): (r: nat)
    ensures r >= 1
  {
    if k == 0 then 1 else 10 * Pow10(k - 1)
  }

  /** An integer beyond the 64-bit range saturates at the nearest bound. */
  function Saturate(n: int): PhpInt {
    if n > PhpIntMax then PhpIntMax else if n < PhpIntMin then PhpIntMin else n
  }

  /**
   * The exponent at the head of `s`, which follows a mantissa: `e` or `E`, an optional sign and
   * at least one digit; anything else is no exponent, 0.
   */
  function ExponentOf(s: string): int {
    if |s| >= 2 && (s[0] == 'e' || s[0] == 'E') then
      if IsDigit(s[1]) then DigitsValue(LeadingDigits(s[1..]))
      else if |s| >= 3 && (s[1] == '+' || s[1] == '-') && IsDigit(s[2]) then
        var e: int := DigitsValue(LeadingDigits(s[2..]));
        if s[1] == '-' then -e else e
      else 0
    else 0
  }

  /** The digits after a decimal point at the head of `rest`; none without the point. */
  function FractionOf(rest: string): string {
    if rest != [] && rest[0] == '.' then LeadingDigits(rest[1..]) else []
  }

  /** What follows the decimal point and its digits. */
  function AfterFraction(rest: string): string {
    if rest != [] && rest[0] == '.' then rest[1 + |LeadingDigits(rest[1..])|..] else rest
  }

  /** `m` times ten to the `scale`, truncated toward zero, one decimal place at a time. */
  function Scaled(m: nat, scale: int): nat
    decreases if scale < 0 then -scale else scale
  {
    if scale > 0 then Scaled(10 * m, scale - 1)
    else if scale < 0 then Scaled(m / 10, scale + 1)
    else m
  }

  /**
   * The unsigned decimal number at the head of `t`, truncated toward zero: digits, then an
   * optional `.` and digits, with at least one digit in all, then an optional exponent.
   */
  function UnsignedValue(t: string): nat {
    var whole := LeadingDigits(t);
    NumberValue(whole, t[|whole|..])
  }

  /** The value of the integer digits `whole` followed by the text `rest`, which may hold a fraction and an exponent. */
  function NumberValue(whole: string, rest: string): nat {
    var fraction := FractionOf(rest);
    if whole == [] && fraction == [] then 0
    else Scaled(DigitsValue(whole + fraction), ExponentOf(AfterFraction(rest)) - |fraction|)
  }

  lemma AllDigitsAppend(a: string, b: string)
    requires AllDigits(a) && AllDigits(b)
    ensures AllDigits(a + b)
  {
  }

  /**
   * How `(int)` reads a string: leading whitespace, an optional sign, then the number
   * `UnsignedValue` reads, truncated toward zero and saturated at the 64-bit bounds.
   */
  function ParseLeadingInt(s: string): PhpInt {
    var t := SkipCastSpace(s);
    if t != [] && t[0] == '-' then Saturate(0 - UnsignedValue(t[1..]))
    else if t != [] && t[0] == '+' then Saturate(UnsignedValue(t[1..]))
    else Saturate(UnsignedValue(t))
  }

  // ---------------------------------------------------------------------------------------------
  // Decimal digits: strval() of an integer and its reading back
  // ---------------------------------------------------------------------------------------------

  predicate IsDigit(c: char) {
    '0' <= c <= '9'
  }

  predicate AllDigits(s: string) {
    forall i :: 0 <= i < |s| ==> IsDigit(s[i])
  }

  function DigitChar(d: nat): char
    requires d < 10
  {
    "0123456789"[d]
  }

  /** The value of one decimal digit; the readers below apply it to digits only. */
  function DigitValue(c: char): nat {
    if IsDigit(c) then c as int - '0' as int else 0
  }

  /** The number a string of decimal digits denotes (the empty string denotes 0). */
  function DigitsValue(s: string): nat {
    if s == [] then 0 else 10 * DigitsValue(s[..|s| - 1]) + DigitValue(s[|s| - 1])
  }

  /** The decimal representation of a natural number, without leading zeros. */
  function NatToString(n: nat): (r: string)
    ensures r != [] && AllDigits(r)
    ensures n < 10 ==> r == [DigitChar(n)]
    ensures n >= 10 ==> |r| >= 2
  {
    if n < 10 then [DigitChar(n)] else NatToString(n / 10) + [DigitChar(n % 10)]
  }

  /** `strval($n)` for an integer. */
  function IntToString(n: int): string {
    if n < 0 then "-" + NatToString(-n) else NatToString(n)
  }

  /** Reading the digits back gives the number: `DigitsValue` inverts `NatToString`. */
  lemma {:induction false} NatToStringRoundTrip(n: nat)
    ensures DigitsValue(NatToString(n)) == n
  {
    if n >= 10 {
      NatToStringRoundTrip(n / 10);
      var s := NatToString(n);
      assert s[..|s| - 1] == NatToString(n / 10);
    }
  }

  lemma LeadingDigitsOfDigits(s: string)
    requires AllDigits(s)
    ensures LeadingDigits(s) == s
  {
    if s != [] {
      LeadingDigitsOfDigits(s[1..]);
    }
  }

  /** The digit run ends where a non-digit starts. */
  lemma {:induction false} LeadingDigitsAppend(a: string, rest: string)
    requires AllDigits(a)
    requires rest == [] || !IsDigit(rest[0])
    ensures LeadingDigits(a + rest) == a
  {
    if a != [] {
      assert (a + rest)[1..] == a[1..] + rest;
      LeadingDigitsAppend(a[1..], rest);
    } else {
      assert a + rest == rest;
    }
  }

  /** Scaling up by `k` places multiplies by `10^k`. */
  lemma {:induction false} ScaledUp(m: nat, k: nat)
    ensures Scaled(m, k) == m * Pow10(k)
    decreases k
  {
    if k > 0 {
      ScaledUp(10 * m, k - 1);
      assert (10 * m) * Pow10(k - 1) == m * (10 * Pow10(k - 1));
    }
  }

  /** Scaling the digits of `a + b` down by `|b|` places drops the digits of `b`. */
  lemma {:induction false} FractionDropped(a: string, b: string)
    requires AllDigits(a) && AllDigits(b)
    ensures AllDigits(a + b)
    ensures Scaled(DigitsValue(a + b), -|b|) == DigitsValue(a)
  {
    AllDigitsAppend(a, b);
    if b == [] {
      assert a + b == a;
    } else {
      var b' := b[..|b| - 1];
      assert (a + b)[..|a + b| - 1] == a + b';
      AllDigitsAppend(a, b');
      assert DigitsValue(a + b) / 10 == DigitsValue(a + b');
      FractionDropped(a, b');
    }
  }

  /** A non-empty run of digits followed by nothing numeric is read as the number it denotes. */
  lemma {:induction false} UnsignedOfDigits(d: string, rest: string)
    requires d != [] && AllDigits(d)
    requires rest == [] || (!IsDigit(rest[0]) && rest[0] != '.' && rest[0] != 'e' && rest[0] != 'E')
    ensures UnsignedValue(d + rest) == DigitsValue(d)
  {
    LeadingDigitsAppend(d, rest);
    assert (d + rest)[|d|..] == rest;
    assert d + [] == d;
  }

  /** `(int)` of a digit string is its value, saturated. */
  lemma {:induction false} DigitsRead(d: string)
    requires d != [] && AllDigits(d)
    ensures ToInt(Str(d)) == Saturate(DigitsValue(d))
  {
    UnsignedOfDigits(d, []);
    assert d + [] == d;
  }

  /** After a run of digits `a`, the rest of the text supplies the fraction and the exponent. */
  lemma {:induction false} UnsignedOfParts(a: string, rest: string)
    requires a != [] && AllDigits(a)
    requires rest == [] || !IsDigit(rest[0])
    ensures UnsignedValue(a + rest) == NumberValue(a, rest)
  {
    LeadingDigitsAppend(a, rest);
    assert (a + rest)[|a|..] == rest;
  }

  /** A point followed by digits `b` is the fraction `b`; whatever follows the digits is left for the exponent. */
  lemma {:induction false} FractionParts(b: string, after: string)
    requires AllDigits(b)
    requires after == [] || !IsDigit(after[0])
    ensures FractionOf("." + (b + after)) == b
    ensures AfterFraction("." + (b + after)) == after
  {
    var rest := "." + (b + after);
    assert rest[1..] == b + after;
    LeadingDigitsAppend(b, after);
  }

  /** `e` followed by digits is an exponent of their value. */
  lemma {:induction false} ExponentParts(e: string)
    requires e != [] && AllDigits(e)
    ensures ExponentOf("e" + e) == DigitsValue(e)
  {
    assert ("e" + e)[1..] == e;
    LeadingDigitsOfDigits(e);
  }

  /** The number part `a` followed by the point and the digits `b` and then `after`, where no digit follows. */
  lemma {:induction false} NumberOfFraction(a: string, b: string, after: string)
    requires a != [] && AllDigits(b)
    requires after == [] || !IsDigit(after[0])
    ensures NumberValue(a, "." + (b + after)) == Scaled(DigitsValue(a + b), ExponentOf(after) - |b|)
  {
    var rest := "." + (b + after);
    FractionParts(b, after);
    var fraction := FractionOf(rest);
    assert fraction == b && AfterFraction(rest) == after;
    assert !(a == [] && fraction == []);
  }

  /** The number `a.b` is read as the digits of both, scaled down by the length of `b`. */
  lemma {:induction false} UnsignedOfFraction(a: string, b: string)
    requires a != [] && AllDigits(a) && AllDigits(b)
    ensures AllDigits(a + b)
    ensures UnsignedValue(a + "." + b) == Scaled(DigitsValue(a + b), -|b|)
  {
    AllDigitsAppend(a, b);
    var rest := "." + (b + []);
    assert b + [] == b;
    assert a + "." + b == a + rest;
    assert rest[0] == '.';
    UnsignedOfParts(a, rest);
    NumberOfFraction(a, b, []);
  }

  /** A string that starts with a digit has no whitespace or sign for the cast to skip. */
  lemma {:induction false} CastOfUnsigned(s: string)
    requires s != [] && IsDigit(s[0])
    ensures ToInt(Str(s)) == Saturate(UnsignedValue(s))
  {
    assert SkipCastSpace(s) == s;
  }

  /** `(int) "a.b"` drops the fraction: the cast truncates toward zero. */
  lemma {:induction false} FractionTruncated(a: string, b: string)
    requires a != [] && AllDigits(a) && AllDigits(b)
    ensures ToInt(Str(a + "." + b)) == Saturate(DigitsValue(a))
  {
    assert (a + "." + b)[0] == a[0];
    CastOfUnsigned(a + "." + b);
    UnsignedOfFraction(a, b);
    FractionDropped(a, b);
  }

  /** The number part `a` followed by an exponent and no fraction. */
  lemma {:induction false} NumberOfExponent(a: string, e: string)
    requires a != [] && e != [] && AllDigits(e)
    ensures NumberValue(a, "e" + e) == Scaled(DigitsValue(a), DigitsValue(e))
  {
    assert FractionOf("e" + e) == [] && AfterFraction("e" + e) == "e" + e;
    ExponentParts(e);
    assert a + [] == a;
  }

  /** The number `a` followed by the exponent `e` is read as `a` scaled by `e` places. */
  lemma {:induction false} UnsignedOfExponent(a: string, e: string)
    requires a != [] && AllDigits(a) && e != [] && AllDigits(e)
    ensures UnsignedValue(a + "e" + e) == Scaled(DigitsValue(a), DigitsValue(e))
  {
    var rest := "e" + e;
    assert a + "e" + e == a + rest;
    assert rest[0] == 'e';
    UnsignedOfParts(a, rest);
    NumberOfExponent(a, e);
  }

  /** `(int) "aEb"` reads the exponent form: `a` times ten to the `b`, saturated. */
  lemma {:induction false} ExponentScales(a: string, e: string)
    requires a != [] && AllDigits(a) && e != [] && AllDigits(e)
    ensures ToInt(Str(a + "e" + e)) == Saturate(DigitsValue(a) * Pow10(DigitsValue(e)))
  {
    assert (a + "e" + e)[0] == a[0];
    CastOfUnsigned(a + "e" + e);
    UnsignedOfExponent(a, e);
    ScaledUp(DigitsValue(a), DigitsValue(e));
  }

  /** The number part `a` followed by a fraction `b` and an exponent `e`. */
  lemma {:induction false} NumberOfFractionExponent(a: string, b: string, e: string)
    requires a != [] && AllDigits(b) && e != [] && AllDigits(e)
    ensures NumberValue(a, "." + (b + ("e" + e))) == Scaled(DigitsValue(a + b), DigitsValue(e) - |b|)
  {
    var exponent := "e" + e;
    assert exponent[0] == 'e';
    NumberOfFraction(a, b, exponent);
    ExponentParts(e);
  }

  /** The number `a.bEe` is read as the digits of `a` and `b`, scaled by `e` less the length of `b`. */
  lemma {:induction false} UnsignedOfFractionExponent(a: string, b: string, e: string)
    requires a != [] && AllDigits(a) && AllDigits(b) && e != [] && AllDigits(e)
    ensures UnsignedValue(a + ("." + (b + ("e" + e)))) == Scaled(DigitsValue(a + b), DigitsValue(e) - |b|)
  {
    var rest := "." + (b + ("e" + e));
    assert rest[0] == '.';
    UnsignedOfParts(a, rest);
    NumberOfFractionExponent(a, b, e);
  }

  /** The exponent form, as a number field accepts it, is read whole: `(int) "5e1"` is 50. */
  lemma ExponentExample()
    ensures ToInt(Str("5e1")) == 50
  {
    assert "5e1" == "5" + "e" + "1";
    CastOfUnsigned("5e1");
    UnsignedOfExponent("5", "1");
    assert DigitsValue("5") == 5 && DigitsValue("1") == 1;
    assert Scaled(5, 1) == 50;
  }

  /** A fraction and an exponent together: `(int) "1.5e1"` is 15. */
  lemma FractionExponentExample()
    ensures ToInt(Str("1.5e1")) == 15
  {
    var s := "1" + ("." + ("5" + ("e" + "1")));
    assert s == "1.5e1";
    CastOfUnsigned(s);
    UnsignedOfFractionExponent("1", "5", "1");
    assert "1" + "5" == "15";
    assert DigitsValue("15") == 15;
    assert UnsignedValue(s) == 15;
  }

  /** A negative fraction is cut off toward zero: `(int) "-7.9"` is -7. */
  lemma NegativeFractionExample()
    ensures ToInt(Str("-7.9")) == -7
  {
    var s := "-7.9";
    assert SkipCastSpace(s) == s;
    var u := s[1..];
    assert u == "7" + "." + "9";
    UnsignedOfFraction("7", "9");
    FractionDropped("7", "9");
    assert DigitsValue("7") == 7;
    assert UnsignedValue(u) == 7;
  }

  /** Leading whitespace is skipped and trailing text ignored: `(int) " 42abc"` is 42. */
  lemma TrailingTextExample()
    ensures ToInt(Str(" 42abc")) == 42
  {
    assert " 42abc"[1..] == "42" + "abc";
    assert SkipCastSpace(" 42abc") == "42abc";
    UnsignedOfDigits("42", "abc");
    assert DigitsValue("42") == 42;
  }

  /** Text that does not start with a number is 0. */
  lemma NoNumberExample()
    ensures ToInt(Str("abc")) == 0
  {
    assert LeadingDigits("abc") == [];
  }

  /** A digit string without a leading zero has at least the value of its leading place. */
  lemma {:induction false} DigitsValueAtLeast(d: string)
    requires d != [] && AllDigits(d) && d[0] != '0'
    ensures DigitsValue(d) >= Pow10(|d| - 1)
  {
    if |d| > 1 {
      DigitsValueAtLeast(d[..|d| - 1]);
    }
  }

  /** Twenty or more digits without a leading zero are past the 64-bit range: the cast saturates at `PHP_INT_MAX`. */
  lemma {:induction false} LongDigitsSaturate(d: string)
    requires |d| >= 20 && AllDigits(d) && d[0] != '0'
    ensures ToInt(Str(d)) == PhpIntMax
  {
    CastOfUnsigned(d);
    UnsignedOfDigits(d, []);
    assert d + [] == d;
    DigitsValueAtLeast(d);
    Pow10Monotone(19, |d| - 1);
    assert Pow10(19) == 10000000000000000000 by {
      assert Pow10(4) == 10000;
      assert Pow10(8) == 100000000;
      assert Pow10(12) == 1000000000000;
      assert Pow10(16) == 10000000000000000;
    }
  }

  lemma {:induction false} Pow10Monotone(j: nat, k: nat)
    requires j <= k
    ensures Pow10(j) <= Pow10(k)
    decreases k
  {
    if j < k {
      Pow10Monotone(j, k - 1);
    }
  }

  /** `(int) strval($n) == $n` for every integer PHP holds: the cast inverts the string conversion. */
  lemma IntToStringRoundTrip(n: int)
    requires IsPhpInt(n)
    ensures ToInt(Str(IntToString(n))) == n
  {
    var s := IntToString(n);
    var digits := NatToString(if n < 0 then -n else n);
    NatToStringRoundTrip(if n < 0 then -n else n);
    UnsignedOfDigits(digits, []);
    assert digits + [] == digits;
    assert SkipCastSpace(s) == s;
    if n < 0 {
      assert s[1..] == digits;
    }
  }

  /** `strval($n)` is PHP-empty exactly for 0, and it has nothing `trim` or `strtolower` change. */
  lemma IntToStringShape(n: int)
    ensures IsEmptyString(IntToString(n)) <==> n == 0
    ensures Trimmed(IntToString(n)) && Lower(IntToString(n)) == IntToString(n)
  {
    var s := IntToString(n);
    assert forall i :: 0 <= i < |s| ==> IsDigit(s[i]) || s[i] == '-';
    if n < 0 {
      assert s[0] == '-' && s != "0";
    } else if n >= 10 {
      assert |s| >= 2;
    }
    AllLowerFixed(s);
  }

  // ---------------------------------------------------------------------------------------------
  // trim() and strtolower()
  // ---------------------------------------------------------------------------------------------

  /** The characters `trim` strips by default: space, tab, newline, carriage return, NUL, vertical tab. */
  predicate IsTrimChar(c: char) {
    c == ' ' || c == '\t' || c == '\n' || c == '\r' || c == '\0' || c == '\U{0B}'
  }

  /** A string `trim` leaves as it is. */
  predicate Trimmed(s: string) {
    s == [] || (!IsTrimChar(s[0]) && !IsTrimChar(s[|s| - 1]))
  }

  function TrimLeft(s: string): (r: string)
    ensures |r| <= |s|
    ensures r != [] ==> r[|r| - 1] == s[|s| - 1]
    ensures r == [] || !IsTrimChar(r[0])
  {
    if s != [] && IsTrimChar(s[0]) then TrimLeft(s[1..]) else s
  }

  function TrimRight(s: string): (r: string)
    ensures |r| <= |s|
    ensures r != [] ==> r[0] == s[0]
    ensures r == [] || !IsTrimChar(r[|r| - 1])
  {
    if s != [] && IsTrimChar(s[|s| - 1]) then TrimRight(s[..|s| - 1]) else s
  }

  /** `trim($s)`. */
  function Trim(s: string): (r: string)
    ensures Trimmed(r)
  {
    TrimRight(TrimLeft(s))
  }

  /** `TrimLeft` keeps a suffix and drops only trim characters in front of it. */
  lemma {:induction false} TrimLeftDrops(s: string)
    ensures var r := TrimLeft(s);
      r == s[|s| - |r|..] && forall i :: 0 <= i < |s| - |r| ==> IsTrimChar(s[i])
  {
    if s != [] && IsTrimChar(s[0]) {
      TrimLeftDrops(s[1..]);
    }
  }

  /** `TrimRight` keeps a prefix and drops only trim characters after it. */
  lemma {:induction false} TrimRightDrops(s: string)
    ensures var r := TrimRight(s);
      r == s[..|r|] && forall i :: |r| <= i < |s| ==> IsTrimChar(s[i])
  {
    if s != [] && IsTrimChar(s[|s| - 1]) {
      TrimRightDrops(s[..|s| - 1]);
    }
  }

  /**
   * `trim` keeps the slice of `s` that starts at `lo`: everything before `lo` and everything
   * after the slice is a trim character, and the slice itself starts and ends with none.
   */
  lemma TrimSlice(s: string)
    ensures var r := Trim(s); var lo := |s| - |TrimLeft(s)|;
      && 0 <= lo <= lo + |r| <= |s|
      && r == s[lo..lo + |r|]
      && (forall i :: 0 <= i < lo ==> IsTrimChar(s[i]))
      && (forall i :: lo + |r| <= i < |s| ==> IsTrimChar(s[i]))
      && Trimmed(r)
  {
    var l := TrimLeft(s);
    var lo := |s| - |l|;
    TrimLeftDrops(s);
    TrimRightDrops(l);
    var r := Trim(s);
    assert r == l[..|r|];
    assert s[lo..lo + |r|] == l[..|r|];
    forall i | lo + |r| <= i < |s|
      ensures IsTrimChar(s[i])
    {
      assert s[i] == l[i - lo];
    }
  }

  /** A string with nothing to strip at either end is its own trim. */
  lemma TrimOfTrimmed(s: string)
    requires Trimmed(s)
    ensures Trim(s) == s
  {
  }

  /** `trim` leaves "" and "0" as they are. */
  lemma TrimOfEmpty(s: string)
    requires IsEmptyString(s)
    ensures Trim(s) == s
  {
    assert Trimmed(s);
    TrimOfTrimmed(s);
  }

  lemma TrimIdempotent(s: string)
    ensures Trim(Trim(s)) == Trim(s)
  {
    TrimOfTrimmed(Trim(s));
  }

  /** ASCII lower-casing: `strtolower` in the C locale, the one PHP starts in. */
  function LowerChar(c: char): char {
    if 'A' <= c <= 'Z' then (c as int + 32) as char else c
  }

  /** `strtolower($s)`. */
  function Lower(s: string): (r: string)
    ensures |r| == |s|
    ensures forall i :: 0 <= i < |s| ==> r[i] == LowerChar(s[i])
  {
    seq(|s|, i requires 0 <= i < |s| => LowerChar(s[i]))
  }

  lemma LowerIdempotent(s: string)
    ensures Lower(Lower(s)) == Lower(s)
  {
  }

  /** Lower-casing turns no string into "" or "0" and none of those into anything else. */
  lemma LowerKeepsEmptiness(s: string)
    ensures IsEmptyString(Lower(s)) <==> IsEmptyString(s)
  {
    if |s| == 1 {
      assert Lower(s)[0] == LowerChar(s[0]);
    }
  }

  lemma AllLowerFixed(s: string)
    requires forall i :: 0 <= i < |s| ==> !('A' <= s[i] <= 'Z')
    ensures Lower(s) == s
  {
  }

  /** Lower-casing touches no character `trim` strips, so it keeps a trimmed string trimmed. */
  lemma LowerKeepsTrimmed(s: string)
    requires Trimmed(s)
    ensures Trimmed(Lower(s))
  {
  }

  /**
   * The normal form `strtolower(trim($v))` is a fixed point of the normalisation: normalising
   * an already normalised value changes nothing.
   */
  lemma NormaliseIdempotent(v: string)
    ensures Lower(Trim(Lower(Trim(v)))) == Lower(Trim(v))
  {
    LowerKeepsTrimmed(Trim(v));
    TrimOfTrimmed(Lower(Trim(v)));
    LowerIdempotent(Trim(v));
  }

  // ---------------------------------------------------------------------------------------------
  // preg_replace('/[^0-9]/', '', $s)
  // ---------------------------------------------------------------------------------------------

  /** The decimal digits of `s`, in order: `preg_replace('/[^0-9]/', '', $s)`. */
  function DigitsOnly(s: string): (r: string)
    ensures |r| <= |s|
    ensures AllDigits(r)
  {
    if s == [] then [] else (if IsDigit(s[0]) then [s[0]] else []) + DigitsOnly(s[1..])
  }

  /** The digits of a concatenation are the digits of each part, in order. */
  lemma {:induction false} DigitsOnlyAppend(a: string, b: string)
    ensures DigitsOnly(a + b) == DigitsOnly(a) + DigitsOnly(b)
  {
    if a != [] {
      assert (a + b)[1..] == a[1..] + b;
      DigitsOnlyAppend(a[1..], b);
    } else {
      assert a + b == b;
    }
  }

  /** A digit is kept as it is, any other character is dropped. */
  lemma DigitsOnlyOfChar(c: char)
    ensures DigitsOnly([c]) == if IsDigit(c) then [c] else []
  {
  }

  /** Every digit of the input survives, as often as it occurs, and nothing else does. */
  lemma {:induction false} DigitsOnlyCounts(s: string, c: char)
    ensures multiset(DigitsOnly(s))[c] == if IsDigit(c) then multiset(s)[c] else 0
  {
    if s != [] {
      DigitsOnlyCounts(s[1..], c);
      assert s == [s[0]] + s[1..];
    }
  }

  /** A string of digits is left unchanged; hence applying the filter twice equals applying it once. */
  lemma {:induction false} DigitsOnlyFixesDigits(s: string)
    requires AllDigits(s)
    ensures DigitsOnly(s) == s
  {
    if s != [] {
      DigitsOnlyFixesDigits(s[1..]);
    }
  }

  lemma DigitsOnlyIdempotent(s: string)
    ensures DigitsOnly(DigitsOnly(s)) == DigitsOnly(s)
  {
    DigitsOnlyFixesDigits(DigitsOnly(s));
  }

  /** A string of digits is unchanged by `trim` and `strtolower`. */
  lemma DigitsNormalised(s: string)
    requires AllDigits(s)
    ensures Trimmed(s) && Lower(s) == s
  {
    AllLowerFixed(s);
  }

  // ---------------------------------------------------------------------------------------------
  // stripos(), strpos() and rtrim($s, $c)
  // ---------------------------------------------------------------------------------------------

  predicate MatchesAt(s: string, p: string, i: int)
    requires 0 <= i <= |s| - |p|
  {
    Lower(s[i..i + |p|]) == Lower(p)
  }

  /** `stripos($s, $p) !== false`: `p` occurs in `s`, ignoring ASCII case. */
  predicate ContainsCI(s: string, p: string) {
    exists i :: 0 <= i <= |s| - |p| && MatchesAt(s, p, i)
  }

  /** An occurrence stays an occurrence when text is appended. */
  lemma ContainsCIExtend(s: string, p: string, t: string)
    ensures ContainsCI(s, p) ==> ContainsCI(s + t, p)
  {
    if ContainsCI(s, p) {
      var i :| 0 <= i <= |s| - |p| && MatchesAt(s, p, i);
      assert (s + t)[i..i + |p|] == s[i..i + |p|];
      assert MatchesAt(s + t, p, i);
    }
  }

  /** Text placed between a prefix and a suffix occurs in the whole. */
  lemma ContainsCIMiddle(a: string, p: string, b: string)
    ensures ContainsCI(a + p + b, p)
  {
    assert (a + p + b)[|a|..|a| + |p|] == p;
    assert MatchesAt(a + p + b, p, |a|);
  }

  /** `rtrim($s, $c)` for a single character. */
  function RTrimChar(s: string, c: char): (r: string)
    ensures |r| <= |s| && r == s[..|r|]
    ensures r == [] || r[|r| - 1] != c
  {
    if s != [] && s[|s| - 1] == c then RTrimChar(s[..|s| - 1], c) else s
  }

  /** Everything `rtrim` removes is the character `c`: the result is the longest such prefix. */
  lemma {:induction false} RTrimCharDrops(s: string, c: char)
    ensures var r := RTrimChar(s, c); forall i :: |r| <= i < |s| ==> s[i] == c
  {
    if s != [] && s[|s| - 1] == c {
      RTrimCharDrops(s[..|s| - 1], c);
    }
  }

  // ---------------------------------------------------------------------------------------------
  // rawurlencode()
  // ---------------------------------------------------------------------------------------------

  /** The characters section 2.3 of RFC 3986 calls unreserved; `rawurlencode` keeps them as they are. */
  predicate IsUnreserved(c: char) {
    'A' <= c <= 'Z' || 'a' <= c <= 'z' || '0' <= c <= '9' || c == '-' || c == '_' || c == '.' || c == '~'
  }

  function HexDigit(n: nat): char
    requires n < 16
  {
    "0123456789ABCDEF"[n]
  }

  /** One byte of `rawurlencode`: kept when unreserved, otherwise `%` and two upper-case hex digits. */
  function EncodeByte(c: char): (r: string)
    ensures 1 <= |r| <= 3
    ensures !IsTrimChar(r[|r| - 1])
  {
    if IsUnreserved(c) then [c]
    else
      var b := c as int % 256;
      ['%', HexDigit(b / 16), HexDigit(b % 16)]
  }

  /** The value of an upper-case hex digit; `HexDigit` is its inverse. */
  function HexValue(c: char): nat {
    if '0' <= c <= '9' then c as nat - '0' as nat
    else if 'A' <= c <= 'F' then c as nat - 'A' as nat + 10
    else 0
  }

  lemma HexRoundTrip(n: nat)
    requires n < 16
    ensures HexValue(HexDigit(n)) == n
    ensures HexDigit(n) != '%'
  {
    var digits := "0123456789ABCDEF";
    assert HexDigit(n) == digits[n];
  }

  /** A byte of a PHP string. */
  predicate IsByte(c: char) {
    c as int < 256
  }

  /**
   * An unreserved byte is kept; any other byte becomes `%` and two hex digits whose value is
   * the byte.
   */
  lemma EncodeByteSpec(c: char)
    ensures IsUnreserved(c) ==> EncodeByte(c) == [c]
    ensures !IsUnreserved(c) ==>
      && |EncodeByte(c)| == 3 && EncodeByte(c)[0] == '%'
      && 16 * HexValue(EncodeByte(c)[1]) + HexValue(EncodeByte(c)[2]) == c as int % 256
  {
    if !IsUnreserved(c) {
      var b := c as int % 256;
      HexRoundTrip(b / 16);
      HexRoundTrip(b % 16);
    }
  }

  /** Reads `%XX` back as the byte it stands for and keeps every other character. */
  function RawUrlDecode(s: string): string
    decreases |s|
  {
    if s == [] then []
    else if s[0] == '%' && |s| >= 3 then [(16 * HexValue(s[1]) + HexValue(s[2])) as char] + RawUrlDecode(s[3..])
    else [s[0]] + RawUrlDecode(s[1..])
  }

  /** `rawurlencode($s)`. */
  function RawUrlEncode(s: string): (r: string)
    ensures |s| <= |r| <= 3 * |s|
    ensures r != [] ==> !IsTrimChar(r[|r| - 1])
  {
    if s == [] then [] else EncodeByte(s[0]) + RawUrlEncode(s[1..])
  }

  /** Encoding works byte by byte: the encoding of a concatenation is the concatenation of the encodings. */
  lemma {:induction false} RawUrlEncodeAppend(a: string, b: string)
    ensures RawUrlEncode(a + b) == RawUrlEncode(a) + RawUrlEncode(b)
  {
    if a == [] {
      assert a + b == b;
    } else {
      assert (a + b)[0] == a[0] && (a + b)[1..] == a[1..] + b;
      RawUrlEncodeAppend(a[1..], b);
    }
  }

  lemma {:induction false} DecodeEncodedByte(c: char, rest: string)
    requires IsByte(c)
    ensures RawUrlDecode(EncodeByte(c) + rest) == [c] + RawUrlDecode(rest)
  {
    if IsUnreserved(c) {
      EncodeByteSpec(c);
      assert (EncodeByte(c) + rest)[1..] == rest;
    } else {
      DecodeEscape(c, rest);
    }
  }

  /** A byte written as `%XX` is read back as that byte. */
  lemma {:induction false} DecodeEscape(c: char, rest: string)
    requires IsByte(c) && !IsUnreserved(c)
    ensures RawUrlDecode(EncodeByte(c) + rest) == [c] + RawUrlDecode(rest)
  {
    EncodeByteSpec(c);
    var x := EncodeByte(c);
    var e := x + rest;
    assert e[0] == '%' && |e| >= 3;
    assert e[1] == x[1] && e[2] == x[2];
    assert e[3..] == rest;
    assert (16 * HexValue(e[1]) + HexValue(e[2])) as char == c;
  }

  /** `rawurldecode` undoes `rawurlencode` on every string of bytes. */
  lemma {:induction false} RawUrlRoundTrip(s: string)
    requires forall i :: 0 <= i < |s| ==> IsByte(s[i])
    ensures RawUrlDecode(RawUrlEncode(s)) == s
    decreases |s|
  {
    if s != [] {
      DecodeEncodedByte(s[0], RawUrlEncode(s[1..]));
      RawUrlRoundTrip(s[1..]);
    }
  }

  // ---------------------------------------------------------------------------------------------
  // implode(), substr($s, 0, $n), array_filter() and array_unique() on lists of strings
  // ---------------------------------------------------------------------------------------------

  /** `implode($sep, $parts)`. */
  function Join(parts: seq<string>, sep: string): string {
    if |parts| == 0 then ""
    else if |parts| == 1 then parts[0]
    else parts[0] + sep + Join(parts[1..], sep)
  }

  /** `substr($s, 0, $n)`: the first `n` bytes, or all of `s` when it is shorter. */
  function Truncate(s: string, n: nat): (r: string)
    ensures |r| <= n && |r| <= |s| && r == s[..|r|]
    ensures |s| <= n ==> r == s
    ensures n <= |s| ==> |r| == n
  {
    if |s| <= n then s else s[..n]
  }

  /** `array_filter($list)` on a list of strings: PHP-empty entries are dropped, the rest keep their order. */
  function FilterNonEmpty(s: seq<string>): (r: seq<string>)
    ensures forall x :: x in r <==> x in s && !IsEmptyString(x)
  {
    if s == [] then [] else (if IsEmptyString(s[0]) then [] else [s[0]]) + FilterNonEmpty(s[1..])
  }

  /** Filtering works entry by entry: order is kept across a concatenation. */
  lemma {:induction false} FilterNonEmptyAppend(a: seq<string>, b: seq<string>)
    ensures FilterNonEmpty(a + b) == FilterNonEmpty(a) + FilterNonEmpty(b)
  {
    if a == [] {
      assert a + b == b;
    } else {
      var ab := a + b;
      assert ab[0] == a[0] && ab[1..] == a[1..] + b;
      FilterNonEmptyAppend(a[1..], b);
    }
  }

  /** Every entry that is not PHP-empty survives as often as it occurs. */
  lemma {:induction false} FilterNonEmptyCounts(s: seq<string>, x: string)
    ensures multiset(FilterNonEmpty(s))[x] == if IsEmptyString(x) then 0 else multiset(s)[x]
  {
    if s != [] {
      FilterNonEmptyCounts(s[1..], x);
      assert s == [s[0]] + s[1..];
    }
  }

  predicate NoDuplicates<T(==)>(s: seq<T>) {
    forall i, j :: 0 <= i < j < |s| ==> s[i] != s[j]
  }

  /** `array_unique($list)`: the first occurrence of every value, in order of first occurrence. */
  function Unique(s: seq<string>): (r: seq<string>)
    ensures NoDuplicates(r)
    ensures forall x :: x in r <==> x in s
    ensures |r| <= |s|
  {
    if s == [] then []
    else
      var u := Unique(s[..|s| - 1]);
      var x := s[|s| - 1];
      assert s == s[..|s| - 1] + [x];
      if x in u then u else u + [x]
  }

  /**
   * The keys `array_unique(array_filter($list))` leaves: PHP keeps each surviving entry under its
   * original index, here the index of the first occurrence of each non-empty value, ascending.
   */
  function FilterUniqueKeys(s: seq<string>): (r: seq<nat>)
    ensures forall k :: 0 <= k < |r| ==> r[k] < |s|
    ensures forall i, j :: 0 <= i < j < |r| ==> r[i] < r[j]
  {
    if s == [] then []
    else
      var p, x := s[..|s| - 1], s[|s| - 1];
      FilterUniqueKeys(p) + (if !IsEmptyString(x) && x !in p then [|s| - 1] else [])
  }

  /** De-duplicating one more entry appends it exactly when it is new. */
  lemma UniqueSnoc(q: seq<string>, x: string)
    ensures Unique(q + [x]) == if x in q then Unique(q) else Unique(q) + [x]
  {
    assert (q + [x])[..|q|] == q;
  }

  /** Filtering and de-duplicating one more entry appends it exactly when it is non-empty and new. */
  lemma UniqueFilterSnoc(s: seq<string>)
    requires s != []
    ensures var p, x := s[..|s| - 1], s[|s| - 1];
      Unique(FilterNonEmpty(s)) == Unique(FilterNonEmpty(p)) + (if !IsEmptyString(x) && x !in p then [x] else [])
  {
    var p, x := s[..|s| - 1], s[|s| - 1];
    assert s == p + [x];
    FilterNonEmptyAppend(p, [x]);
    var fp := FilterNonEmpty(p);
    if IsEmptyString(x) {
      assert FilterNonEmpty([x]) == [];
      assert fp + [] == fp;
    } else {
      assert FilterNonEmpty([x]) == [x];
      UniqueSnoc(fp, x);
    }
  }

  /** The value under the k-th key is the k-th entry of the filtered, de-duplicated list. */
  lemma {:induction false} FilterUniqueKeysValues(s: seq<string>)
    ensures var keys := FilterUniqueKeys(s); var u := Unique(FilterNonEmpty(s));
      |keys| == |u| && forall k :: 0 <= k < |keys| ==> u[k] == s[keys[k]]
  {
    if s != [] {
      var p := s[..|s| - 1];
      FilterUniqueKeysValues(p);
      UniqueFilterSnoc(s);
      var keys, kp := FilterUniqueKeys(s), FilterUniqueKeys(p);
      forall k | 0 <= k < |kp|
        ensures s[keys[k]] == p[kp[k]]
      {
      }
    }
  }

  /** Every kept key holds the first occurrence of a non-empty value. */
  lemma {:induction false} FilterUniqueKeysFirst(s: seq<string>)
    ensures forall k :: 0 <= k < |FilterUniqueKeys(s)| ==>
      !IsEmptyString(s[FilterUniqueKeys(s)[k]]) && s[FilterUniqueKeys(s)[k]] !in s[..FilterUniqueKeys(s)[k]]
  {
    if s != [] {
      var p, x := s[..|s| - 1], s[|s| - 1];
      FilterUniqueKeysFirst(p);
      var keys, kp := FilterUniqueKeys(s), FilterUniqueKeys(p);
      assert keys == kp + (if !IsEmptyString(x) && x !in p then [|s| - 1] else []);
      forall k | 0 <= k < |keys|
        ensures !IsEmptyString(s[keys[k]]) && s[keys[k]] !in s[..keys[k]]
      {
        if k < |kp| {
          assert keys[k] == kp[k] && s[keys[k]] == p[kp[k]];
          assert s[..keys[k]] == p[..keys[k]];
        } else {
          assert keys[k] == |p| && s[..keys[k]] == p;
        }
      }
    }
  }

  /** A list with no PHP-empty and no repeated entry keeps the keys 0, 1, ...: JSON encodes it as an array. */
  lemma {:induction false} FilterUniqueKeysAllKept(s: seq<string>)
    requires forall i :: 0 <= i < |s| ==> !IsEmptyString(s[i])
    requires NoDuplicates(s)
    ensures |FilterUniqueKeys(s)| == |s|
    ensures forall k :: 0 <= k < |s| ==> FilterUniqueKeys(s)[k] == k
  {
    if s != [] {
      var p := s[..|s| - 1];
      assert forall i :: 0 <= i < |p| ==> p[i] == s[i];
      FilterUniqueKeysAllKept(p);
    }
  }

  /** A repeated entry leaves a gap in the keys: ['A', 'A', 'B'] keeps the keys 0 and 2, a JSON object. */
  lemma FilterUniqueKeysGap()
    ensures FilterUniqueKeys(["A", "A", "B"]) == [0, 2]
  {
    var s := ["A", "A", "B"];
    assert s[..2] == ["A", "A"] && s[..2][..1] == ["A"] && s[..2][..1][..0] == [];
    assert FilterUniqueKeys(["A"]) == [0];
    assert FilterUniqueKeys(["A", "A"]) == [0];
    assert "B" !in s[..2];
  }

  /** The position of the first occurrence of `x` in `s`. */
  function FirstIndex<T(==)>(s: seq<T>, x: T): (k: nat)
    requires x in s
    ensures k < |s| && s[k] == x && x !in s[..k]
  {
    if s[0] == x then 0 else FirstIndex(s[1..], x) + 1
  }

  /** Appending to a list does not move a first occurrence already in it. */
  lemma {:induction false} FirstIndexPrefix<T>(s: seq<T>, t: seq<T>, x: T)
    requires x in s
    ensures x in s + t && FirstIndex(s + t, x) == FirstIndex(s, x)
  {
    if s[0] != x {
      assert (s + t)[1..] == s[1..] + t;
      FirstIndexPrefix(s[1..], t, x);
    }
  }

  /** `array_unique` keeps the values in the order of their first occurrence in the list. */
  lemma {:induction false} UniqueFirstOccurrence(s: seq<string>)
    ensures forall i, j :: 0 <= i < j < |Unique(s)| ==> FirstIndex(s, Unique(s)[i]) < FirstIndex(s, Unique(s)[j])
  {
    if s != [] {
      var p, x := s[..|s| - 1], s[|s| - 1];
      assert s == p + [x];
      UniqueFirstOccurrence(p);
      var u := Unique(p);
      var r := Unique(s);
      forall i, j | 0 <= i < j < |r|
        ensures FirstIndex(s, r[i]) < FirstIndex(s, r[j])
      {
        assert r[i] == u[i] && u[i] in p;
        FirstIndexPrefix(p, [x], r[i]);
        if j < |u| {
          assert r[j] == u[j] && u[j] in p;
          FirstIndexPrefix(p, [x], r[j]);
          assert FirstIndex(p, u[i]) < FirstIndex(p, u[j]);
        } else {
          assert r == u + [x] && r[j] == x && x !in p;
          assert FirstIndex(s, x) == |p| by {
            assert s[..|p|] == p;
          }
        }
      }
    }
  }
}
