/**
 * PHP values as the database layer sees them, and the PHP conversions its
 * type converters and literal renderer rely on: `(string)` and `(int)` casts,
 * `is_numeric`, `ctype_digit`, truthiness, and the canonicalisation of array
 * keys. Integers are unbounded: PHP's 64-bit overflow behaviour is not modelled,
 * nor is the double rounding of fractional or exponent strings under `(int)`.
 */
module PhpValues {

  datatype Option<T> = None | Some(value: T)

  /** The exceptions and errors the modelled code raises or propagates. */
  datatype Error =
    | InvalidArgument(message: string)
    | TypeError(message: string)
    | ValueError(message: string)
    | DatabaseError(message: string)
    | MissingConnection(driver: string, reason: string)
    | PdoError(message: string)
    | UncaughtError(message: string)
    // PHP's engine `Error`, which is not a `TypeError`: a failed `(string)` cast
    | EngineError(message: string)

  datatype Result<T> = Ok(value: T) | Err(error: Error)

  /** A PHP array key: PHP stores integer-like string keys as integers. */
  datatype ArrayKey = IntKey(n: int) | StrKey(s: string)

  /**
   * A PHP value. `Float` carries the float's PHP string form (float formatting
   * is not modelled); `Stringable` is an object with `__toString`, `Object` any
   * other object.
   */
  datatype Value =
    | Null
    | Bool(b: bool)
    | Int(i: int)
    | Float(text: string)
    | Str(s: string)
    | Arr(entries: seq<Entry>)
    | Stringable(className: string, text: string)
    | Object(className: string)

  datatype Entry = Entry(key: ArrayKey, value: Value)

  // ---------------------------------------------------------------------------
  // Characters and digit strings

  predicate IsDigit(c: char) { '0' <= c <= '9' }

  predicate AllDigits(s: string) { forall i :: 0 <= i < |s| ==> IsDigit(s[i]) }

  /** The whitespace PHP's numeric-string scanner skips: " \t\n\r\v\f". */
  predicate IsWhitespace(c: char) {
    c == ' ' || c == '\t' || c == '\n' || c == '\r' || c == 11 as char || c == 12 as char
  }

  function DigitValue(c: char): nat
    requires IsDigit(c)
  {
    (c as int - '0' as int) as nat
  }

  function DigitChar(d: nat): (c: char)
    requires d < 10
    ensures IsDigit(c) && DigitValue(c) == d
  {
    ('0' as int + d) as char
  }

  /** The number a string of decimal digits denotes (the empty string denotes 0). */
  function DigitsValue(s: string): nat
    requires AllDigits(s)
  {
    if |s| == 0 then 0 else DigitsValue(s[..|s| - 1]) * 10 + DigitValue(s[|s| - 1])
  }

  /** The decimal text of a natural number, without leading zeros. */
  function NatToString(n: nat): (r: string)
    ensures |r| > 0 && AllDigits(r)
    ensures (r[0] == '0') <==> (n == 0)
    ensures n < 10 <==> |r| == 1
  {
    if n < 10 then [DigitChar(n)] else NatToString(n / 10) + [DigitChar(n % 10)]
  }

  /** PHP's `(string)` of an integer. */
  function IntToString(i: int): string
  {
    if i < 0 then "-" + NatToString(-i) else NatToString(i)
  }

  lemma {:induction false} DigitsValueOfNatToString(n: nat)
    ensures DigitsValue(NatToString(n)) == n
  {
    if n >= 10 {
      var s := NatToString(n);
      assert s[..|s| - 1] == NatToString(n / 10);
      DigitsValueOfNatToString(n / 10);
    }
  }

  /** Distinct numbers have distinct decimal texts. */
  lemma NatToStringInjective(m: nat, n: nat)
    requires NatToString(m) == NatToString(n)
    ensures m == n
  {
    DigitsValueOfNatToString(m);
    DigitsValueOfNatToString(n);
  }

  /** A digit string without a superfluous leading zero is the text of its value. */
  lemma {:induction false} NatToStringOfDigits(s: string)
    requires |s| > 0 && AllDigits(s) && (s[0] == '0' ==> |s| == 1)
    ensures NatToString(DigitsValue(s)) == s
  {
    if |s| > 1 {
      var p := s[..|s| - 1];
      LeadingDigitPositive(p);
      NatToStringOfDigits(p);
      assert DigitsValue(s) / 10 == DigitsValue(p);
      assert DigitsValue(s) % 10 == DigitValue(s[|s| - 1]);
      assert s == p + [s[|s| - 1]];
    }
  }

  lemma {:induction false} LeadingDigitPositive(s: string)
    requires |s| > 0 && AllDigits(s) && s[0] != '0'
    ensures DigitsValue(s) >= 1
  {
    if |s| > 1 {
      LeadingDigitPositive(s[..|s| - 1]);
    }
  }

  // ---------------------------------------------------------------------------
  // Scanning numeric strings

  /** The length of the longest prefix of `s` made of digits. */
  function DigitRun(s: string): (n: nat)
    ensures n <= |s| && AllDigits(s[..n])
    ensures n < |s| ==> !IsDigit(s[n])
  {
    if |s| == 0 || !IsDigit(s[0]) then 0
    else
      var k := DigitRun(s[1..]);
      assert s[..k + 1] == [s[0]] + s[1..][..k];
      k + 1
  }

  /** `s` without its leading whitespace. */
  function TrimLeadingWhitespace(s: string): (t: string)
    ensures |t| <= |s| && t == s[|s| - |t|..]
    ensures |t| > 0 ==> !IsWhitespace(t[0])
    ensures forall i :: 0 <= i < |s| - |t| ==> IsWhitespace(s[i])
  {
    if |s| > 0 && IsWhitespace(s[0]) then TrimLeadingWhitespace(s[1..]) else s
  }

  /** `s` without its trailing whitespace. */
  function TrimTrailingWhitespace(s: string): (t: string)
    ensures |t| <= |s| && t == s[..|t|]
    ensures |t| > 0 ==> !IsWhitespace(t[|t| - 1])
    ensures forall i :: |t| <= i < |s| ==> IsWhitespace(s[i])
  {
    if |s| > 0 && IsWhitespace(s[|s| - 1]) then TrimTrailingWhitespace(s[..|s| - 1]) else s
  }

  function DropSign(s: string): string
  {
    if |s| > 0 && (s[0] == '+' || s[0] == '-') then s[1..] else s
  }

  /** A complete exponent part: `e` or `E`, an optional sign, one digit or more. */
  predicate IsExponent(e: string)
  {
    |e| >= 2 && (e[0] == 'e' || e[0] == 'E') &&
    var d := DropSign(e[1..]);
    |d| > 0 && AllDigits(d)
  }

  /**
   * A decimal number literal: optional sign, then digits with an optional
   * fraction (at least one digit on either side of the point), then an
   * optional exponent.
   */
  predicate IsNumberLiteral(b: string)
  {
    var u := DropSign(b);
    var n1 := DigitRun(u);
    var r := u[n1..];
    if |r| > 0 && r[0] == '.' then
      var f := r[1..];
      var n2 := DigitRun(f);
      (n1 > 0 || n2 > 0) && (|f[n2..]| == 0 || IsExponent(f[n2..]))
    else
      n1 > 0 && (|r| == 0 || IsExponent(r))
  }

  /** PHP 8's `is_numeric` on a string: a number literal, optionally surrounded by whitespace. */
  predicate IsNumericString(s: string)
  {
    IsNumberLiteral(TrimTrailingWhitespace(TrimLeadingWhitespace(s)))
  }

  /** PHP's `is_numeric`: integers, floats and numeric strings. */
  predicate IsNumeric(v: Value)
  {
    v.Int? || v.Float? || (v.Str? && IsNumericString(v.s))
  }

  /**
   * PHP's `ctype_digit`: a non-empty string of digits; an integer between -128
   * and 255 is read as a character code, any other integer as its decimal text.
   */
  predicate CtypeDigit(v: Value)
  {
    match v
    case Str(s) => |s| > 0 && AllDigits(s)
    case Int(i) => if -128 <= i <= 255 then 48 <= i <= 57 else i > 255
    case _ => false
  }

  /** Every non-empty digit string is numeric. */
  lemma DigitStringIsNumeric(s: string)
    requires |s| > 0 && AllDigits(s)
    ensures IsNumericString(s)
  {
    assert !IsWhitespace(s[0]) && !IsWhitespace(s[|s| - 1]);
    assert TrimLeadingWhitespace(s) == s;
    assert TrimTrailingWhitespace(s) == s;
    assert DropSign(s) == s;
    assert DigitRun(s) == |s|;
  }

  /** '0' is numeric. */
  lemma ZeroIsNumeric()
    ensures IsNumericString("0")
  {
    DigitStringIsNumeric("0");
  }

  /** The decimal text of an integer is numeric. */
  lemma IntToStringIsNumeric(i: int)
    ensures IsNumericString(IntToString(i))
  {
    var s := IntToString(i);
    var d := NatToString(if i < 0 then -i else i);
    assert !IsWhitespace(s[0]) && !IsWhitespace(s[|s| - 1]);
    assert TrimLeadingWhitespace(s) == s;
    assert TrimTrailingWhitespace(s) == s;
    assert DropSign(s) == d;
    assert DigitRun(d) == |d|;
  }

  /** Whatever `ctype_digit` accepts is already accepted by `is_numeric`. */
  lemma CtypeDigitImpliesNumeric(v: Value)
    ensures CtypeDigit(v) ==> IsNumeric(v)
  {
    if v.Str? && CtypeDigit(v) {
      DigitStringIsNumeric(v.s);
    }
  }

  /** The characters a numeric string can contain. */
  predicate IsNumericChar(c: char)
  {
    IsDigit(c) || IsWhitespace(c) || c == '+' || c == '-' || c == '.' || c == 'e' || c == 'E'
  }

  lemma NumberLiteralChars(b: string)
    requires IsNumberLiteral(b)
    ensures forall i :: 0 <= i < |b| ==> IsNumericChar(b[i])
  {
    var u := DropSign(b);
    var n1 := DigitRun(u);
    var r := u[n1..];
    assert forall i :: 0 <= i < n1 ==> IsNumericChar(u[i]) by {
      assert AllDigits(u[..n1]);
      forall i | 0 <= i < n1 ensures IsDigit(u[i]) { assert u[..n1][i] == u[i]; }
    }
    if |r| > 0 && r[0] == '.' {
      var f := r[1..];
      var n2 := DigitRun(f);
      assert AllDigits(f[..n2]);
      ExponentChars(f[n2..]);
      forall i | 0 <= i < |f| ensures IsNumericChar(f[i]) {
        if i < n2 { assert f[..n2][i] == f[i]; } else { assert f[n2..][i - n2] == f[i]; }
      }
      forall i | 0 <= i < |r| ensures IsNumericChar(r[i]) {
        if i > 0 { assert r[i] == f[i - 1]; }
      }
    } else {
      ExponentChars(r);
    }
    forall i | 0 <= i < |u| ensures IsNumericChar(u[i]) {
      if i >= n1 { assert u[i] == r[i - n1]; }
    }
    forall i | 0 <= i < |b| ensures IsNumericChar(b[i]) {
      if u != b && i > 0 { assert b[i] == u[i - 1]; }
    }
  }

  lemma ExponentChars(e: string)
    requires |e| == 0 || IsExponent(e)
    ensures forall i :: 0 <= i < |e| ==> IsNumericChar(e[i])
  {
    if |e| > 0 {
      var d := DropSign(e[1..]);
      forall i | 0 <= i < |e| ensures IsNumericChar(e[i]) {
        if i >= 2 || (i == 1 && d == e[1..]) {
          assert e[i] == d[i - (|e| - |d|)];
        }
      }
    }
  }

  /** A numeric string holds only digits, signs, points, exponent letters and whitespace. */
  lemma NumericStringChars(s: string)
    requires IsNumericString(s)
    ensures forall i :: 0 <= i < |s| ==> IsNumericChar(s[i])
  {
    var t := TrimLeadingWhitespace(s);
    var b := TrimTrailingWhitespace(t);
    NumberLiteralChars(b);
    forall i | 0 <= i < |t| ensures IsNumericChar(t[i]) {
      if i < |b| { assert t[i] == b[i]; }
    }
    forall i | 0 <= i < |s| ensures IsNumericChar(s[i]) {
      if i >= |s| - |t| { assert s[i] == t[i - (|s| - |t|)]; }
    }
  }

  // ---------------------------------------------------------------------------
  // Casts

  /** `m * 10^k`, truncated toward zero when `k` is negative. */
  function Scale(m: nat, k: int): nat
    decreases if k >= 0 then k else -k
  {
    if k == 0 then m
    else if k > 0 then 10 * Scale(m, k - 1)
    else Scale(m / 10, k + 1)
  }

  /** The exponent a string starts with (`e12`, `E-3`), or 0 when it does not start with one. */
  function ExponentPrefix(r: string): int
  {
    if |r| >= 2 && (r[0] == 'e' || r[0] == 'E') then
      var d := DropSign(r[1..]);
      var n := DigitRun(d);
      if n == 0 then 0
      else if r[1] == '-' then -(DigitsValue(d[..n]) as int)
      else DigitsValue(d[..n])
    else 0
  }

  /** The numeric prefix of a string, split into its parts. */
  datatype NumberScan = NumberScan(negative: bool, intDigits: string, fracDigits: string, rest: string)

  /** Reads the sign, integer digits and fraction digits at the start of `s` (after whitespace). */
  function ScanNumber(s: string): (p: NumberScan)
    ensures AllDigits(p.intDigits + p.fracDigits)
  {
    var t := TrimLeadingWhitespace(s);
    var neg := |t| > 0 && t[0] == '-';
    var u := DropSign(t);
    var n1 := DigitRun(u);
    var r := u[n1..];
    if |r| > 0 && r[0] == '.' then
      var f := r[1..];
      var n2 := DigitRun(f);
      assert AllDigits(u[..n1] + f[..n2]) by {
        forall i | 0 <= i < n1 + n2 ensures IsDigit((u[..n1] + f[..n2])[i]) {
          if i < n1 { assert (u[..n1] + f[..n2])[i] == u[..n1][i]; }
          else { assert (u[..n1] + f[..n2])[i] == f[..n2][i - n1]; }
        }
      }
      NumberScan(neg, u[..n1], f[..n2], f[n2..])
    else
      assert u[..n1] + [] == u[..n1];
      NumberScan(neg, u[..n1], [], r)
  }

  /**
   * PHP 8's `(int)` of a string: the numeric prefix after leading whitespace
   * (sign, digits, fraction, exponent) truncated toward zero; 0 when there is none.
   * The prefix is taken as an exact decimal: PHP reads a prefix with a fraction
   * or an exponent as a double first, and that rounding is not modelled.
   */
  function StringToInt(s: string): int
  {
    var p := ScanNumber(s);
    if |p.intDigits| + |p.fracDigits| == 0 then 0
    else
      var mag: int := Scale(DigitsValue(p.intDigits + p.fracDigits), ExponentPrefix(p.rest) - |p.fracDigits|);
      if p.negative then -mag else mag
  }

  /** PHP's `(int)` cast. Objects convert to 1 (with a warning). */
  function IntCast(v: Value): int
  {
    match v
    case Null => 0
    case Bool(b) => if b then 1 else 0
    case Int(i) => i
    case Float(t) => StringToInt(t)
    case Str(s) => StringToInt(s)
    case Arr(es) => if |es| == 0 then 0 else 1
    case Stringable(_, _) => 1
    case Object(_) => 1
  }

  /** PHP's `(string)` cast; an object without `__toString` raises an Error. */
  function StrCast(v: Value): (r: Result<string>)
    ensures r.Err? <==> v.Object?
    ensures r.Err? ==> r.error.EngineError?
  {
    match v
    case Null => Ok("")
    case Bool(b) => Ok(if b then "1" else "")
    case Int(i) => Ok(IntToString(i))
    case Float(t) => Ok(t)
    case Str(s) => Ok(s)
    case Arr(_) => Ok("Array")
    case Stringable(_, t) => Ok(t)
    case Object(c) => Err(EngineError("Object of class " + c + " could not be converted to string"))
  }

  /** PHP's `get_debug_type`: the type name error messages report. */
  function DebugType(v: Value): string
  {
    match v
    case Null => "null"
    case Bool(_) => "bool"
    case Int(_) => "int"
    case Float(_) => "float"
    case Str(_) => "string"
    case Arr(_) => "array"
    case Stringable(c, _) => c
    case Object(c) => c
  }

  /** PHP's truthiness: what `?:` and `empty()` test. */
  predicate Truthy(v: Value)
  {
    match v
    case Null => false
    case Bool(b) => b
    case Int(i) => i != 0
    case Float(t) => t != "0" && t != "-0"
    case Str(s) => s != "" && s != "0"
    case Arr(es) => |es| > 0
    case Stringable(_, _) => true
    case Object(_) => true
  }

  /** The integer text of an integer is read back as that integer. */
  lemma StringToIntOfIntToString(i: int)
    ensures StringToInt(IntToString(i)) == i
  {
    var s := IntToString(i);
    var d := NatToString(if i < 0 then -i else i);
    assert !IsWhitespace(s[0]);
    assert TrimLeadingWhitespace(s) == s;
    assert DropSign(s) == d;
    assert DigitRun(d) == |d|;
    assert d[..|d|] + [] == d;
    DigitsValueOfNatToString(if i < 0 then -i else i);
  }

  // ---------------------------------------------------------------------------
  // Array keys

  const PHP_INT_MIN: int := -0x8000_0000_0000_0000
  const PHP_INT_MAX: int := 0x7FFF_FFFF_FFFF_FFFF

  /** A decimal integer written the way PHP writes it: no sign on zero, no leading zero. */
  predicate IsCanonicalInteger(s: string)
  {
    var d := if |s| > 0 && s[0] == '-' then s[1..] else s;
    |d| > 0 && AllDigits(d) && (d[0] == '0' ==> d == s && |d| == 1)
  }

  function CanonicalIntegerValue(s: string): int
    requires IsCanonicalInteger(s)
  {
    if s[0] == '-' then -(DigitsValue(s[1..]) as int) else DigitsValue(s)
  }

  /** The key PHP stores for a string key: integer-like strings in range become integers. */
  function KeyOf(s: string): ArrayKey
  {
    if IsCanonicalInteger(s) && PHP_INT_MIN <= CanonicalIntegerValue(s) <= PHP_INT_MAX
    then IntKey(CanonicalIntegerValue(s))
    else StrKey(s)
  }

  /** The text of a key, as `(string)$key` gives it. */
  function KeyText(k: ArrayKey): string
  {
    match k
    case IntKey(n) => IntToString(n)
    case StrKey(s) => s
  }

  /** Storing a string as an array key loses nothing: its text reads back unchanged. */
  lemma KeyTextOfKeyOf(s: string)
    ensures KeyText(KeyOf(s)) == s
  {
    if IsCanonicalInteger(s) && PHP_INT_MIN <= CanonicalIntegerValue(s) <= PHP_INT_MAX {
      var v := CanonicalIntegerValue(s);
      if s[0] == '-' {
        var d := s[1..];
        NatToStringOfDigits(d);
        LeadingDigitPositive(d);
        assert v == -(DigitsValue(d) as int) < 0;
        assert IntToString(v) == "-" + NatToString(DigitsValue(d));
        assert s == "-" + d;
      } else {
        NatToStringOfDigits(s);
        assert IntToString(v) == NatToString(DigitsValue(s));
      }
    }
  }

}
