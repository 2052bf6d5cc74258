/**
 * The PHP built-ins that the plugin's core leans on, stated as total functions
 * over Dafny strings: empty(), trim(), the (int) cast of a string, decimal rendering of an
 * int, the UTF-8 byte length that filesize() counts, str_replace with one search
 * string, ASCII case mapping and hexdec().
 * Option values read from the WordPress option store are modelled by `Value`.
 */
module Php {

  datatype Option<T> = None | Some(value: T)

  /** A computation that either yields a value or throws with a message. */
  datatype Result<T> = Ok(value: T) | Err(msg: string)

  /** A loosely typed PHP value as stored in an option or a settings array. */
  datatype Value = Null | Bool(b: bool) | Int(i: int) | Str(s: string) | List(items: seq<string>)

  // ---------------------------------------------------------------------
  // empty() and truthiness
  // ---------------------------------------------------------------------

  /** PHP's empty() on a string: the empty string and "0" are empty (stated by length and content). */
  predicate EmptyString(s: string)
  {
    |s| == 0 || (|s| == 1 && s[0] == '0')
  }

  /** The same test as the two string comparisons PHP makes. */
  lemma EmptyStringIsEmptyOrZero(s: string)
    ensures EmptyString(s) <==> s == "" || s == "0"
  {
    if |s| == 1 && s[0] == '0' {
      assert s == "0";
    }
  }

  /** PHP's empty() on a loosely typed value, i.e. the negation of (bool) $v. */
  predicate EmptyValue(v: Value)
  {
    match v
    case Null => true
    case Bool(b) => !b
    case Int(i) => i == 0
    case Str(s) => EmptyString(s)
    case List(items) => items == []
  }

  // ---------------------------------------------------------------------
  // trim()
  // ---------------------------------------------------------------------

  /** The characters trim() strips when no list is given: " \t\n\r\0\x0B". */
  predicate IsTrimChar(c: char)
  {
    c == ' ' || c == '\t' || c == '\n' || c == '\r' || c == '\0' || c == '\U{000B}'
  }

  function TrimLeft(s: string): (r: string)
    ensures |r| <= |s| && r == s[|s| - |r|..]
    ensures r == [] || !IsTrimChar(r[0])
    ensures forall k :: 0 <= k < |s| - |r| ==> IsTrimChar(s[k])
  {
    if s != [] && IsTrimChar(s[0]) then
      var r := TrimLeft(s[1..]);
      assert s[1..][|s| - 1 - |r|..] == s[|s| - |r|..];
      assert forall k :: 1 <= k < |s| - |r| ==> s[k] == s[1..][k - 1];
      r
    else s
  }

  function TrimRight(s: string): (r: string)
    ensures |r| <= |s| && r == s[..|r|]
    ensures r == [] || !IsTrimChar(r[|r| - 1])
    ensures forall k :: |r| <= k < |s| ==> IsTrimChar(s[k])
  {
    if s != [] && IsTrimChar(s[|s| - 1]) then
      var r := TrimRight(s[..|s| - 1]);
      assert s[..|s| - 1][..|r|] == s[..|r|];
      assert forall k :: |r| <= k < |s| - 1 ==> s[k] == s[..|s| - 1][k];
      r
    else s
  }

  /** trim($s): strips trim characters from both ends. */
  function Trim(s: string): string
  {
    TrimRight(TrimLeft(s))
  }

  /** trim() yields "" exactly when every character is a trim character. */
  lemma TrimEmptyIff(s: string)
    ensures Trim(s) == "" <==> forall k :: 0 <= k < |s| ==> IsTrimChar(s[k])
  {
    var l := TrimLeft(s);
    if l != [] {
      assert !IsTrimChar(s[|s| - |l|]);
    }
  }

  // ---------------------------------------------------------------------
  // Decimal digits, (int) casts and (string) casts
  // ---------------------------------------------------------------------

  predicate IsDigit(c: char)
  {
    '0' <= c <= '9'
  }

  function DigitValue(c: char): (d: nat)
    requires IsDigit(c)
    ensures d < 10
  {
    (c as int) - ('0' as int)
  }

  function DigitChar(d: nat): (c: char)
    requires d < 10
    ensures IsDigit(c) && DigitValue(c) == d
  {
    (('0' as int) + d) as char
  }

  /** The longest prefix of `s` made of decimal digits. */
  function LeadingDigits(s: string): (r: string)
    ensures |r| <= |s| && r == s[..|r|]
    ensures forall k :: 0 <= k < |r| ==> IsDigit(r[k])
    ensures |r| < |s| ==> !IsDigit(s[|r|])
  {
    if s != [] && IsDigit(s[0]) then [s[0]] + LeadingDigits(s[1..]) else []
  }

  /** The value of a string of decimal digits, most significant first. */
  function DigitsValue(ds: string): (n: nat)
    requires forall k :: 0 <= k < |ds| ==> IsDigit(ds[k])
  {
    if ds == [] then 0 else 10 * DigitsValue(ds[..|ds| - 1]) + DigitValue(ds[|ds| - 1])
  }

  /** The whitespace PHP skips before a leading-numeric string: " \t\n\r\v\f". */
  predicate IsNumericSpace(c: char)
  {
    c == ' ' || c == '\t' || c == '\n' || c == '\r' || c == '\U{000B}' || c == '\U{000C}'
  }

  function SkipNumericSpace(s: string): (r: string)
    ensures |r| <= |s|
  {
    if s != [] && IsNumericSpace(s[0]) then SkipNumericSpace(s[1..]) else s
  }

  /** The range of a PHP int on a 64-bit build. */
  const MinInt64: int := -0x8000_0000_0000_0000
  const MaxInt64: int := 0x7FFF_FFFF_FFFF_FFFF

  predicate IsInt64(n: int)
  {
    MinInt64 <= n <= MaxInt64
  }

  /**
   * The smallest magnitude that strtod() rounds to infinity: half a unit in
   * the last place above the largest double, 2^1024 - 2^970.
   */
  const DoubleOverflow: nat := 0xfffffffffffffc00000000000000000000000000000000000000000000000000000000000000000000000000000000000000000000000000000000000000000000000000000000000000000000000000000000000000000000000000000000000000000000000000000000000000000000000000000000000000000000000000

  function Pow10(e: nat): (p: nat)
    ensures p >= 1
  {
    if e == 0 then 1 else 10 * Pow10(e - 1)
  }

  /** The digits after a decimal point that opens `s`; none when `s` does not open with '.'. */
  function FractionDigits(s: string): (r: string)
    ensures forall k :: 0 <= k < |r| ==> IsDigit(r[k])
    ensures r != [] ==> s != [] && s[0] == '.'
  {
    if s != [] && s[0] == '.' then LeadingDigits(s[1..]) else []
  }

  /** What follows the decimal point and its digits (all of `s` when there is no point). */
  function AfterFraction(s: string): (r: string)
    ensures |r| <= |s|
  {
    if s != [] && s[0] == '.' then s[1 + |LeadingDigits(s[1..])|..] else s
  }

  /**
   * The exponent that opens `s`: 'e' or 'E', an optional sign and at least
   * one digit. Anything else is trailing text and counts as exponent 0.
   */
  function ExponentOf(s: string): (e: int)
    ensures e != 0 ==> |s| >= 2 && (s[0] == 'e' || s[0] == 'E')
  {
    if |s| >= 2 && (s[0] == 'e' || s[0] == 'E') then
      if IsDigit(s[1]) then DigitsValue(LeadingDigits(s[1..]))
      else if |s| >= 3 && (s[1] == '-' || s[1] == '+') && IsDigit(s[2]) then
        (if s[1] == '-' then -1 else 1) * DigitsValue(LeadingDigits(s[2..]))
      else 0
    else 0
  }

  /** The magnitude of d × 10^e, truncated toward zero, one decimal place at a time. */
  function ScaledValue(d: nat, e: int): nat
    decreases if e >= 0 then e else -e
  {
    if e == 0 then d
    else if e > 0 then 10 * ScaledValue(d, e - 1)
    else ScaledValue(d / 10, e + 1)
  }

  /** A non-negative exponent multiplies by a power of ten. */
  lemma {:induction false} ScaledUp(d: nat, e: nat)
    ensures ScaledValue(d, e) == d * Pow10(e)
  {
    if e > 0 {
      ScaledUp(d, e - 1);
      assert 10 * (d * Pow10(e - 1)) == d * (10 * Pow10(e - 1));
    }
  }

  /**
   * Converting a parsed number to int (zend_dval_to_lval_cap): a magnitude
   * that overflowed to infinity gives 0, one outside the 64-bit range the
   * nearest bound, any other the signed magnitude.
   */
  function CapToInt64(neg: bool, m: nat): (n: int)
    ensures IsInt64(n)
    ensures m < DoubleOverflow && IsInt64(if neg then -(m as int) else m) ==> n == (if neg then -(m as int) else m)
    ensures m >= DoubleOverflow ==> n == 0
  {
    if m >= DoubleOverflow then 0
    else if neg then (if -(m as int) < MinInt64 then MinInt64 else -(m as int))
    else if m > MaxInt64 then MaxInt64 else m
  }

  /**
   * The magnitude of the unsigned number that opens `u`: digits with an
   * optional decimal point and fraction (at least one digit in all), then an
   * optional exponent, truncated toward zero; None when `u` does not open
   * with a number.
   */
  function LeadingNumber(u: string): (r: Option<nat>)
    ensures r.None? <==> u == [] || (!IsDigit(u[0]) && (u[0] != '.' || |u| < 2 || !IsDigit(u[1])))
  {
    var ip := LeadingDigits(u);
    NumberAfterDigits(ip, u[|ip|..])
  }

  /** The number made of the integer digits `ip` and what follows them, `rest`. */
  function NumberAfterDigits(ip: string, rest: string): Option<nat>
    requires forall k :: 0 <= k < |ip| ==> IsDigit(ip[k])
  {
    var fp := FractionDigits(rest);
    if ip == [] && fp == [] then None
    else Some(ScaledValue(DigitsValue(ip + fp), ExponentOf(AfterFraction(rest)) - |fp|))
  }

  /** Splitting at the end of the leading digits. */
  lemma LeadingNumberSplit(m: string, t: string)
    requires forall k :: 0 <= k < |m| ==> IsDigit(m[k])
    requires t == [] || !IsDigit(t[0])
    ensures LeadingNumber(m + t) == NumberAfterDigits(m, t)
  {
    LeadingDigitsPrefix(m, t);
    assert (m + t)[|m|..] == t;
  }

  /**
   * (int) $s for a string, as PHP reads a leading-numeric string: leading
   * whitespace, an optional sign and a number; the value is capped to the
   * 64-bit range. A string that does not open with a number casts to 0.
   */
  function IntCast(s: string): (n: int)
    ensures IsInt64(n)
  {
    var t := SkipNumericSpace(s);
    var neg := t != [] && t[0] == '-';
    var u := if t != [] && (t[0] == '-' || t[0] == '+') then t[1..] else t;
    match LeadingNumber(u)
    case None => 0
    case Some(m) => CapToInt64(neg, m)
  }

  /** Without leading whitespace or sign, the cast is the capped leading number. */
  lemma IntCastUnsigned(u: string)
    requires u != [] && IsDigit(u[0])
    ensures LeadingNumber(u).Some? && IntCast(u) == CapToInt64(false, LeadingNumber(u).value)
  {
    assert SkipNumericSpace(u) == u;
    assert u[0] != '-' && u[0] != '+';
    var n := LeadingNumber(u);
    assert n.Some?;
    assert IntCast(u) == CapToInt64(false, n.value);
  }

  /** A leading minus sign negates the leading number before it is capped. */
  lemma IntCastNegative(u: string)
    requires u != [] && IsDigit(u[0])
    ensures LeadingNumber(u).Some? && IntCast("-" + u) == CapToInt64(true, LeadingNumber(u).value)
  {
    var s := "-" + u;
    assert SkipNumericSpace(s) == s;
    assert s[1..] == u;
  }

  /** The decimal digits of a natural number, without leading zeros. */
  function NatToString(n: nat): (s: string)
    ensures |s| > 0
    ensures forall k :: 0 <= k < |s| ==> IsDigit(s[k])
  {
    if n < 10 then [DigitChar(n)] else NatToString(n / 10) + [DigitChar(n % 10)]
  }

  /** (string) $n and sprintf('%d', $n) for an int. */
  function IntToString(n: int): string
  {
    if n < 0 then "-" + NatToString(-n) else NatToString(n)
  }

  lemma {:induction false} NatToStringValue(n: nat)
    ensures DigitsValue(NatToString(n)) == n
  {
    if n >= 10 {
      var s := NatToString(n);
      NatToStringValue(n / 10);
      assert s[..|s| - 1] == NatToString(n / 10);
    }
  }

  lemma LeadingDigitsOfDigits(s: string)
    requires forall k :: 0 <= k < |s| ==> IsDigit(s[k])
    ensures LeadingDigits(s) == s
  {

  }

  /** A string of digits casts to the number it spells, capped to the 64-bit range. */
  lemma IntCastOfDigits(s: string)
    requires s != [] && forall k :: 0 <= k < |s| ==> IsDigit(s[k])
    ensures IntCast(s) == CapToInt64(false, DigitsValue(s))
  {
    IntCastUnsigned(s);
    LeadingNumberOfDigits(s);
  }

  /** The leading number of a digit string is its value. */
  lemma LeadingNumberOfDigits(s: string)
    requires s != [] && forall k :: 0 <= k < |s| ==> IsDigit(s[k])
    ensures LeadingNumber(s) == Some(DigitsValue(s))
  {
    assert s + [] == s;
    LeadingNumberSplit(s, []);
    assert ExponentOf(AfterFraction([])) - 0 == 0;
    assert ScaledValue(DigitsValue(s), 0) == DigitsValue(s);
  }

  /** Writing a 64-bit int as a decimal string and casting it back gives the int. */
  lemma IntCastOfIntToString(n: int)
    requires IsInt64(n)
    ensures IntCast(IntToString(n)) == n
  {
    if n < 0 {
      var d := NatToString(-n);
      IntCastNegative(d);
      LeadingNumberOfDigits(d);
      NatToStringValue(-n);
    } else {
      IntCastOfDigits(NatToString(n));
      NatToStringValue(n);
    }
  }

  /** LeadingDigits stops at the first character that is not a digit. */
  lemma {:induction false} LeadingDigitsPrefix(m: string, t: string)
    requires forall k :: 0 <= k < |m| ==> IsDigit(m[k])
    requires t == [] || !IsDigit(t[0])
    ensures LeadingDigits(m + t) == m
  {
    if m != [] {
      assert (m + t)[1..] == m[1..] + t;
      LeadingDigitsPrefix(m[1..], t);
    }
  }

  /** The digits before an exponent are scaled by 10 to the power the exponent's digits spell. */
  lemma IntCastExponent(m: string, x: char, e: string)
    requires m != [] && forall k :: 0 <= k < |m| ==> IsDigit(m[k])
    requires x == 'e' || x == 'E'
    requires e != [] && forall k :: 0 <= k < |e| ==> IsDigit(e[k])
    ensures IntCast(m + [x] + e) == CapToInt64(false, DigitsValue(m) * Pow10(DigitsValue(e)))
  {
    var s := m + [x] + e;
    assert s[0] == m[0];
    IntCastUnsigned(s);
    LeadingNumberExponent(m, x, e);
    ScaledUp(DigitsValue(m), DigitsValue(e));
  }

  lemma LeadingNumberExponent(m: string, x: char, e: string)
    requires m != [] && forall k :: 0 <= k < |m| ==> IsDigit(m[k])
    requires x == 'e' || x == 'E'
    requires e != [] && forall k :: 0 <= k < |e| ==> IsDigit(e[k])
    ensures LeadingNumber(m + [x] + e) == Some(ScaledValue(DigitsValue(m), DigitsValue(e)))
  {
    var rest := [x] + e;
    assert m + [x] + e == m + rest;
    LeadingNumberSplit(m, rest);
    assert rest[1..] == e;
    LeadingDigitsOfDigits(e);
    assert ExponentOf(AfterFraction(rest)) == DigitsValue(e);
    assert m + [] == m;
  }

  /**
   * A fraction is dropped: the cast truncates toward zero, so a number with
   * a decimal point casts to its integer part, with its sign.
   */
  lemma IntCastTruncates(m: string, f: string)
    requires m != [] && forall k :: 0 <= k < |m| ==> IsDigit(m[k])
    requires forall k :: 0 <= k < |f| ==> IsDigit(f[k])
    ensures IntCast(m + "." + f) == CapToInt64(false, DigitsValue(m))
    ensures IntCast("-" + (m + "." + f)) == CapToInt64(true, DigitsValue(m))
  {
    var u := m + "." + f;
    assert u[0] == m[0];
    LeadingNumberFraction(m, f);
    IntCastUnsigned(u);
    IntCastNegative(u);
  }

  lemma LeadingNumberFraction(m: string, f: string)
    requires m != [] && forall k :: 0 <= k < |m| ==> IsDigit(m[k])
    requires forall k :: 0 <= k < |f| ==> IsDigit(f[k])
    ensures LeadingNumber(m + "." + f) == Some(DigitsValue(m))
  {
    assert m + "." + f == m + ("." + f);
    LeadingNumberSplit(m, "." + f);
    NumberAfterFraction(m, f);
  }

  lemma NumberAfterFraction(m: string, f: string)
    requires m != [] && forall k :: 0 <= k < |m| ==> IsDigit(m[k])
    requires forall k :: 0 <= k < |f| ==> IsDigit(f[k])
    ensures NumberAfterDigits(m, "." + f) == Some(DigitsValue(m))
  {
    var rest := "." + f;
    assert FractionDigits(rest) == f && AfterFraction(rest) == [] by {
      assert rest[0] == '.' && rest[1..] == f;
      LeadingDigitsOfDigits(f);
      assert rest[1 + |f|..] == [];
    }
    DigitsConcat(m, f);
    FractionTruncated(m, f);
  }

  lemma DigitsConcat(m: string, f: string)
    requires forall k :: 0 <= k < |m| ==> IsDigit(m[k])
    requires forall k :: 0 <= k < |f| ==> IsDigit(f[k])
    ensures forall k :: 0 <= k < |m + f| ==> IsDigit((m + f)[k])
  {
    forall k | 0 <= k < |m + f| ensures IsDigit((m + f)[k]) {
      if k >= |m| {
        assert (m + f)[k] == f[k - |m|];
      }
    }
  }

  /** Scaling the digits of m and f down by the count of f leaves the value of m. */
  lemma {:induction false} FractionTruncated(m: string, f: string)
    requires forall k :: 0 <= k < |m| ==> IsDigit(m[k])
    requires forall k :: 0 <= k < |f| ==> IsDigit(f[k])
    requires forall k :: 0 <= k < |m + f| ==> IsDigit((m + f)[k])
    ensures ScaledValue(DigitsValue(m + f), 0 - |f|) == DigitsValue(m)
  {
    if f == [] {
      assert m + f == m;
    } else {
      var f' := f[..|f| - 1];
      assert (m + f)[..|m + f| - 1] == m + f';
      DigitsConcat(m, f');
      assert DigitsValue(m + f) / 10 == DigitsValue(m + f');
      FractionTruncated(m, f');
    }
  }

  /** Text after the digits that starts neither a fraction nor an exponent is ignored. */
  lemma IntCastTrailing(m: string, t: string)
    requires m != [] && forall k :: 0 <= k < |m| ==> IsDigit(m[k])
    requires t != [] && !IsDigit(t[0]) && t[0] != '.' && t[0] != 'e' && t[0] != 'E'
    ensures IntCast(m + t) == CapToInt64(false, DigitsValue(m))
  {
    var s := m + t;
    assert s[0] == m[0];
    IntCastUnsigned(s);
    LeadingNumberTrailing(m, t);
  }

  lemma LeadingNumberTrailing(m: string, t: string)
    requires m != [] && forall k :: 0 <= k < |m| ==> IsDigit(m[k])
    requires t != [] && !IsDigit(t[0]) && t[0] != '.' && t[0] != 'e' && t[0] != 'E'
    ensures LeadingNumber(m + t) == Some(DigitsValue(m))
  {
    LeadingNumberSplit(m, t);
    assert FractionDigits(t) == [] && AfterFraction(t) == t && ExponentOf(t) == 0;
    assert m + [] == m;
    assert ScaledValue(DigitsValue(m), 0) == DigitsValue(m);
  }

  /** A string that does not open with a number, after whitespace and a sign, casts to 0. */
  lemma IntCastNonNumeric(s: string)
    requires s != [] && !IsDigit(s[0]) && !IsNumericSpace(s[0]) && s[0] != '-' && s[0] != '+' && s[0] != '.'
    ensures IntCast(s) == 0
  {
  }

  /** "1e4" casts to 10000, not to 1. */
  lemma IntCastExponentExample()
    ensures IntCast("1e4") == 10000
  {
    var one, four := "1", "4";
    assert one + ['e'] + four == "1e4";
    assert IntCast(one + ['e'] + four) == 10000 by {
      assert DigitsValue(one) == 1 && DigitsValue(four) == 4;
      IntCastExponent(one, 'e', four);
      assert Pow10(4) == 10000;
    }
  }

  /** A fraction is truncated toward zero: "-1.9" casts to -1. */
  lemma IntCastTruncationExample()
    ensures IntCast("-1.9") == -1
  {
    var one, nine := "1", "9";
    assert "-" + (one + "." + nine) == "-1.9";
    assert IntCast("-" + (one + "." + nine)) == -1 by {
      assert DigitsValue(one) == 1;
      IntCastTruncates(one, nine);
    }
  }

  /** Text after the digits is ignored: "12abc" casts to 12. */
  lemma IntCastTrailingExample()
    ensures IntCast("12abc") == 12
  {
    var twelve, abc := "12", "abc";
    assert twelve + abc == "12abc";
    assert IntCast(twelve + abc) == 12 by {
      assert twelve[..1] == "1" && DigitsValue(twelve) == 12;
      IntCastTrailing(twelve, abc);
    }
  }

  /** intval($v) / (int) $v for a loosely typed value. */
  function IntVal(v: Value): int
  {
    match v
    case Null => 0
    case Bool(b) => if b then 1 else 0
    case Int(i) => i
    case Str(s) => IntCast(s)
    case List(items) => if items == [] then 0 else 1
  }

  /** (string) $v for a loosely typed value: null and false give "", true gives "1". */
  function StrVal(v: Value): (r: string)
    ensures v.Str? ==> r == v.s
    ensures v.Null? ==> r == ""
  {
    match v
    case Null => ""
    case Bool(b) => if b then "1" else ""
    case Int(i) => IntToString(i)
    case Str(s) => s
    case List(_) => "Array"
  }

  // ---------------------------------------------------------------------
  // Numeric strings and PHP 8's loose == between two strings
  // ---------------------------------------------------------------------

  /** The exact value of a decimal literal: (-1 if neg) × digits × 10^exp. */
  datatype Decimal = Decimal(neg: bool, digits: nat, exp: int)

  /**
   * The length of the exponent that opens `s`: 'e' or 'E', an optional sign
   * and at least one digit, as ExponentOf reads it; 0 when there is none.
   */
  function ExponentLength(s: string): (n: nat)
    ensures n <= |s|
    ensures ExponentOf(s) != 0 ==> n > 0
  {
    if |s| >= 2 && (s[0] == 'e' || s[0] == 'E') then
      if IsDigit(s[1]) then 1 + |LeadingDigits(s[1..])|
      else if |s| >= 3 && (s[1] == '-' || s[1] == '+') && IsDigit(s[2]) then 2 + |LeadingDigits(s[2..])|
      else 0
    else 0
  }

  /**
   * The unsigned number made of the integer digits `ip` and what follows
   * them, `rest`, when that is a '.' and fraction (at least one digit in
   * all), an optional exponent, optional trailing whitespace and nothing else.
   */
  function NumberTail(ip: string, rest: string): Option<Decimal>
    requires forall k :: 0 <= k < |ip| ==> IsDigit(ip[k])
  {
    var fp := FractionDigits(rest);
    var after := AfterFraction(rest);
    if (ip == [] && fp == []) || SkipNumericSpace(after[ExponentLength(after)..]) != [] then None
    else Some(Decimal(false, DigitsValue(ip + fp), ExponentOf(after) - |fp|))
  }

  /** An unsigned numeric string: leading digits, then a numeric tail. */
  function UnsignedNumeric(u: string): Option<Decimal>
  {
    var ip := LeadingDigits(u);
    NumberTail(ip, u[|ip|..])
  }

  /**
   * The value of a numeric string in PHP 8's sense (is_numeric): optional
   * leading whitespace, an optional sign, then an unsigned numeric string.
   * None for any other string.
   */
  function NumericValue(s: string): Option<Decimal>
  {
    var t := SkipNumericSpace(s);
    var neg := t != [] && t[0] == '-';
    var u := if t != [] && (t[0] == '-' || t[0] == '+') then t[1..] else t;
    match UnsignedNumeric(u)
    case None => None
    case Some(d) => Some(d.(neg := neg))
  }

  /** The signed value of d counted in units of 10^m. */
  function Units(d: Decimal, m: int): int
    requires m <= d.exp
  {
    (if d.neg then -1 else 1) * d.digits * Pow10(d.exp - m)
  }

  /** Two decimals denote the same number. */
  predicate SameNumber(a: Decimal, b: Decimal)
  {
    var m := if a.exp <= b.exp then a.exp else b.exp;
    Units(a, m) == Units(b, m)
  }

  /**
   * PHP 8's $a == $b for two strings: when both are numeric strings they are
   * compared as numbers, otherwise as strings.
   */
  predicate LooseStringEquals(a: string, b: string)
  {
    if NumericValue(a).Some? && NumericValue(b).Some? then SameNumber(NumericValue(a).value, NumericValue(b).value)
    else a == b
  }

  /** Loose equality is reflexive and symmetric, as == is in PHP. */
  lemma LooseStringEqualsReflexiveSymmetric(a: string, b: string)
    ensures LooseStringEquals(a, a)
    ensures LooseStringEquals(a, b) <==> LooseStringEquals(b, a)
  {
  }

  /** A string that is not numeric is loosely equal to exactly itself. */
  lemma LooseEqualsNonNumeric(a: string, b: string)
    requires NumericValue(a).None?
    ensures LooseStringEquals(a, b) <==> a == b
  {
  }

  /** A string that opens with anything but whitespace, a sign, '.' or a digit is not numeric. */
  lemma NotNumericByFirst(s: string)
    requires s != [] && !IsDigit(s[0]) && !IsNumericSpace(s[0])
    requires s[0] != '+' && s[0] != '-' && s[0] != '.'
    ensures NumericValue(s).None?
  {
    assert SkipNumericSpace(s) == s;
    assert LeadingDigits(s) == [];
    assert s[0..] == s;
  }

  /** Splitting an unsigned numeric string at the end of its leading digits. */
  lemma UnsignedNumericSplit(m: string, t: string)
    requires forall k :: 0 <= k < |m| ==> IsDigit(m[k])
    requires t == [] || !IsDigit(t[0])
    ensures UnsignedNumeric(m + t) == NumberTail(m, t)
  {
    LeadingDigitsPrefix(m, t);
    assert (m + t)[|m|..] == t;
  }

  /** With no sign and no whitespace in front, the value is the unsigned one. */
  lemma NumericValueUnsigned(u: string)
    requires u != [] && IsDigit(u[0])
    ensures NumericValue(u) == UnsignedNumeric(u)
  {
    assert SkipNumericSpace(u) == u;
  }

  /** A plain string of digits is numeric, with the value it spells. */
  lemma NumericValueOfDigits(s: string)
    requires s != [] && forall k :: 0 <= k < |s| ==> IsDigit(s[k])
    ensures NumericValue(s) == Some(Decimal(false, DigitsValue(s), 0))
  {
    NumericValueUnsigned(s);
    assert s + [] == s;
    UnsignedNumericSplit(s, []);
    assert NumberTail(s, []) == Some(Decimal(false, DigitsValue(s), 0)) by {
      var e: string := [];
      assert FractionDigits(e) == [] && AfterFraction(e) == [];
      assert ExponentLength(e) == 0 && ExponentOf(e) == 0;
      assert e[0..] == [] && SkipNumericSpace([]) == [];
      assert s + [] == s;
    }
  }

  /** Digit strings are loosely equal iff they spell the same number: leading zeros do not count. */
  lemma LooseEqualsDigits(a: string, b: string)
    requires a != [] && forall k :: 0 <= k < |a| ==> IsDigit(a[k])
    requires b != [] && forall k :: 0 <= k < |b| ==> IsDigit(b[k])
    ensures LooseStringEquals(a, b) <==> DigitsValue(a) == DigitsValue(b)
  {
    NumericValueOfDigits(a);
    NumericValueOfDigits(b);
  }

  /** The tail "e" and one digit is an exponent with that digit's value. */
  lemma NumberTailExponent(ds: string, e: char)
    requires ds != [] && forall k :: 0 <= k < |ds| ==> IsDigit(ds[k])
    requires IsDigit(e)
    ensures NumberTail(ds, ['e', e]) == Some(Decimal(false, DigitsValue(ds), DigitValue(e)))
  {
    var after := ['e', e];
    assert FractionDigits(after) == [] && AfterFraction(after) == after;
    assert LeadingDigits(after[1..]) == [e] by {
      assert after[1..] == [e];
      assert LeadingDigits([e][1..]) == [];
    }
    assert ExponentLength(after) == 2;
    assert after[2..] == [];
    assert DigitsValue([e]) == DigitValue(e) by {
      assert [e][..0] == [];
    }
    assert ds + [] == ds;
  }

  /** digits "e" exponent, with a one-digit exponent. */
  lemma NumericValueWithExponent(ds: string, e: char)
    requires ds != [] && forall k :: 0 <= k < |ds| ==> IsDigit(ds[k])
    requires IsDigit(e)
    ensures NumericValue(ds + ['e', e]) == Some(Decimal(false, DigitsValue(ds), DigitValue(e)))
  {
    NumericValueUnsigned(ds + ['e', e]);
    UnsignedNumericSplit(ds, ['e', e]);
    NumberTailExponent(ds, e);
  }

  /** Leading zeros add nothing to the value of a digit string. */
  lemma {:induction false} DigitsValueLeadingZero(ds: string)
    requires forall k :: 0 <= k < |ds| ==> IsDigit(ds[k])
    ensures forall k :: 0 <= k < |"0" + ds| ==> IsDigit(("0" + ds)[k])
    ensures DigitsValue("0" + ds) == DigitsValue(ds)
  {
    var z := "0" + ds;
    if ds != [] {
      assert z[..|z| - 1] == "0" + ds[..|ds| - 1];
      DigitsValueLeadingZero(ds[..|ds| - 1]);
    } else {
      assert z[..0] == [];
    }
  }

  /** in_array("10", ["010"]) holds: a leading zero does not change a numeric string's value. */
  lemma LooseEqualsLeadingZero(ds: string)
    requires ds != [] && forall k :: 0 <= k < |ds| ==> IsDigit(ds[k])
    ensures LooseStringEquals(ds, "0" + ds)
  {
    DigitsValueLeadingZero(ds);
    LooseEqualsDigits(ds, "0" + ds);
  }

  /** in_array("1e1", ["10"]) holds: digits then "e1" equal the digits then "0". */
  lemma LooseEqualsExponentOne(ds: string)
    requires ds != [] && forall k :: 0 <= k < |ds| ==> IsDigit(ds[k])
    ensures LooseStringEquals(ds + "e1", ds + "0")
  {
    assert ds + "e1" == ds + ['e', '1'];
    NumericValueWithExponent(ds, '1');
    var z := ds + "0";
    DigitsConcat(ds, "0");
    NumericValueOfDigits(z);
    assert z[..|z| - 1] == ds;
    assert DigitsValue(z) == 10 * DigitsValue(ds);
    assert Pow10(1) == 10;
  }

  // ---------------------------------------------------------------------
  // Byte lengths of UTF-8 text (strlen, filesize)
  // ---------------------------------------------------------------------

  /** The number of bytes UTF-8 spends on one character. */
  function Utf8Width(c: char): (w: nat)
    ensures 1 <= w <= 4
    ensures w == 1 <==> (c as int) < 0x80
  {
    if (c as int) < 0x80 then 1
    else if (c as int) < 0x800 then 2
    else if (c as int) < 0x10000 then 3
    else 4
  }

  /** strlen() of a string, or filesize() of a file holding it, when it is stored as UTF-8. */
  function ByteLength(s: string): (n: nat)
    ensures |s| <= n <= 4 * |s|
  {
    if s == [] then 0 else ByteLength(s[..|s| - 1]) + Utf8Width(s[|s| - 1])
  }

  /** Appending text adds its bytes. */
  lemma {:induction false} ByteLengthAppend(a: string, b: string)
    ensures ByteLength(a + b) == ByteLength(a) + ByteLength(b)
  {
    if b == [] {
      assert a + b == a;
    } else {
      assert (a + b)[..|a + b| - 1] == a + b[..|b| - 1];
      assert (a + b)[|a + b| - 1] == b[|b| - 1];
      ByteLengthAppend(a, b[..|b| - 1]);
    }
  }

  /** Text of ASCII characters has one byte per character, and only such text does. */
  lemma {:induction false} ByteLengthAscii(s: string)
    ensures ByteLength(s) == |s| <==> forall k :: 0 <= k < |s| ==> (s[k] as int) < 0x80
  {
    if s != [] {
      var s' := s[..|s| - 1];
      ByteLengthAscii(s');
      if ByteLength(s) == |s| {
        assert ByteLength(s') == |s'|;
      }
      if forall k :: 0 <= k < |s| ==> (s[k] as int) < 0x80 {
        assert forall k :: 0 <= k < |s'| ==> (s'[k] as int) < 0x80 by {
          forall k | 0 <= k < |s'| ensures (s'[k] as int) < 0x80 {
            assert s'[k] == s[k];
          }
        }
      } else {
        var j :| 0 <= j < |s| && (s[j] as int) >= 0x80;
        if j < |s| - 1 {
          assert s'[j] == s[j];
        }
      }
    }
  }

  // ---------------------------------------------------------------------
  // str_replace with one search string
  // ---------------------------------------------------------------------

  /** The search string occurs in `s` at position `i`. */
  predicate OccursAt(s: string, needle: string, i: int)
  {
    0 <= i && i + |needle| <= |s| && s[i..i + |needle|] == needle
  }

  predicate Occurs(s: string, needle: string)
  {
    exists i :: 0 <= i <= |s| - |needle| && OccursAt(s, needle, i)
  }

  /**
   * str_replace($needle, $rep, $s): scans left to right and replaces every
   * non-overlapping occurrence; an empty search string changes nothing.
   */
  function StrReplace(s: string, needle: string, rep: string): string
    decreases |s|
  {
    if needle == [] || |s| < |needle| then s
    else if s[..|needle|] == needle then rep + StrReplace(s[|needle|..], needle, rep)
    else [s[0]] + StrReplace(s[1..], needle, rep)
  }

  /** Dropping the first character shifts every occurrence one place left. */
  lemma OccursAtTail(s: string, needle: string, i: int)
    requires s != [] && 0 <= i
    ensures OccursAt(s[1..], needle, i) <==> OccursAt(s, needle, i + 1)
  {
    if i + |needle| <= |s| - 1 {
      assert s[1..][i..i + |needle|] == s[i + 1..i + 1 + |needle|];
    }
  }

  /** A string with no occurrence of the search string is returned unchanged. */
  lemma {:induction false} StrReplaceAbsent(s: string, needle: string, rep: string)
    requires !Occurs(s, needle)
    ensures StrReplace(s, needle, rep) == s
  {
    if needle != [] && |s| >= |needle| {
      assert !OccursAt(s, needle, 0);
      forall i | 0 <= i <= |s[1..]| - |needle| ensures !OccursAt(s[1..], needle, i) {
        OccursAtTail(s, needle, i);
      }
      StrReplaceAbsent(s[1..], needle, rep);
    }
  }

  /**
   * When the first occurrence of the search string starts right after `a`,
   * str_replace copies `a`, emits the replacement, and carries on after it.
   */
  lemma {:induction false} StrReplaceFirst(a: string, needle: string, b: string, rep: string)
    requires needle != []
    requires forall i :: 0 <= i < |a| ==> !OccursAt(a + needle + b, needle, i)
    ensures StrReplace(a + needle + b, needle, rep) == a + rep + StrReplace(b, needle, rep)
  {
    var s := a + needle + b;
    if a == [] {
      assert s == needle + b;
      assert s[..|needle|] == needle;
      assert s[|needle|..] == b;
    } else {
      var t := a[1..] + needle + b;
      assert s[1..] == t;
      assert !OccursAt(s, needle, 0);
      assert StrReplace(s, needle, rep) == [a[0]] + StrReplace(t, needle, rep);
      forall i | 0 <= i < |a| - 1 ensures !OccursAt(t, needle, i) {
        OccursAtTail(s, needle, i);
      }
      StrReplaceFirst(a[1..], needle, b, rep);
      assert [a[0]] + a[1..] == a;
      assert [a[0]] + (a[1..] + rep + StrReplace(b, needle, rep)) == a + rep + StrReplace(b, needle, rep);
    }
  }

  // ---------------------------------------------------------------------
  // ASCII case mapping (strtolower, strtoupper, the /i regex flag)
  // ---------------------------------------------------------------------

  function LowerChar(c: char): char
  {
    if 'A' <= c <= 'Z' then ((c as int) + 32) as char else c
  }

  function UpperChar(c: char): char
  {
    if 'a' <= c <= 'z' then ((c as int) - 32) as char else c
  }

  /** strtolower: maps ASCII upper-case letters to lower case, length preserving. */
  function ToLower(s: string): (r: string)
    ensures |r| == |s|
    ensures forall k :: 0 <= k < |s| ==> r[k] == LowerChar(s[k])
  {
    if s == [] then [] else [LowerChar(s[0])] + ToLower(s[1..])
  }

  /** strtoupper: maps ASCII lower-case letters to upper case, length preserving. */
  function ToUpper(s: string): (r: string)
    ensures |r| == |s|
    ensures forall k :: 0 <= k < |s| ==> r[k] == UpperChar(s[k])
  {
    if s == [] then [] else [UpperChar(s[0])] + ToUpper(s[1..])
  }

  // ---------------------------------------------------------------------
  // Hexadecimal digits and hexdec()
  // ---------------------------------------------------------------------

  predicate IsHexDigit(c: char)
  {
    IsDigit(c) || 'a' <= c <= 'f' || 'A' <= c <= 'F'
  }

  predicate IsLowerHexDigit(c: char)
  {
    IsDigit(c) || 'a' <= c <= 'f'
  }

  function HexDigitValue(c: char): (d: nat)
    requires IsHexDigit(c)
    ensures d < 16
  {
    if IsDigit(c) then DigitValue(c)
    else if 'a' <= c <= 'f' then (c as int) - ('a' as int) + 10
    else (c as int) - ('A' as int) + 10
  }

  /** The lower-case hex digit for 0..15, as sprintf('%x') writes it. */
  function LowerHexChar(d: nat): (c: char)
    requires d < 16
    ensures IsLowerHexDigit(c) && HexDigitValue(c) == d
  {
    if d < 10 then DigitChar(d) else (('a' as int) + d - 10) as char
  }

  /** hexdec($s): reads the hex digits of `s` in order and ignores every other character. */
  function HexDec(s: string): nat
  {
    if s == [] then 0
    else if IsHexDigit(s[|s| - 1]) then 16 * HexDec(s[..|s| - 1]) + HexDigitValue(s[|s| - 1])
    else HexDec(s[..|s| - 1])
  }

  /** A lower-case hex digit is the one LowerHexChar writes for its value. */
  lemma LowerHexCharOfValue(c: char)
    requires IsLowerHexDigit(c)
    ensures LowerHexChar(HexDigitValue(c)) == c
  {
  }

  /** hexdec of two hex digits. */
  lemma HexDecTwo(s: string)
    requires |s| == 2 && IsHexDigit(s[0]) && IsHexDigit(s[1])
    ensures HexDec(s) == 16 * HexDigitValue(s[0]) + HexDigitValue(s[1])
  {
    assert s[..1] == [s[0]];
    assert [s[0]][..0] == [];
    assert HexDec([s[0]]) == HexDigitValue(s[0]);
  }

  /** sprintf('%02x', $n) for 0 <= n <= 255. */
  function Hex2(n: nat): (r: string)
    requires n < 256
    ensures |r| == 2 && IsLowerHexDigit(r[0]) && IsLowerHexDigit(r[1])
  {
    [LowerHexChar(n / 16), LowerHexChar(n % 16)]
  }

  /** hexdec reads back what sprintf('%02x') wrote. */
  lemma HexDecOfHex2(n: nat)
    requires n < 256
    ensures HexDec(Hex2(n)) == n
  {
    HexDecTwo(Hex2(n));
  }

  /** sprintf('%02x') writes back two lower-case hex digits that hexdec read. */
  lemma Hex2OfHexDec(s: string)
    requires |s| == 2 && IsLowerHexDigit(s[0]) && IsLowerHexDigit(s[1])
    ensures HexDec(s) < 256 && Hex2(HexDec(s)) == s
  {
    HexDecTwo(s);
    LowerHexCharOfValue(s[0]);
    LowerHexCharOfValue(s[1]);
  }

  // ---------------------------------------------------------------------
  // version_compare() on numeric versions
  // ---------------------------------------------------------------------

  /**
   * version_compare($a, $b) for versions whose dot-separated parts are all
   * numbers: the first differing part decides, and when one version is a
   * prefix of the other the longer one is the greater ("8.3.0" > "8.3").
   */
  function VersionCompare(a: seq<nat>, b: seq<nat>): (r: int)
    ensures -1 <= r <= 1
  {
    if a == [] && b == [] then 0
    else if a == [] then -1
    else if b == [] then 1
    else if a[0] < b[0] then -1
    else if a[0] > b[0] then 1
    else VersionCompare(a[1..], b[1..])
  }

  /** Swapping the arguments negates the comparison. */
  lemma {:induction false} VersionCompareAntisymmetric(a: seq<nat>, b: seq<nat>)
    ensures VersionCompare(b, a) == -VersionCompare(a, b)
  {
    if a != [] && b != [] && a[0] == b[0] {
      VersionCompareAntisymmetric(a[1..], b[1..]);
    }
  }

  /** Two versions compare equal exactly when they have the same parts. */
  lemma {:induction false} VersionCompareZeroIff(a: seq<nat>, b: seq<nat>)
    ensures VersionCompare(a, b) == 0 <==> a == b
  {
    if a != [] && b != [] && a[0] == b[0] {
      VersionCompareZeroIff(a[1..], b[1..]);
      assert a == [a[0]] + a[1..] && b == [b[0]] + b[1..];
    }
  }
}
