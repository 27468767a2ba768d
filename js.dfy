/**
 * The JavaScript built-ins the reader and the player rely on: numbers with NaN and
 * the infinities, Math.min/max/round/floor, the `%` operator, Number.parseInt with
 * radix 10, Number.parseFloat, Number.prototype.toString on integers,
 * String.prototype.padStart and an ASCII toLowerCase.
 * Finite doubles are idealised as exact reals.
 */
module Js {

  datatype Option<T> = None | Some(value: T)

  /** A JavaScript number: a finite double (as an exact real), NaN, +Infinity or -Infinity. */
  datatype Num = Finite(r: real) | NaN | PosInf | NegInf

  /** ToBoolean on a number: only 0 and NaN are falsy. */
  predicate Truthy(x: Num) {
    x != NaN && x != Finite(0.0)
  }

  /** The `<` operator on numbers: false as soon as NaN is involved. */
  predicate Less(a: Num, b: Num) {
    match (a, b)
    case (Finite(x), Finite(y)) => x < y
    case (NegInf, Finite(_)) => true
    case (NegInf, PosInf) => true
    case (Finite(_), PosInf) => true
    case _ => false
  }

  /** The `<=` operator on numbers. */
  predicate LessEq(a: Num, b: Num) {
    a != NaN && b != NaN && !Less(b, a)
  }

  /** Math.min of two numbers. */
  function Min(a: Num, b: Num): (r: Num)
    ensures r == NaN <==> a == NaN || b == NaN
    ensures r != NaN ==> (r == a || r == b) && LessEq(r, a) && LessEq(r, b)
  {
    if a == NaN || b == NaN then NaN else if Less(b, a) then b else a
  }

  /** Math.max of two numbers. */
  function Max(a: Num, b: Num): (r: Num)
    ensures r == NaN <==> a == NaN || b == NaN
    ensures r != NaN ==> (r == a || r == b) && LessEq(a, r) && LessEq(b, r)
  {
    if a == NaN || b == NaN then NaN else if Less(a, b) then b else a
  }

  /** `x + d` for a finite addend d. */
  function Add(x: Num, d: real): (r: Num)
    ensures r.Finite? <==> x.Finite?
    ensures r.Finite? ==> r.r == x.r + d
    ensures !x.Finite? ==> r == x
  {
    match x
    case Finite(v) => Finite(v + d)
    case _ => x
  }

  /** Math.floor on a finite real. */
  function Floor(x: real): (r: int)
    ensures r as real <= x < r as real + 1.0
  {
    x.Floor
  }

  /** Truncation toward zero, as the `%` operator uses it. */
  function Trunc(x: real): (r: int)
    ensures 0.0 <= x ==> r == Floor(x)
    ensures x < 0.0 ==> r == -Floor(-x)
  {
    if x >= 0.0 then x.Floor else -((-x).Floor)
  }

  /** The `%` operator on finite reals: the sign follows the dividend, unlike Dafny's `%`. */
  function Rem(a: real, b: real): (r: real)
    requires b != 0.0
  {
    a - b * (Trunc(a / b) as real)
  }

  /** Math.round: the nearest integer, ties toward +Infinity. */
  function Round(x: Num): (r: Num)
    ensures r.Finite? <==> x.Finite?
    ensures x.Finite? ==> x.r - 0.5 < r.r <= x.r + 0.5
    ensures !x.Finite? ==> r == x
  {
    match x
    case Finite(v) => Finite(Floor(v + 0.5) as real)
    case _ => x
  }

  // ---------------------------------------------------------------------------
  // Digits and integer formatting

  predicate IsDigit(c: char) {
    '0' <= c <= '9'
  }

  predicate AllDigits(s: string) {
    forall i :: 0 <= i < |s| ==> IsDigit(s[i])
  }

  function DigitValue(c: char): (d: nat)
    requires IsDigit(c)
    ensures d < 10
  {
    (c as int) - ('0' as int)
  }

  function DigitChar(d: nat): (c: char)
    requires d < 10
    ensures IsDigit(c) && DigitValue(c) == d
  {
    (('0' as int) + d) as char
  }

  /** The value of a string of decimal digits. */
  function DigitsValue(s: string): nat
    requires AllDigits(s)
  {
    if s == [] then 0 else DigitsValue(s[..|s| - 1]) * 10 + DigitValue(s[|s| - 1])
  }

  /** Number.prototype.toString on a non-negative integer: its decimal digits, no leading zero. */
  function NatToString(n: nat): (s: string)
    ensures 1 <= |s| && AllDigits(s)
  {
    if n < 10 then [DigitChar(n)] else NatToString(n / 10) + [DigitChar(n % 10)]
  }

  /** Number.prototype.toString on an integer. */
  function IntToString(n: int): (s: string)
    ensures 1 <= |s|
    ensures n < 0 <==> s[0] == '-'
    ensures 0 <= n ==> s == NatToString(n)
  {
    if n < 0 then "-" + NatToString(-n) else NatToString(n)
  }

  lemma {:induction false} DigitsValueOfNatToString(n: nat)
    ensures DigitsValue(NatToString(n)) == n
  {
    if n >= 10 {
      var s := NatToString(n);
      DigitsValueOfNatToString(n / 10);
      assert s[..|s| - 1] == NatToString(n / 10);
    }
  }

  // ---------------------------------------------------------------------------
  // Scanning

  /**
   * StrWhiteSpaceChar of ECMAScript: tab, line feed, vertical tab, form feed, carriage return,
   * space, no-break space, the Zs category, the line and paragraph separators, and the BOM.
   */
  predicate IsWhiteSpace(c: char) {
    || '\t' <= c <= '\r'
    || c == ' '
    || c == '\U{00A0}'
    || c == '\U{1680}'
    || '\U{2000}' <= c <= '\U{200A}'
    || c == '\U{2028}' || c == '\U{2029}' || c == '\U{202F}' || c == '\U{205F}'
    || c == '\U{3000}'
    || c == '\U{FEFF}'
  }

  /** The string without its leading white space. */
  function TrimStart(s: string): (t: string)
    ensures |t| <= |s| && t == s[|s| - |t|..]
    ensures |t| > 0 ==> !IsWhiteSpace(t[0])
  {
    if s == [] || !IsWhiteSpace(s[0]) then s else TrimStart(s[1..])
  }

  /** The longest prefix made of decimal digits. */
  function DigitPrefix(s: string): (p: string)
    ensures p <= s && AllDigits(p)
    ensures |p| < |s| ==> !IsDigit(s[|p|])
  {
    if s == [] || !IsDigit(s[0]) then [] else [s[0]] + DigitPrefix(s[1..])
  }

  /** The characters that follow an optional leading sign. */
  function Unsigned(t: string): (u: string)
    ensures u <= t || (|t| > 0 && u == t[1..])
  {
    if |t| > 0 && (t[0] == '-' || t[0] == '+') then t[1..] else t
  }

  predicate IsNegative(t: string) {
    |t| > 0 && t[0] == '-'
  }

  // ---------------------------------------------------------------------------
  // Number.parseInt(s, 10)

  /**
   * Number.parseInt with radix 10: leading white space is skipped, one sign is
   * accepted, then the longest run of digits is read; None stands for NaN.
   */
  function ParseInt(s: string): Option<int>
  {
    IntegerPrefix(TrimStart(s))
  }

  /** The signed run of digits at the very start of t. */
  function IntegerPrefix(t: string): (r: Option<int>)
    ensures r.None? <==> DigitPrefix(Unsigned(t)) == []
  {
    var digits := DigitPrefix(Unsigned(t));
    if digits == [] then None
    else if IsNegative(t) then Some(-(DigitsValue(digits) as int))
    else Some(DigitsValue(digits))
  }

  /** Whatever follows a printed integer, if it does not continue its digits, is ignored. */
  lemma ParseIntOfIntToString(n: int, rest: string)
    requires rest == [] || !IsDigit(rest[0])
    ensures ParseInt(IntToString(n) + rest) == Some(n)
  {
    var s := IntToString(n) + rest;
    var m: nat := if n < 0 then -n else n;
    PrintedInt(n, rest);
    ParseIntOfTrimmed(s, s);
    DigitPrefixOfDigits(NatToString(m), rest);
    DigitsValueOfNatToString(m);
  }

  /** A printed integer has no leading white space; its sign is '-' exactly when it is negative. */
  lemma PrintedInt(n: int, rest: string)
    ensures var s := IntToString(n) + rest;
      && TrimStart(s) == s
      && Unsigned(s) == NatToString(if n < 0 then -n else n) + rest
      && (IsNegative(s) <==> n < 0)
  {
    var s := IntToString(n) + rest;
    var digits := NatToString(if n < 0 then -n else n);
    assert s[0] == '-' || IsDigit(s[0]);
    assert !IsWhiteSpace(s[0]);
    if n < 0 {
      assert IntToString(n) == "-" + digits;
      assert s == ['-'] + (digits + rest);
      assert s[1..] == digits + rest;
    } else {
      assert s == digits + rest;
      assert !(s[0] == '-' || s[0] == '+');
    }
  }

  lemma ParseIntOfTrimmed(s: string, t: string)
    requires TrimStart(s) == t
    ensures ParseInt(s) == IntegerPrefix(t)
  {
  }

  lemma {:induction false} DigitPrefixOfDigits(d: string, rest: string)
    requires AllDigits(d)
    requires rest == [] || !IsDigit(rest[0])
    ensures DigitPrefix(d + rest) == d
  {
    if d != [] {
      assert (d + rest)[1..] == d[1..] + rest;
      DigitPrefixOfDigits(d[1..], rest);
    }
  }

  /** Leading white space never changes what parseInt reads. */
  lemma ParseIntSkipsWhiteSpace(ws: string, s: string)
    requires forall i :: 0 <= i < |ws| ==> IsWhiteSpace(ws[i])
    ensures ParseInt(ws + s) == ParseInt(s)
  {
    TrimStartSkips(ws, s);
    ParseIntOfTrimmed(ws + s, TrimStart(s));
    ParseIntOfTrimmed(s, TrimStart(s));
  }

  lemma {:induction false} TrimStartSkips(ws: string, s: string)
    requires forall i :: 0 <= i < |ws| ==> IsWhiteSpace(ws[i])
    ensures TrimStart(ws + s) == TrimStart(s)
  {
    if ws != [] {
      var w := ws + s;
      assert w[0] == ws[0];
      assert IsWhiteSpace(w[0]);
      assert TrimStart(w) == TrimStart(w[1..]);
      assert w[1..] == ws[1..] + s;
      TrimStartSkips(ws[1..], s);
    } else {
      assert ws + s == s;
    }
  }

  /** A string with no digit at all is NaN to parseInt. */
  lemma ParseIntWithoutDigits(s: string)
    requires forall i :: 0 <= i < |s| ==> !IsDigit(s[i])
    ensures ParseInt(s) == None
  {
    var t := TrimStart(s);
    var u := Unsigned(t);
    if u != [] {
      assert u[0] in s;
    }
  }

  // ---------------------------------------------------------------------------
  // Number.parseFloat

  function Pow10(n: nat): (r: real)
    ensures r >= 1.0
  {
    if n == 0 then 1.0 else 10.0 * Pow10(n - 1)
  }

  /** 10 raised to an integer power. */
  function Scale10(e: int): (r: real)
    ensures r > 0.0
  {
    if e >= 0 then Pow10(e) else 1.0 / Pow10(-e)
  }

  /** The exponent of `e[+-]digits` at the start of s, or 0 when s does not start with one. */
  function Exponent(s: string): int {
    if |s| > 0 && (s[0] == 'e' || s[0] == 'E') then
      var digits := DigitPrefix(Unsigned(s[1..]));
      if digits == [] then 0
      else if IsNegative(s[1..]) then -(DigitsValue(digits) as int)
      else DigitsValue(digits)
    else 0
  }

  /**
   * The value of the longest prefix of the form `digits [. [digits]] [exponent]` or
   * `. digits [exponent]`; None when the string starts with neither.
   */
  function UnsignedDecimal(body: string): (r: Option<real>)
    ensures r.None? <==> DigitPrefix(body) == [] && !(|body| > 1 && body[0] == '.' && IsDigit(body[1]))
  {
    var whole := DigitPrefix(body);
    var rest := body[|whole|..];
    var dotted := |rest| > 0 && rest[0] == '.';
    var frac := if dotted then DigitPrefix(rest[1..]) else [];
    if whole == [] && frac == [] then None
    else
      var tail := if dotted then rest[1 + |frac|..] else rest;
      Some((DigitsValue(whole) as real + DigitsValue(frac) as real / Pow10(|frac|)) * Scale10(Exponent(tail)))
  }

  /**
   * Number.parseFloat: leading white space is skipped, then the longest prefix that is a
   * StrDecimalLiteral (a sign, then "Infinity" or a decimal with optional fraction and
   * exponent) is read; NaN when there is none.
   */
  function ParseFloat(s: string): Num
  {
    SignedDecimal(TrimStart(s))
  }

  /** A StrDecimalLiteral at the very start of t, read with its sign. */
  function SignedDecimal(t: string): Num
  {
    var body := Unsigned(t);
    if InfinityPrefix(body) then (if IsNegative(t) then NegInf else PosInf)
    else
      match UnsignedDecimal(body)
      case None => NaN
      case Some(v) => Finite(if IsNegative(t) then -v else v)
  }

  predicate InfinityPrefix(body: string) {
    "Infinity" <= body
  }

  /** parseFloat gives NaN exactly when neither "Infinity" nor a decimal follows the sign. */
  lemma ParseFloatNaN(s: string)
    ensures var body := Unsigned(TrimStart(s));
      ParseFloat(s) == NaN <==> !InfinityPrefix(body) && UnsignedDecimal(body).None?
  {
  }

  /** A run of digits alone reads as its integer value. */
  lemma UnsignedDecimalOfDigits(d: string)
    requires d != [] && AllDigits(d)
    ensures UnsignedDecimal(d) == Some(DigitsValue(d) as real)
  {
    DigitPrefixOfDigits(d, []);
    assert d + [] == d;
    assert d[|d|..] == [];
    assert Exponent([]) == 0;
  }

  /** parseFloat reads a printed integer back exactly. */
  lemma ParseFloatOfIntToString(n: int)
    ensures ParseFloat(IntToString(n)) == Finite(n as real)
  {
    var s := IntToString(n);
    var m: nat := if n < 0 then -n else n;
    var digits := NatToString(m);
    PrintedInt(n, []);
    assert s + [] == s && digits + [] == digits;
    assert IsDigit(digits[0]) && !IsDigit('I');
    assert !InfinityPrefix(digits);
    UnsignedDecimalOfDigits(digits);
    DigitsValueOfNatToString(m);
    ParseFloatOfDecimal(s, s, digits, m as real);
  }

  lemma ParseFloatOfDecimal(s: string, t: string, body: string, v: real)
    requires TrimStart(s) == t && Unsigned(t) == body
    requires !InfinityPrefix(body) && UnsignedDecimal(body) == Some(v)
    ensures ParseFloat(s) == Finite(if IsNegative(t) then -v else v)
  {
  }

  // ---------------------------------------------------------------------------
  // Strings

  /** String.prototype.padStart(width, "0"). */
  function PadStartZero(s: string, width: nat): (r: string)
    ensures |r| == if |s| < width then width else |s|
    ensures r[|r| - |s|..] == s
    ensures forall i :: 0 <= i < |r| - |s| ==> r[i] == '0'
  {
    if |s| < width then seq(width - |s|, _ => '0') + s else s
  }

  /** toLowerCase restricted to ASCII letters; every other character is kept. */
  function ToLowerAscii(s: string): (r: string)
    ensures |r| == |s|
    ensures forall i :: 0 <= i < |s| ==> r[i] == if 'A' <= s[i] <= 'Z' then (s[i] as int + 32) as char else s[i]
  {
    seq(|s|, i requires 0 <= i < |s| => if 'A' <= s[i] <= 'Z' then (s[i] as int + 32) as char else s[i])
  }

  /** Lowering twice is lowering once. */
  lemma ToLowerAsciiIdempotent(s: string)
    ensures ToLowerAscii(ToLowerAscii(s)) == ToLowerAscii(s)
  {
    var t := ToLowerAscii(s);
    assert forall i :: 0 <= i < |t| ==> ToLowerAscii(t)[i] == t[i];
  }
}
