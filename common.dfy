/** Values shared by every other module: an optional value (a nullable column
    or an absent prop), and the few JavaScript string operations the
    application relies on, written out for exact strings: `trim`,
    `toLowerCase`, `includes`, `split('T')[0]` and `parseFloat`. */
module Common {

  datatype Option<+T> = None | Some(value: T) {
    /** `x || d` and `x ?? d` on a nullable column whose present values are truthy. */
    function GetOr(default: T): T {
      match this
      case Some(v) => v
      case None => default
    }
  }

  /** JavaScript truthiness of an optional string: absent and "" are falsy. */
  predicate Present(s: Option<string>) {
    s.Some? && s.value != ""
  }

  // ---------------------------------------------------------------------
  // Whitespace and String.prototype.trim

  /** The characters ECMAScript counts as WhiteSpace or LineTerminator. */
  predicate IsJsWhitespace(c: char) {
    c == ' ' || c == '\t' || c == '\n' || c == '\r' || c == '\U{000B}' || c == '\U{000C}'
    || c == '\U{00A0}' || c == '\U{1680}' || ('\U{2000}' <= c <= '\U{200A}')
    || c == '\U{2028}' || c == '\U{2029}' || c == '\U{202F}' || c == '\U{205F}'
    || c == '\U{3000}' || c == '\U{FEFF}'
  }

  predicate AllWhitespace(s: string) {
    forall i :: 0 <= i < |s| ==> IsJsWhitespace(s[i])
  }

  function TrimStart(s: string): (r: string)
    ensures |r| <= |s| && r == s[|s| - |r|..]
    ensures r != [] ==> !IsJsWhitespace(r[0])
    ensures AllWhitespace(s[..|s| - |r|])
  {
    if s != [] && IsJsWhitespace(s[0]) then
      var r := TrimStart(s[1..]);
      assert s[1..][..|s| - 1 - |r|] == s[1..|s| - |r|];
      r
    else s
  }

  function TrimEnd(s: string): (r: string)
    ensures |r| <= |s| && r == s[..|r|]
    ensures r != [] ==> !IsJsWhitespace(r[|r| - 1])
    ensures AllWhitespace(s[|r|..])
  {
    if s != [] && IsJsWhitespace(s[|s| - 1]) then
      var r := TrimEnd(s[..|s| - 1]);
      assert s[..|s| - 1][|r|..] == s[|r|..|s| - 1];
      assert s[|r|..] == s[|r|..|s| - 1] + [s[|s| - 1]];
      r
    else s
  }

  /** String.prototype.trim. */
  function Trim(s: string): string {
    TrimEnd(TrimStart(s))
  }

  /** `!s.trim()` holds exactly when `s` consists of whitespace only. */
  lemma TrimEmptyIffBlank(s: string)
    ensures Trim(s) == [] <==> AllWhitespace(s)
  {
    var t := TrimStart(s);
    if t != [] {
      assert t[0] == s[|s| - |t|];
      assert t[0..] == t;
    } else {
      assert s[..|s|] == s;
    }
  }

  // ---------------------------------------------------------------------
  // String.prototype.toLowerCase and String.prototype.includes

  function LowerChar(c: char): (r: char)
    ensures 'A' <= c <= 'Z' ==> r as int == c as int + 32
    ensures !('A' <= c <= 'Z') ==> r == c
  {
    if 'A' <= c <= 'Z' then (c as int + 32) as char else c
  }

  /** toLowerCase on the Latin letters; other scripts are kept as they are. */
  function ToLower(s: string): (r: string)
    ensures |r| == |s|
    ensures forall i :: 0 <= i < |s| ==> r[i] == LowerChar(s[i])
  {
    seq(|s|, i requires 0 <= i < |s| => LowerChar(s[i]))
  }

  /** `s.includes(t)`: `t` occurs in `s` at some position. */
  predicate Includes(s: string, t: string) {
    exists i :: 0 <= i <= |s| - |t| && OccursAt(s, t, i)
  }

  predicate OccursAt(s: string, t: string, i: int) {
    0 <= i <= |s| - |t| && s[i..i + |t|] == t
  }

  lemma IncludesEmpty(s: string)
    ensures Includes(s, "")
  {
    assert OccursAt(s, "", 0);
  }

  // ---------------------------------------------------------------------
  // `iso.split('T')[0]`

  /** The part of `s` before its first 'T' (all of `s` when it has none). */
  function BeforeT(s: string): (r: string)
    ensures |r| <= |s| && r == s[..|r|]
    ensures forall i :: 0 <= i < |r| ==> r[i] != 'T'
    ensures |r| < |s| ==> s[|r|] == 'T'
  {
    if s == [] || s[0] == 'T' then [] else [s[0]] + BeforeT(s[1..])
  }

  /** An ISO timestamp `d + "T" + rest` splits back to its date part `d`. */
  lemma {:induction false} BeforeTOfTimestamp(d: string, rest: string)
    requires forall i :: 0 <= i < |d| ==> d[i] != 'T'
    ensures BeforeT(d + "T" + rest) == d
  {
    if d != [] {
      assert (d + "T" + rest)[1..] == d[1..] + "T" + rest;
      BeforeTOfTimestamp(d[1..], rest);
    }
  }

  // ---------------------------------------------------------------------
  // parseFloat on decimal text (sign, digits, fraction, exponent)

  predicate IsDigit(c: char) { '0' <= c <= '9' }

  function DigitValue(c: char): nat
    requires IsDigit(c)
  {
    c as int - '0' as int
  }

  /** Length of the run of decimal digits that starts `s`. */
  function DigitRun(s: string): (n: nat)
    ensures n <= |s|
    ensures forall i :: 0 <= i < n ==> IsDigit(s[i])
    ensures n < |s| ==> !IsDigit(s[n])
  {
    if s != [] && IsDigit(s[0]) then 1 + DigitRun(s[1..]) else 0
  }

  /** The value of a string of decimal digits, most significant first. */
  function DigitsValue(s: string): nat
    requires forall i :: 0 <= i < |s| ==> IsDigit(s[i])
  {
    if s == [] then 0 else DigitsValue(s[..|s| - 1]) * 10 + DigitValue(s[|s| - 1])
  }

  /** `v * 10^e`, one decimal place at a time. */
  function Scale(v: real, e: int): real
    decreases if e >= 0 then e else -e
  {
    if e == 0 then v
    else if e > 0 then Scale(v * 10.0, e - 1)
    else Scale(v / 10.0, e + 1)
  }

  /** The exponent an `e[+-]digits` suffix denotes; 0 when `s` does not
      start with one (parseFloat ignores a trailing `e` without digits). */
  function Exponent(s: string): int {
    if |s| > 0 && (s[0] == 'e' || s[0] == 'E') then
      var t := s[1..];
      var negative := |t| > 0 && t[0] == '-';
      var u := Unsigned(t);
      var k := DigitRun(u);
      if k == 0 then 0
      else if negative then -(DigitsValue(u[..k]) as int)
      else DigitsValue(u[..k]) as int
    else 0
  }

  /** parseFloat of text without a sign: the digits before and after an
      optional point, scaled by the exponent; None stands for NaN. */
  function ParseUnsigned(u: string): Option<real> {
    var n := DigitRun(u);
    var rest := u[n..];
    if |rest| > 0 && rest[0] == '.' then
      var f := DigitRun(rest[1..]);
      var digits := u[..n] + rest[1..1 + f];
      if n + f == 0 then None
      else
        assert forall i :: 0 <= i < |digits| ==> IsDigit(digits[i]);
        Some(Scale(DigitsValue(digits) as real, Exponent(rest[1 + f..]) - f))
    else if n == 0 then None
    else Some(Scale(DigitsValue(u[..n]) as real, Exponent(rest)))
  }

  /** parseFloat: leading whitespace, an optional sign, then the longest
      decimal prefix; None (NaN) when that prefix holds no digit. */
  function ParseFloat(s: string): Option<real> {
    var t := TrimStart(s);
    var negative := |t| > 0 && t[0] == '-';
    match ParseUnsigned(Unsigned(t))
    case None => None
    case Some(v) => Some(if negative then -v else v)
  }

  /** `t` without its leading sign, if any. */
  function Unsigned(t: string): (u: string)
    ensures |u| <= |t| && u == t[|t| - |u|..]
  {
    if |t| > 0 && (t[0] == '-' || t[0] == '+') then t[1..] else t
  }

  /** Text without a digit is NaN. */
  lemma ParseNoDigits(s: string)
    requires forall i :: 0 <= i < |s| ==> !IsDigit(s[i])
    ensures ParseFloat(s) == None
  {
    var t := TrimStart(s);
    var u := Unsigned(t);
    assert forall i :: 0 <= i < |u| ==> u[i] == s[|s| - |u| + i];
    assert DigitRun(u) == 0;
    if |u| > 0 && u[0] == '.' {
      assert DigitRun(u[1..]) == 0 by {
        if |u| > 1 { assert u[1..][0] == u[1]; }
      }
    }
  }

  /** `parseFloat(x) || 0`: NaN counts as zero. */
  function NumberOrZero(s: string): real {
    ParseFloat(s).GetOr(0.0)
  }

  function Digit(d: nat): (c: char)
    requires d < 10
    ensures IsDigit(c) && DigitValue(c) == d
  {
    ('0' as int + d) as char
  }

  /** The decimal numeral of `n`, as a number input renders it. */
  function Numeral(n: nat): (s: string)
    ensures |s| > 0 && forall i :: 0 <= i < |s| ==> IsDigit(s[i])
  {
    if n < 10 then [Digit(n)] else Numeral(n / 10) + [Digit(n % 10)]
  }

  lemma {:induction false} NumeralValue(n: nat)
    ensures DigitsValue(Numeral(n)) == n
  {
    if n >= 10 {
      NumeralValue(n / 10);
      assert Numeral(n)[..|Numeral(n)| - 1] == Numeral(n / 10);
    }
  }

  lemma {:induction false} DigitRunOfDigits(s: string)
    requires forall i :: 0 <= i < |s| ==> IsDigit(s[i])
    ensures DigitRun(s) == |s|
  {
    if s != [] { DigitRunOfDigits(s[1..]); }
  }

  lemma ParseUnsignedDigits(u: string)
    requires |u| > 0 && forall i :: 0 <= i < |u| ==> IsDigit(u[i])
    ensures ParseUnsigned(u) == Some(DigitsValue(u) as real)
  {
    DigitRunOfDigits(u);
    assert u[|u|..] == [];
    assert u[..|u|] == u;
  }

  /** Text made of digits only parses to the number those digits denote. */
  lemma ParseDigits(s: string)
    requires |s| > 0 && forall i :: 0 <= i < |s| ==> IsDigit(s[i])
    ensures ParseFloat(s) == Some(DigitsValue(s) as real)
  {
    var c := s[0];
    assert IsDigit(c);
    assert !IsJsWhitespace(c) && c != '-' && c != '+';
    PlainTextParse(s);
    ParseUnsignedDigits(s);
  }

  /** Text that starts with neither whitespace nor a sign is parsed as it is. */
  lemma PlainTextParse(s: string)
    requires |s| > 0 && !IsJsWhitespace(s[0]) && s[0] != '-' && s[0] != '+'
    ensures ParseFloat(s) == ParseUnsigned(s)
  {
    assert TrimStart(s) == s;
    assert Unsigned(s) == s;
  }

  /** Parsing the numeral of a natural number gives that number back. */
  lemma ParseNumeral(n: nat)
    ensures ParseFloat(Numeral(n)) == Some(n as real)
    ensures NumberOrZero(Numeral(n)) == n as real
  {
    ParseDigits(Numeral(n));
    NumeralValue(n);
  }

  /** An empty input (the initial value of every form field) parses to NaN. */
  lemma ParseEmpty()
    ensures ParseFloat("") == None
    ensures NumberOrZero("") == 0.0
  {
    ParseNoDigits("");
  }
}
