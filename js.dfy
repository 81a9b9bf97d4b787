/** The pieces of JavaScript value semantics that the order code relies on:
    absent values, truthiness of strings, `Math.round`, `parseInt(s, 10)`
    and the decimal rendering of a non-negative integer (as in a template
    string such as `order_${Date.now()}`). */
module Js {

  datatype Option<+T> = None | Some(value: T)

  datatype Result<+T, +E> = Success(value: T) | Failure(error: E)

  /** A string field in a boolean context: `undefined`, `null` and "" are falsy. */
  predicate Truthy(s: Option<string>) {
    s.Some? && s.value != ""
  }

  /** `a + "|" + b` coerces an absent operand to the text "undefined". */
  function Coerce(s: Option<string>): string {
    if s.Some? then s.value else "undefined"
  }

  /** `Math.round` on an exact number: the nearest integer, a half rounded up. */
  function Round(x: real): (r: int)
    ensures x - 0.5 < r as real <= x + 0.5
  {
    (x + 0.5).Floor
  }

  predicate IsDigit(c: char) {
    '0' <= c <= '9'
  }

  predicate AllDigits(s: string) {
    forall i :: 0 <= i < |s| ==> IsDigit(s[i])
  }

  function DigitValue(c: char): nat
    requires IsDigit(c)
  {
    c as int - '0' as int
  }

  function DigitChar(d: nat): (c: char)
    requires d < 10
    ensures IsDigit(c) && DigitValue(c) == d
  {
    ('0' as int + d) as char
  }

  /** The characters `parseInt` skips before the number: white space and
      line terminators (StrWhiteSpaceChar of ECMA-262). */
  predicate IsJsSpace(c: char) {
    || c == '\t' || c == '\n' || c == '\U{B}' || c == '\U{C}' || c == '\r' || c == ' '
    || c == '\U{A0}' || c == '\U{1680}' || ('\U{2000}' <= c <= '\U{200A}')
    || c == '\U{2028}' || c == '\U{2029}' || c == '\U{202F}' || c == '\U{205F}'
    || c == '\U{3000}' || c == '\U{FEFF}'
  }

  /** `s` without its leading white space. */
  function TrimStart(s: string): (t: string)
    ensures |t| <= |s| && t == s[|s| - |t|..]
    ensures t == [] || !IsJsSpace(t[0])
    ensures s != [] && !IsJsSpace(s[0]) ==> t == s
  {
    if s != [] && IsJsSpace(s[0]) then TrimStart(s[1..]) else s
  }

  /** The longest prefix of `s` made of decimal digits. */
  function LeadingDigits(s: string): (d: string)
    ensures d <= s && AllDigits(d)
    ensures |d| == |s| || !IsDigit(s[|d|])
  {
    if s != [] && IsDigit(s[0]) then [s[0]] + LeadingDigits(s[1..]) else []
  }

  /** The value of a string of decimal digits, most significant first. */
  function DigitsValue(d: string): nat
    requires AllDigits(d)
  {
    if d == [] then 0 else 10 * DigitsValue(d[..|d| - 1]) + DigitValue(d[|d| - 1])
  }

  /** `parseInt(s, 10)`: skip white space, then read an optional sign and
      the longest run of decimal digits after it; `None` stands for NaN
      (no digit). */
  function ParseInt(s: string): Option<int>
  {
    ParseSigned(TrimStart(s))
  }

  /** An optional sign and the digits after it, negated after a `-`. */
  function ParseSigned(t: string): Option<int>
  {
    if t != [] && t[0] == '-' then
      var v := ParseDigits(t[1..]);
      if v.Some? then Some(-(v.value as int)) else None
    else if t != [] && t[0] == '+' then ParseDigits(t[1..])
    else ParseDigits(t)
  }

  /** The value of the leading run of digits, `None` when there is none. */
  function ParseDigits(u: string): Option<nat>
  {
    var d := LeadingDigits(u);
    if d == [] then None else Some(DigitsValue(d))
  }

  /** The decimal rendering of `n`, as `String(n)` prints a safe integer. */
  function DecimalString(n: nat): (s: string)
    ensures s != [] && AllDigits(s)
    ensures DigitsValue(s) == n
    ensures n > 0 ==> s[0] != '0'
    ensures n == 0 ==> s == "0"
  {
    if n < 10 then [DigitChar(n)]
    else
      var s := DecimalString(n / 10) + [DigitChar(n % 10)];
      assert s[..|s| - 1] == DecimalString(n / 10);
      s
  }

  /** A run of digits followed by a non-digit (or nothing) is read whole. */
  lemma {:induction false} LeadingDigitsOfDigits(d: string, rest: string)
    requires AllDigits(d)
    requires rest == [] || !IsDigit(rest[0])
    ensures LeadingDigits(d + rest) == d
  {
    if d != [] {
      assert (d + rest)[1..] == d[1..] + rest;
      LeadingDigitsOfDigits(d[1..], rest);
    } else {
      assert d + rest == rest;
    }
  }

  /** `k` zero digits. */
  function Zeros(k: nat): (z: string)
    ensures |z| == k && AllDigits(z)
  {
    seq(k, _ => '0')
  }

  /** Zero digits are worth nothing. */
  lemma {:induction false} ZerosValue(k: nat)
    ensures DigitsValue(Zeros(k)) == 0
  {
    if k > 0 {
      assert Zeros(k)[..k - 1] == Zeros(k - 1);
      ZerosValue(k - 1);
    }
  }

  /** Leading zeros do not change the value of a run of digits. */
  lemma {:induction false} DigitsValueLeadingZeros(k: nat, d: string)
    requires AllDigits(d)
    ensures AllDigits(Zeros(k) + d)
    ensures DigitsValue(Zeros(k) + d) == DigitsValue(d)
  {
    var z := Zeros(k) + d;
    assert AllDigits(z);
    if d == [] {
      assert z == Zeros(k);
      ZerosValue(k);
    } else {
      var front := d[..|d| - 1];
      assert z[..|z| - 1] == Zeros(k) + front;
      assert z[|z| - 1] == d[|d| - 1];
      DigitsValueLeadingZeros(k, front);
    }
  }

  /** Blanks before a string that does not start with one are skipped. */
  lemma {:induction false} TrimStartOfBlanks(blanks: string, t: string)
    requires forall i :: 0 <= i < |blanks| ==> IsJsSpace(blanks[i])
    requires t == [] || !IsJsSpace(t[0])
    ensures TrimStart(blanks + t) == t
  {
    if blanks == [] {
      assert blanks + t == t;
    } else {
      assert (blanks + t)[0] == blanks[0];
      assert (blanks + t)[1..] == blanks[1..] + t;
      TrimStartOfBlanks(blanks[1..], t);
    }
  }

  /** `parseInt` skips leading blanks. */
  lemma {:induction false} ParseIntAfterBlanks(blanks: string, u: string)
    requires forall i :: 0 <= i < |blanks| ==> IsJsSpace(blanks[i])
    requires u == [] || !IsJsSpace(u[0])
    ensures ParseInt(blanks + u) == ParseInt(u)
  {
    TrimStartOfBlanks(blanks, u);
    assert TrimStart(u) == u;
  }

  /** A run of digits followed by a non-digit or nothing is read as the
      run's value. */
  lemma ParseDigitsOfRun(d: string, rest: string)
    requires d != [] && AllDigits(d)
    requires rest == [] || !IsDigit(rest[0])
    ensures ParseDigits(d + rest) == Some(DigitsValue(d))
  {
    LeadingDigitsOfDigits(d, rest);
  }

  /** A text that does not start with a blank is read from its first
      character. */
  lemma ParseIntUntrimmed(text: string)
    requires text != [] && !IsJsSpace(text[0])
    ensures ParseInt(text) == ParseSigned(text)
  {
    assert TrimStart(text) == text;
  }

  /** A sign, then digits, then a non-digit or nothing: the digits'
      value, negated after a `-`. */
  lemma {:induction false} ParseIntOfSignedDigits(sign: char, d: string, rest: string)
    requires sign == '+' || sign == '-'
    requires d != [] && AllDigits(d)
    requires rest == [] || !IsDigit(rest[0])
    ensures !IsJsSpace(sign)
    ensures ParseInt([sign] + (d + rest)) == Some(if sign == '-' then -(DigitsValue(d) as int) else DigitsValue(d))
  {
    var text := [sign] + (d + rest);
    ParseDigitsOfRun(d, rest);
    assert text[1..] == d + rest;
    ParseIntUntrimmed(text);
  }

  /** An optional sign, then digits, then a non-digit or nothing: the
      text starts with no blank and reads as the digits' value, negated
      after a `-`. */
  lemma {:induction false} ParseIntOfSignedText(sign: string, d: string, rest: string)
    requires sign == "" || sign == "+" || sign == "-"
    requires d != [] && AllDigits(d)
    requires rest == [] || !IsDigit(rest[0])
    ensures var text := sign + (d + rest);
      && text != [] && !IsJsSpace(text[0])
      && ParseInt(text) == Some(if sign == "-" then -(DigitsValue(d) as int) else DigitsValue(d))
  {
    var u := d + rest;
    if sign == "" {
      assert sign + u == u;
      assert u[0] == d[0];
      ParseDigitsOfRun(d, rest);
      ParseIntUntrimmed(u);
    } else {
      assert sign == [sign[0]];
      ParseIntOfSignedDigits(sign[0], d, rest);
    }
  }

  /** `parseInt` of an optional sign, zeros, the decimal rendering of `n`
      and then a non-digit or nothing is `n`, negated after a `-`. */
  lemma {:induction false} ParseIntOfNumeral(sign: string, zeros: nat, n: nat, rest: string)
    requires sign == "" || sign == "+" || sign == "-"
    requires rest == [] || !IsDigit(rest[0])
    ensures var text := sign + Zeros(zeros) + DecimalString(n) + rest;
      && text != [] && !IsJsSpace(text[0])
      && ParseInt(text) == Some(if sign == "-" then -(n as int) else n)
  {
    var digits := Zeros(zeros) + DecimalString(n);
    Regroup(sign, Zeros(zeros), DecimalString(n), rest);
    DigitsValueLeadingZeros(zeros, DecimalString(n));
    ParseIntOfSignedText(sign, digits, rest);
  }

  /** Concatenation regrouped. */
  lemma Regroup<T>(a: seq<T>, b: seq<T>, c: seq<T>, d: seq<T>)
    ensures a + b + c + d == a + ((b + c) + d)
  {
  }

  /** Round trip: `parseInt` reads back the decimal rendering of a number,
      whatever non-digit text follows it. */
  lemma {:induction false} ParseIntOfDecimal(n: nat, rest: string)
    requires rest == [] || !IsDigit(rest[0])
    ensures ParseInt(DecimalString(n) + rest) == Some(n)
  {
    ParseIntOfSignedText("", DecimalString(n), rest);
    assert "" + (DecimalString(n) + rest) == DecimalString(n) + rest;
  }

  /** A string whose first non-blank character is neither a sign nor a
      digit parses to NaN. */
  lemma {:induction false} ParseIntNaN(s: string)
    requires var t := TrimStart(s); t == [] || (t[0] != '-' && t[0] != '+' && !IsDigit(t[0]))
    ensures ParseInt(s) == None
  {
  }

  /** A string whose first non-blank character is a sign not followed by
      a digit parses to NaN. */
  lemma {:induction false} ParseIntSignWithoutDigits(s: string)
    requires var t := TrimStart(s); t != [] && (t[0] == '-' || t[0] == '+') && (|t| == 1 || !IsDigit(t[1]))
    ensures ParseInt(s) == None
  {
    var t := TrimStart(s);
    assert LeadingDigits(t[1..]) == [];
  }
}
