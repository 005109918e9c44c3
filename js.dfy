/**
 * The JavaScript string built-ins the clocks and timers rely on, for the cases
 * they are used in: `Number.prototype.toString` of an integer, the `%`
 * operator on integers, `String.prototype.padStart`, `String.prototype.trim`
 * and `parseInt` without a radix on decimal input.
 */
module Js {
  import opened Wrappers

  predicate IsDigit(c: char) { '0' <= c <= '9' }

  predicate AllDigits(s: string) { forall i :: 0 <= i < |s| ==> IsDigit(s[i]) }

  function DigitChar(d: nat): (c: char)
    requires d < 10
    ensures IsDigit(c) && (c == '0' <==> d == 0)
  {
    ('0' as int + d) as char
  }

  function DigitValue(c: char): (d: nat)
    requires IsDigit(c)
    ensures d < 10 && DigitChar(d) == c
  {
    c as int - '0' as int
  }

  /** `n.toString()` for a non-negative integer: its decimal digits, no leading zero. */
  function DecimalString(n: nat): (s: string)
    ensures AllDigits(s) && 1 <= |s|
    ensures |s| == 1 <==> n < 10
    ensures n < 100 ==> |s| <= 2
    ensures |s| > 1 ==> s[0] != '0'
    decreases n
  {
    if n < 10 then [DigitChar(n)] else DecimalString(n / 10) + [DigitChar(n % 10)]
  }

  /** The number a string of decimal digits denotes, most significant first; leading zeros allowed. */
  function DigitsValue(s: string): nat
    requires AllDigits(s)
    decreases |s|
  {
    if s == [] then 0 else DigitsValue(s[..|s| - 1]) * 10 + DigitValue(s[|s| - 1])
  }

  /** Reading back the digits `toString` writes gives the number again. */
  lemma {:induction false} DecimalStringRoundTrip(n: nat)
    ensures DigitsValue(DecimalString(n)) == n
    decreases n
  {
    var s := DecimalString(n);
    if n >= 10 {
      DecimalStringRoundTrip(n / 10);
      assert s[..|s| - 1] == DecimalString(n / 10);
    }
  }

  /** A leading '0' does not change the value of a digit string. */
  lemma {:induction false} LeadingZeroIgnored(s: string)
    requires AllDigits(s)
    ensures AllDigits("0" + s) && DigitsValue("0" + s) == DigitsValue(s)
    decreases |s|
  {
    if s != [] {
      var t := "0" + s;
      assert t[..|t| - 1] == "0" + s[..|s| - 1];
      LeadingZeroIgnored(s[..|s| - 1]);
    }
  }

  /** `s.padStart(len, fill)` with a one-character fill string. */
  function PadStart(s: string, len: nat, fill: char): (r: string)
    ensures |r| == if |s| >= len then |s| else len
    ensures r[|r| - |s|..] == s
    ensures forall i :: 0 <= i < |r| - |s| ==> r[i] == fill
    decreases len - |s|
  {
    if |s| >= len then s else PadStart([fill] + s, len, fill)
  }

  /** The two-character field every display uses: `n.toString().padStart(2, '0')`. */
  function Pad2(n: nat): (r: string)
  {
    PadStart(DecimalString(n), 2, '0')
  }

  /** A field below 100 is exactly two digits, and reading them back gives the number. */
  lemma Pad2RoundTrip(n: nat)
    requires n < 100
    ensures |Pad2(n)| == 2 && AllDigits(Pad2(n)) && DigitsValue(Pad2(n)) == n
  {
    var d := DecimalString(n);
    DecimalStringRoundTrip(n);
    if n < 10 {
      assert Pad2(n) == "0" + d;
      LeadingZeroIgnored(d);
    } else {
      assert Pad2(n) == d;
    }
  }

  /** `n.toString()` for any integer: a minus sign in front of the digits of a negative one. */
  function IntString(n: int): string
  {
    if n >= 0 then DecimalString(n) else "-" + DecimalString(-n)
  }

  /** `n.toString().padStart(2, '0')` for any integer. */
  function PadInt2(n: int): string
  {
    PadStart(IntString(n), 2, '0')
  }

  /**
   * A non-negative field is padded as `Pad2` pads it; a negative one is
   * already two characters long, so it is shown as it is, sign first.
   */
  lemma PadInt2Cases(n: int)
    ensures n >= 0 ==> PadInt2(n) == Pad2(n)
    ensures n < 0 ==> PadInt2(n) == "-" + DecimalString(-n) && |PadInt2(n)| >= 2
  {
    if n < 0 {
      assert |IntString(n)| >= 2;
    }
  }

  /** The quotient of `n / d` rounded toward zero, as `Math.trunc(n / d)`. */
  function TruncDiv(n: int, d: int): int
    requires d > 0
  {
    if n >= 0 then n / d else -((-n) / d)
  }

  /**
   * `n % d` in JavaScript for a positive `d`: what is left after taking away
   * the quotient rounded toward zero, so it takes the sign of `n` (Dafny's `%`
   * never does).
   */
  function JsRem(n: int, d: int): (r: int)
    requires d > 0
    ensures n == d * TruncDiv(n, d) + r
    ensures n >= 0 ==> 0 <= r < d
    ensures n < 0 ==> -d < r <= 0
  {
    if n >= 0 then n % d else -((-n) % d)
  }

  /** Three two-character fields joined by two separators can be cut apart again at fixed positions. */
  lemma SplitJoined(a: string, x: char, b: string, y: char, c: string)
    requires |a| == 2 && |b| == 2 && |c| == 2
    ensures var r := a + [x] + b + [y] + c;
            |r| == 8 && r[2] == x && r[5] == y && r[..2] == a && r[3..5] == b && r[6..] == c
  {
    var r := a + [x] + b + [y] + c;
    assert r[..2] == a;
    assert r[3..5] == b;
    assert r[6..] == c;
  }

  /** Two two-character fields joined by a separator can be cut apart again at fixed positions. */
  lemma SplitJoinedPair(a: string, x: char, b: string)
    requires |a| == 2 && |b| == 2
    ensures var r := a + [x] + b;
            |r| == 5 && r[2] == x && r[..2] == a && r[3..] == b
  {
    var r := a + [x] + b;
    assert r[..2] == a;
    assert r[3..] == b;
  }

  /** The characters `trim` removes: the WhiteSpace and LineTerminator code points of ECMAScript. */
  predicate IsJsWhitespace(c: char)
  {
    var k := c as int;
    k == 0x09 || k == 0x0A || k == 0x0B || k == 0x0C || k == 0x0D || k == 0x20 || k == 0xA0
    || k == 0x1680 || (0x2000 <= k <= 0x200A) || k == 0x2028 || k == 0x2029 || k == 0x202F
    || k == 0x205F || k == 0x3000 || k == 0xFEFF
  }

  predicate IsBlank(s: string) { forall i :: 0 <= i < |s| ==> IsJsWhitespace(s[i]) }

  function TrimStart(s: string): (r: string)
    ensures |r| <= |s| && r == s[|s| - |r|..]
    ensures r != [] ==> !IsJsWhitespace(r[0])
    ensures IsBlank(s[..|s| - |r|])
  {
    if s != [] && IsJsWhitespace(s[0]) then TrimStart(s[1..]) else s
  }

  function TrimEnd(s: string): (r: string)
    ensures |r| <= |s| && r == s[..|r|]
    ensures r != [] ==> !IsJsWhitespace(r[|r| - 1])
    ensures IsBlank(s[|r|..])
  {
    if s != [] && IsJsWhitespace(s[|s| - 1]) then TrimEnd(s[..|s| - 1]) else s
  }

  /** `s.trim()`. */
  function Trim(s: string): string
  {
    TrimEnd(TrimStart(s))
  }

  /** `s.trim() === ''` holds exactly for the strings made only of white space. */
  lemma TrimEmptyIffBlank(s: string)
    ensures Trim(s) == "" <==> IsBlank(s)
  {
    var t := TrimStart(s);
    if IsBlank(s) {
      assert t == [];
    }
    if Trim(s) == "" {
      assert IsBlank(t) by { assert t[0..] == t; }
      assert t == [];
      assert s[..|s| - |t|] == s;
    }
  }

  /** The longest run of digits at the start of `s`. */
  function DigitPrefix(s: string): (p: string)
    ensures AllDigits(p) && p <= s
    ensures |p| < |s| ==> !IsDigit(s[|p|])
  {
    if s != [] && IsDigit(s[0]) then [s[0]] + DigitPrefix(s[1..]) else []
  }

  /** The value of the digits at the start of `s`, or `None` when `s` does not start with one. */
  function LeadingNumber(s: string): Option<int>
  {
    var digits := DigitPrefix(s);
    if digits == [] then None else Some(DigitsValue(digits))
  }

  function Negate(n: Option<int>): Option<int>
  {
    match n
    case None => None
    case Some(v) => Some(-v)
  }

  /**
   * `parseInt(s)` for decimal input: leading white space is skipped, one sign
   * is read, then the longest run of digits; without any digit the result is
   * `NaN`, here `None`.
   */
  function ParseInt(s: string): Option<int>
  {
    var t := TrimStart(s);
    if t != [] && t[0] == '-' then Negate(LeadingNumber(t[1..]))
    else if t != [] && t[0] == '+' then LeadingNumber(t[1..])
    else LeadingNumber(t)
  }

  lemma AllDigitsPrefix(s: string)
    requires AllDigits(s)
    ensures DigitPrefix(s) == s
  {
    if s != [] { AllDigitsPrefix(s[1..]); }
  }

  lemma LeadingNumberOfDigits(d: string)
    requires AllDigits(d) && d != []
    ensures LeadingNumber(d) == Some(DigitsValue(d) as int)
  {
    AllDigitsPrefix(d);
  }

  /** Digits without a sign or white space in front parse as their value. */
  lemma ParseIntOfDigits(d: string)
    requires AllDigits(d) && d != []
    ensures ParseInt(d) == Some(DigitsValue(d) as int)
  {
    assert IsDigit(d[0]);
    assert TrimStart(d) == d;
    LeadingNumberOfDigits(d);
  }

  /** A minus sign right before a digit negates the number that follows. */
  lemma ParseIntAfterMinus(d: string)
    requires d != [] && IsDigit(d[0])
    ensures ParseInt("-" + d) == Negate(LeadingNumber(d))
  {
    var m := "-" + d;
    assert TrimStart(m) == m;
    assert m[1..] == d;
  }

  /** `parseInt` reads back what `toString` writes. */
  lemma ParseIntOfDecimal(n: nat)
    ensures ParseInt(DecimalString(n)) == Some(n as int)
  {
    DecimalStringRoundTrip(n);
    ParseIntOfDigits(DecimalString(n));
  }
}
