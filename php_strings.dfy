/**
 * The few PHP string primitives the plugin relies on, written out so that
 * their edge cases are explicit: `empty()` on strings, `explode`/`implode`
 * with a one-character separator, `strtolower` (ASCII only since PHP 8.2),
 * integer-to-string conversion, integer-numeric strings and the `(int)`
 * cast of a quotient.
 */
module PhpStrings {
  import opened Wrappers

  /** PHP's `empty()` on a string: true for "" and also for "0". */
  predicate IsEmptyString(s: string) {
    s == "" || s == "0"
  }

  // ---------------------------------------------------------------------
  // explode / implode

  /** `explode(sep, s)` for a one-character separator: the pieces between separators, never an empty list. */
  function Explode(sep: char, s: string): (parts: seq<string>)
    ensures |parts| >= 1
    ensures forall i :: 0 <= i < |parts| ==> sep !in parts[i]
    decreases |s|
  {
    if |s| == 0 then [""]
    else if s[0] == sep then [""] + Explode(sep, s[1..])
    else
      var rest := Explode(sep, s[1..]);
      [[s[0]] + rest[0]] + rest[1..]
  }

  /** `implode(sep, parts)`: the pieces joined with the separator between them. */
  function Implode(sep: char, parts: seq<string>): string
    decreases |parts|
  {
    if |parts| == 0 then ""
    else if |parts| == 1 then parts[0]
    else parts[0] + [sep] + Implode(sep, parts[1..])
  }

  /** Joining the pieces of a split gives back the original string. */
  lemma {:induction false} ImplodeExplode(sep: char, s: string)
    ensures Implode(sep, Explode(sep, s)) == s
    decreases |s|
  {
    if |s| == 0 {
    } else if s[0] == sep {
      var rest := Explode(sep, s[1..]);
      ImplodeExplode(sep, s[1..]);
      if |rest| == 1 {
        assert Implode(sep, [""] + rest) == "" + [sep] + rest[0];
      } else {
        assert Implode(sep, [""] + rest) == "" + [sep] + Implode(sep, rest);
      }
      assert s == [sep] + s[1..];
    } else {
      var rest := Explode(sep, s[1..]);
      ImplodeExplode(sep, s[1..]);
      var parts := [[s[0]] + rest[0]] + rest[1..];
      if |rest| == 1 {
        assert Implode(sep, parts) == [s[0]] + rest[0];
      } else {
        assert parts[1..] == rest[1..];
        assert Implode(sep, rest) == rest[0] + [sep] + Implode(sep, rest[1..]);
        assert Implode(sep, parts) == [s[0]] + rest[0] + [sep] + Implode(sep, rest[1..]);
      }
      assert s == [s[0]] + s[1..];
    }
  }

  /** A string without the separator is a single piece. */
  lemma {:induction false} ExplodeWithoutSeparator(sep: char, s: string)
    requires sep !in s
    ensures Explode(sep, s) == [s]
    decreases |s|
  {
    if |s| > 0 {
      ExplodeWithoutSeparator(sep, s[1..]);
      assert s == [s[0]] + s[1..];
    }
  }

  /** Splitting at the first separator. */
  lemma {:induction false} ExplodeAtFirstSeparator(sep: char, a: string, b: string)
    requires sep !in a
    ensures Explode(sep, a + [sep] + b) == [a] + Explode(sep, b)
    decreases |a|
  {
    if |a| == 0 {
      assert a + [sep] + b == [sep] + b;
      assert (a + [sep] + b)[1..] == b;
    } else {
      var s := a + [sep] + b;
      assert s[1..] == a[1..] + [sep] + b;
      ExplodeAtFirstSeparator(sep, a[1..], b);
      assert [a[0]] + a[1..] == a;
    }
  }

  /** Splitting a join gives back the pieces, provided none of them holds the separator. */
  lemma {:induction false} ExplodeImplode(sep: char, parts: seq<string>)
    requires |parts| >= 1
    requires forall i :: 0 <= i < |parts| ==> sep !in parts[i]
    ensures Explode(sep, Implode(sep, parts)) == parts
    decreases |parts|
  {
    if |parts| == 1 {
      ExplodeWithoutSeparator(sep, parts[0]);
    } else {
      ExplodeImplode(sep, parts[1..]);
      ExplodeAtFirstSeparator(sep, parts[0], Implode(sep, parts[1..]));
      assert [parts[0]] + parts[1..] == parts;
    }
  }

  // ---------------------------------------------------------------------
  // strtolower

  /** The ASCII lower-case of one character; every other character is kept. */
  function AsciiLowerChar(c: char): char {
    if 'A' <= c <= 'Z' then (c as int + 32) as char else c
  }

  /** `strtolower` (locale-independent, ASCII only, as in PHP 8.2 and later). */
  function AsciiLower(s: string): string {
    seq(|s|, i requires 0 <= i < |s| => AsciiLowerChar(s[i]))
  }

  /** Lower-casing leaves no ASCII capital, keeps the length, and is idempotent. */
  lemma AsciiLowerNormalises(s: string)
    ensures |AsciiLower(s)| == |s|
    ensures forall i :: 0 <= i < |s| ==> !('A' <= AsciiLower(s)[i] <= 'Z')
    ensures AsciiLower(AsciiLower(s)) == AsciiLower(s)
  {
  }

  // ---------------------------------------------------------------------
  // Integers as decimal text

  predicate IsDigit(c: char) {
    '0' <= c <= '9'
  }

  function DigitChar(d: nat): (c: char)
    requires d < 10
    ensures IsDigit(c) && c as int - '0' as int == d
  {
    (d + '0' as int) as char
  }

  /** The decimal text of a natural number, without leading zeros. */
  function NatToString(n: nat): (s: string)
    ensures |s| >= 1
    ensures forall i :: 0 <= i < |s| ==> IsDigit(s[i])
    decreases n
  {
    if n < 10 then [DigitChar(n)] else NatToString(n / 10) + [DigitChar(n % 10)]
  }

  /** Reads decimal digits back as a number. */
  function ParseNat(s: string): nat
    requires forall i :: 0 <= i < |s| ==> IsDigit(s[i])
    decreases |s|
  {
    if |s| == 0 then 0
    else
      assert IsDigit(s[|s| - 1]);
      ParseNat(s[..|s| - 1]) * 10 + (s[|s| - 1] as int - '0' as int)
  }

  /** The decimal text of `n` reads back as `n`. */
  lemma {:induction false} ParseNatToString(n: nat)
    ensures ParseNat(NatToString(n)) == n
    decreases n
  {
    if n >= 10 {
      var s := NatToString(n);
      ParseNatToString(n / 10);
      assert s[..|s| - 1] == NatToString(n / 10);
    }
  }

  /** Different numbers have different decimal texts. */
  lemma NatToStringInjective(a: nat, b: nat)
    requires NatToString(a) == NatToString(b)
    ensures a == b
  {
    ParseNatToString(a);
    ParseNatToString(b);
  }

  /** PHP's conversion of an integer to a string (`(string)$i`, string concatenation). */
  function IntToString(i: int): string {
    if i < 0 then "-" + NatToString(-i) else NatToString(i)
  }

  // ---------------------------------------------------------------------
  // Integer-numeric strings

  /** The white space PHP allows around a numeric string: space, \t, \n, \v, \f and \r. */
  predicate IsNumericWhitespace(c: char) {
    c == ' ' || '\t' <= c <= '\r'
  }

  /** The text with its leading and trailing numeric white space removed. */
  function TrimNumericWhitespace(s: string): (t: string)
    ensures |t| <= |s|
    ensures |t| > 0 ==> !IsNumericWhitespace(t[0]) && !IsNumericWhitespace(t[|t| - 1])
    decreases |s|
  {
    if |s| == 0 then s
    else if IsNumericWhitespace(s[0]) then TrimNumericWhitespace(s[1..])
    else if IsNumericWhitespace(s[|s| - 1]) then TrimNumericWhitespace(s[..|s| - 1])
    else s
  }

  predicate AllDigits(s: string) {
    forall i :: 0 <= i < |s| ==> IsDigit(s[i])
  }

  /**
   * The value of a PHP 8 numeric string of integer form: optional white
   * space, an optional sign, at least one digit, optional white space.
   * Numeric strings of float form ("403.0", "4.03e2") are not modelled.
   */
  function IntegerStringValue(s: string): Option<int> {
    var t := TrimNumericWhitespace(s);
    if |t| > 0 && (t[0] == '+' || t[0] == '-') then
      var digits := t[1..];
      if |digits| > 0 && AllDigits(digits) then
        var n: int := ParseNat(digits);
        Some(if t[0] == '-' then -n else n)
      else None
    else if |t| > 0 && AllDigits(t) then Some(ParseNat(t))
    else None
  }

  /** PHP's decimal text of an integer is an integer string with that value. */
  lemma IntegerStringValueOfIntToString(i: int)
    ensures IntegerStringValue(IntToString(i)) == Some(i)
  {
    var digits := NatToString(Abs(i));
    ParseNatToString(Abs(i));
    if i < 0 {
      NegativeIntegerString(digits);
    } else {
      DigitsIntegerString(digits);
    }
  }

  /** Digits alone are an integer string with their value. */
  lemma DigitsIntegerString(digits: string)
    requires |digits| > 0 && AllDigits(digits)
    ensures IntegerStringValue(digits) == Some(ParseNat(digits))
  {
    assert IsDigit(digits[0]) && IsDigit(digits[|digits| - 1]);
    assert TrimNumericWhitespace(digits) == digits;
  }

  /** A minus sign before digits is an integer string with the negated value. */
  lemma NegativeIntegerString(digits: string)
    requires |digits| > 0 && AllDigits(digits)
    ensures IntegerStringValue("-" + digits) == Some(-(ParseNat(digits) as int))
  {
    var s := "-" + digits;
    assert s[0] == '-' && s[1..] == digits;
    assert s[|s| - 1] == digits[|digits| - 1] && IsDigit(s[|s| - 1]);
    assert TrimNumericWhitespace(s) == s;
  }

  // ---------------------------------------------------------------------
  // (int) of a quotient

  /**
   * `(int)($a / $b)`: PHP divides exactly and the cast truncates toward zero
   * (floating-point rounding of very large operands is not modelled).
   */
  function TruncatedQuotient(a: int, b: int): (q: int)
    requires b != 0
    ensures (a >= 0) == (b > 0) ==> q >= 0
    ensures (a >= 0) != (b > 0) ==> q <= 0
    ensures Abs(q) * Abs(b) <= Abs(a) < (Abs(q) + 1) * Abs(b)
  {
    var n := Abs(a) / Abs(b);
    var q := if (a >= 0) == (b > 0) then n else -n;
    QuotientBounds(Abs(a), Abs(b), Abs(q));
    q
  }

  lemma QuotientBounds(x: nat, y: nat, n: nat)
    requires y > 0 && n == x / y
    ensures n * y <= x < (n + 1) * y
  {
    assert x == y * n + x % y;
    assert (n + 1) * y == n * y + y;
  }

  function Abs(x: int): nat {
    if x < 0 then -x else x
  }
}
