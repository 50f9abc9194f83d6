/** Digit strings as Python reads them with `int(s, base)` and writes them with
    `'%x'` / `str(n)`, for bases up to 16. */
module Numerals {
  import opened Values

  /** The value of `c` as a digit (both letter cases), or -1 if it is no digit. */
  function DigitValue(c: char): int
  {
    if '0' <= c <= '9' then c as int - '0' as int
    else if 'a' <= c <= 'f' then c as int - 'a' as int + 10
    else if 'A' <= c <= 'F' then c as int - 'A' as int + 10
    else -1
  }

  predicate IsDigitIn(c: char, base: nat)
  {
    0 <= DigitValue(c) < base
  }

  predicate AllDigitsIn(s: string, base: nat)
  {
    forall i :: 0 <= i < |s| ==> IsDigitIn(s[i], base)
  }

  /** A digit as `'%x'` prints it: `0`-`9` or a lower-case `a`-`f`. */
  predicate IsLowerHexDigit(c: char)
  {
    '0' <= c <= '9' || 'a' <= c <= 'f'
  }

  /** The lower-case character for digit `d`, as `'%x'` prints it. */
  function DigitChar(d: nat): (c: char)
    requires d < 16
    ensures DigitValue(c) == d
    ensures IsLowerHexDigit(c)
  {
    if d < 10 then ('0' as int + d) as char else ('a' as int + d - 10) as char
  }

  /** The value of a digit string, most significant digit first. */
  function ValueOf(s: string, base: nat): nat
    requires AllDigitsIn(s, base)
  {
    if s == [] then 0 else ValueOf(s[..|s| - 1], base) * base + DigitValue(s[|s| - 1])
  }

  /** `int(s, base)` on a string of digits; `None` where Python raises
      `ValueError` (the empty string, or any character that is no digit). */
  function Parse(s: string, base: nat): (r: Option<nat>)
    ensures r.Some? <==> s != [] && AllDigitsIn(s, base)
  {
    if s != [] && AllDigitsIn(s, base) then Some(ValueOf(s, base)) else None
  }

  /** The shortest numeral of `n` in `base`, lower case, as `'%x' % n` or
      `str(n)` print it. */
  function Numeral(n: nat, base: nat): (s: string)
    requires 2 <= base <= 16
    ensures 1 <= |s|
    ensures AllDigitsIn(s, base)
    ensures forall i :: 0 <= i < |s| ==> IsLowerHexDigit(s[i])
    ensures n < base <==> |s| == 1
    decreases n
  {
    if n < base then [DigitChar(n)]
    else
      DivModFacts(n, base);
      Numeral(n / base, base) + [DigitChar(n % base)]
  }

  /** The quotient and remainder by the base of a number not below it. */
  lemma DivModFacts(n: nat, base: nat)
    requires 2 <= base <= n
    ensures 1 <= n / base < n && 0 <= n % base < base
    ensures n == n / base * base + n % base
  {
  }

  /** Parsing the numeral of `n` gives back `n`: `int('%x' % n, 16) == n`. */
  lemma {:induction false} ParseNumeral(n: nat, base: nat)
    requires 2 <= base <= 16
    ensures Parse(Numeral(n, base), base) == Some(n)
    decreases n
  {
    var s := Numeral(n, base);
    if n < base {
      assert s[..|s| - 1] == [];
      assert ValueOf(s, base) == DigitValue(s[0]) == n;
    } else {
      var q, d := n / base, n % base;
      DivModFacts(n, base);
      ParseNumeral(q, base);
      ValueOfSnoc(Numeral(q, base), d, base);
    }
  }

  /** Appending a digit multiplies the value by the base and adds the digit. */
  lemma ValueOfSnoc(init: string, d: nat, base: nat)
    requires 2 <= base <= 16 && d < base
    requires AllDigitsIn(init, base)
    ensures AllDigitsIn(init + [DigitChar(d)], base)
    ensures ValueOf(init + [DigitChar(d)], base) == ValueOf(init, base) * base + d
  {
    var s := init + [DigitChar(d)];
    assert s[..|s| - 1] == init;
  }

  /** A byte has a hex numeral of at most two digits. */
  lemma HexNumeralOfByte(n: nat)
    requires n < 256
    ensures |Numeral(n, 16)| <= 2
  {
    if n >= 16 {
      assert n / 16 < 16;
    }
  }

  /** `int(s, 16)` of a single hex digit is its value. */
  lemma ParseHexDigit(s: string)
    requires |s| == 1 && IsDigitIn(s[0], 16)
    ensures Parse(s, 16) == Some(DigitValue(s[0]))
  {
    assert AllDigitsIn(s, 16);
    assert s[..0] == [];
    assert ValueOf(s, 16) == ValueOf([], 16) * 16 + DigitValue(s[0]);
  }

  /** `int(s, 16)` of two hex digits is `16 * high + low`. */
  lemma ParseHexPair(s: string)
    requires |s| == 2 && IsDigitIn(s[0], 16) && IsDigitIn(s[1], 16)
    ensures Parse(s, 16) == Some(DigitValue(s[0]) * 16 + DigitValue(s[1]))
  {
    var init := s[..1];
    assert init[..0] == [];
    assert ValueOf(init, 16) == DigitValue(s[0]);
    assert ValueOf(s, 16) == ValueOf(init, 16) * 16 + DigitValue(s[1]);
  }

  /** A string of at most two hex digits denotes a value below 256. */
  lemma ValueOfShort(s: string)
    requires AllDigitsIn(s, 16) && |s| <= 2
    ensures ValueOf(s, 16) < 256
  {
    if |s| == 2 {
      ParseHexPair(s);
    } else if |s| == 1 {
      ParseHexDigit(s);
    }
  }

  /** Python's `int(x)` on a float: truncation toward zero. */
  function Trunc(x: real): (n: int)
    ensures x >= 0.0 ==> n as real <= x < n as real + 1.0
    ensures x < 0.0 ==> n as real - 1.0 < x <= n as real
  {
    if x >= 0.0 then x.Floor else -((-x).Floor)
  }

  /** Truncation keeps a value between two integers between them. */
  lemma TruncBetween(x: real, lo: int, hi: int)
    requires lo as real <= x <= hi as real
    ensures lo <= Trunc(x) <= hi
  {
  }
}
