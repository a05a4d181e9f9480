/**
 * The few pieces of the Arduino core that the jukebox relies on, as values:
 * the fixed-width integer types of its signatures, the number-to-text
 * conversions `String(n)` (base 10) and `String(n, HEX)` (base 16, lower-case
 * digits, no leading zeros), and `String::toUpperCase` (ASCII only).
 */
module Arduino {

  type uint8 = x: int | 0 <= x < 0x100
  type uint16 = x: int | 0 <= x < 0x1_0000

  /** The digit that the Arduino number formatter writes for `d`: '0'..'9', then 'a'..'f'. */
  function DigitChar(d: nat): (c: char)
    requires d < 16
    ensures DigitValue(c) == d
    ensures '0' <= c <= '9' || 'a' <= c <= 'f'
  {
    if d < 10 then ('0' as int + d) as char else ('a' as int + d - 10) as char
  }

  /** The value of a digit character of either case; 16 for anything else. */
  function DigitValue(c: char): (d: nat)
    ensures d <= 16
  {
    if '0' <= c <= '9' then c as int - '0' as int
    else if 'a' <= c <= 'f' then c as int - 'a' as int + 10
    else if 'A' <= c <= 'F' then c as int - 'A' as int + 10
    else 16
  }

  /** Every character of `s` is a digit of `base`. */
  predicate IsDigits(s: string, base: nat)
  {
    forall i :: 0 <= i < |s| ==> DigitValue(s[i]) < base
  }

  /**
   * `String(n, base)`: the digits of `n` in `base`, most significant first,
   * with no leading zero ("0" for zero).
   */
  function Digits(n: nat, base: nat): (s: string)
    requires 2 <= base <= 16
    ensures 1 <= |s|
    ensures IsDigits(s, base)
    ensures |s| > 1 ==> s[0] != '0'
    decreases n
  {
    if n < base then [DigitChar(n)]
    else
      DivMod(n, base);
      Digits(n / base, base) + [DigitChar(n % base)]
  }

  /** The number that a string of digits in `base` denotes, most significant first. */
  function ParseDigits(s: string, base: nat): nat
    requires 2 <= base <= 16
  {
    if s == [] then 0 else ParseDigits(s[..|s| - 1], base) * base + DigitValue(s[|s| - 1])
  }

  /** Reading back what `Digits` wrote gives the number again. */
  lemma {:induction false} ParseDigitsOfDigits(n: nat, base: nat)
    requires 2 <= base <= 16
    ensures ParseDigits(Digits(n, base), base) == n
    decreases n
  {
    var s := Digits(n, base);
    if n >= base {
      var q, r := n / base, n % base;
      DivMod(n, base);
      ParseDigitsOfDigits(q, base);
      assert s[..|s| - 1] == Digits(q, base);
      assert DigitValue(s[|s| - 1]) == r;
      assert ParseDigits(s, base) == ParseDigits(Digits(q, base), base) * base + r;
    }
  }

  /** Division by a base of at least 2 loses the last digit and makes a number smaller. */
  lemma DivMod(n: nat, base: nat)
    requires 2 <= base
    ensures n == (n / base) * base + n % base
    ensures n >= base ==> 0 < n / base < n
  {
    var q := n / base;
    assert n == q * base + n % base;
    assert q * base >= q * 2;
  }

  /** `k` zero characters. */
  function Zeros(k: nat): (s: string)
    ensures |s| == k
    ensures forall i :: 0 <= i < k ==> s[i] == '0'
  {
    if k == 0 then "" else "0" + Zeros(k - 1)
  }

  /** Leading zeros do not change the value of a digit string. */
  lemma {:induction false} ParseDigitsZeroPadded(k: nat, s: string, base: nat)
    requires 2 <= base <= 16
    ensures ParseDigits(Zeros(k) + s, base) == ParseDigits(s, base)
    decreases |s|
  {
    if s == [] {
      ParseDigitsOfZeros(k, base);
      assert Zeros(k) + s == Zeros(k);
    } else {
      ParseDigitsZeroPadded(k, s[..|s| - 1], base);
      assert (Zeros(k) + s)[..|Zeros(k) + s| - 1] == Zeros(k) + s[..|s| - 1];
    }
  }

  lemma {:induction false} ParseDigitsOfZeros(k: nat, base: nat)
    requires 2 <= base <= 16
    ensures ParseDigits(Zeros(k), base) == 0
  {
    if k > 0 {
      ParseDigitsOfZeros(k - 1, base);
      assert Zeros(k)[..k - 1] == Zeros(k - 1);
    }
  }

  function Pow10(k: nat): (p: nat)
    ensures p >= 1
  {
    if k == 0 then 1 else 10 * Pow10(k - 1)
  }

  /** A number has exactly `k` decimal digits when it lies in [10^(k-1), 10^k). */
  lemma {:induction false} DecimalWidth(n: nat, k: nat)
    requires 1 <= k
    requires n < Pow10(k)
    requires k == 1 || Pow10(k - 1) <= n
    ensures |Digits(n, 10)| == k
  {
    if k > 1 {
      DecimalWidth(n / 10, k - 1);
    }
  }

  /** `toupper` on one ASCII character. */
  function UpperChar(c: char): char
  {
    if 'a' <= c <= 'z' then (c as int - 32) as char else c
  }

  /** `String::toUpperCase`: every lower-case ASCII letter replaced by its capital. */
  function ToUpperCase(s: string): (u: string)
    ensures |u| == |s|
  {
    if s == [] then [] else [UpperChar(s[0])] + ToUpperCase(s[1..])
  }

  /** Upper-casing maps each character on its own and leaves no lower-case letter behind. */
  lemma {:induction false} ToUpperCaseAt(s: string, i: nat)
    requires i < |s|
    ensures ToUpperCase(s)[i] == UpperChar(s[i])
    ensures !('a' <= ToUpperCase(s)[i] <= 'z')
  {
    if i > 0 {
      ToUpperCaseAt(s[1..], i - 1);
    }
  }

  /** Upper-casing distributes over concatenation. */
  lemma ToUpperCaseAppend(a: string, b: string)
    ensures ToUpperCase(a + b) == ToUpperCase(a) + ToUpperCase(b)
  {
    forall i | 0 <= i < |a + b|
      ensures ToUpperCase(a + b)[i] == (ToUpperCase(a) + ToUpperCase(b))[i]
    {
      ToUpperCaseAt(a + b, i);
      if i < |a| {
        ToUpperCaseAt(a, i);
      } else {
        ToUpperCaseAt(b, i - |a|);
      }
    }
  }
}
