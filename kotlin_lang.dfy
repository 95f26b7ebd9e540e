/**
 * The pieces of the Kotlin/JVM standard library that the island code relies on,
 * stated with their Kotlin meaning: 32-bit `toInt()` wrap-around, division and
 * remainder that truncate toward zero, `toString()` of integers, `padStart`,
 * `contains`, `lowercase`, `isBlank` and `substringAfterLast`.
 */
module KotlinLang {

  const TwoTo32: int := 0x1_0000_0000

  /** A value of Kotlin's `Int` type. */
  predicate IsInt32(x: int) {
    -0x8000_0000 <= x < 0x8000_0000
  }

  /** `Long.toInt()`: keeps the low 32 bits, read as a signed value. */
  function ToInt32(x: int): (r: int)
    ensures IsInt32(r)
    ensures (x - r) % TwoTo32 == 0
    ensures IsInt32(x) ==> r == x
  {
    var low := x % TwoTo32;
    if low >= 0x8000_0000 then low - TwoTo32 else low
  }

  /** A colour literal such as `0xFF25D366.toInt()`: an ARGB word read as a signed Int. */
  function Argb(word: nat): (r: int)
    requires word < TwoTo32
    ensures IsInt32(r)
    ensures r == word || r == word - TwoTo32
    ensures r < 0 <==> word >= 0x8000_0000
  {
    ToInt32(word)
  }

  /** Kotlin's `a / b` for a positive divisor: the quotient is truncated toward zero. */
  function Quot(a: int, b: int): (q: int)
    requires b > 0
    ensures a >= 0 ==> 0 <= a - b * q < b
    ensures a < 0 ==> -b < a - b * q <= 0
  {
    if a >= 0 then a / b else -((-a) / b)
  }

  /** Kotlin's `a % b` for a positive divisor: the remainder takes the sign of `a`. */
  function Rem(a: int, b: int): (r: int)
    requires b > 0
    ensures a == b * Quot(a, b) + r
    ensures a >= 0 ==> 0 <= r < b
    ensures a < 0 ==> -b < r <= 0
  {
    if a >= 0 then a % b else -((-a) % b)
  }

  predicate IsDigit(c: char) {
    '0' <= c <= '9'
  }

  predicate AllDigits(s: string) {
    forall i :: 0 <= i < |s| ==> IsDigit(s[i])
  }

  function DigitChar(d: int): (c: char)
    requires 0 <= d < 10
    ensures IsDigit(c)
  {
    (48 + d) as char
  }

  function DigitValue(c: char): (d: int)
    requires IsDigit(c)
    ensures 0 <= d < 10
  {
    (c as int) - 48
  }

  /** The number a string of decimal digits denotes (leading zeros allowed). */
  function DecimalValue(s: string): nat
    requires AllDigits(s)
  {
    if s == [] then 0 else DecimalValue(s[..|s| - 1]) * 10 + DigitValue(s[|s| - 1])
  }

  /** `toString()` of a non-negative integer: its shortest decimal representation. */
  function NatToString(n: nat): (s: string)
    ensures 1 <= |s|
    ensures AllDigits(s)
    ensures |s| > 1 ==> s[0] != '0'
  {
    if n < 10 then [DigitChar(n)] else NatToString(n / 10) + [DigitChar(n % 10)]
  }

  /** `toString()` of an `Int` or `Long`: a minus sign for negative values, then the digits. */
  function IntToString(n: int): (s: string)
    ensures 1 <= |s|
    ensures n >= 0 ==> AllDigits(s) && DecimalValue(s) == n
    ensures s[0] == '-' <==> n < 0
    ensures n < 0 ==> 2 <= |s| && AllDigits(s[1..]) && DecimalValue(s[1..]) == -n
    ensures n >= 0 && |s| > 1 ==> s[0] != '0'
    ensures n < 0 && |s| > 2 ==> s[1] != '0'
  {
    if n < 0 then
      NatToStringRoundTrip(-n);
      var d := NatToString(-n);
      assert ("-" + d)[1..] == d;
      "-" + d
    else
      NatToStringRoundTrip(n);
      NatToString(n)
  }

  lemma {:induction false} NatToStringRoundTrip(n: nat)
    ensures DecimalValue(NatToString(n)) == n
  {
    if n >= 10 {
      NatToStringRoundTrip(n / 10);
      var s := NatToString(n);
      assert s[..|s| - 1] == NatToString(n / 10);
    }
  }

  lemma {:induction false} NatToStringLength(n: nat)
    ensures n < 10 ==> |NatToString(n)| == 1
    ensures n < 100 ==> |NatToString(n)| <= 2
  {
    if n >= 10 {
      NatToStringLength(n / 10);
    }
  }

  /**
   * Decimal digits without a leading zero are `toString()` of the number they
   * denote: a value, the digit set and no leading zero pin the text.
   */
  lemma {:induction false} CanonicalDigits(s: string)
    requires 1 <= |s| && AllDigits(s) && (|s| > 1 ==> s[0] != '0')
    ensures s == NatToString(DecimalValue(s))
    decreases |s|
  {
    var init := s[..|s| - 1];
    var c := s[|s| - 1];
    assert s == init + [c];
    if |s| == 1 {
      assert init == [];
    } else {
      assert init[0] == s[0];
      CanonicalDigits(init);
      PositiveValue(init);
      var n := DecimalValue(s);
      assert n / 10 == DecimalValue(init) && n % 10 == DigitValue(c);
    }
  }

  /** Digits that do not start with '0' denote a positive number. */
  lemma {:induction false} PositiveValue(s: string)
    requires 1 <= |s| && AllDigits(s) && s[0] != '0'
    ensures DecimalValue(s) > 0
    decreases |s|
  {
    if |s| > 1 {
      var init := s[..|s| - 1];
      assert init[0] == s[0];
      PositiveValue(init);
    } else {
      assert s[..0] == [];
    }
  }

  function Repeat(c: char, n: nat): (r: string)
    ensures |r| == n
    ensures forall i :: 0 <= i < n ==> r[i] == c
  {
    seq(n, _ => c)
  }

  /** `s.padStart(length, c)`: `s` preceded by as many `c` as needed to reach `length`. */
  function PadStart(s: string, length: nat, c: char): (r: string)
    ensures |r| == if |s| >= length then |s| else length
    ensures r[|r| - |s|..] == s
    ensures forall i :: 0 <= i < |r| - |s| ==> r[i] == c
  {
    if |s| >= length then s else Repeat(c, length - |s|) + s
  }

  lemma {:induction false} LeadingZeros(k: nat, x: string)
    requires AllDigits(x)
    ensures AllDigits(Repeat('0', k) + x)
    ensures DecimalValue(Repeat('0', k) + x) == DecimalValue(x)
  {
    var z := Repeat('0', k);
    if x == [] {
      assert z + x == z;
      ZerosValue(k);
    } else {
      var init := x[..|x| - 1];
      LeadingZeros(k, init);
      assert (z + x)[..|z + x| - 1] == z + init;
    }
  }

  lemma {:induction false} ZerosValue(k: nat)
    ensures DecimalValue(Repeat('0', k)) == 0
  {
    if k > 0 {
      ZerosValue(k - 1);
      assert Repeat('0', k)[..k - 1] == Repeat('0', k - 1);
    }
  }

  /** Zero-padding a natural number's digits does not change the number they denote. */
  lemma PaddedValue(n: nat, length: nat)
    ensures AllDigits(PadStart(NatToString(n), length, '0'))
    ensures DecimalValue(PadStart(NatToString(n), length, '0')) == n
  {
    var s := NatToString(n);
    NatToStringRoundTrip(n);
    if |s| < length {
      var z := Repeat('0', length - |s|);
      assert PadStart(s, length, '0') == z + s;
      LeadingZeros(length - |s|, s);
    } else {
      assert PadStart(s, length, '0') == s;
    }
  }

  predicate IsPrefix(p: string, s: string) {
    |p| <= |s| && s[..|p|] == p
  }

  /** `sub` occurs in `s` starting at index `i`. */
  predicate OccursAt(s: string, sub: string, i: int) {
    0 <= i <= |s| - |sub| && s[i..i + |sub|] == sub
  }

  /** `s.contains(sub)`, searched position by position. */
  function Contains(s: string, sub: string): (b: bool)
    ensures b <==> exists i :: OccursAt(s, sub, i)
  {
    if IsPrefix(sub, s) then
      assert OccursAt(s, sub, 0);
      true
    else if |s| == 0 then
      false
    else
      var rest := Contains(s[1..], sub);
      assert forall i :: OccursAt(s[1..], sub, i) <==> OccursAt(s, sub, i + 1);
      assert !OccursAt(s, sub, 0);
      assert forall i :: OccursAt(s, sub, i) ==> OccursAt(s[1..], sub, i - 1);
      rest
  }

  /** Case mapping of one character; only the ASCII letters are mapped. */
  function LowerChar(c: char): char {
    if 'A' <= c <= 'Z' then (c as int + 32) as char else c
  }

  function Lowercase(s: string): (r: string)
    ensures |r| == |s|
    ensures forall i :: 0 <= i < |s| ==> r[i] == LowerChar(s[i])
  {
    seq(|s|, i requires 0 <= i < |s| => LowerChar(s[i]))
  }

  /**
   * Kotlin's `Char.isWhitespace()` on the JVM: `Character.isWhitespace` or
   * `Character.isSpaceChar` (which adds the no-break spaces and the line and
   * paragraph separators).
   */
  predicate IsWhitespace(c: char) {
    var u := c as int;
    u == 0x20 || (0x09 <= u <= 0x0D) || (0x1C <= u <= 0x1F)
    || u == 0xA0 || u == 0x1680 || (0x2000 <= u <= 0x200A)
    || u == 0x2028 || u == 0x2029 || u == 0x202F || u == 0x205F || u == 0x3000
  }

  /** `s.isBlank()`: empty or whitespace only. */
  predicate IsBlank(s: string) {
    forall i :: 0 <= i < |s| ==> IsWhitespace(s[i])
  }

  /** `s.substringAfterLast(c)`: what follows the last `c`, or all of `s` when there is none. */
  function SubstringAfterLast(s: string, c: char): (r: string)
    ensures |r| <= |s| && r == s[|s| - |r|..]
    ensures c !in r
    ensures |r| < |s| ==> s[|s| - |r| - 1] == c
  {
    if s == [] then []
    else if s[|s| - 1] == c then []
    else SubstringAfterLast(s[..|s| - 1], c) + [s[|s| - 1]]
  }
}
