/**
 * The .NET string operations the core relies on: char.IsWhiteSpace,
 * string.IsNullOrWhiteSpace, Trim() and Trim(char), ordinal ignore-case
 * comparison, ToLowerInvariant, and decimal formatting of integers.
 */
module Text {
  import opened Outcomes

  /** char.IsWhiteSpace: the Unicode separators plus U+0009..U+000D, U+0085 and U+00A0. */
  predicate IsWhiteSpace(c: char) {
    ('\t' <= c <= '\r') || c == ' ' || c == '\U{0085}' || c == '\U{00A0}' || c == '\U{1680}'
    || ('\U{2000}' <= c <= '\U{200A}') || c == '\U{2028}' || c == '\U{2029}' || c == '\U{202F}'
    || c == '\U{205F}' || c == '\U{3000}'
  }

  /** Every character is white space (the empty string included). */
  predicate IsBlank(s: string) {
    forall i | 0 <= i < |s| :: IsWhiteSpace(s[i])
  }

  /** string.IsNullOrWhiteSpace. */
  predicate IsNullOrWhiteSpace(s: Option<string>) {
    s.None? || IsBlank(s.value)
  }

  /** The number of leading characters of s that satisfy drop. */
  function LeadingCount(s: string, drop: char -> bool): (n: nat)
    ensures n <= |s|
    ensures forall k | 0 <= k < n :: drop(s[k])
    ensures n < |s| ==> !drop(s[n])
  {
    if |s| > 0 && drop(s[0]) then 1 + LeadingCount(s[1..], drop) else 0
  }

  /** The number of trailing characters of s that satisfy drop. */
  function TrailingCount(s: string, drop: char -> bool): (n: nat)
    ensures n <= |s|
    ensures forall k | |s| - n <= k < |s| :: drop(s[k])
    ensures n < |s| ==> !drop(s[|s| - 1 - n])
  {
    if |s| > 0 && drop(s[|s| - 1]) then 1 + TrailingCount(s[..|s| - 1], drop) else 0
  }

  /**
   * Removes every leading and every trailing character that satisfies drop
   * (the shape shared by string.Trim() and string.Trim(char)).
   */
  function TrimBy(s: string, drop: char -> bool): string {
    var a := LeadingCount(s, drop);
    var rest := s[a..];
    rest[..|rest| - TrailingCount(rest, drop)]
  }

  /**
   * The trimmed string is a slice of s that neither starts nor ends with a
   * dropped character, and everything cut off on either side is dropped.
   */
  lemma TrimByIsTrimmed(s: string, drop: char -> bool)
    ensures var r := TrimBy(s, drop);
      && LeadingCount(s, drop) + |r| <= |s|
      && r == s[LeadingCount(s, drop)..LeadingCount(s, drop) + |r|]
      && (r != [] ==> !drop(r[0]) && !drop(r[|r| - 1]))
      && (forall k | 0 <= k < LeadingCount(s, drop) :: drop(s[k]))
      && (forall k | LeadingCount(s, drop) + |r| <= k < |s| :: drop(s[k]))
  {
  }

  /** Trimming a second time changes nothing. */
  lemma TrimByIdempotent(s: string, drop: char -> bool)
    ensures TrimBy(TrimBy(s, drop), drop) == TrimBy(s, drop)
  {
    var r := TrimBy(s, drop);
    TrimByIsTrimmed(s, drop);
    if r != [] {
      assert LeadingCount(r, drop) == 0;
      assert TrailingCount(r, drop) == 0;
    }
  }

  /** string.Trim(): removes leading and trailing white space. */
  function Trim(s: string): string {
    TrimBy(s, IsWhiteSpace)
  }

  /** string.Trim(c): removes every leading and trailing occurrence of c. */
  function TrimChar(s: string, c: char): string {
    TrimBy(s, Is(c))
  }

  /** The test for one particular character. */
  function Is(c: char): char -> bool {
    x => x == c
  }

  /**
   * Trim(c) leaves a slice of s that neither starts nor ends with c, every
   * character cut off is c, and trimming again changes nothing.
   */
  lemma TrimCharStripsEnds(s: string, c: char)
    ensures var r := TrimChar(s, c);
      && (r != [] ==> r[0] != c && r[|r| - 1] != c)
      && r == s[LeadingCount(s, Is(c))..LeadingCount(s, Is(c)) + |r|]
      && (forall k | 0 <= k < LeadingCount(s, Is(c)) :: s[k] == c)
      && (forall k | LeadingCount(s, Is(c)) + |r| <= k < |s| :: s[k] == c)
      && TrimChar(r, c) == r
  {
    TrimByIsTrimmed(s, Is(c));
    TrimByIdempotent(s, Is(c));
  }

  /** The invariant culture's lower case, restricted to ASCII letters. */
  function AsciiLower(c: char): char {
    if 'A' <= c <= 'Z' then (c as int + 32) as char else c
  }

  /** string.ToLowerInvariant, modelled on ASCII letters. */
  function ToLowerInvariant(s: string): (r: string)
    ensures |r| == |s|
    ensures forall i | 0 <= i < |s| :: r[i] == AsciiLower(s[i])
  {
    if s == [] then [] else [AsciiLower(s[0])] + ToLowerInvariant(s[1..])
  }

  /** string.Equals(a, b, StringComparison.OrdinalIgnoreCase), on ASCII letters. */
  predicate EqualsIgnoreCase(a: string, b: string) {
    |a| == |b| && forall i | 0 <= i < |a| :: AsciiLower(a[i]) == AsciiLower(b[i])
  }

  /** s.StartsWith(prefix, StringComparison.OrdinalIgnoreCase), on ASCII letters. */
  predicate StartsWithIgnoreCase(s: string, prefix: string) {
    |prefix| <= |s| && EqualsIgnoreCase(s[..|prefix|], prefix)
  }

  /** s.EndsWith(suffix), compared ordinally. */
  predicate EndsWith(s: string, suffix: string) {
    |suffix| <= |s| && s[|s| - |suffix|..] == suffix
  }

  // Decimal formatting

  predicate IsDigit(c: char) {
    '0' <= c <= '9'
  }

  predicate AllDigits(s: string) {
    forall i | 0 <= i < |s| :: IsDigit(s[i])
  }

  function DigitChar(d: nat): (c: char)
    requires d < 10
    ensures IsDigit(c)
  {
    ('0' as int + d) as char
  }

  function DigitValue(c: char): (d: nat)
    requires IsDigit(c)
    ensures d < 10
  {
    c as int - '0' as int
  }

  function Pow10(k: nat): (p: nat)
    ensures p >= 1
  {
    if k == 0 then 1 else 10 * Pow10(k - 1)
  }

  /** The value of a string of decimal digits (most significant first). */
  function ParseNat(s: string): nat
    requires AllDigits(s)
  {
    if s == [] then 0 else 10 * ParseNat(s[..|s| - 1]) + DigitValue(s[|s| - 1])
  }

  /** Int32.ToString() of a non-negative value: shortest decimal form, no leading zero. */
  function NatToString(n: nat): (s: string)
    ensures |s| >= 1 && AllDigits(s)
    ensures |s| > 1 ==> s[0] != '0'
  {
    if n < 10 then [DigitChar(n)] else NatToString(n / 10) + [DigitChar(n % 10)]
  }

  /**
   * Int32.ToString() with an ASCII '-' as the negative sign (the invariant
   * culture's); string interpolation uses the current culture's sign.
   */
  function IntToString(i: int): (s: string)
    ensures |s| >= 1
    ensures (s[0] == '-') == (i < 0)
  {
    if i < 0 then "-" + NatToString(-i) else NatToString(i)
  }

  /** Reads back what IntToString writes. */
  function ParseInt(s: string): int
    requires |s| >= 1
    requires if s[0] == '-' then AllDigits(s[1..]) else AllDigits(s)
  {
    if s[0] == '-' then -(ParseNat(s[1..]) as int) else ParseNat(s)
  }

  lemma {:induction false} ParseNatToString(n: nat)
    ensures ParseNat(NatToString(n)) == n
  {
    if n >= 10 {
      var s := NatToString(n);
      assert s[..|s| - 1] == NatToString(n / 10);
      ParseNatToString(n / 10);
    }
  }

  /** Formatting an integer and reading it back gives the same integer. */
  lemma IntToStringRoundTrip(i: int)
    ensures var s := IntToString(i); (if s[0] == '-' then AllDigits(s[1..]) else AllDigits(s)) && ParseInt(s) == i
  {
    if i < 0 {
      assert IntToString(i)[1..] == NatToString(-i);
      ParseNatToString(-i);
    } else {
      ParseNatToString(i);
    }
  }

  /** Exactly `width` decimal digits of n, zero-padded on the left (custom format "00"). */
  function PadDigits(n: nat, width: nat): (s: string)
    requires n < Pow10(width)
    ensures |s| == width && AllDigits(s)
  {
    if width == 0 then [] else PadDigits(n / 10, width - 1) + [DigitChar(n % 10)]
  }

  lemma {:induction false} ParsePadDigits(n: nat, width: nat)
    requires n < Pow10(width)
    ensures ParseNat(PadDigits(n, width)) == n
  {
    if width > 0 {
      var s := PadDigits(n, width);
      assert s[..|s| - 1] == PadDigits(n / 10, width - 1);
      ParsePadDigits(n / 10, width - 1);
    }
  }
}
