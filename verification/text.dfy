/**
 * The two pieces of JavaScript string behaviour the client relies on:
 * `String.prototype.trim` (applied to the custom short code) and the
 * rendering of a non-negative integer inside a template literal (the page
 * and size of a list query), together with a decimal reader used to show
 * that rendering loses nothing.
 */
module Text {

  /** The code points ECMAScript counts as WhiteSpace or LineTerminator, the set `trim` removes. */
  predicate IsWhitespace(c: char) {
    var n := c as int;
    n == 0x09 || n == 0x0A || n == 0x0B || n == 0x0C || n == 0x0D || n == 0x20
    || n == 0xA0 || n == 0x1680 || (0x2000 <= n <= 0x200A)
    || n == 0x2028 || n == 0x2029 || n == 0x202F || n == 0x205F
    || n == 0x3000 || n == 0xFEFF
  }

  predicate AllWhitespace(s: string) {
    forall i :: 0 <= i < |s| ==> IsWhitespace(s[i])
  }

  /** A string with no whitespace at either end (the empty string included). */
  predicate Trimmed(s: string) {
    |s| > 0 ==> !IsWhitespace(s[0]) && !IsWhitespace(s[|s| - 1])
  }

  /** The length of the longest all-whitespace prefix of `s`. */
  function LeadingWhitespace(s: string): (k: nat)
    ensures k <= |s|
    ensures forall i :: 0 <= i < k ==> IsWhitespace(s[i])
    ensures k < |s| ==> !IsWhitespace(s[k])
  {
    if |s| == 0 || !IsWhitespace(s[0]) then 0
    else 1 + LeadingWhitespace(s[1..])
  }

  /** The length of `s` without its longest all-whitespace suffix. */
  function TrailingStart(s: string): (e: nat)
    ensures e <= |s|
    ensures forall i :: e <= i < |s| ==> IsWhitespace(s[i])
    ensures e > 0 ==> !IsWhitespace(s[e - 1])
  {
    if |s| == 0 || !IsWhitespace(s[|s| - 1]) then |s|
    else TrailingStart(s[..|s| - 1])
  }

  /** JavaScript `s.trim()`: drop leading and trailing whitespace. */
  function Trim(s: string): (r: string)
    ensures Trimmed(r)
    ensures |r| <= |s|
    ensures |r| == 0 <==> AllWhitespace(s)
  {
    var tail := s[LeadingWhitespace(s)..];
    var r := tail[..TrailingStart(tail)];
    r
  }

  /** What `Trim` removed: `s` is some whitespace, then `Trim(s)`, then some whitespace. */
  lemma TrimIsInfix(s: string)
    ensures var k := LeadingWhitespace(s);
            && k + |Trim(s)| <= |s|
            && s[k..k + |Trim(s)|] == Trim(s)
            && AllWhitespace(s[..k])
            && AllWhitespace(s[k + |Trim(s)|..])
  {
    var k := LeadingWhitespace(s);
    var tail := s[k..];
    var e := TrailingStart(tail);
    assert Trim(s) == tail[..e];
    assert s[k..k + e] == tail[..e];
    assert s[k + e..] == tail[e..];
    assert AllWhitespace(tail[e..]);
  }

  /**
   * `Trim` is the only way to split a string into whitespace, a trimmed
   * middle and whitespace: whatever such split one starts from, its middle
   * is `Trim(s)`.
   */
  lemma {:induction false} TrimUnique(a: string, m: string, b: string)
    requires AllWhitespace(a) && AllWhitespace(b)
    requires Trimmed(m)
    ensures Trim(a + m + b) == m
  {
    var s := a + m + b;
    var k := LeadingWhitespace(s);
    if |m| == 0 {
      assert s == a + b;
      assert AllWhitespace(s) by {
        forall i | 0 <= i < |s| ensures IsWhitespace(s[i]) {
          if i < |a| { assert s[i] == a[i]; } else { assert s[i] == b[i - |a|]; }
        }
      }
    } else {
      assert s[|a|] == m[0];
      forall i | 0 <= i < |a| ensures IsWhitespace(s[i]) { assert s[i] == a[i]; }
      assert k == |a|;
      var tail := s[k..];
      assert tail == m + b;
      var e := TrailingStart(tail);
      assert tail[|m| - 1] == m[|m| - 1];
      forall i | |m| <= i < |tail| ensures IsWhitespace(tail[i]) { assert tail[i] == b[i - |m|]; }
      assert e == |m|;
      assert tail[..e] == m;
    }
  }

  /** Trimming twice is trimming once. */
  lemma TrimIdempotent(s: string)
    ensures Trim(Trim(s)) == Trim(s)
  {
  }

  predicate IsDigit(c: char) {
    '0' <= c <= '9'
  }

  predicate AllDigits(s: string) {
    forall i :: 0 <= i < |s| ==> IsDigit(s[i])
  }

  function DigitChar(d: nat): (c: char)
    requires d < 10
    ensures IsDigit(c)
  {
    (d + '0' as int) as char
  }

  function DigitValue(c: char): (d: nat)
    requires IsDigit(c)
    ensures d < 10
    ensures DigitChar(d) == c
  {
    c as int - '0' as int
  }

  /** How JavaScript renders a non-negative integer in a template literal: base ten, no leading zeros. */
  function Decimal(n: nat): (s: string)
    ensures |s| > 0
    ensures AllDigits(s)
    ensures |s| > 1 ==> s[0] != '0'
    decreases n
  {
    if n < 10 then [DigitChar(n)] else Decimal(n / 10) + [DigitChar(n % 10)]
  }

  /** The value of a string of decimal digits (the empty string reads as 0). */
  function ParseDecimal(s: string): nat
    requires AllDigits(s)
  {
    if |s| == 0 then 0 else ParseDecimal(s[..|s| - 1]) * 10 + DigitValue(s[|s| - 1])
  }

  /** Reading back a rendered number gives the number. */
  lemma {:induction false} DecimalRoundTrip(n: nat)
    ensures ParseDecimal(Decimal(n)) == n
    decreases n
  {
    var s := Decimal(n);
    if n < 10 {
      assert DigitValue(DigitChar(n)) == n;
    } else {
      DecimalRoundTrip(n / 10);
      assert s[..|s| - 1] == Decimal(n / 10);
      assert DigitValue(s[|s| - 1]) == n % 10;
    }
  }

  /** The length of the longest all-digit prefix of `s`. */
  function DigitSpan(s: string): (k: nat)
    ensures k <= |s|
    ensures AllDigits(s[..k])
    ensures k < |s| ==> !IsDigit(s[k])
  {
    if |s| == 0 || !IsDigit(s[0]) then 0
    else
      var k := 1 + DigitSpan(s[1..]);
      assert forall i :: 1 <= i < k ==> s[..k][i] == s[1..][..k - 1][i - 1];
      k
  }

  /** A rendered number followed by a non-digit is read back up to exactly that non-digit. */
  lemma DigitSpanOfDecimal(n: nat, rest: string)
    requires |rest| > 0 && !IsDigit(rest[0])
    ensures DigitSpan(Decimal(n) + rest) == |Decimal(n)|
    ensures (Decimal(n) + rest)[..|Decimal(n)|] == Decimal(n)
    ensures (Decimal(n) + rest)[|Decimal(n)|..] == rest
  {
  }
}
