/**
 * Character-level helpers with the JavaScript meaning the source relies on:
 * `\s` and `String.prototype.trim` (both use the ECMAScript WhiteSpace and
 * LineTerminator sets), `startsWith`, `slice(0, n)` and decimal number printing.
 */
module Strings {

  /** ECMAScript WhiteSpace or LineTerminator: the class `\s` matches and `trim` removes. */
  predicate IsSpace(c: char) {
    var n := c as int;
    n == 0x09 || n == 0x0A || n == 0x0B || n == 0x0C || n == 0x0D || n == 0x20
    || n == 0xA0 || n == 0x1680 || (0x2000 <= n <= 0x200A)
    || n == 0x2028 || n == 0x2029 || n == 0x202F || n == 0x205F || n == 0x3000 || n == 0xFEFF
  }

  predicate AllSpace(s: string) {
    forall k :: 0 <= k < |s| ==> IsSpace(s[k])
  }

  predicate HasSpace(s: string) {
    exists k :: 0 <= k < |s| && IsSpace(s[k])
  }

  predicate StartsWith(s: string, prefix: string) {
    |prefix| <= |s| && s[..|prefix|] == prefix
  }

  /** `s.slice(0, n)` for a non-negative `n`. */
  function Take(s: string, n: nat): (r: string)
    ensures |r| == if n < |s| then n else |s|
    ensures r <= s
  {
    if n < |s| then s[..n] else s
  }

  /** Number of whitespace characters at the front of `s`. */
  function LeadingSpaces(s: string): (n: nat)
    ensures n <= |s|
    ensures AllSpace(s[..n])
    ensures n == |s| || !IsSpace(s[n])
    decreases |s|
  {
    if |s| > 0 && IsSpace(s[0]) then
      var m := LeadingSpaces(s[1..]);
      assert s[1..][..m] == s[1..m + 1];
      1 + m
    else 0
  }

  /** Index at which the run of whitespace closing `s` begins. */
  function TrailingStart(s: string): (m: nat)
    ensures m <= |s|
    ensures AllSpace(s[m..])
    ensures m == 0 || !IsSpace(s[m - 1])
    decreases |s|
  {
    if |s| > 0 && IsSpace(s[|s| - 1]) then
      var m := TrailingStart(s[..|s| - 1]);
      assert s[m..] == s[..|s| - 1][m..] + [s[|s| - 1]];
      m
    else |s|
  }

  /** `s.trim()`: the text with whitespace removed from both ends. */
  function Trim(s: string): (r: string)
    ensures r == [] || (!IsSpace(r[0]) && !IsSpace(r[|r| - 1]))
    ensures exists i :: 0 <= i <= |s| - |r| && s[i..i + |r|] == r
                        && AllSpace(s[..i]) && AllSpace(s[i + |r|..])
  {
    var i := LeadingSpaces(s);
    var a := s[i..];
    var j := TrailingStart(a);
    assert a[..j] == s[i..i + j];
    assert s[i + j..] == a[j..];
    assert j > 0 ==> a[0] == s[i];
    a[..j]
  }

  /** Text whose two ends are not whitespace is left alone by `trim`. */
  lemma TrimUnpadded(s: string)
    requires s == [] || (!IsSpace(s[0]) && !IsSpace(s[|s| - 1]))
    ensures Trim(s) == s
  {
    assert LeadingSpaces(s) == 0;
    assert s[0..] == s;
    assert TrailingStart(s) == |s|;
  }

  /** Decimal digit for `d`. */
  function Digit(d: nat): char
    requires d < 10
  {
    "0123456789"[d]
  }

  /** The value of a string of decimal digits. */
  function DigitsValue(s: string): nat
    requires forall k :: 0 <= k < |s| ==> '0' <= s[k] <= '9'
  {
    if s == [] then 0
    else DigitsValue(s[..|s| - 1]) * 10 + ((s[|s| - 1] as int) - ('0' as int))
  }

  /** `String(n)` for a non-negative integer: its decimal digits, without leading zeros. */
  function NatToString(n: nat): (r: string)
    ensures |r| >= 1
    ensures forall k :: 0 <= k < |r| ==> '0' <= r[k] <= '9'
    ensures DigitsValue(r) == n
    ensures |r| > 1 ==> r[0] != '0'
  {
    if n < 10 then [Digit(n)]
    else
      var p := NatToString(n / 10);
      var r := p + [Digit(n % 10)];
      assert r[..|r| - 1] == p;
      r
  }
}
