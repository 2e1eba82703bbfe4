// Text helpers shared by the parser and the publication guard.
//
// A text is a sequence of Unicode scalar values. Positions are indexes into that
// sequence; every limit of the program counts UTF-8 bytes, so limits go through ByteLen.
module Text {

  /** The Unicode White_Space property. */
  predicate IsWhitespace(c: char) {
    var n := c as int;
    || 0x09 <= n <= 0x0D
    || n == 0x20
    || n == 0x85
    || n == 0xA0
    || n == 0x1680
    || 0x2000 <= n <= 0x200A
    || n == 0x2028
    || n == 0x2029
    || n == 0x202F
    || n == 0x205F
    || n == 0x3000
  }

  predicate AllWhitespace(s: string) {
    forall i | 0 <= i < |s| :: IsWhitespace(s[i])
  }

  function Utf8Len(c: char): (n: nat)
    ensures 1 <= n <= 4
  {
    if c as int < 0x80 then 1 else if c as int < 0x800 then 2 else if c as int < 0x10000 then 3 else 4
  }

  function ByteLen(s: string): (n: nat)
    ensures |s| <= n <= 4 * |s|
  {
    if s == "" then 0 else ByteLen(s[..|s| - 1]) + Utf8Len(s[|s| - 1])
  }

  lemma {:induction false} ByteLenConcat(a: string, b: string)
    ensures ByteLen(a + b) == ByteLen(a) + ByteLen(b)
  {
    if b == "" {
      assert a + b == a;
    } else {
      var front := b[..|b| - 1];
      assert (a + b)[..|a + b| - 1] == a + front;
      ByteLenConcat(a, front);
    }
  }

  /** Position of the first `c`, or the length when there is none. */
  function Find(s: string, c: char): (i: nat)
    ensures i <= |s|
    ensures forall k | 0 <= k < i :: s[k] != c
    ensures i < |s| ==> s[i] == c
    ensures i < |s| <==> c in s
  {
    if s == "" then 0 else if s[0] == c then 0 else 1 + Find(s[1..], c)
  }

  /** Position of the first whitespace scalar, or the length when there is none. */
  function FindWhitespace(s: string): (i: nat)
    ensures i <= |s|
    ensures forall k | 0 <= k < i :: !IsWhitespace(s[k])
    ensures i < |s| ==> IsWhitespace(s[i])
  {
    if s == "" then 0 else if IsWhitespace(s[0]) then 0 else 1 + FindWhitespace(s[1..])
  }

  /** Number of leading whitespace scalars. */
  function LeadingWhitespace(s: string): (i: nat)
    ensures i <= |s|
    ensures AllWhitespace(s[..i])
    ensures i < |s| ==> !IsWhitespace(s[i])
  {
    if s == "" || !IsWhitespace(s[0]) then 0
    else
      var n := LeadingWhitespace(s[1..]);
      assert s[..n + 1] == [s[0]] + s[1..][..n];
      n + 1
  }

  /** Number of scalars left after dropping trailing whitespace. */
  function TrimmedEnd(s: string): (i: nat)
    ensures i <= |s|
    ensures AllWhitespace(s[i..])
    ensures i > 0 ==> !IsWhitespace(s[i - 1])
  {
    if s == "" || !IsWhitespace(s[|s| - 1]) then |s|
    else
      var n := TrimmedEnd(s[..|s| - 1]);
      assert s[n..] == s[..|s| - 1][n..] + [s[|s| - 1]];
      n
  }

  function TrimStart(s: string): string {
    s[LeadingWhitespace(s)..]
  }

  function Trim(s: string): (t: string)
    ensures |t| <= |s|
  {
    var t := s[..TrimmedEnd(s)];
    t[LeadingWhitespace(t)..]
  }

  /** A text that neither starts nor ends in whitespace is its own trim. */
  lemma TrimFixpoint(s: string)
    requires s != "" ==> !IsWhitespace(s[0]) && !IsWhitespace(s[|s| - 1])
    ensures Trim(s) == s && TrimStart(s) == s
  {
    if s != "" {
      assert TrimmedEnd(s) == |s|;
      assert s[..|s|] == s;
    }
  }

  predicate IsAsciiAlphabetic(c: char) {
    'a' <= c <= 'z' || 'A' <= c <= 'Z'
  }

  predicate IsAsciiDigit(c: char) {
    '0' <= c <= '9'
  }

  predicate IsAsciiAlphanumeric(c: char) {
    IsAsciiAlphabetic(c) || IsAsciiDigit(c)
  }

  function AsciiLower(c: char): char {
    if 'A' <= c <= 'Z' then ((c as int) + 32) as char else c
  }

  function AsciiLowercase(s: string): string {
    seq(|s|, i requires 0 <= i < |s| => AsciiLower(s[i]))
  }

  predicate EqIgnoreAsciiCase(a: string, b: string) {
    AsciiLowercase(a) == AsciiLowercase(b)
  }

  predicate StartsWith(s: string, prefix: string) {
    prefix <= s
  }

  predicate OccursAt(s: string, needle: string, i: nat) {
    i + |needle| <= |s| && s[i..i + |needle|] == needle
  }

  /** Whether `needle` occurs in `s` as a contiguous part. */
  predicate Contains(s: string, needle: string) {
    exists i: nat | i <= |s| :: OccursAt(s, needle, i)
  }
}
