/**
 * String helpers the core relies on: whitespace trimming as JavaScript's
 * String.prototype.trim and Python's str.strip() perform it, the lower-casing
 * of file extensions, and Python's str() of a natural number.
 */
module Text {

  /** ECMAScript WhiteSpace and LineTerminator code points, which String.prototype.trim removes. */
  predicate IsJsWhitespace(c: char) {
    c == '\t' || c == '\n' || c == '\U{000B}' || c == '\U{000C}' || c == '\r'
    || c == ' ' || c == '\U{00A0}' || c == '\U{1680}' || ('\U{2000}' <= c <= '\U{200A}')
    || c == '\U{2028}' || c == '\U{2029}' || c == '\U{202F}' || c == '\U{205F}'
    || c == '\U{3000}' || c == '\U{FEFF}'
  }

  /** The code points for which Python's str.isspace() holds, which str.strip() removes. */
  predicate IsPyWhitespace(c: char) {
    ('\t' <= c <= '\r') || ('\U{001C}' <= c <= '\U{001F}') || c == ' '
    || c == '\U{0085}' || c == '\U{00A0}' || c == '\U{1680}' || ('\U{2000}' <= c <= '\U{200A}')
    || c == '\U{2028}' || c == '\U{2029}' || c == '\U{202F}' || c == '\U{205F}'
    || c == '\U{3000}'
  }

  /** Every character of s is a space in the sense of isSpace. */
  predicate Blank(s: string, isSpace: char -> bool) {
    forall i :: 0 <= i < |s| ==> isSpace(s[i])
  }

  /** Drops leading spaces: the result is the suffix of s that starts at its first non-space. */
  function TrimStart(s: string, isSpace: char -> bool): (r: string)
    ensures |r| <= |s| && r == s[|s| - |r|..]
    ensures Blank(s[..|s| - |r|], isSpace)
    ensures r == [] || !isSpace(r[0])
  {
    if s != [] && isSpace(s[0]) then TrimStart(s[1..], isSpace) else s
  }

  /** Drops trailing spaces: the result is the prefix of s that ends at its last non-space. */
  function TrimEnd(s: string, isSpace: char -> bool): (r: string)
    ensures |r| <= |s| && r == s[..|r|]
    ensures Blank(s[|r|..], isSpace)
    ensures r == [] || !isSpace(r[|r| - 1])
  {
    if s != [] && isSpace(s[|s| - 1]) then TrimEnd(s[..|s| - 1], isSpace) else s
  }

  /** Both ends trimmed: empty exactly when s holds nothing but spaces. */
  function Strip(s: string, isSpace: char -> bool): (r: string)
    ensures r == [] <==> Blank(s, isSpace)
    ensures r != [] ==> !isSpace(r[0]) && !isSpace(r[|r| - 1])
    ensures |r| <= |s|
  {
    StripBlank(s, isSpace);
    TrimEnd(TrimStart(s, isSpace), isSpace)
  }

  lemma StripBlank(s: string, isSpace: char -> bool)
    ensures TrimEnd(TrimStart(s, isSpace), isSpace) == [] <==> Blank(s, isSpace)
    ensures TrimEnd(TrimStart(s, isSpace), isSpace) != [] ==>
      !isSpace(TrimEnd(TrimStart(s, isSpace), isSpace)[0])
  {
    var front := TrimStart(s, isSpace);
    var r := TrimEnd(front, isSpace);
    var skipped := |s| - |front|;
    var lead := s[..skipped];
    assert Blank(lead, isSpace);
    if r == [] {
      // a non-space first character would have survived TrimEnd
      assert front == [];
      assert lead == s;
    } else {
      assert r[0] == front[0] == s[skipped];
    }
  }

  /** JavaScript's s.trim(). */
  function JsTrim(s: string): string {
    Strip(s, IsJsWhitespace)
  }

  /** Python's s.strip() with no argument. */
  function PyStrip(s: string): string {
    Strip(s, IsPyWhitespace)
  }

  /** ASCII case folding; other characters are left as they are. */
  function LowerChar(c: char): char {
    if 'A' <= c <= 'Z' then (c as int + 32) as char else c
  }

  function Lower(s: string): string {
    seq(|s|, i requires 0 <= i < |s| => LowerChar(s[i]))
  }

  predicate IsDigit(c: char) {
    '0' <= c <= '9'
  }

  function DigitChar(d: nat): char
    requires d < 10
  {
    (d + '0' as int) as char
  }

  /** Python's str(n) for a natural number: its decimal digits, without leading zeros. */
  function NatToString(n: nat): (s: string)
    ensures |s| >= 1
    ensures forall i :: 0 <= i < |s| ==> IsDigit(s[i])
    ensures |s| > 1 ==> s[0] != '0'
  {
    if n < 10 then [DigitChar(n)] else NatToString(n / 10) + [DigitChar(n % 10)]
  }

  /** The value of a string of decimal digits; the inverse of NatToString. */
  function ParseDecimal(s: string): nat
    requires forall i :: 0 <= i < |s| ==> IsDigit(s[i])
  {
    if s == [] then 0
    else
      var last := s[|s| - 1];
      assert IsDigit(last);
      ParseDecimal(s[..|s| - 1]) * 10 + (last as int - '0' as int)
  }

  lemma {:induction false} ParseNatToString(n: nat)
    ensures ParseDecimal(NatToString(n)) == n
  {
    if n >= 10 {
      var s := NatToString(n);
      assert s[..|s| - 1] == NatToString(n / 10);
      ParseNatToString(n / 10);
    }
  }

  /** Distinct numbers have distinct decimal renderings. */
  lemma NatToStringInjective(a: nat, b: nat)
    requires a != b
    ensures NatToString(a) != NatToString(b)
  {
    ParseNatToString(a);
    ParseNatToString(b);
  }
}
