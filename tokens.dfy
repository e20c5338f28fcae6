/**
 * Characters and tokens of HTTP header syntax (the `tchar` and `token` rules of
 * section 3.2.6 of RFC 7230), and the ASCII case mappings used to compare
 * header names, media types and charset names without regard to case.
 */
module Tokens {

  /** `tchar` of section 3.2.6 of RFC 7230. */
  predicate IsTokenChar(c: char) {
    || ('a' <= c <= 'z')
    || ('A' <= c <= 'Z')
    || ('0' <= c <= '9')
    || c == '!' || c == '#' || c == '$' || c == '%' || c == '&' || c == '\'' || c == '*'
    || c == '+' || c == '-' || c == '.' || c == '^' || c == '_' || c == '`' || c == '|' || c == '~'
  }

  /** Every character of `s` is a `tchar` (the empty string included). */
  predicate AllTokenChars(s: string) {
    forall i :: 0 <= i < |s| ==> IsTokenChar(s[i])
  }

  /** `token = 1*tchar`. */
  predicate IsToken(s: string) {
    |s| > 0 && AllTokenChars(s)
  }

  /** Length of the longest prefix of `s` made of token characters. */
  function TokenLen(s: string): (n: nat)
    ensures n <= |s|
  {
    if s != [] && IsTokenChar(s[0]) then 1 + TokenLen(s[1..]) else 0
  }

  /** The scanned prefix is all token characters and is not followed by one. */
  lemma {:induction false} TokenLenScansToken(s: string)
    ensures AllTokenChars(s[..TokenLen(s)])
    ensures TokenLen(s) < |s| ==> !IsTokenChar(s[TokenLen(s)])
  {
    if s != [] && IsTokenChar(s[0]) {
      TokenLenScansToken(s[1..]);
      assert s[..TokenLen(s)] == [s[0]] + s[1..][..TokenLen(s[1..])];
    }
  }

  /** A token followed by anything that does not continue it is scanned whole. */
  lemma {:induction false} TokenLenOfToken(t: string, rest: string)
    requires AllTokenChars(t)
    requires rest == [] || !IsTokenChar(rest[0])
    ensures TokenLen(t + rest) == |t|
  {
    if t != [] {
      assert (t + rest)[0] == t[0];
      assert (t + rest)[1..] == t[1..] + rest;
      TokenLenOfToken(t[1..], rest);
    }
  }

  /** ASCII lower-casing of one character; every other character is kept. */
  function Lower(c: char): char {
    if 'A' <= c <= 'Z' then (c as int + 32) as char else c
  }

  /** ASCII upper-casing of one character; every other character is kept. */
  function Upper(c: char): char {
    if 'a' <= c <= 'z' then (c as int - 32) as char else c
  }

  /** `a` and `b` are the same string up to ASCII case. */
  predicate EqualsIgnoreCase(a: string, b: string) {
    |a| == |b| && forall i :: 0 <= i < |a| ==> Lower(a[i]) == Lower(b[i])
  }

  /** Two characters equal up to ASCII case have the same upper-case form. */
  lemma SameLowerSameUpper(a: char, b: char)
    requires Lower(a) == Lower(b)
    ensures Upper(a) == Upper(b)
  {
  }

  /** Changing the ASCII case of a character never makes or unmakes a `tchar`. */
  lemma SameLowerSameTokenChar(a: char, b: char)
    requires Lower(a) == Lower(b)
    ensures IsTokenChar(a) == IsTokenChar(b)
  {
  }
}
