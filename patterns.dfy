/**
 * The regular expressions the container validates names with, stated as
 * predicates, and PHP's `strtolower` on the ASCII range.
 */
module Patterns {

  predicate AlphaNum(c: char) {
    'a' <= c <= 'z' || 'A' <= c <= 'Z' || '0' <= c <= '9'
  }

  /** The class `[a-zA-Z0-9\.\-\_\+\\]` of container keys. */
  predicate KeyChar(c: char) {
    AlphaNum(c) || c == '.' || c == '-' || c == '_' || c == '+' || c == '\\'
  }

  /** The class `[a-zA-Z0-9\_\\]` of class names. */
  predicate ClassNameChar(c: char) {
    AlphaNum(c) || c == '_' || c == '\\'
  }

  /** The class `[a-zA-Z0-9\_]` of method and property names. */
  predicate NameChar(c: char) {
    AlphaNum(c) || c == '_'
  }

  /**
   * The part of `s` that a pattern anchored as `/^...$/` has to match.
   * Without the D modifier, PCRE's `$` also matches just before a final
   * "\n", so one trailing newline is not part of what is matched.
   */
  function Subject(s: string): (b: string)
    ensures b == s || b + "\n" == s
  {
    if |s| > 0 && s[|s| - 1] == '\n' then s[..|s| - 1] else s
  }

  /** `preg_match('/^[a-zA-Z0-9\.\-\_\+\\]{2,64}$/', s)` */
  predicate IsKey(s: string) {
    var b := Subject(s);
    2 <= |b| <= 64 && forall i :: 0 <= i < |b| ==> KeyChar(b[i])
  }

  /** `preg_match('/^[a-zA-Z0-9\_\\]{4,}$/', s)` */
  predicate IsClassName(s: string) {
    var b := Subject(s);
    4 <= |b| && forall i :: 0 <= i < |b| ==> ClassNameChar(b[i])
  }

  /** `preg_match('/^[a-zA-Z0-9\_]{2,}$/', s)` */
  predicate IsName(s: string) {
    var b := Subject(s);
    2 <= |b| && forall i :: 0 <= i < |b| ==> NameChar(b[i])
  }

  /** `strtolower` on one byte: only 'A'..'Z' change. */
  function LowerChar(c: char): char {
    if 'A' <= c <= 'Z' then (c as int + 32) as char else c
  }

  /** `strtolower` */
  function ToLower(s: string): (r: string)
    ensures |r| == |s|
    ensures forall i :: 0 <= i < |s| ==> r[i] == LowerChar(s[i])
  {
    if s == [] then [] else [LowerChar(s[0])] + ToLower(s[1..])
  }
}
