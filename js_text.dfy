/**
 * The JavaScript string semantics the form guards rely on: truthiness of a
 * string (`!s`) and `String.prototype.trim`.
 */
module JsText {

  /** A string is truthy in JavaScript exactly when it is not empty. */
  predicate Truthy(s: string) {
    s != ""
  }

  /**
   * The characters `trim` removes: ECMAScript WhiteSpace (tab, vertical tab,
   * form feed, the byte order mark and every space separator) and
   * LineTerminator (LF, CR, LINE SEPARATOR, PARAGRAPH SEPARATOR).
   */
  predicate IsWhitespace(c: char) {
    c == '\t' || c == '\n' || c == '\U{000B}' || c == '\U{000C}' || c == '\r' ||
    c == ' ' || c == '\U{00A0}' || c == '\U{1680}' ||
    ('\U{2000}' <= c <= '\U{200A}') ||
    c == '\U{2028}' || c == '\U{2029}' || c == '\U{202F}' || c == '\U{205F}' ||
    c == '\U{3000}' || c == '\U{FEFF}'
  }

  /** Every character of `s` is whitespace (vacuously so for ""). */
  ghost predicate AllWhitespace(s: string) {
    forall i :: 0 <= i < |s| ==> IsWhitespace(s[i])
  }

  /** `s` with its leading whitespace removed. */
  function TrimStart(s: string): (r: string)
    ensures |r| <= |s| && r == s[|s| - |r|..]
    ensures r == "" || !IsWhitespace(r[0])
    ensures AllWhitespace(s[..|s| - |r|])
  {
    if s != "" && IsWhitespace(s[0]) then TrimStart(s[1..]) else s
  }

  /** `s` with its trailing whitespace removed. */
  function TrimEnd(s: string): (r: string)
    ensures |r| <= |s| && r == s[..|r|]
    ensures r == "" || !IsWhitespace(r[|r| - 1])
    ensures AllWhitespace(s[|r|..])
  {
    if s != "" && IsWhitespace(s[|s| - 1]) then TrimEnd(s[..|s| - 1]) else s
  }

  /**
   * `s.trim()`: neither end of the result is whitespace, and the result is
   * empty exactly for the strings made of whitespace only ("" among them).
   */
  function Trim(s: string): (r: string)
    ensures |r| <= |s|
    ensures r != "" ==> !IsWhitespace(r[0]) && !IsWhitespace(r[|r| - 1])
    ensures r == "" <==> AllWhitespace(s)
  {
    TrimEnd(TrimStart(s))
  }

  /** `times.every(t => t)`: no entry of the list is the empty string. */
  function EveryTruthy(times: seq<string>): (r: bool)
    ensures r <==> forall i :: 0 <= i < |times| ==> times[i] != ""
  {
    if times == [] then true
    else
      assert forall i :: 1 <= i < |times| ==> times[i] == times[1..][i - 1];
      Truthy(times[0]) && EveryTruthy(times[1..])
  }
}
