/**
 * Character classes and the code-point tables the tokenizer compares against.
 * Characters are Dafny `char`s; lower- and upper-casing is ASCII-only.
 */
module Chars {

  /** The characters `isWhiteSpace` accepts: space, line feed, tab, carriage return, form feed. */
  predicate IsWhiteSpace(c: char) {
    c == ' ' || c == '\n' || c == '\t' || c == '\r' || c == '\U{000C}'
  }

  /** An ASCII letter, the test that starts an opening tag name. */
  predicate IsAsciiLetter(c: char) {
    ('a' <= c <= 'z') || ('A' <= c <= 'Z')
  }

  function ToLower(c: char): char {
    if 'A' <= c <= 'Z' then (c as int + 32) as char else c
  }

  function ToUpper(c: char): char {
    if 'a' <= c <= 'z' then (c as int - 32) as char else c
  }

  function Lower(s: string): string {
    seq(|s|, i requires 0 <= i < |s| => ToLower(s[i]))
  }

  function Upper(s: string): string {
    seq(|s|, i requires 0 <= i < |s| => ToUpper(s[i]))
  }

  /** No ASCII upper-case letter occurs in `s`. */
  predicate IsLowerCase(s: string) {
    forall i :: 0 <= i < |s| ==> !('A' <= s[i] <= 'Z')
  }

  /** `t[k]` read the JavaScript way: an index outside `t` reads `undefined`, equal to no character. */
  predicate CodeAt(t: string, k: int, c: char) {
    0 <= k < |t| && t[k] == c
  }

  /** The pair of tables `makeCodePoints` builds for a keyword. */
  datatype CodePoints = CodePoints(lower: string, upper: string, length: nat)

  function MakeCodePoints(input: string): (r: CodePoints)
    ensures r.length == |r.lower| == |r.upper| == |input|
    ensures r.lower == Lower(input) && r.upper == Upper(input) && IsLowerCase(r.lower)
  {
    CodePoints(Lower(input), Upper(input), |input|)
  }

  const Doctype: CodePoints := MakeCodePoints("!doctype")
  const Style: CodePoints := MakeCodePoints("style")
  const Script: CodePoints := MakeCodePoints("script")

  /** Lower-casing a string leaves no upper-case letter and is idempotent. */
  lemma LowerIsLowerCase(s: string)
    ensures IsLowerCase(Lower(s))
    ensures Lower(Lower(s)) == Lower(s)
    ensures |Lower(s)| == |s|
  {
  }

  /** Comparing against both tables is comparing ignoring ASCII case. */
  lemma MatchIgnoringCase(c: char, d: char)
    ensures (c == ToLower(d) || c == ToUpper(d)) <==> ToLower(c) == ToLower(d)
  {
  }

  /**
   * The tables' test `lower[k] === c || upper[k] === c` holds exactly when
   * `c` equals the keyword's `k`-th character ignoring ASCII case; outside the
   * keyword it never holds.
   */
  lemma TableMatch(word: string, k: int, c: char)
    ensures (CodeAt(MakeCodePoints(word).lower, k, c) || CodeAt(MakeCodePoints(word).upper, k, c))
        <==> (0 <= k < |word| && ToLower(c) == ToLower(word[k]))
  {
    if 0 <= k < |word| {
      MatchIgnoringCase(c, word[k]);
    }
  }
}
