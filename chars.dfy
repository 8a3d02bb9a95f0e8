/**
 * Character classes and the character runs used by both lexers. Java's Character.isLetter and
 * Character.isDigit are Unicode-aware; the model restricts them to ASCII, and
 * String.toUpperCase to the ASCII letters.
 */
module Chars {

  predicate IsLetter(c: char) {
    'a' <= c <= 'z' || 'A' <= c <= 'Z'
  }

  predicate IsDigit(c: char) {
    '0' <= c <= '9'
  }

  /** The four characters both lexers skip: space, newline, carriage return and tab. */
  predicate IsWhitespace(c: char) {
    c == ' ' || c == '\n' || c == '\r' || c == '\t'
  }

  function ToUpper(c: char): char {
    if 'a' <= c <= 'z' then (c as int - 32) as char else c
  }

  function UpperCase(s: string): (r: string)
    ensures |r| == |s|
    ensures forall k :: 0 <= k < |s| ==> r[k] == ToUpper(s[k])
  {
    if s == [] then [] else [ToUpper(s[0])] + UpperCase(s[1..])
  }

  /** skipWhitespaces: the first position from i on that is not whitespace. */
  function SkipWs(data: seq<char>, i: nat): (j: nat)
    requires i <= |data|
    decreases |data| - i
    ensures i <= j <= |data|
    ensures forall k :: i <= k < j ==> IsWhitespace(data[k])
    ensures j >= |data| || !IsWhitespace(data[j])
  {
    if i < |data| && IsWhitespace(data[i]) then SkipWs(data, i + 1) else i
  }

  lemma {:induction false} SkipWsUnique(data: seq<char>, i: nat, j: nat)
    requires i <= j <= |data|
    requires forall k :: i <= k < j ==> IsWhitespace(data[k])
    requires j == |data| || !IsWhitespace(data[j])
    ensures SkipWs(data, i) == j
    decreases j - i
  {
    if i < j {
      SkipWsUnique(data, i + 1, j);
    }
  }

  /** A loop over a run of digits. */
  function DigitsEnd(data: seq<char>, i: nat): (j: nat)
    requires i <= |data|
    decreases |data| - i
    ensures i <= j <= |data|
    ensures forall k :: i <= k < j ==> IsDigit(data[k])
    ensures j >= |data| || !IsDigit(data[j])
  {
    if i < |data| && IsDigit(data[i]) then DigitsEnd(data, i + 1) else i
  }

  lemma {:induction false} DigitsEndUnique(data: seq<char>, i: nat, j: nat)
    requires i <= j <= |data|
    requires forall k :: i <= k < j ==> IsDigit(data[k])
    requires j == |data| || !IsDigit(data[j])
    ensures DigitsEnd(data, i) == j
    decreases j - i
  {
    if i < j {
      DigitsEndUnique(data, i + 1, j);
    }
  }
}
