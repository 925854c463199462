/**
 * The character classifier of the PSI lexer (main.c) together with the two
 * sequence-level notions built on it: ASCII case folding of a lexeme and the
 * number of newlines in a stretch of input.
 *
 * The C code calls the <ctype.h> predicates; they are modelled here by their
 * ASCII definitions.
 */
module Chars {

  predicate IsUpper(c: char) {
    'A' <= c <= 'Z'
  }

  predicate IsLower(c: char) {
    'a' <= c <= 'z'
  }

  /** `isalpha` on ASCII. */
  predicate IsAlpha(c: char) {
    IsLower(c) || IsUpper(c)
  }

  /** `isdigit` on ASCII. */
  predicate IsDigit(c: char) {
    '0' <= c <= '9'
  }

  /** A character that may continue an identifier: `isalnum(ch) || ch == '_'`. */
  predicate IsWordChar(c: char) {
    IsAlpha(c) || IsDigit(c) || c == '_'
  }

  /** `isSpace`: space, newline and tab only. */
  predicate IsSpace(c: char) {
    c == ' ' || c == '\n' || c == '\t'
  }

  /** `isBracket`. */
  predicate IsBracket(c: char) {
    c == '(' || c == ')' || c == '{' || c == '}' || c == '[' || c == ']'
  }

  /** `isOperator`: the characters that start an operator. */
  predicate IsOperator(c: char) {
    c == '+' || c == '-' || c == '*' || c == '/' || c == ':'
  }

  /** `tolower` on ASCII: upper-case letters map to their lower-case partner,
      everything else is left alone. */
  function ToLower(c: char): (r: char)
    ensures IsUpper(c) ==> IsLower(r) && r as int - c as int == 'a' as int - 'A' as int
    ensures !IsUpper(c) ==> r == c
    ensures IsAlpha(c) <==> IsLower(r)
    ensures IsWordChar(c) <==> IsWordChar(r)
    ensures IsDigit(c) <==> IsDigit(r)
  {
    if IsUpper(c) then (c as int + ('a' as int - 'A' as int)) as char else c
  }

  /** The case-folded copy of a lexeme, character by character. */
  function LowerCase(s: string): (r: string)
  {
    seq(|s|, i requires 0 <= i < |s| => ToLower(s[i]))
  }

  /** Every character of `s[lo..hi]` continues an identifier. */
  predicate AllWordChars(s: string, lo: nat, hi: nat)
    requires lo <= hi <= |s|
  {
    forall k :: lo <= k < hi ==> IsWordChar(s[k])
  }

  /** Every character of `s[lo..hi]` is a decimal digit. */
  predicate AllDigits(s: string, lo: nat, hi: nat)
    requires lo <= hi <= |s|
  {
    forall k :: lo <= k < hi ==> IsDigit(s[k])
  }

  /** Every character of `s[lo..hi]` is whitespace. */
  predicate AllSpaces(s: string, lo: nat, hi: nat)
    requires lo <= hi <= |s|
  {
    forall k :: lo <= k < hi ==> IsSpace(s[k])
  }

  /** The classifiers as the character lists the C tests compare against. */
  lemma ClassTables(c: char)
    ensures IsSpace(c) <==> c in " \n\t"
    ensures IsBracket(c) <==> c in "(){}[]"
    ensures IsOperator(c) <==> c in "+-*/:"
    ensures IsDigit(c) <==> c in "0123456789"
  {
  }

  /** The number of line breaks in `s[lo..hi]`: the amount by which the line
      counter rises while that stretch of input is consumed. */
  function NewlinesIn(s: string, lo: nat, hi: nat): nat
    requires lo <= hi <= |s|
    decreases hi - lo
  {
    if lo == hi then 0
    else (if s[lo] == '\n' then 1 else 0) + NewlinesIn(s, lo + 1, hi)
  }

  /** Newline counts add up over adjacent stretches of input. */
  lemma {:induction false} NewlinesSplit(s: string, a: nat, b: nat, c: nat)
    requires a <= b <= c <= |s|
    ensures NewlinesIn(s, a, c) == NewlinesIn(s, a, b) + NewlinesIn(s, b, c)
    decreases b - a
  {
    if a < b {
      NewlinesSplit(s, a + 1, b, c);
    }
  }

  /** A stretch without line breaks leaves the line counter alone, and one
      with a line break raises it. */
  lemma {:induction false} NewlinesZero(s: string, lo: nat, hi: nat)
    requires lo <= hi <= |s|
    ensures NewlinesIn(s, lo, hi) == 0 <==> forall k :: lo <= k < hi ==> s[k] != '\n'
    decreases hi - lo
  {
    if lo < hi {
      NewlinesZero(s, lo + 1, hi);
    }
  }
}
