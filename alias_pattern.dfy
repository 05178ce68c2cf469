/** The alias check of the create-link handler: the regular expression
    literal `/^[aA-zZ0-9-]+$/g`, tested once per request. */
module AliasPattern {

  /** One character of the class `[aA-zZ0-9-]`, read the way a JavaScript
      regular expression reads it: the single character `a`, the code-point
      range `A`..`z` (which also spans `[ \ ] ^ _` and the backtick), the single
      character `Z`, the range `0`..`9` and the single character `-`. */
  predicate InAliasClass(c: char)
  {
    c == 'a' || ('A' <= c <= 'z') || c == 'Z' || ('0' <= c <= '9') || c == '-'
  }

  /** `^[aA-zZ0-9-]+$` against a whole string: one class character followed
      by zero or more further ones, then the end of the input. A fresh
      literal is evaluated per request, so the `g` flag's `lastIndex` never
      carries over from one test to the next. */
  predicate MatchesAlias(s: string)
    ensures MatchesAlias(s) <==> |s| > 0 && forall i :: 0 <= i < |s| ==> InAliasClass(s[i])
  {
    |s| > 0 && InAliasClass(s[0]) && (|s| == 1 || MatchesAlias(s[1..]))
  }

  predicate IsAsciiLetter(c: char) { 'A' <= c <= 'Z' || 'a' <= c <= 'z' }

  predicate IsDigit(c: char) { '0' <= c <= '9' }

  /** The six characters the `A-z` range admits besides the letters. */
  predicate IsRangePunctuation(c: char)
  {
    c == '[' || c == '\\' || c == ']' || c == '^' || c == '_' || c == '`'
  }

  /** The class is exactly letters, digits and hyphen plus the six
      punctuation characters between `Z` and `a`. */
  lemma AliasClassCharacterised(c: char)
    ensures InAliasClass(c) <==> IsAsciiLetter(c) || IsDigit(c) || c == '-' || IsRangePunctuation(c)
  {
  }

  /** Every non-empty string of ASCII letters, digits and hyphens passes the
      check: the class is at least what its comment promises. */
  lemma LettersDigitsHyphenAccepted(s: string)
    requires |s| > 0
    requires forall i :: 0 <= i < |s| ==> IsAsciiLetter(s[i]) || IsDigit(s[i]) || s[i] == '-'
    ensures MatchesAlias(s)
  {
  }

  /** A string passes exactly when it is non-empty and made of letters,
      digits, hyphens and the six range punctuation characters; in
      particular it is rejected as soon as one character is none of these. */
  lemma RejectedByOneCharacter(s: string, k: nat)
    requires k < |s|
    requires !(IsAsciiLetter(s[k]) || IsDigit(s[k]) || s[k] == '-' || IsRangePunctuation(s[k]))
    ensures !MatchesAlias(s)
  {
  }

  /** Examples: underscores, brackets and carets are accepted; the empty
      string, a space, a dot and a slash are not. */
  lemma AliasExamples()
    ensures MatchesAlias("my_site") && MatchesAlias("[x]") && MatchesAlias("^") && MatchesAlias("a-Z-09")
    ensures !MatchesAlias("") && !MatchesAlias("my site") && !MatchesAlias("a.b") && !MatchesAlias("a/b")
  {
  }
}
