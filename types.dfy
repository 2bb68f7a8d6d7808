/**
 * Token kinds, lexical error kinds and character classes of the C-Minus
 * scanner. The repository's own type module is only partly available, so the
 * character classes are parameters (`CharClasses`) constrained only by what
 * the scanner relies on: they are disjoint and none holds the end-of-text mark.
 */
module Types {

  /** The character a buffer reports once `forward` is past the last character. */
  const EOT: char := '\U{5}'

  datatype TokenType = NUM | ID | KEYWORD | SYMBOL | COMMENT | WHITESPACE | DOLOR

  datatype ErrorType = INVALID_INPUT | INVALID_NUMBER | UNMATCHED_COMMENT | UNCLOSED_COMMENT

  /** What a DFA or one of its tails answers: a token type with its retreat flag, or the error it raises. */
  datatype Verdict = Accept(tokenType: TokenType, retreat: bool) | Reject(error: ErrorType)

  /** A verdict together with where the buffer's `forward` pointer was left. */
  datatype Run = Run(verdict: Verdict, forward: nat)

  /**
   * Whitespace `W`, letters `L`, digits `D`, one-character symbols `S`, and
   * `SPEC`, the symbol characters that may end an identifier or a number.
   */
  datatype CharClasses = CharClasses(W: set<char>, L: set<char>, D: set<char>, S: set<char>, SPEC: set<char>)
  {
    ghost predicate Valid()
    {
      && (forall c :: c in W ==> c !in L && c !in D && c !in S && c !in SPEC)
      && (forall c :: c in L ==> c !in D && c !in S && c !in SPEC)
      && (forall c :: c in D ==> c !in S && c !in SPEC)
      && (forall c :: c in "=*/" ==> c !in W && c !in L && c !in D && c !in S)
      && EOT !in W && EOT !in L && EOT !in D && EOT !in S && EOT !in SPEC
    }
  }
}
