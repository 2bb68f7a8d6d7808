/**
 * The C-Minus language's DFA: its entry points in order (whitespace, letter,
 * digit, one-character symbol, `=`, `*`, `/`) and the tables of its
 * table-driven tails, with what scanning from each kind of entry character
 * yields.
 */
module CMinus {
  import opened Wrappers
  import opened Types
  import opened Buffer
  import opened Dfa
  import opened ManualTails

  /** Whitespace is a token of its own: accepted at once, no step, no retreat. */
  function WhitespaceTail(): Tail
  {
    Auto([AutoTailState([], true, false, None)], WHITESPACE, INVALID_INPUT)
  }

  /** Identifiers and keywords: letters and digits loop; a `SPEC`, whitespace or `EOT` ends the token, retreating. */
  function IdKeywordTail(cc: CharClasses): Tail
  {
    var other := cc.SPEC + cc.W + {EOT};
    Auto([AutoTailState([Transition(cc.L + cc.D, 0), Transition(other, 1)], false, false, None),
          AutoTailState([], true, true, None)],
         ID, INVALID_INPUT)
  }

  /** Numbers: digits loop; a `SPEC`, whitespace or `EOT` ends the token, retreating; anything else is an invalid number. */
  function NumTail(cc: CharClasses): Tail
  {
    var other := cc.SPEC + cc.W + {EOT};
    Auto([AutoTailState([Transition(cc.D, 0), Transition(other, 1)], false, false, None),
          AutoTailState([], true, true, None)],
         NUM, INVALID_NUMBER)
  }

  /** One-character symbols: accepted at once, no step, no retreat. */
  function SymbolTail(): Tail
  {
    Auto([AutoTailState([], true, false, None)], SYMBOL, INVALID_INPUT)
  }

  /** `=`: a second `=` makes `==` (no retreat); any other listed character ends a lone `=` (retreat). */
  function EqualsTail(cc: CharClasses): Tail
  {
    var other := cc.L + cc.D + cc.W + cc.S + {'*', '/'} + {EOT};
    Auto([AutoTailState([Transition({'='}, 1), Transition(other, 2)], false, false, None),
          AutoTailState([], true, false, None),
          AutoTailState([], true, true, None)],
         SYMBOL, INVALID_INPUT)
  }

  function AsteriskTail(): Tail { Asterisk }

  function CommentTail(): Tail { Comment }

  /** The language's DFA; its entries are tried in the order listed. */
  function Language(cc: CharClasses): (d: Dfa)
    requires cc.Valid()
    ensures ValidDfa(d)
    ensures |d.tails| == 7
  {
    Dfa([(cc.W, WhitespaceTail()),
         (cc.L, IdKeywordTail(cc)),
         (cc.D, NumTail(cc)),
         (cc.S, SymbolTail()),
         ({'='}, EqualsTail(cc)),
         ({'*'}, AsteriskTail()),
         ({'/'}, CommentTail())])
  }

  /** The entry sets do not overlap, so a character is dispatched to the one entry holding it, whatever the order. */
  lemma LanguageUnambiguous(cc: CharClasses, c: char, k: nat)
    requires cc.Valid() && k < 7 && c in Language(cc).tails[k].0
    ensures FirstEntry(Language(cc).tails, c) == Some(k)
  {
    var tails := Language(cc).tails;
    assert "=*/"[0] == '=' && "=*/"[1] == '*' && "=*/"[2] == '/';
    forall j | 0 <= j < 7 && j != k
      ensures c !in tails[j].0
    {
    }
  }

  /**
   * A looping two-state table (stay-characters loop in state 0, exit-characters
   * go to an accepting retreating state 1), entered at `f`: it stops at the
   * first `p` after `f` whose character is not a stay-character, accepting
   * there if that character is an exit-character and raising the tail's error
   * there otherwise.
   */
  lemma {:induction false} LoopTailScan(stay: set<char>, exit: set<char>, tt: TokenType, err: ErrorType,
                                        text: string, f: nat, p: nat)
    requires EOT !in stay && EOT in exit
    requires f < p <= |text|
    requires forall q :: f < q < p ==> text[q] in stay
    requires CharAt(text, p) !in stay
    ensures var tail := Auto([AutoTailState([Transition(stay, 0), Transition(exit, 1)], false, false, None),
                              AutoTailState([], true, true, None)], tt, err);
      WellFormed(tail.states) &&
      AutoRun(tail, text, f, 0) == if CharAt(text, p) in exit then Run(Accept(tt, true), p) else Run(Reject(err), p)
    decreases p - f
  {
    var tail := Auto([AutoTailState([Transition(stay, 0), Transition(exit, 1)], false, false, None),
                      AutoTailState([], true, true, None)], tt, err);
    assert WellFormed(tail.states);
    assert Advance(text, f) == f + 1;
    if f + 1 < p {
      assert CharAt(text, f + 1) in stay;
      assert FirstTransition(tail.states[0].transitions, CharAt(text, f + 1)) == Some(0);
      LoopTailScan(stay, exit, tt, err, text, f + 1, p);
    }
  }

  /** Whitespace and one-character symbols are accepted where they stand: no step, no retreat. */
  lemma ScanImmediate(cc: CharClasses, text: string, f: nat)
    requires cc.Valid() && f <= |text|
    requires CharAt(text, f) in cc.W || CharAt(text, f) in cc.S
    ensures DfaRun(Language(cc), text, f) ==
            Run(Accept(if CharAt(text, f) in cc.W then WHITESPACE else SYMBOL, false), f)
  {
    var c := CharAt(text, f);
    if c in cc.W { LanguageUnambiguous(cc, c, 0); } else { LanguageUnambiguous(cc, c, 3); }
  }

  /**
   * From a letter at `f`, with letters and digits up to `p`: an identifier or
   * keyword ending (retreat) on a `SPEC`, whitespace or `EOT` at `p`, any other
   * character there being an invalid input; `forward` is left on `p`.
   */
  lemma ScanIdentifier(cc: CharClasses, text: string, f: nat, p: nat)
    requires cc.Valid() && f < p <= |text|
    requires CharAt(text, f) in cc.L
    requires forall q :: f < q < p ==> text[q] in cc.L + cc.D
    requires CharAt(text, p) !in cc.L + cc.D
    ensures DfaRun(Language(cc), text, f) ==
            if CharAt(text, p) in cc.SPEC + cc.W + {EOT} then Run(Accept(ID, true), p) else Run(Reject(INVALID_INPUT), p)
  {
    LanguageUnambiguous(cc, CharAt(text, f), 1);
    LoopTailScan(cc.L + cc.D, cc.SPEC + cc.W + {EOT}, ID, INVALID_INPUT, text, f, p);
  }

  /**
   * From a digit at `f`, with digits up to `p`: a number ending (retreat) on a
   * `SPEC`, whitespace or `EOT` at `p`, any other character there (a letter, say)
   * being an invalid number; `forward` is left on `p`.
   */
  lemma ScanNumber(cc: CharClasses, text: string, f: nat, p: nat)
    requires cc.Valid() && f < p <= |text|
    requires CharAt(text, f) in cc.D
    requires forall q :: f < q < p ==> text[q] in cc.D
    requires CharAt(text, p) !in cc.D
    ensures DfaRun(Language(cc), text, f) ==
            if CharAt(text, p) in cc.SPEC + cc.W + {EOT} then Run(Accept(NUM, true), p) else Run(Reject(INVALID_NUMBER), p)
  {
    LanguageUnambiguous(cc, CharAt(text, f), 2);
    LoopTailScan(cc.D, cc.SPEC + cc.W + {EOT}, NUM, INVALID_NUMBER, text, f, p);
  }

  /** From `=` at `f`: a following `=` is `==` without retreat, any other listed character a lone `=` with retreat; `forward` ends one on. */
  lemma ScanEquals(cc: CharClasses, text: string, f: nat)
    requires cc.Valid() && f < |text| && text[f] == '='
    ensures var c := CharAt(text, f + 1);
      DfaRun(Language(cc), text, f) ==
        if c == '=' then Run(Accept(SYMBOL, false), f + 1)
        else if c in cc.L + cc.D + cc.W + cc.S + {'*', '/'} + {EOT} then Run(Accept(SYMBOL, true), f + 1)
        else Run(Reject(INVALID_INPUT), f + 1)
  {
    LanguageUnambiguous(cc, '=', 4);
    var tail := EqualsTail(cc);
    var c := CharAt(text, f + 1);
    assert AutoRun(tail, text, f, 0) == (
      match FirstTransition(tail.states[0].transitions, c)
      case None => Run(Reject(INVALID_INPUT), f + 1)
      case Some(k) => AutoRun(tail, text, f + 1, tail.states[0].transitions[k].nextState));
  }

  /** From `*` or `/`: the hand-written tail decides, from the character after the entry character. */
  lemma ScanAsteriskOrSlash(cc: CharClasses, text: string, f: nat)
    requires cc.Valid() && f < |text| && (text[f] == '*' || text[f] == '/')
    ensures DfaRun(Language(cc), text, f) ==
            if text[f] == '*' then AsteriskRun(text, f) else CommentRun(text, f)
  {
    if text[f] == '*' { LanguageUnambiguous(cc, '*', 5); } else { LanguageUnambiguous(cc, '/', 6); }
  }

  /** At the end of the text the DFA yields the end-of-input token, buffer unmoved. */
  lemma ScanEnd(cc: CharClasses, text: string)
    requires cc.Valid()
    ensures DfaRun(Language(cc), text, |text|) == Run(Accept(DOLOR, false), |text|)
  {
    var tails := Language(cc).tails;
    forall j | 0 <= j < 7 ensures EOT !in tails[j].0 { }
  }

  /** A character no entry holds, other than `EOT`, is an invalid input, buffer unmoved. */
  lemma ScanInvalid(cc: CharClasses, text: string, f: nat)
    requires cc.Valid() && f < |text|
    requires text[f] !in cc.W + cc.L + cc.D + cc.S + {'=', '*', '/', EOT}
    ensures DfaRun(Language(cc), text, f) == Run(Reject(INVALID_INPUT), f)
  {
  }

  /**
   * A comment opened by `/` `*` at `f` ends on its first closing `*` `/` after
   * the opener, with `forward` on that `/`, and is unclosed, with `forward` at
   * the end of the text, when there is none.
   */
  lemma CommentScan(text: string, f: nat)
    requires forall k :: 0 <= k < |text| ==> text[k] != EOT
    requires f + 1 < |text| && text[f] == '/' && text[f + 1] == '*'
    ensures var r := CommentRun(text, f);
      && (r.verdict.Accept? ==>
            && r.verdict == Accept(COMMENT, false)
            && f + 2 < r.forward && ClosesAt(text, r.forward)
            && forall q :: f + 2 < q < r.forward ==> !ClosesAt(text, q))
      && (r.verdict.Reject? ==>
            && r == Run(Reject(UNCLOSED_COMMENT), |text|)
            && forall q :: f + 2 < q < |text| ==> !ClosesAt(text, q))
  {
    MatchEndScan(text, f + 2, f + 2, 0);
  }

  // ---- the scanner's unit cases, for any character classes holding the characters they use ----

  lemma WhitespaceCase(cc: CharClasses)
    requires cc.Valid() && ' ' in cc.W
    ensures DfaRun(Language(cc), " ", 0) == Run(Accept(WHITESPACE, false), 0)
    ensures CharAt(" ", 0) == ' '
  {
    ScanImmediate(cc, " ", 0);
  }

  lemma NumberCase(cc: CharClasses)
    requires cc.Valid() && ' ' in cc.W
    requires '1' in cc.D && '2' in cc.D && '3' in cc.D && '4' in cc.D && '5' in cc.D
    ensures DfaRun(Language(cc), "12345 ", 0) == Run(Accept(NUM, true), 5)
    ensures CharAt("12345 ", 5) == ' '
  {
    ScanNumber(cc, "12345 ", 0, 5);
  }

  lemma CorruptedNumberCase(cc: CharClasses)
    requires cc.Valid() && 'x' in cc.L
    requires '1' in cc.D && '2' in cc.D && '3' in cc.D && '4' in cc.D
    ensures DfaRun(Language(cc), "1234x5", 0) == Run(Reject(INVALID_NUMBER), 4)
  {
    ScanNumber(cc, "1234x5", 0, 4);
  }

  lemma IdentifierCases(cc: CharClasses)
    requires cc.Valid() && ' ' in cc.W && '/' in cc.SPEC && '2' in cc.D
    requires 'm' in cc.L && 'e' in cc.L && 'a' in cc.L && 'n' in cc.L
    ensures DfaRun(Language(cc), "mean = 1;", 0) == Run(Accept(ID, true), 4)
    ensures DfaRun(Language(cc), "mean2/ 1;", 0) == Run(Accept(ID, true), 5)
    ensures DfaRun(Language(cc), "mean", 0) == Run(Accept(ID, true), 4) && CharAt("mean", 4) == EOT
  {
    ScanIdentifier(cc, "mean = 1;", 0, 4);
    ScanIdentifier(cc, "mean2/ 1;", 0, 5);
    ScanIdentifier(cc, "mean", 0, 4);
  }

  /** A character of no class inside an identifier is rejected where it stands. */
  lemma InvalidIdentifierCase(cc: CharClasses)
    requires cc.Valid() && 'm' in cc.L && 'e' in cc.L && 'a' in cc.L && 'n' in cc.L
    requires '%' !in cc.L + cc.D + cc.W + cc.SPEC
    ensures DfaRun(Language(cc), "mean% = 1;", 0) == Run(Reject(INVALID_INPUT), 4)
  {
    ScanIdentifier(cc, "mean% = 1;", 0, 4);
  }

  /** The DFA does not step on a one-character symbol, so asking again gives the same answer. */
  lemma SymbolCase(cc: CharClasses)
    requires cc.Valid() && ';' in cc.S
    ensures DfaRun(Language(cc), ";,(", 0) == Run(Accept(SYMBOL, false), 0)
  {
    ScanImmediate(cc, ";,(", 0);
  }

  lemma AsteriskCases(cc: CharClasses)
    requires cc.Valid()
    ensures DfaRun(Language(cc), "*a", 0) == Run(Accept(SYMBOL, true), 1)
    ensures DfaRun(Language(cc), "*", 0) == Run(Accept(SYMBOL, true), 1)
    ensures DfaRun(Language(cc), "*/", 0) == Run(Reject(UNMATCHED_COMMENT), 1)
  {
    ScanAsteriskOrSlash(cc, "*a", 0);
    ScanAsteriskOrSlash(cc, "*", 0);
    ScanAsteriskOrSlash(cc, "*/", 0);
  }

  lemma EqualsCases(cc: CharClasses)
    requires cc.Valid() && '2' in cc.D
    ensures DfaRun(Language(cc), "=2", 0) == Run(Accept(SYMBOL, true), 1)
    ensures DfaRun(Language(cc), "==3", 0) == Run(Accept(SYMBOL, false), 1)
  {
    ScanEquals(cc, "=2", 0);
    ScanEquals(cc, "==3", 0);
  }

  lemma CommentCase(cc: CharClasses)
    requires cc.Valid()
    ensures DfaRun(Language(cc), "/*** com*men/t *** **/", 0).verdict == Accept(COMMENT, false)
  {
    var t := "/*** com*men/t *** **/";
    ScanAsteriskOrSlash(cc, t, 0);
    CommentScan(t, 0);
    assert ClosesAt(t, 21);
  }

  lemma EmptyCommentCase(cc: CharClasses)
    requires cc.Valid()
    ensures DfaRun(Language(cc), "/**/", 0) == Run(Accept(COMMENT, false), 3)
  {
    var t := "/**/";
    ScanAsteriskOrSlash(cc, t, 0);
    CommentScan(t, 0);
    assert ClosesAt(t, 3);
  }

  lemma MultilineCommentCase(cc: CharClasses)
    requires cc.Valid()
    ensures DfaRun(Language(cc), "/*** com*m\nen/t *\n** *\n*/", 0).verdict == Accept(COMMENT, false)
  {
    var t := "/*** com*m\nen/t *\n** *\n*/";
    ScanAsteriskOrSlash(cc, t, 0);
    CommentScan(t, 0);
    assert ClosesAt(t, |t| - 1);
  }

  lemma UnclosedCommentCase(cc: CharClasses)
    requires cc.Valid()
    ensures var t := "/*** com*m\nen/t *\n** *\n*";
      DfaRun(Language(cc), t, 0) == Run(Reject(UNCLOSED_COMMENT), |t|) && CharAt(t, |t|) == EOT
  {
    ScanAsteriskOrSlash(cc, "/*** com*m\nen/t *\n** *\n*", 0);
    UnclosedCommentRun();
  }

  /** The comment tail alone on the unclosed multi-line comment: it runs to the end of the text. */
  lemma UnclosedCommentRun()
    ensures var t := "/*** com*m\nen/t *\n** *\n*";
      CommentRun(t, 0) == Run(Reject(UNCLOSED_COMMENT), |t|)
  {
    var t := "/*** com*m\nen/t *\n** *\n*";
    CommentScan(t, 0);
    forall q | 0 < q < |t| ensures !ClosesAt(t, q) { }
  }

  lemma EndCase(cc: CharClasses)
    requires cc.Valid()
    ensures DfaRun(Language(cc), "", 0) == Run(Accept(DOLOR, false), 0)
  {
    ScanEnd(cc, "");
  }

  // ---- the hand-written tails as written, entered the way the DFA enters them ----

  /** As written, the `*` tail is handed the buffer on its own `*`, so it never reports an unmatched comment closer. */
  lemma AsteriskAsWrittenNeverUnmatched(text: string, f: nat)
    requires f < |text| && text[f] == '*'
    ensures AsteriskAsWritten(text, f) == Run(Accept(SYMBOL, true), f)
  {
  }

  /** As written, the `/` tail is handed the buffer on its own `/`, so every comment is an invalid input. */
  lemma CommentAsWrittenAlwaysRejects(text: string, f: nat)
    requires f < |text| && text[f] == '/'
    ensures CommentAsWritten(text, f) == Run(Reject(INVALID_INPUT), f)
  {
  }

  /** `*` `/`: the as-written tail accepts a `*` symbol and leaves the buffer on `*`; the corrected one raises the unmatched-closer error on `/`. */
  lemma UnmatchedCloserDiscrepancy()
    ensures AsteriskAsWritten("*/", 0) == Run(Accept(SYMBOL, true), 0)
    ensures AsteriskRun("*/", 0) == Run(Reject(UNMATCHED_COMMENT), 1)
  {
    AsteriskAsWrittenNeverUnmatched("*/", 0);
  }

  /** `/**/`: the as-written tail raises an invalid input; the corrected one accepts the comment, the buffer on its closing `/`. */
  lemma EmptyCommentDiscrepancy()
    ensures CommentAsWritten("/**/", 0) == Run(Reject(INVALID_INPUT), 0)
    ensures CommentRun("/**/", 0) == Run(Accept(COMMENT, false), 3)
  {
    CommentAsWrittenAlwaysRejects("/**/", 0);
    CommentScan("/**/", 0);
    assert ClosesAt("/**/", 3);
  }
}
