/**
 * The two hand-written DFA tails of the C-Minus scanner: the one entered on
 * `*` (a multiplication symbol, or the error of a comment closer with no
 * opener) and the one entered on `/` (a comment, scanned to its closing `*` `/`).
 *
 * Each tail is given twice. The `AsWritten` members read the character at
 * `forward` first, as the source does; but the DFA hands a tail the buffer
 * still on the entry character, so they look at the `*` or `/` they were
 * entered on. The corrected members step past the entry character first, as
 * the generic table-driven tails do, and are the ones the DFA uses.
 */
module ManualTails {
  import opened Types
  import opened Buffer

  // ---- the `*` tail ----

  /** As written: reads without stepping; a `/` is an unmatched comment closer, anything else the `*` symbol. */
  function AsteriskAsWritten(text: string, f: nat): Run
  {
    if CharAt(text, f) == '/' then Run(Reject(UNMATCHED_COMMENT), f) else Run(Accept(SYMBOL, true), f)
  }

  /** Corrected: the same decision on the character after the entry `*`. */
  function AsteriskRun(text: string, f: nat): Run
  {
    AsteriskAsWritten(text, Advance(text, f))
  }

  method AsteriskMatchAsWritten(buf: Buffer) returns (v: Verdict)
    requires buf.Valid()
    ensures Run(v, buf.forward) == AsteriskAsWritten(buf.text, buf.forward)
  {
    var c := buf.Current();
    if c == '/' {
      v := Reject(UNMATCHED_COMMENT);
    } else {
      v := Accept(SYMBOL, true);
    }
  }

  method AsteriskMatch(buf: Buffer) returns (v: Verdict)
    requires buf.Valid()
    modifies buf`forward
    ensures buf.Valid()
    ensures Run(v, buf.forward) == AsteriskRun(buf.text, old(buf.forward))
  {
    buf.Step();
    v := AsteriskMatchAsWritten(buf);
  }

  // ---- the `/` tail ----

  /** A comment closes at `p`: a `*` just before `p` and a `/` at `p`. */
  predicate ClosesAt(text: string, p: int)
  {
    0 < p < |text| && text[p - 1] == '*' && text[p] == '/'
  }

  /**
   * The two-state scan for the end of a comment, from `forward` = `f` in state
   * `state` (1 just after a `*`): the first `/` read in state 1 ends the
   * comment with the buffer on it; reading `EOT` is an unclosed comment.
   */
  function MatchEndRun(text: string, f: nat, state: nat): Run
    requires f <= |text|
    decreases |text| - f
  {
    var c := CharAt(text, f);
    if c == EOT then Run(Reject(UNCLOSED_COMMENT), f)
    else if state == 1 && c == '/' then Run(Accept(COMMENT, false), f)
    else
      var next := if c == '*' then 1 else if state == 1 then 0 else state;
      MatchEndRun(text, f + 1, next)
  }

  /** As written: raises unless the character at `forward` is `*`, then steps once and scans to the comment's end. */
  function CommentAsWritten(text: string, f: nat): Run
    requires f <= |text|
  {
    if CharAt(text, f) != '*' then Run(Reject(INVALID_INPUT), f)
    else MatchEndRun(text, Advance(text, f), 0)
  }

  /** Corrected: the same, from the character after the entry `/`. */
  function CommentRun(text: string, f: nat): Run
    requires f <= |text|
  {
    CommentAsWritten(text, Advance(text, f))
  }

  method MatchEnd(buf: Buffer) returns (v: Verdict)
    requires buf.Valid()
    modifies buf`forward
    ensures buf.Valid()
    ensures Run(v, buf.forward) == MatchEndRun(buf.text, old(buf.forward), 0)
  {
    var state := 0;
    while true
      invariant buf.Valid() && old(buf.forward) <= buf.forward
      invariant state <= 1
      invariant MatchEndRun(buf.text, buf.forward, state) == MatchEndRun(buf.text, old(buf.forward), 0)
      decreases |buf.text| - buf.forward
    {
      var c := buf.Current();
      if c == EOT {
        v := Reject(UNCLOSED_COMMENT);
        return;
      }
      if state == 0 && c == '*' {
        state := 1;
      } else if state == 1 {
        if c == '/' {
          v := Accept(COMMENT, false);
          return;
        } else if c != '*' {
          state := 0;
        }
      }
      buf.Step();
    }
  }

  method CommentMatchAsWritten(buf: Buffer) returns (v: Verdict)
    requires buf.Valid()
    modifies buf`forward
    ensures buf.Valid()
    ensures Run(v, buf.forward) == CommentAsWritten(buf.text, old(buf.forward))
  {
    var c := buf.Current();
    if c != '*' {
      v := Reject(INVALID_INPUT);
    } else {
      buf.Step();
      v := MatchEnd(buf);
    }
  }

  method CommentMatch(buf: Buffer) returns (v: Verdict)
    requires buf.Valid()
    modifies buf`forward
    ensures buf.Valid()
    ensures Run(v, buf.forward) == CommentRun(buf.text, old(buf.forward))
  {
    buf.Step();
    v := CommentMatchAsWritten(buf);
  }

  /**
   * What the comment-end scan finds, started at `f` in the state that matches
   * the text (state 1 exactly when the character before `f`, at or after `lo`,
   * is `*`) with no closer found since `lo`: it stops on the first closer after
   * `lo`, or reports an unclosed comment with `forward` at the end of the text.
   */
  lemma {:induction false} MatchEndScan(text: string, lo: nat, f: nat, state: nat)
    requires lo <= f <= |text|
    requires forall k :: 0 <= k < |text| ==> text[k] != EOT
    requires state == (if f > lo && text[f - 1] == '*' then 1 else 0)
    requires forall q :: lo < q < f ==> !ClosesAt(text, q)
    ensures var r := MatchEndRun(text, f, state);
      && (r.verdict.Accept? ==>
            && r.verdict == Accept(COMMENT, false)
            && lo < r.forward && f <= r.forward && ClosesAt(text, r.forward)
            && forall q :: lo < q < r.forward ==> !ClosesAt(text, q))
      && (r.verdict.Reject? ==>
            && r == Run(Reject(UNCLOSED_COMMENT), |text|)
            && forall q :: lo < q < |text| ==> !ClosesAt(text, q))
    decreases |text| - f
  {
    if f < |text| {
      var c := text[f];
      if !(state == 1 && c == '/') {
        assert f > lo ==> !ClosesAt(text, f);
        var next := if c == '*' then 1 else if state == 1 then 0 else state;
        MatchEndScan(text, lo, f + 1, next);
      }
    }
  }
}
