/**
 * The scanner's DFA: a list of (entry characters, tail) pairs tried in order on
 * the character at `forward`, and the table-driven tail that walks a
 * state/transition table, stepping the buffer once per transition.
 */
module Dfa {
  import opened Wrappers
  import opened Types
  import opened Buffer
  import ManualTails

  datatype Transition = Transition(literal: set<char>, nextState: nat)

  /** A table state; `callback`, when present, is the token type the state's callback returns. */
  datatype AutoTailState = AutoTailState(transitions: seq<Transition>, isAccepting: bool, isRetreat: bool, callback: Option<TokenType>)

  /** A tail: a table-driven one, or one of the two hand-written ones. */
  datatype Tail =
    | Auto(states: seq<AutoTailState>, tokenType: TokenType, error: ErrorType)
    | Asterisk
    | Comment

  datatype Dfa = Dfa(tails: seq<(set<char>, Tail)>)

  /**
   * A table the tail can walk: every target state exists, and from a
   * non-accepting state, reading `EOT` leads only to an accepting state (at
   * the end of the text stepping no longer moves, so a step to another non-accepting state could loop).
   */
  ghost predicate WellFormed(states: seq<AutoTailState>)
  {
    && |states| > 0
    && forall s, t :: 0 <= s < |states| && 0 <= t < |states[s].transitions| ==>
         && states[s].transitions[t].nextState < |states|
         && (!states[s].isAccepting && EOT in states[s].transitions[t].literal ==>
               states[states[s].transitions[t].nextState].isAccepting)
  }

  ghost predicate ValidTail(tail: Tail)
  {
    tail.Auto? ==> WellFormed(tail.states)
  }

  ghost predicate ValidDfa(dfa: Dfa)
  {
    forall k :: 0 <= k < |dfa.tails| ==> ValidTail(dfa.tails[k].1)
  }

  /** The first transition, in list order, whose literal holds `c`. */
  function FirstTransition(ts: seq<Transition>, c: char): (r: Option<nat>)
    ensures r.Some? ==> r.value < |ts| && c in ts[r.value].literal
    ensures r.Some? ==> forall j :: 0 <= j < r.value ==> c !in ts[j].literal
    ensures r.None? ==> forall j :: 0 <= j < |ts| ==> c !in ts[j].literal
  {
    if |ts| == 0 then None
    else if c in ts[0].literal then Some(0)
    else match FirstTransition(ts[1..], c)
      case None => None
      case Some(k) => Some(k + 1)
  }

  /** The first entry, in list order, whose characters hold `c`. */
  function FirstEntry(tails: seq<(set<char>, Tail)>, c: char): (r: Option<nat>)
    ensures r.Some? ==> r.value < |tails| && c in tails[r.value].0
    ensures r.Some? ==> forall j :: 0 <= j < r.value ==> c !in tails[j].0
    ensures r.None? ==> forall j :: 0 <= j < |tails| ==> c !in tails[j].0
  {
    if |tails| == 0 then None
    else if c in tails[0].0 then Some(0)
    else match FirstEntry(tails[1..], c)
      case None => None
      case Some(k) => Some(k + 1)
  }

  /**
   * A table-driven tail in state `s` with `forward` at `f`: an accepting state
   * answers its callback's type or the tail's own type, with its retreat flag;
   * otherwise the buffer steps, and the first transition holding the character
   * now read is taken, or the tail's error is raised with the buffer on it.
   */
  function AutoRun(tail: Tail, text: string, f: nat, s: nat): Run
    requires tail.Auto? && WellFormed(tail.states) && s < |tail.states| && f <= |text|
    decreases |text| - f, if tail.states[s].isAccepting then 0 else 1
  {
    var state := tail.states[s];
    if state.isAccepting then
      Run(Accept(if state.callback.Some? then state.callback.value else tail.tokenType, state.isRetreat), f)
    else
      var f' := Advance(text, f);
      match FirstTransition(state.transitions, CharAt(text, f'))
      case None => Run(Reject(tail.error), f')
      case Some(k) => AutoRun(tail, text, f', state.transitions[k].nextState)
  }

  /** What a tail answers when handed the buffer with `forward` at `f`. */
  function TailRun(tail: Tail, text: string, f: nat): Run
    requires ValidTail(tail) && f <= |text|
  {
    match tail
    case Auto(_, _, _) => AutoRun(tail, text, f, 0)
    case Asterisk => ManualTails.AsteriskRun(text, f)
    case Comment => ManualTails.CommentRun(text, f)
  }

  /**
   * The DFA on the buffer with `forward` at `f`: the character there is read
   * without stepping and handed, with the buffer, to the tail of the first
   * entry holding it; with no such entry, `EOT` is the end-of-input token and
   * any other character an invalid input, the buffer unmoved either way.
   */
  function DfaRun(dfa: Dfa, text: string, f: nat): Run
    requires ValidDfa(dfa) && f <= |text|
  {
    var c := CharAt(text, f);
    match FirstEntry(dfa.tails, c)
    case Some(k) => TailRun(dfa.tails[k].1, text, f)
    case None => if c == EOT then Run(Accept(DOLOR, false), f) else Run(Reject(INVALID_INPUT), f)
  }

  /** A table-driven tail never moves `forward` back, nor past the end of the text. */
  lemma {:induction false} AutoRunBounds(tail: Tail, text: string, f: nat, s: nat)
    requires tail.Auto? && WellFormed(tail.states) && s < |tail.states| && f <= |text|
    ensures f <= AutoRun(tail, text, f, s).forward <= |text|
    decreases |text| - f, if tail.states[s].isAccepting then 0 else 1
  {
    var state := tail.states[s];
    if !state.isAccepting {
      var f' := Advance(text, f);
      match FirstTransition(state.transitions, CharAt(text, f'))
      case None =>
      case Some(k) => AutoRunBounds(tail, text, f', state.transitions[k].nextState);
    }
  }

  method AutoMatch(tail: Tail, buf: Buffer) returns (v: Verdict)
    requires tail.Auto? && WellFormed(tail.states) && buf.Valid()
    modifies buf`forward
    ensures buf.Valid()
    ensures Run(v, buf.forward) == AutoRun(tail, buf.text, old(buf.forward), 0)
  {
    var s := 0;
    var state := tail.states[s];
    while !state.isAccepting
      invariant buf.Valid()
      invariant s < |tail.states| && state == tail.states[s]
      invariant AutoRun(tail, buf.text, buf.forward, s) == AutoRun(tail, buf.text, old(buf.forward), 0)
      decreases |buf.text| - buf.forward, if state.isAccepting then 0 else 1
    {
      buf.Step();
      var c := buf.Current();
      var matched := false;
      var j := 0;
      while j < |state.transitions|
        invariant j <= |state.transitions|
        invariant forall i :: 0 <= i < j ==> c !in state.transitions[i].literal
      {
        if c in state.transitions[j].literal {
          matched := true;
          break;
        }
        j := j + 1;
      }
      if matched {
        assert FirstTransition(state.transitions, c) == Some(j);
        s := state.transitions[j].nextState;
        state := tail.states[s];
      } else {
        v := Reject(tail.error);
        return;
      }
    }
    if state.callback.Some? {
      v := Accept(state.callback.value, state.isRetreat);
    } else {
      v := Accept(tail.tokenType, state.isRetreat);
    }
  }

  method TailMatch(tail: Tail, buf: Buffer) returns (v: Verdict)
    requires ValidTail(tail) && buf.Valid()
    modifies buf`forward
    ensures buf.Valid()
    ensures Run(v, buf.forward) == TailRun(tail, buf.text, old(buf.forward))
  {
    match tail
    case Auto(_, _, _) => v := AutoMatch(tail, buf);
    case Asterisk => v := ManualTails.AsteriskMatch(buf);
    case Comment => v := ManualTails.CommentMatch(buf);
  }

  /** `Dfa.match`, which `dfa(buffer)` also runs. */
  method Match(dfa: Dfa, buf: Buffer) returns (v: Verdict)
    requires ValidDfa(dfa) && buf.Valid()
    modifies buf`forward
    ensures buf.Valid()
    ensures Run(v, buf.forward) == DfaRun(dfa, buf.text, old(buf.forward))
  {
    var c := buf.Current();
    var k := 0;
    while k < |dfa.tails|
      invariant k <= |dfa.tails|
      invariant forall i :: 0 <= i < k ==> c !in dfa.tails[i].0
    {
      var (entry, tail) := dfa.tails[k];
      if c in entry {
        assert FirstEntry(dfa.tails, c) == Some(k);
        v := TailMatch(tail, buf);
        return;
      }
      k := k + 1;
    }
    if c == EOT {
      v := Accept(DOLOR, false);
    } else {
      v := Reject(INVALID_INPUT);
    }
  }
}
