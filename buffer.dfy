/**
 * The scanner's input buffer: the source text with a `beginning` pointer at the
 * start of the current lexeme and a `forward` pointer at the character being
 * examined. Reading at or past the end gives the end-of-text mark `EOT`.
 */
module Buffer {
  import opened Types

  /** The character the buffer reports when `forward` is `f`. */
  function CharAt(text: string, f: nat): char
  {
    if f < |text| then text[f] else EOT
  }

  /** Where one step moves `forward` from `f`: one character on, never past the end of the text. */
  function Advance(text: string, f: nat): nat
  {
    if f < |text| then f + 1 else f
  }

  /** Number of newline characters in `s`. */
  function Newlines(s: string): nat
  {
    if |s| == 0 then 0 else Newlines(s[..|s| - 1]) + (if s[|s| - 1] == '\n' then 1 else 0)
  }

  lemma {:induction false} NewlinesAppend(a: string, b: string)
    ensures Newlines(a + b) == Newlines(a) + Newlines(b)
    decreases |b|
  {
    if |b| > 0 {
      assert (a + b)[..|a + b| - 1] == a + b[..|b| - 1];
      NewlinesAppend(a, b[..|b| - 1]);
    } else {
      assert a + b == a;
    }
  }

  class Buffer {
    const text: string
    var beginning: nat
    var forward: nat
    var lineno: nat

    /** Both pointers lie within the text, in order, and `lineno` is the line `beginning` is on. */
    ghost predicate Valid()
      reads this
    {
      beginning <= forward <= |text| && lineno == 1 + Newlines(text[..beginning])
    }

    constructor (text: string)
      ensures Valid() && this.text == text
      ensures beginning == 0 && forward == 0 && lineno == 1
    {
      this.text := text;
      beginning, forward, lineno := 0, 0, 1;
    }

    /** Calling the buffer: the character at `forward`, or `EOT` at the end of the text. */
    function Current(): (c: char)
      reads this
      requires Valid()
      ensures forward < |text| ==> c == text[forward]
      ensures forward == |text| ==> c == EOT
    {
      CharAt(text, forward)
    }

    method Step()
      requires Valid()
      modifies this`forward
      ensures Valid()
      ensures forward == if old(forward) < |text| then old(forward) + 1 else old(forward)
    {
      if forward < |text| {
        forward := forward + 1;
      }
    }

    /** The lexeme from `beginning` through `forward` inclusive; both pointers move to the character after it. */
    method Extract() returns (lexeme: string)
      requires Valid()
      modifies this`beginning, this`forward, this`lineno
      ensures Valid()
      ensures beginning == forward == Advance(text, old(forward))
      ensures lexeme == text[old(beginning)..beginning]
      ensures lineno == old(lineno) + Newlines(lexeme)
    {
      var next := if forward < |text| then forward + 1 else forward;
      lexeme := text[beginning..next];
      assert text[..next] == text[..beginning] + lexeme;
      NewlinesAppend(text[..beginning], lexeme);
      lineno := lineno + Newlines(lexeme);
      beginning, forward := next, next;
    }

    /** The lexeme from `beginning` up to but excluding `forward`; both pointers move to `forward`. */
    method ExtractRetreat() returns (lexeme: string)
      requires Valid()
      modifies this`beginning, this`lineno
      ensures Valid()
      ensures forward == beginning == old(forward)
      ensures lexeme == text[old(beginning)..old(forward)]
      ensures lineno == old(lineno) + Newlines(lexeme)
    {
      lexeme := text[beginning..forward];
      assert text[..forward] == text[..beginning] + lexeme;
      NewlinesAppend(text[..beginning], lexeme);
      lineno := lineno + Newlines(lexeme);
      beginning := forward;
    }

    /** The line `beginning` is on: one more than the newlines before it. */
    function GetLineno(): (n: nat)
      reads this
      requires Valid()
      ensures n == 1 + Newlines(text[..beginning])
      ensures n >= 1
    {
      lineno
    }
  }

  /** After three steps from a fresh buffer over `void main...`, extracting gives `void`, both pointers are 4 and the buffer reads the space after it. */
  method ExtractAfterThreeSteps() returns (lexeme: string, beginning: nat, forward: nat, current: char)
    ensures lexeme == "void" && beginning == 4 && forward == 4 && current == ' '
  {
    var buf := new Buffer("void main (void) {");
    buf.Step();
    buf.Step();
    buf.Step();
    lexeme := buf.Extract();
    beginning, forward, current := buf.beginning, buf.forward, buf.Current();
  }
}
