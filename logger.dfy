/**
 * The scanner's log: tokens and lexical errors recorded per source line, and
 * the text renderings of the token list, the symbol table's names and the
 * error list. Writing those renderings to files is not modelled.
 */
module Logger {
  import opened Wrappers
  import opened Types
  import opened Decimal
  import opened OrderedDict

  type Token = (TokenType, string)

  /** The member name of a token type, the part after the dot of `str(TokenType.X)`. */
  function TypeName(tt: TokenType): string
  {
    match tt
    case NUM => "NUM"
    case ID => "ID"
    case KEYWORD => "KEYWORD"
    case SYMBOL => "SYMBOL"
    case COMMENT => "COMMENT"
    case WHITESPACE => "WHITESPACE"
    case DOLOR => "DOLOR"
  }

  /** A lexeme as an error line shows it: up to six characters as they are, a longer one cut to seven followed by `...`. */
  function Truncated(lexim: string): (r: string)
    ensures |lexim| <= 6 ==> r == lexim
    ensures |lexim| > 6 ==> |r| == 10 && r[..7] == lexim[..7] && r[7..] == "..."
  {
    if |lexim| > 6 then lexim[..7] + "..." else lexim
  }

  /** Only the end-of-input token type is named `DOLOR`, so the listing's name test singles it out. */
  lemma TypeNameDolor(tt: TokenType)
    ensures TypeName(tt) == "DOLOR" <==> tt == DOLOR
  {
  }

  // ---- the token listing ----

  function ItemString(t: Token): string
  {
    "(" + TypeName(t.0) + ", " + t.1 + ") "
  }

  /** The renderings of the elements of `s` concatenated in order. */
  function Concat<T>(render: T -> string, s: seq<T>): string
  {
    if |s| == 0 then "" else Concat(render, s[..|s| - 1]) + render(s[|s| - 1])
  }

  /** The rendered tokens of one line, in order. */
  function Items(toks: seq<Token>): string
  {
    Concat(ItemString, toks)
  }

  predicate HasDolor(toks: seq<Token>)
  {
    exists i :: 0 <= i < |toks| && toks[i].0 == DOLOR
  }

  function LineString(key: int, toks: seq<Token>): string
  {
    IntToString(key) + ".\t" + Items(toks) + "\n"
  }

  /** One line per key in insertion order, stopping, without the line it is on, at the first end-of-input token. */
  function TokensString(tokens: Dict<int, seq<Token>>): string
  {
    if |tokens| == 0 then ""
    else if HasDolor(tokens[0].1) then ""
    else LineString(tokens[0].0, tokens[0].1) + TokensString(tokens[1..])
  }

  /** No line of `tokens` holds an end-of-input token. */
  predicate Clean(tokens: Dict<int, seq<Token>>)
  {
    forall i :: 0 <= i < |tokens| ==> !HasDolor(tokens[i].1)
  }

  /** Listing entries with no end-of-input token followed by more entries gives the two listings one after the other. */
  lemma {:induction false} TokensStringAppendClean(a: Dict<int, seq<Token>>, b: Dict<int, seq<Token>>)
    requires Clean(a)
    ensures TokensString(a + b) == TokensString(a) + TokensString(b)
  {
    if |a| == 0 {
      assert a + b == b;
    } else {
      assert (a + b)[0] == a[0];
      assert (a + b)[1..] == a[1..] + b;
      assert !HasDolor(a[0].1);
      assert Clean(a[1..]) by {
        forall i | 0 <= i < |a[1..]| ensures !HasDolor(a[1..][i].1) {
          assert a[1..][i] == a[i + 1];
        }
      }
      TokensStringAppendClean(a[1..], b);
    }
  }

  /** Once a line holds an end-of-input token, nothing after it is listed. */
  lemma {:induction false} TokensStringAppendStopped(a: Dict<int, seq<Token>>, b: Dict<int, seq<Token>>)
    requires !Clean(a)
    ensures TokensString(a + b) == TokensString(a)
  {
    assert (a + b)[0] == a[0];
    assert (a + b)[1..] == a[1..] + b;
    if !HasDolor(a[0].1) {
      var i :| 0 <= i < |a| && HasDolor(a[i].1);
      assert a[1..][i - 1] == a[i];
      TokensStringAppendStopped(a[1..], b);
    }
  }

  /** Splitting off the last element of the second part of a concatenation. */
  lemma SplitLast<T>(a: seq<T>, b: seq<T>)
    requires |b| > 0
    ensures a + b == (a + b[..|b| - 1]) + [b[|b| - 1]]
  {
  }

  lemma {:induction false} ConcatAppend<T>(render: T -> string, a: seq<T>, b: seq<T>)
    ensures Concat(render, a + b) == Concat(render, a) + Concat(render, b)
    decreases |b|
  {
    if |b| == 0 {
      assert a + b == a;
    } else {
      var front, last := b[..|b| - 1], b[|b| - 1];
      SplitLast(a, b);
      assert (a + b)[..|a + b| - 1] == a + front;
      ConcatAppend(render, a, front);
    }
  }

  /** Rendering a line's tokens in two parts gives the two renderings one after the other. */
  lemma ItemsAppend(a: seq<Token>, b: seq<Token>)
    ensures Items(a + b) == Items(a) + Items(b)
  {
    ConcatAppend(ItemString, a, b);
  }

  // ---- the symbol table listing ----

  /** `names` numbered from `first`, one `i.\tname` line each. */
  function NumberedLines(names: seq<string>, first: int): string
  {
    if |names| == 0 then "" else IntToString(first) + ".\t" + names[0] + "\n" + NumberedLines(names[1..], first + 1)
  }

  function SymbolTableString<V>(symbolTable: Dict<string, V>): string
  {
    NumberedLines(Keys(symbolTable), 1)
  }

  /** Numbering continues across a split: the second part starts where the first stopped. */
  lemma {:induction false} NumberedLinesAppend(a: seq<string>, b: seq<string>, first: int)
    ensures NumberedLines(a + b, first) == NumberedLines(a, first) + NumberedLines(b, first + |a|)
  {
    if |a| == 0 {
      assert a + b == b;
    } else {
      assert (a + b)[0] == a[0];
      assert (a + b)[1..] == a[1..] + b;
      NumberedLinesAppend(a[1..], b, first + 1);
    }
  }

  // ---- the error listing ----

  /** The text after the first `.`, of a string that has one. */
  function AfterFirstDot(s: string): (r: string)
    requires '.' in s
    ensures |r| < |s| && r == s[|s| - |r|..] && s[|s| - |r| - 1] == '.'
    ensures '.' !in s[..|s| - |r| - 1]
  {
    if s[0] == '.' then s[1..] else
      assert s[1..][..|s| - |AfterFirstDot(s[1..])| - 2] == s[1..|s| - |AfterFirstDot(s[1..])| - 1];
      AfterFirstDot(s[1..])
  }

  /** The text before the first `.`, or all of it. */
  function UpToDot(s: string): (r: string)
    ensures r <= s && '.' !in r
    ensures |r| < |s| ==> s[|r|] == '.'
  {
    if |s| == 0 || s[0] == '.' then "" else [s[0]] + UpToDot(s[1..])
  }

  function ReplaceUnderscores(s: string): (r: string)
    ensures |r| == |s| && '_' !in r
    ensures forall k :: 0 <= k < |s| ==> r[k] == if s[k] == '_' then ' ' else s[k]
  {
    if |s| == 0 then "" else [if s[0] == '_' then ' ' else s[0]] + ReplaceUnderscores(s[1..])
  }

  /** The message of an error tag `Kind.NAME_PART`: its second dot-separated field, underscores turned to spaces. */
  function Message(tag: string): (r: string)
    requires '.' in tag
    ensures '_' !in r && '.' !in r && |r| < |tag|
  {
    ReplaceUnderscores(UpToDot(AfterFirstDot(tag)))
  }

  predicate TagsWellFormed(errors: Dict<int, (string, string)>)
  {
    forall i :: 0 <= i < |errors| ==> '.' in errors[i].1.1
  }

  function ErrorLine(key: int, e: (string, string)): string
    requires '.' in e.1
  {
    IntToString(key) + ".\t" + "(" + e.0 + ", " + Message(e.1) + ") " + "\n"
  }

  function ErrorsString(errors: Dict<int, (string, string)>): string
    requires TagsWellFormed(errors)
  {
    if |errors| == 0 then "" else ErrorLine(errors[0].0, errors[0].1) + ErrorsString(errors[1..])
  }

  /** The error listing of entries followed by more entries is the two listings one after the other. */
  lemma {:induction false} ErrorsStringAppend(a: Dict<int, (string, string)>, b: Dict<int, (string, string)>)
    requires TagsWellFormed(a) && TagsWellFormed(b)
    ensures TagsWellFormed(a + b) && ErrorsString(a + b) == ErrorsString(a) + ErrorsString(b)
  {
    assert TagsWellFormed(a + b) by {
      forall i | 0 <= i < |a + b| ensures '.' in (a + b)[i].1.1 {
        if i < |a| { assert (a + b)[i] == a[i]; } else { assert (a + b)[i] == b[i - |a|]; }
      }
    }
    if |a| == 0 {
      assert a + b == b;
    } else {
      assert (a + b)[0] == a[0];
      assert (a + b)[1..] == a[1..] + b;
      assert TagsWellFormed(a[1..]) by {
        forall i | 0 <= i < |a[1..]| ensures '.' in a[1..][i].1.1 {
          assert a[1..][i] == a[i + 1];
        }
      }
      ErrorsStringAppend(a[1..], b);
    }
  }

  /** The text after the first `.` of `p.x`, when `p` has no `.`, is `x`. */
  lemma {:induction false} AfterFirstDotOf(p: string, x: string)
    requires '.' !in p
    ensures '.' in p + "." + x && AfterFirstDot(p + "." + x) == x
  {
    assert (p + "." + x)[|p|] == '.';
    if |p| > 0 {
      assert (p + "." + x)[1..] == p[1..] + "." + x;
      AfterFirstDotOf(p[1..], x);
    }
  }

  /** The text before the first `.` of a string with none is all of it. */
  lemma {:induction false} UpToDotWhole(x: string)
    requires '.' !in x
    ensures UpToDot(x) == x
  {
    if |x| > 0 {
      UpToDotWhole(x[1..]);
    }
  }

  /** An error tag `ErrorType.NAME` is listed as `NAME` with its underscores turned to spaces. */
  lemma ErrorTypeMessage(name: string)
    requires '.' !in name
    ensures '.' in "ErrorType." + name && Message("ErrorType." + name) == ReplaceUnderscores(name)
  {
    assert "ErrorType." + name == "ErrorType" + "." + name;
    AfterFirstDotOf("ErrorType", name);
    UpToDotWhole(name);
  }

  /** The scanner's log of tokens and lexical errors. */
  class Logger {
    /** Tokens per line number, lines in the order of their first token. */
    var tokens: Dict<int, seq<Token>>
    /** The last error per line number, lines in the order of their first error. */
    var errors: Dict<int, (string, string)>

    /** Each line number has at most one entry in each dictionary, as a `dict` key does. */
    ghost predicate Valid()
      reads this
    {
      DistinctKeys(tokens) && DistinctKeys(errors)
    }

    constructor()
      ensures Valid() && tokens == [] && errors == []
    {
      tokens := [];
      errors := [];
    }

    method AddToken(curLineNo: int, lexim: string, tt: TokenType)
      requires Valid()
      modifies this`tokens
      ensures Get(tokens, curLineNo) == Some(GetOr(old(tokens), curLineNo, []) + [(tt, lexim)])
      ensures forall k :: k != curLineNo ==> Get(tokens, k) == Get(old(tokens), k)
      ensures Keys(tokens) == if curLineNo in Keys(old(tokens)) then Keys(old(tokens)) else Keys(old(tokens)) + [curLineNo]
      ensures Valid()
    {
      var line := GetOr(tokens, curLineNo, []) + [(tt, lexim)];
      PutGet(tokens, curLineNo, line);
      PutKeys(tokens, curLineNo, line);
      forall k | k != curLineNo ensures Get(Put(tokens, curLineNo, line), k) == Get(tokens, k) {
        PutOther(tokens, curLineNo, line, k);
      }
      PutDistinct(tokens, curLineNo, line);
      tokens := Put(tokens, curLineNo, line);
    }

    method AddError(curLineNo: int, lexim: string, tt: string)
      requires Valid()
      modifies this`errors
      ensures Get(errors, curLineNo) == Some((Truncated(lexim), tt))
      ensures forall k :: k != curLineNo ==> Get(errors, k) == Get(old(errors), k)
      ensures Keys(errors) == if curLineNo in Keys(old(errors)) then Keys(old(errors)) else Keys(old(errors)) + [curLineNo]
      ensures Valid()
    {
      var entry := if |lexim| > 6 then (lexim[..7] + "...", tt) else (lexim, tt);
      PutGet(errors, curLineNo, entry);
      PutKeys(errors, curLineNo, entry);
      forall k | k != curLineNo ensures Get(Put(errors, curLineNo, entry), k) == Get(errors, k) {
        PutOther(errors, curLineNo, entry, k);
      }
      PutDistinct(errors, curLineNo, entry);
      errors := Put(errors, curLineNo, entry);
    }

    /** The inner loop of the token listing: one line's rendered tokens, or the end-of-input token that stops the listing. */
    method CreateItems(toks: seq<Token>) returns (items: string, stop: bool)
      ensures stop == HasDolor(toks)
      ensures !stop ==> items == Items(toks)
    {
      items := "";
      var m := 0;
      while m < |toks|
        invariant 0 <= m <= |toks|
        invariant items == Items(toks[..m])
        invariant forall i :: 0 <= i < m ==> toks[i].0 != DOLOR
      {
        TypeNameDolor(toks[m].0);
        if TypeName(toks[m].0) == "DOLOR" {
          return items, true;
        }
        assert toks[..m + 1][..m] == toks[..m];
        items := items + ItemString(toks[m]);
        m := m + 1;
      }
      assert toks[..m] == toks;
      stop := false;
    }

    method CreateTokensString(tokens: Dict<int, seq<Token>>) returns (tokensString: string)
      ensures tokensString == TokensString(tokens)
    {
      tokensString := "";
      var j := 0;
      while j < |tokens|
        invariant 0 <= j <= |tokens|
        invariant TokensString(tokens) == tokensString + TokensString(tokens[j..])
      {
        var items, stop := CreateItems(tokens[j].1);
        if stop {
          return;
        }
        var line := IntToString(tokens[j].0) + ".\t" + items + "\n";
        assert line == LineString(tokens[j].0, tokens[j].1);
        assert tokens[j..][1..] == tokens[j + 1..];
        assert TokensString(tokens[j..]) == line + TokensString(tokens[j + 1..]);
        tokensString := tokensString + line;
        j := j + 1;
      }
    }

    method CreateSymbolTableString<V>(symbolTable: Dict<string, V>) returns (symbolTableString: string)
      ensures symbolTableString == SymbolTableString(symbolTable)
    {
      symbolTableString := "";
      var symbols := Keys(symbolTable);
      for i := 0 to |symbols|
        invariant symbolTableString + NumberedLines(symbols[i..], i + 1) == NumberedLines(symbols, 1)
      {
        var line := IntToString(i + 1) + ".\t" + symbols[i] + "\n";
        var rest := NumberedLines(symbols[i + 1..], i + 2);
        assert symbols[i..][1..] == symbols[i + 1..];
        assert NumberedLines(symbols[i..], i + 1) == line + rest;
        assert symbolTableString + (line + rest) == (symbolTableString + line) + rest;
        symbolTableString := symbolTableString + line;
      }
    }

    method CreateErrorsString(errors: Dict<int, (string, string)>) returns (errorsString: string)
      requires TagsWellFormed(errors)
      ensures errorsString == ErrorsString(errors)
    {
      errorsString := "";
      for j := 0 to |errors|
        invariant TagsWellFormed(errors[j..])
        invariant errorsString + ErrorsString(errors[j..]) == ErrorsString(errors)
      {
        assert errors[j..][1..] == errors[j + 1..];
        var line := IntToString(errors[j].0) + ".\t";
        line := line + "(" + errors[j].1.0 + ", " + ReplaceUnderscores(UpToDot(AfterFirstDot(errors[j].1.1))) + ") ";
        line := line + "\n";
        errorsString := errorsString + line;
      }
    }
  }
}
