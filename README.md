# A verified model of the minuspiler C-Minus front end and code generator

minuspiler is a one-pass compiler for C-Minus, written in Python. This
project models five of its parts and proves properties about them.

- **The scanner's buffer** (`buffer.dfy`). It is a concrete buffer over a
  text, with a `beginning` pointer and a `forward` pointer. Reading past the
  end gives the end-of-text mark `\x05`. The class also keeps the line number.
- **The scanner's DFA** (`dfa.dfy`, `manual_tails.dfy`, `cminus.dfy`).
  - The entry points are tried in order on the character at `forward`.
  - The table-driven tails walk a state/transition table, stepping the buffer
    once per transition.
  - There are two hand-written tails, for `*` and for comments.
  - `cminus.dfy` holds the C-Minus language table. Lemmas there state what
    scanning from each kind of entry character yields. This covers every case
    of the repository's scanner unit tests, for any character classes that
    contain the characters those tests use.
- **Three-address instructions** (`instruction.dfy`, with `decimal.dfy` for
  Python's `str`/`int` on integers).
  - Addresses are parsed from operand strings `500`, `@500` and `#500`.
  - Addresses and instructions render as in the listing.
  - The instruction builders and the operator table are modelled.
  - Rendering an address and parsing it back round-trips in both directions.
- **The scanner's logger** (`logger.dfy`, `ordered_dict.dfy`).
  - It records tokens and errors per line in insertion-ordered dictionaries.
  - It builds the token, symbol-table and error listings.
  - Lemmas show how each listing splits over its entries.
- **The code generator** (`codegen.dfy`, `symbol.dfy`, `codegen_scenarios.dfy`).
  - This is a class holding the semantic stack, a 100-slot program block
    (an `array`), the program counter, the argument-count stack, the
    break-point stack and the conversion temp.
  - There is one method per semantic action. Each method states the exact
    new program block, stack and counter.
  - `code_gen` is a dispatcher over an `Action` datatype.
  - `generate_output` is a loop proved to produce the listing up to the
    first empty slot.
  - Four scenario methods run action sequences on a fresh generator and
    prove the exact code each produces:
    - an `if`/`else` statement;
    - `repeat break; until (c)`;
    - `a = b;` with both identifiers unknown to the table;
    - `void main(void) { output(a); }`.
  - In all but `a = b;` an identifier operand is an address string pushed by
    the lookahead-pushing action (`pop`), standing in for the address `pid`
    is documented to push. `main` uses the corrected call (see Findings).

The symbol table is a stub in the repository. Here, every call the
generator makes on it is appended to a `requests` log, in order. What its
queries answer is an argument of the action that asks.

## Model

| member | source | states |
|---|---|---|
| Decimal.IntToStringParses | src/util/instruction.py:73-78 | `int(str(n)) == n` for every integer, so operands codegen formats with `str` parse back to the same value |
| Decimal.CanonicalIntPrints | src/util/instruction.py:44-47 | A canonical integer string parses to a value that `str` prints back as the same string |
| Decimal.IntToStringCanonical | src/util/instruction.py:44-47 | What `str` prints for an integer has no leading zeros, and a minus sign only before a non-zero value |
| Instruction.Prefix | src/util/instruction.py:12-18 | NONE and ADDRESS render with no prefix, IMMEDIATE with `#` and INDIRECT with `@`, in both directions |
| Instruction.OperandNormalised | src/util/instruction.py:69-78 | A non-empty operand string parses exactly when the text after its `@`/`#` prefix is an integer. The parsed address then prints back as the same prefix followed by that integer in `str` form (`#007` prints as `#7`), so parsing never changes an operand's kind or value |
| Instruction.AddressRoundTrip | src/util/instruction.py:44-47 | Parsing the printed form of any address gives the same address back; a NONE address corresponds to an absent operand |
| Instruction.CanonicalOperandRoundTrip | src/util/instruction.py:69-78 | A canonical operand string parses, and the parsed address prints back as the same string |
| Instruction.PrintedOperands | src/util/instruction.py:73-78 | `str(n)`, `#str(n)` and `@str(n)`, as codegen formats operands, give ADDRESS, IMMEDIATE and INDIRECT with value `n` |
| Instruction.InstructionListed | src/util/instruction.py:62-63 | An instruction built from operands written as the listing prints them renders as `(OPNAME, a, b, c)` with each operand's own text, an absent operand showing as nothing |
| Instruction.GenerateInstruction | src/util/instruction.py:81-85 | The instruction is built exactly when all three operands are valid. It then has the given operation and the three parsed addresses |
| Instruction.AddInstr | src/util/instruction.py:89 | A built instruction is an ADD |
| Instruction.MulInstr | src/util/instruction.py:90 | A built instruction is a MULT and is listed as `MULT` |
| Instruction.SubInstr | src/util/instruction.py:91 | A built instruction is a SUB |
| Instruction.EqInstr | src/util/instruction.py:92 | A built instruction is an EQ |
| Instruction.LtInstr | src/util/instruction.py:93 | A built instruction is an LT |
| Instruction.AssignInstr | src/util/instruction.py:94 | A built instruction is an ASSIGN with the third operand absent |
| Instruction.JpfInstr | src/util/instruction.py:95 | A built instruction is a JPF with the third operand absent |
| Instruction.JpInstr | src/util/instruction.py:96 | A built instruction is a JP with the second and third operands absent |
| Instruction.PrintInstr | src/util/instruction.py:97 | A built instruction is a PRINT with the second and third operands absent |
| Instruction.OperationInstr | src/util/instruction.py:99-105 | The instruction built for an operator lexeme performs the table's operation |
| Instruction.OperationTableInjective | src/util/instruction.py:99-105 | Distinct operator lexemes build distinct operations, and every one is an arithmetic or comparison operation, never an assignment, jump or print |
| Buffer.NewlinesAppend | src/util/buffer.py:49 | The newline count is additive over concatenation, which lets extraction keep the line number |
| Buffer.Buffer.constructor | src/util/buffer.py:19-31 | A fresh buffer has both pointers at 0 and is on line 1 |
| Buffer.Buffer.Current | src/util/buffer.py:10-17 | Calling the buffer gives the character at `forward`, or the end-of-text mark at the end |
| Buffer.Buffer.Step | src/util/buffer.py:33-38 | `forward` moves one character on, except at the end of the text; the pointers stay valid |
| Buffer.Buffer.Extract | src/util/buffer.py:40-51 | Returns the text from `beginning` through `forward`, both pointers move to the next character, and the line number grows by the newlines extracted |
| Buffer.Buffer.ExtractRetreat | src/util/buffer.py:53-63 | Returns the text from `beginning` up to `forward` (exclusive), `beginning` moves to `forward`, and the line number grows by the newlines extracted |
| Buffer.Buffer.GetLineno | src/util/buffer.py:65-74 | The line `beginning` is on: one plus the newlines before it |
| Buffer.ExtractAfterThreeSteps | test/util/test_buffer.py:29-35 | Three steps then an extract over `void main (void) {` give `void`, both pointers at 4, and the buffer reads a space |
| ManualTails.AsteriskMatchAsWritten | src/util/cminus.py:6-12 | As written, the `*` tail decides on the character at `forward` without stepping, leaving the buffer unmoved: a `/` there is an unmatched comment closer, anything else a `*` symbol with retreat |
| ManualTails.AsteriskMatch | src/util/cminus.py:6-12 | The corrected `*` tail steps past the `*` first and then decides as the source does |
| ManualTails.MatchEnd | src/util/cminus.py:16-29 | The comment-end loop answers exactly the two-state scan `MatchEndRun`, with `forward` where the scan stops |
| ManualTails.MatchEndScan | src/util/cminus.py:16-29 | The scan stops on the first closing `*` `/` after the comment body starts, with `forward` on its `/`. With no closer it raises unclosed-comment at the end of the text |
| ManualTails.CommentMatchAsWritten | src/util/cminus.py:31-37 | The as-written comment tail rejects unless the character at `forward` is `*`; otherwise it steps and scans to the comment's end |
| ManualTails.CommentMatch | src/util/cminus.py:31-37 | The corrected comment tail steps past the `/` first, then runs the as-written body |
| Dfa.FirstTransition | src/util/dfa.py:130-134 | The first transition in list order whose literal holds the character; none when no transition holds it |
| Dfa.FirstEntry | src/util/dfa.py:54-56 | The first entry in list order whose characters hold the character; none when no entry holds it |
| Dfa.AutoRunBounds | src/util/dfa.py:124-138 | A table-driven tail never moves `forward` back or past the end of the text |
| Dfa.AutoMatch | src/util/dfa.py:111-143 | The table walk answers the callback's type or the tail's type with the state's retreat flag, or the tail's error where no transition matches. Its result and final `forward` are those of `AutoRun` |
| Dfa.TailMatch | src/util/dfa.py:56 | Handing the buffer to a tail answers that tail's run: the table walk, or the corrected `*` or comment tail (see Findings) |
| Dfa.Match | src/util/dfa.py:34-59 | The first entry holding the current character runs its tail without a step, with the corrected `*` and comment tails (see Findings). With no entry, the end-of-text mark gives the end-of-input token and anything else an invalid input, with the buffer unmoved |
| CMinus.Language | src/util/cminus.py:45-57 | The language's DFA has seven entries, with the corrected `*` and comment tails (see Findings), and every table-driven tail is well formed, so the table walk terminates |
| CMinus.LanguageUnambiguous | src/util/cminus.py:45-57 | The entry sets do not overlap, so each character is dispatched to the one entry that holds it |
| CMinus.LoopTailScan | src/util/cminus.py:66-101 | A looping two-state tail stops at the first character that is not a loop character. It accepts with retreat if that character is an exit character, and raises the tail's error there otherwise |
| CMinus.ScanImmediate | src/util/cminus.py:59-108 | Whitespace and one-character symbols are accepted where they stand, with no step and no retreat |
| CMinus.ScanIdentifier | src/util/cminus.py:66-84 | An identifier runs over letters and digits. It ends with retreat on a SPEC, whitespace or end-of-text character; any other character is an invalid input |
| CMinus.ScanNumber | src/util/cminus.py:86-101 | A number runs over digits. It ends with retreat on a SPEC, whitespace or end-of-text character; any other character is an invalid number |
| CMinus.ScanEquals | src/util/cminus.py:110-123 | `==` is accepted without retreat, a lone `=` before a listed character with retreat, and anything else is an invalid input |
| CMinus.ScanAsteriskOrSlash | src/util/cminus.py:125-131 | `*` and `/` are handed to the corrected hand-written tails (see Findings) |
| CMinus.ScanEnd | src/util/dfa.py:57-58 | At the end of the text the DFA yields the end-of-input token and does not move the buffer |
| CMinus.ScanInvalid | src/util/dfa.py:59 | A character in no entry is an invalid input, with the buffer unmoved |
| CMinus.CommentScan | src/util/cminus.py:16-37 | A comment ends on its first closer after the opener, with `forward` on the closing `/`. With no closer it is unclosed, with `forward` at the end of the text |
| CMinus.WhitespaceCase | test/test_cminus.py:12-19 | `" "` is whitespace with no retreat, and the buffer still reads the space |
| CMinus.NumberCase | test/test_cminus.py:21-26 | `12345 ` is a number with retreat, and the buffer is left on the space |
| CMinus.CorruptedNumberCase | test/test_cminus.py:28-31 | `1234x5` is an invalid number with `forward` at 4 |
| CMinus.IdentifierCases | test/test_cminus.py:33-52 | `mean = 1;`, `mean2/ 1;` and `mean` are identifiers with retreat, with `forward` at 4, 5 and the end of the text |
| CMinus.InvalidIdentifierCase | test/test_cminus.py:54-57 | `mean% = 1;` is an invalid input with `forward` at 4 |
| CMinus.SymbolCase | test/test_cminus.py:59-69 | `;` is a symbol with no retreat and no step, so asking again answers the same |
| CMinus.AsteriskCases | test/test_cminus.py:71-86 | `*a` and `*` are `*` symbols with retreat; `*/` is an unmatched comment closer with `forward` at 1 |
| CMinus.EqualsCases | test/test_cminus.py:88-99 | `=2` is `=` with retreat; `==3` is `==` with no retreat and `forward` at 1 |
| CMinus.CommentCase | test/test_cminus.py:101-105 | A comment with inner `*` and `/` characters is accepted with no retreat |
| CMinus.EmptyCommentCase | test/test_cminus.py:107-111 | `/**/` is a comment with no retreat, ending on its last character |
| CMinus.MultilineCommentCase | test/test_cminus.py:113-117 | A comment spanning lines is accepted with no retreat |
| CMinus.UnclosedCommentCase | test/test_cminus.py:119-122 | A comment with no closer is unclosed, with the buffer at the end-of-text mark |
| CMinus.EndCase | src/util/dfa.py:57-58 | Empty text yields the end-of-input token |
| CMinus.AsteriskAsWrittenNeverUnmatched | src/util/cminus.py:6-12 | Entered as the DFA enters it, the as-written `*` tail never reports an unmatched comment closer |
| CMinus.CommentAsWrittenAlwaysRejects | src/util/cminus.py:31-37 | Entered as the DFA enters it, the as-written comment tail rejects every comment as an invalid input |
| CMinus.UnmatchedCloserDiscrepancy | src/util/cminus.py:6-12 | On `*/`, the as-written tail accepts a `*` symbol, but the corrected one raises unmatched-comment at 1 |
| CMinus.EmptyCommentDiscrepancy | src/util/cminus.py:31-37 | On `/**/`, the as-written tail raises invalid input, but the corrected one accepts a comment ending at 3 |
| OrderedDict.PutGet | src/util/logger.py:71-75 | After `d[k] = v`, looking up `k` gives `v` |
| OrderedDict.PutOther | src/util/logger.py:77-81 | `d[k] = v` leaves every other key's value as it was |
| OrderedDict.PutKeys | src/util/logger.py:77-81 | `d[k] = v` keeps key order, appending `k` only when it is new |
| OrderedDict.PutDistinct | src/util/logger.py:77-81 | `d[k] = v` never duplicates a key |
| Logger.Truncated | src/util/logger.py:71-75 | A lexeme of up to six characters is kept. A longer one becomes its first seven characters followed by `...` |
| Logger.TypeNameDolor | src/util/logger.py:33 | The name test for `DOLOR` picks out exactly the end-of-input token type |
| Logger.ConcatAppend | src/util/logger.py:31-35 | Rendering a sequence in two parts gives the two renderings one after the other |
| Logger.ItemsAppend | src/util/logger.py:31-35 | A line's token items split over any split of its tokens |
| Logger.TokensStringAppendClean | src/util/logger.py:27-38 | Lines with no end-of-input token followed by more lines list as the two listings one after the other |
| Logger.TokensStringAppendStopped | src/util/logger.py:27-38 | Once a line holds the end-of-input token, nothing from that line on is listed |
| Logger.NumberedLinesAppend | src/util/logger.py:40-45 | Symbol-table numbering continues across a split |
| Logger.AfterFirstDot | src/util/logger.py:51 | The suffix after the first `.`, with no `.` before it |
| Logger.UpToDot | src/util/logger.py:51 | The prefix before the first `.`, or the whole string, with no `.` in it |
| Logger.ReplaceUnderscores | src/util/logger.py:51 | Each `_` becomes a space and every other character is unchanged |
| Logger.Message | src/util/logger.py:51 | An error tag's message has no `_` and no `.` and is shorter than the tag |
| Logger.ErrorTypeMessage | src/util/logger.py:51 | A tag `ErrorType.NAME` is listed as `NAME` with underscores turned to spaces |
| Logger.ErrorsStringAppend | src/util/logger.py:47-54 | The error listing splits over any split of the entries |
| Logger.Logger.constructor | src/util/logger.py:23-25 | A new logger has no tokens and no errors, and no line number twice |
| Logger.Logger.AddToken | src/util/logger.py:77-81 | The line's token list gets the token appended, or becomes a one-token list. Other lines are unchanged. A new line is appended to the key order. No line number appears twice, before or after |
| Logger.Logger.AddError | src/util/logger.py:71-75 | The line's error becomes the truncated lexeme and tag, overwriting any earlier one. Other lines are unchanged, the key order is kept, and no line number appears twice |
| Logger.Logger.CreateItems | src/util/logger.py:31-35 | Stops exactly when the line holds the end-of-input token; otherwise it renders every token in order |
| Logger.Logger.CreateTokensString | src/util/logger.py:27-38 | The token listing: one numbered line per line number, in insertion order, up to the first end-of-input token |
| Logger.Logger.CreateSymbolTableString | src/util/logger.py:40-45 | The symbol table's names in insertion order, numbered from 1 |
| Logger.Logger.CreateErrorsString | src/util/logger.py:47-54 | One line per error in insertion order: the lexeme and the tag's message |
| Symbol.SymbolTypeNamed | src/codegen.py:88 | `SymbolType[name]` finds the member with that name, or fails |
| Symbol.SymbolTypeNamedRoundTrip | src/codegen.py:88 | Every symbol type is found by its own name |
| Symbol.Upper | src/codegen.py:88 | `upper()` upper-cases each letter in place and keeps the length |
| Symbol.KeywordTypes | src/codegen.py:144 | `int` and `void` name INT and VOID; with the `ARRAY_` or `POINTER_` prefix they name the array and pointer types |
| CodeGen.PrologueOperands | src/codegen.py:116-121 | The five operand-string instructions of a function prologue build exactly the prologue: store SP at SP+8, store CF after it, make SP the frame pointer |
| CodeGen.ListingStopsAtGap | src/codegen.py:21-28 | Nothing after the first empty slot is listed |
| CodeGen.ListingEmit | src/codegen.py:21-28 | Filling the first empty slot, when the next slot is also empty, adds exactly one line at the end of the listing |
| CodeGen.GenerateErrors | src/codegen.py:30-34 | The correctness notice is written exactly when there are no semantic errors |
| CodeGen.CodeGenerator.constructor | src/codegen.py:7-17 | An empty program block of 100 slots, pc 0, empty stacks, and conversion temp 208 |
| CodeGen.CodeGenerator.Pop | src/codegen.py:36-39 | Removes exactly the top `n` entries |
| CodeGen.CodeGenerator.Push | src/codegen.py:41-43 | Appends one entry on top |
| CodeGen.CodeGenerator.GetConversionTemp | src/codegen.py:49-52 | Returns the current temp and moves it on by 4 |
| CodeGen.CodeGenerator.ActionPtype | src/codegen.py:61-64 | Pushes the type lexeme |
| CodeGen.CodeGenerator.ActionPname | src/codegen.py:66-69 | Pushes the name lexeme |
| CodeGen.CodeGenerator.ActionPid | src/codegen.py:71-74 | Looks the identifier up and pushes the symbol found, or `None` |
| CodeGen.CodeGenerator.ActionPnum | src/codegen.py:76-79 | Pushes a constant INT symbol holding the number's value |
| CodeGen.CodeGenerator.ActionVar | src/codegen.py:81-90 | Installs the name with the type below it, and pops both |
| CodeGen.CodeGenerator.ActionFunc | src/codegen.py:92-123 | Installs the function at the pc and pops type and name. It writes the prologue at pc..pc+4 using a fresh conversion temp, pushes pc+5 (the reserved slot) and moves the pc on by 6 |
| CodeGen.CodeGenerator.WritePrologue | src/codegen.py:116-121 | Writes the five prologue instructions at pc..pc+4 and nothing else |
| CodeGen.CodeGenerator.ActionFuncEnd | src/codegen.py:125-127 | Tells the symbol table the function has ended |
| CodeGen.CodeGenerator.ActionArr | src/codegen.py:135-146 | Installs an array of the `ARRAY_` type with the size symbol's value, and pops type, name and size |
| CodeGen.CodeGenerator.ActionParPtr | src/codegen.py:148-152 | Adds a `POINTER_` parameter and pops type and name |
| CodeGen.CodeGenerator.ActionParVar | src/codegen.py:154-158 | Adds a plain parameter and pops type and name |
| CodeGen.CodeGenerator.ActionScopeUp | src/codegen.py:160-162 | Opens a scope |
| CodeGen.CodeGenerator.ActionScopeDown | src/codegen.py:164-166 | Closes a scope |
| CodeGen.CodeGenerator.ActionAssign | src/codegen.py:168-174 | Emits ASSIGN(top, below top) at the pc, which moves on by one; a `None` entry is an absent operand. The two operands are replaced by the assigned value |
| CodeGen.CodeGenerator.ActionPexpr | src/codegen.py:176-178 | Drops the expression value |
| CodeGen.CodeGenerator.ActionCalc | src/codegen.py:180-189 | Emits the operator's instruction with the left and right operands into the temp; a `None` operand is absent. The pc moves on by one. Operand, operator and operand are replaced by the temp |
| CodeGen.CodeGenerator.ActionPushOperator | src/codegen.py:191-193 | Pushes the operator lexeme |
| CodeGen.CodeGenerator.ActionCall | src/codegen.py:195-215 | Pops the argument count and looks up the callee. A non-function or a wrong argument count fails with the stack, pc and program block unchanged. Otherwise `output` prints its argument (absent when it is `None`), and the callee and arguments are replaced by `None` |
| CodeGen.CodeGenerator.CodeOutput | src/codegen.py:217-219 | Emits PRINT of the top entry at the pc, which moves on by one; a `None` top is an absent operand |
| CodeGen.CodeGenerator.ActionIncarg | src/codegen.py:221-223 | Adds one to the innermost argument count |
| CodeGen.CodeGenerator.ActionPcount | src/codegen.py:225-230 | Opens a new argument count at 0 |
| CodeGen.CodeGenerator.ActionIndex | src/codegen.py:232-242 | Emits `t = index * #4` and `t = t + #base`, moves the pc on by two, and replaces index and base by `@t`; a `None` index is an absent operand |
| CodeGen.CodeGenerator.ActionSave | src/codegen.py:244-247 | Reserves the slot at the pc and pushes its index, without writing it |
| CodeGen.CodeGenerator.ActionJpfSave | src/codegen.py:249-263 | Fills the saved slot with a JPF on the condition (absent when it is `None`) to pc+1, then reserves the pc's slot in place of the condition and the old slot |
| CodeGen.CodeGenerator.ActionJp | src/codegen.py:265-275 | Fills the saved slot with a JP to the pc and pops it |
| CodeGen.CodeGenerator.ActionLabel | src/codegen.py:277-279 | Pushes the pc as a label |
| CodeGen.CodeGenerator.ActionJpf | src/codegen.py:281-298 | Emits a JPF on the condition (absent when it is `None`) back to the label below it; pops both |
| CodeGen.CodeGenerator.ActionPbp | src/codegen.py:300-306 | Pushes the temp as the innermost break point |
| CodeGen.CodeGenerator.ActionUntil | src/codegen.py:308-313 | Fills the saved slot with `break point := #pc`, and pops the break point and the slot |
| CodeGen.CodeGenerator.ActionBreak | src/codegen.py:315-318 | Emits a JP through the innermost break point at the pc |
| CodeGen.CodeGenerator.CodeGen | src/codegen.py:45-47 | Resets the conversion temp before the action. Only a call can fail. Every other action moves the stack and pc by its documented amounts, and only `func` uses a conversion temp |
| CodeGen.CodeGenerator.GenerateOutput | src/codegen.py:21-28 | The listing `i\t(OP, a, b, c)` of the slots up to the first empty one, or the not-generated notice when there are semantic errors |
| CodeGenScenarios.IfElse | src/codegen.py:249-275 | With its operands pushed as address strings, `if (a < b) x = u; else x = v;` produces exactly LT, a JPF past the then-branch, the then-ASSIGN, a JP over the else-branch and the else-ASSIGN at 0..4, with nothing after |
| CodeGenScenarios.RepeatBreakUntil | src/codegen.py:300-318 | With `c` pushed as an address string, `repeat break; until (c)` produces exactly `bp := #3`, `JP @bp` and a JPF back to slot 1 at 0..2, with nothing after |
| CodeGenScenarios.AssignUnknownIds | src/codegen.py:168-174 | `a = b;` with both identifiers unknown to the symbol table, as the stub table answers, produces exactly `(ASSIGN, , , )` at 0 with nothing after, an empty stack, and the two lookups in order |
| CodeGen.PnumAsWrittenRaises | src/codegen.py:76-79 | As written, building the number's symbol leaves `args` and three flags without a value, so `action_pnum` raises `TypeError` for every number |
| CodeGen.CallAsWrittenRaises | src/codegen.py:195-215 | As written, every path of `action_call` reads `symbol.lexeme`, which the symbol dataclass does not have, so every call raises `AttributeError` |
| CodeGenScenarios.MainCallsOutput | src/codegen.py:195-219 | With `a` pushed as an address string and the corrected call (see Findings), `void main(void) { output(a); }` produces the prologue at 0..4, keeps slot 5 reserved, and puts PRINT(a) at 6. It leaves the reserved slot and a `None` on the stack, and makes install, lookup and call requests in that order |

## Left out

- File output is not modelled. `generate_output` and `generate_errors` return the text they would write. `Logger.save_as_text` and `Logger.create_log` are only file writes.
- `code_gen` finds its handler with `getattr` on the action name. Here the handlers are an `Action` datatype dispatched by `CodeGen`, and the lookahead lexeme is a field of the actions that read it.
- The symbol table is a stub (`src/util/symbol.py:28-54`). Its calls are logged in `requests`. The symbols that `get_by_id` and `get_symbol_by_addr` return are arguments of `ActionPid` and `ActionCall`. The stub's signatures disagree with codegen's calls: `install_func`, `add_arg_to_func`, `scope_up` and `scope_down` would raise `TypeError` on the arguments codegen passes, and `get_symbol_by_addr` does not exist. The model follows the calls codegen makes.
- `get_temp` and `get_data` raise `NotImplementedError` in the source. The temp address is an argument `t` of `ActionCalc`, `ActionIndex` and `ActionPbp`.
- `src/scanner.py`, `src/cparser.py`, `src/compiler.py`, `script/prepare.js` and the rest of `src/util/types_.py` are not part of this model. The character classes W, L, D, S and SPEC are not visible, so they are parameters of the language. The model assumes only that they are pairwise disjoint, that they exclude `=`, `*`, `/` and the end-of-text mark, and that SPEC does not overlap W, L or D.
- `TokenType` as shown has no `DOLOR` member, although `dfa.py` and the logger use it. The model includes it.
- The buffer is the concrete all-in-memory buffer the tests use (`AllBuffer`, not shown). At the end of the text it reads `\x05`, as the DFA and tests expect, not `None` as the abstract docstring says. Extracting at the end of the text does not move the pointers.
- The error message text `action_call` raises is not modelled, only which error it is (`Fault`).
- The logger's error tag is stored as a string. `create_errors_string` splits it on `.`, so `TagsWellFormed` requires that each tag contains a `.`.
- Python runtime crashes that the source does not handle are preconditions, not error results. These are: a pop from an empty deque, `SymbolType[...]` with an unknown name, a `generate_address` failure on a codegen operand, a program-block index past 99, and a missing dictionary key.
- `ParseInt` models `int()` on an optional ASCII sign followed by ASCII digits. Surrounding whitespace, underscores and non-ASCII digits are not accepted.
- `Upper` upper-cases ASCII letters only.
- The members of `SymbolType` are inferred from the names codegen builds. Its definition is not part of this model.
- `Dfa.__call__` is the same as `Dfa.match` and is not modelled separately.
- An operand entry is a string or `None`, which `generate_address` turns into an absent operand. A symbol pushed by `pid` or `pnum`, or a program counter, is excluded as an operand by precondition, because `generate_address` indexes it as a string and Python raises `TypeError`.
- CodeGen.CodeGenerator.CodeGen: its ensures give only the stack and pc changes, the temp and the fault. Each action's own ensures give its exact effect.
- CodeGen.GenerateErrors: when there are semantic errors it writes nothing, as the source does. Listing the errors is a TODO in the source.
- CodeGen.CodeGenerator.ActionFuncEnd: the frame-size fill and the return sequence are TODOs in the source and are not modelled.
- Instruction.AddInstr: states only the operation and the operands fixed as absent. `GenerateInstruction` states the parsed operands.
- Instruction.MulInstr: states only the operation and the operands fixed as absent. `GenerateInstruction` states the parsed operands.
- Instruction.SubInstr: states only the operation and the operands fixed as absent. `GenerateInstruction` states the parsed operands.
- Instruction.EqInstr: states only the operation and the operands fixed as absent. `GenerateInstruction` states the parsed operands.
- Instruction.LtInstr: states only the operation and the operands fixed as absent. `GenerateInstruction` states the parsed operands.
- Instruction.AssignInstr: states only the operation and the operands fixed as absent. `GenerateInstruction` states the parsed operands.
- Instruction.JpfInstr: states only the operation and the operands fixed as absent. `GenerateInstruction` states the parsed operands.
- Instruction.JpInstr: states only the operation and the operands fixed as absent. `GenerateInstruction` states the parsed operands.
- Instruction.PrintInstr: states only the operation and the operands fixed as absent. `GenerateInstruction` states the parsed operands.
- The scenarios other than `AssignUnknownIds` push identifier operands as address strings with the lookahead-pushing action. In the source, `pid` pushes whatever the symbol table returns, which the stub makes `None`, and `generate_address` cannot take a symbol. So no source path pushes an identifier's address string.
- Dfa.TailMatch, Dfa.Match, CMinus.Language: the DFA runs the corrected `*` and comment tails, which step past the entry character first. On a `*` or `/` entry it therefore differs from the source as written: on `*a` the source leaves `forward` at 0 and the model at 1, and on `/**/` the source raises an invalid input where the model accepts a comment ending at 3. The as-written tails are modelled beside them (see Findings). CMinus.ScanAsteriskOrSlash and the comment and asterisk case lemmas are about the corrected tails too.

## Findings

| source | as written | input that shows it | evidently intended | confidence | as-written member | corrected member |
|---|---|---|---|---|---|---|
| src/util/cminus.py:6-12 | The `*` tail reads the character at `forward` without stepping. `Dfa.match` hands it the buffer still on the `*`, so it always sees `*` and never reports an unmatched comment closer | `*/` | Step past `*` first, then raise unmatched-comment on `/` with `forward` at 1, as test/test_cminus.py:83-86 expects | not executed | CMinus.UnmatchedCloserDiscrepancy | ManualTails.AsteriskMatch |
| src/codegen.py:76-79 | `SemanticSymbol` is built with `name`, `typ`, `value` and `is_constant` only; the dataclass gives no field a default, so the constructor raises `TypeError` | the literal `0` in `x = 0;` | Push a constant INT symbol holding the number; the model fills `args` with `None` and the other flags with false | not executed | CodeGen.PnumAsWrittenRaises | CodeGen.CodeGenerator.ActionPnum |
| src/codegen.py:195-215 | Both error messages and the `output` test read `symbol.lexeme`, but the dataclass field is `name`, so every call raises `AttributeError` | `output(a);` with the `output` symbol | Test and report the callee by its `name`, as the model does | not executed | CodeGen.CallAsWrittenRaises | CodeGen.CodeGenerator.ActionCall |
| src/util/cminus.py:31-37 | The comment tail requires `*` at `forward`. `Dfa.match` hands it the buffer still on the `/`, so every comment is rejected as an invalid input | `/**/` | Step past `/` first, then require `*` and scan to the closer, as test/test_cminus.py:107-111 expects | not executed | CMinus.EmptyCommentDiscrepancy | ManualTails.CommentMatch |

The `Dfa` class docstring (src/util/dfa.py:13-16) says the DFA steps the buffer before calling the tail, but its `match` does not step. The table-driven tails step at the top of their loop, so they work either way. The two hand-written tails do not.

- The as-written tails are `ManualTails.AsteriskAsWritten` and `ManualTails.CommentMatchAsWritten`. `CMinus.AsteriskAsWrittenNeverUnmatched` and `CMinus.CommentAsWrittenAlwaysRejects` prove the discrepancy for every input.
- The DFA uses the corrected tails. `CMinus.AsteriskCases`, `CMinus.CommentScan` and the comment case lemmas prove the intended behaviour.
