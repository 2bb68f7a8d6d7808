/**
 * Short action sequences run on a fresh code generator for four statement
 * shapes, with the program block each leaves. An identifier operand is pushed
 * by the lookahead-pushing action as an address string (`500`, `@500`,
 * `#500`): this stands in for the address `pid` is documented to push, which
 * the table stub never supplies (`AssignUnknownIds` shows what it does
 * supply). The call in `MainCallsOutput` is the corrected one, which reads
 * the callee's `name`.
 */
module CodeGenScenarios {
  import opened Wrappers
  import opened Decimal
  import opened Instruction
  import opened Symbol
  import opened CodeGen

  /** The absent slots of a program block from `k` on. */
  predicate EmptyFrom(code: seq<Option<Instruction>>, k: nat)
  {
    forall j :: k <= j < |code| ==> code[j].None?
  }

  /** What an operand string stands for. */
  function Operand(s: string): Address
    requires IsOperandString(s)
  {
    GenerateAddress(Some(s)).value
  }

  /**
   * `if (a < b) x = u; else x = v;` for any operand strings, with the
   * comparison into temp `t`: the comparison, a JPF past the then-branch into
   * the slot saved after it, the then-branch, a JP over the else-branch into
   * the slot `jpf_save` reserved, and the else-branch.
   */
  method IfElse(a: string, b: string, x: string, u: string, v: string, t: int) returns (code: seq<Option<Instruction>>, pc: nat)
    requires IsOperandString(a) && IsOperandString(b) && IsOperandString(x)
    requires IsOperandString(u) && IsOperandString(v)
    ensures |code| == ProgramSize && pc == 5
    ensures code[0] == Some(Instruction(LT, Operand(a), Operand(b), Address(ADDRESS, t)))
    ensures code[1] == Some(Instruction(JPF, Address(ADDRESS, t), Address(ADDRESS, 4), NoAddress))
    ensures code[2] == Some(Instruction(ASSIGN, Operand(u), Operand(x), NoAddress))
    ensures code[3] == Some(Instruction(JP, Address(ADDRESS, 5), NoAddress, NoAddress))
    ensures code[4] == Some(Instruction(ASSIGN, Operand(v), Operand(x), NoAddress))
    ensures EmptyFrom(code, 5)
  {
    var g := new CodeGenerator();
    IfThen(g, a, b, x, u, t);
    Else(g, x, v, t);
    code, pc := g.pb[..], g.i;
  }

  /** The condition and the then-branch: the condition's slot is saved but not yet written. */
  method IfThen(g: CodeGenerator, a: string, b: string, x: string, u: string, t: int)
    requires g.Valid() && g.ss == [] && g.i == 0
    requires IsOperandString(a) && IsOperandString(b) && IsOperandString(x) && IsOperandString(u)
    modifies g`ss, g`i, g.pb
    ensures g.ss == [Lexeme(IntToString(t)), Num(1)] && g.i == 3
    ensures g.pb[..] == old(g.pb[..])[0 := Some(Instruction(LT, Operand(a), Operand(b), Address(ADDRESS, t)))]
                                      [2 := Some(Instruction(ASSIGN, Operand(u), Operand(x), NoAddress))]
  {
    Condition(g, a, b, t);
    Then(g, x, u, t);
  }

  /** `a < b` into temp `t`, then the slot saved for the JPF. */
  method Condition(g: CodeGenerator, a: string, b: string, t: int)
    requires g.Valid() && g.ss == [] && g.i == 0
    requires IsOperandString(a) && IsOperandString(b)
    modifies g`ss, g`i, g.pb
    ensures g.ss == [Lexeme(IntToString(t)), Num(1)] && g.i == 2
    ensures g.pb[..] == old(g.pb[..])[0 := Some(Instruction(LT, Operand(a), Operand(b), Address(ADDRESS, t)))]
  {
    PrintedOperands(t);
    g.ActionPushOperator(a);
    g.ActionPushOperator("<");
    g.ActionPushOperator(b);
    g.ActionCalc(t);
    g.ActionSave();
  }

  /** The then-branch `x = u;`, with the saved slot left on the stack. */
  method Then(g: CodeGenerator, x: string, u: string, t: int)
    requires g.Valid() && g.ss == [Lexeme(IntToString(t)), Num(1)] && g.i == 2
    requires IsOperandString(x) && IsOperandString(u)
    modifies g`ss, g`i, g.pb
    ensures g.ss == [Lexeme(IntToString(t)), Num(1)] && g.i == 3
    ensures g.pb[..] == old(g.pb[..])[2 := Some(Instruction(ASSIGN, Operand(u), Operand(x), NoAddress))]
  {
    g.ActionPushOperator(x);
    g.ActionPushOperator(u);
    g.ActionAssign();
    g.ActionPexpr();
  }

  /** The jump over the then-branch's end, the else-branch, and the jump that closes it. */
  method Else(g: CodeGenerator, x: string, v: string, t: int)
    requires g.Valid() && g.ss == [Lexeme(IntToString(t)), Num(1)] && g.i == 3
    requires IsOperandString(x) && IsOperandString(v)
    modifies g`ss, g`i, g.pb
    ensures g.ss == [] && g.i == 5
    ensures g.pb[..] == old(g.pb[..])[1 := Some(Instruction(JPF, Address(ADDRESS, t), Address(ADDRESS, 4), NoAddress))]
                                      [4 := Some(Instruction(ASSIGN, Operand(v), Operand(x), NoAddress))]
                                      [3 := Some(Instruction(JP, Address(ADDRESS, 5), NoAddress, NoAddress))]
  {
    PrintedOperands(t);
    g.ActionJpfSave();
    g.ActionPushOperator(x);
    g.ActionPushOperator(v);
    g.ActionAssign();
    g.ActionPexpr();
    g.ActionJp();
  }

  /**
   * `repeat break; until (c)` for any operand string `c`, with break point
   * temp `bp`: the saved slot becomes `bp := #exit`, the break jumps through
   * `bp`, and the JPF goes back to the label.
   */
  method RepeatBreakUntil(c: string, bp: int) returns (code: seq<Option<Instruction>>, pc: nat)
    requires IsOperandString(c)
    ensures |code| == ProgramSize && pc == 3
    ensures code[0] == Some(Instruction(ASSIGN, Address(IMMEDIATE, 3), Address(ADDRESS, bp), NoAddress))
    ensures code[1] == Some(Instruction(JP, Address(INDIRECT, bp), NoAddress, NoAddress))
    ensures code[2] == Some(Instruction(JPF, Operand(c), Address(ADDRESS, 1), NoAddress))
    ensures EmptyFrom(code, 3)
  {
    PrintedOperands(1);
    var g := new CodeGenerator();
    g.ActionPbp(bp);
    g.ActionSave();
    g.ActionLabel();
    g.ActionBreak();
    g.ActionPushOperator(c);
    assert Str(g.Peek(1)) == IntToString(1);
    g.ActionJpf();
    g.ActionUntil();
    code, pc := g.pb[..], g.i;
  }

  /**
   * `a = b;` when the symbol table knows neither identifier, as the stub table
   * answers every lookup: both lookups push `None`, so the assignment is
   * emitted with absent operands.
   */
  method AssignUnknownIds(a: string, b: string) returns (code: seq<Option<Instruction>>, pc: nat, stack: seq<SemVal>, installed: seq<TableRequest>)
    ensures |code| == ProgramSize && pc == 1 && stack == []
    ensures code[0] == Some(Instruction(ASSIGN, NoAddress, NoAddress, NoAddress))
    ensures EmptyFrom(code, 1)
    ensures installed == [GetById(a), GetById(b)]
  {
    var g := new CodeGenerator();
    g.ActionPid(a, None);
    g.ActionPid(b, None);
    g.ActionAssign();
    g.ActionPexpr();
    code, pc, stack, installed := g.pb[..], g.i, g.ss, g.requests;
  }

  /** The `output` function as the symbol table would report it: one `int` argument. */
  const OutputSymbol := SemanticSymbol(Some("output"), VOID, 0, Some([INT]), true, true, false, false)

  /**
   * `void main(void) { output(a); }` for any operand string `a`: the prologue
   * at 0..4 with conversion temp 208, slot 5 left for the frame size, and the
   * PRINT of the argument at 6; the call leaves a placeholder above the saved
   * slot, and the symbol table saw the install, the lookup and the call.
   */
  method MainCallsOutput(a: string) returns (code: seq<Option<Instruction>>, pc: nat, stack: seq<SemVal>, installed: seq<TableRequest>)
    requires IsOperandString(a)
    ensures |code| == ProgramSize && pc == 7
    ensures code[..5] == [Some(Prologue(TempBase)[0]), Some(Prologue(TempBase)[1]), Some(Prologue(TempBase)[2]), Some(Prologue(TempBase)[3]), Some(Prologue(TempBase)[4])]
    ensures code[5].None?
    ensures code[6] == Some(Instruction(PRINT, Operand(a), NoAddress, NoAddress))
    ensures EmptyFrom(code, 7)
    ensures stack == [Num(5), Nothing]
    ensures installed == [InstallFunc(Lexeme("main"), VOID, 0), GetById("output"), GetSymbolByAddr(Sym(OutputSymbol))]
  {
    var g := new CodeGenerator();
    FunctionHeader(g);
    CallOutput(g, a);
    code, pc, stack, installed := g.pb[..], g.i, g.ss, g.requests;
  }

  /** `void main`: type and name pushed, then the function installed at 0 with its prologue. */
  method FunctionHeader(g: CodeGenerator)
    requires g.Valid() && g.ss == [] && g.i == 0 && g.requests == [] && g.temp == TempBase
    modifies g`ss, g`i, g`requests, g`temp, g.pb
    ensures g.ss == [Num(5)] && g.i == 6 && g.requests == [InstallFunc(Lexeme("main"), VOID, 0)]
    ensures g.pb[..] == old(g.pb[..])[0 := Some(Prologue(TempBase)[0])][1 := Some(Prologue(TempBase)[1])][2 := Some(Prologue(TempBase)[2])]
                                      [3 := Some(Prologue(TempBase)[3])][4 := Some(Prologue(TempBase)[4])]
  {
    KeywordTypes();
    g.ActionPtype("void");
    g.ActionPname("main");
    assert g.ss == [Lexeme("void"), Lexeme("main")];
    assert "" + Upper("void") == Upper("void");
    g.ActionFunc();
  }

  /** `output(a)`, with the corrected call: the callee looked up, a count opened and bumped for the argument, and the call. */
  method CallOutput(g: CodeGenerator, a: string)
    requires g.Valid() && g.ss == [Num(5)] && g.i == 6 && g.argCount == []
    requires IsOperandString(a)
    modifies g`ss, g`i, g`requests, g`argCount, g.pb
    ensures g.ss == [Num(5), Nothing] && g.i == 7 && g.argCount == []
    ensures g.requests == old(g.requests) + [GetById("output"), GetSymbolByAddr(Sym(OutputSymbol))]
    ensures g.pb[..] == old(g.pb[..])[6 := Some(Instruction(PRINT, Operand(a), NoAddress, NoAddress))]
  {
    g.ActionPid("output", Some(OutputSymbol));
    g.ActionPcount();
    g.ActionPushOperator(a);
    g.ActionIncarg();
    assert g.ss == [Num(5), Sym(OutputSymbol), Lexeme(a)] && g.argCount == [1];
    var fault := g.ActionCall(OutputSymbol);
    assert fault.None?;
  }
}
