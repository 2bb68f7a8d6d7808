/**
 * The one-pass code generator: semantic actions fired by the parser push and
 * pop a semantic stack, write three-address instructions into a fixed program
 * block of 100 slots, reserve slots and backpatch them later.
 *
 * The symbol table is a collaborator this model does not contain: every call
 * the generator makes on it is appended to `requests`, and what its queries
 * answer is an argument of the action that asks. The temporary-address
 * allocator `get_temp` is not implemented in the source either; the address
 * it would return is an argument (`t`) of the actions that call it.
 */
module CodeGen {
  import opened Wrappers
  import opened Decimal
  import opened Instruction
  import opened Symbol

  /** The number of instruction slots in the program block. */
  const ProgramSize: nat := 100
  /** Runtime addresses of the frame pointer and the stack pointer. */
  const CF: int := 200
  const SP: int := 204
  /** The first conversion temp; every action starts handing them out from here. */
  const TempBase: int := 208

  /** A semantic-stack entry: a string (lexeme or operand), a program counter, a symbol, or Python's `None`. */
  datatype SemVal = Lexeme(text: string) | Num(n: int) | Sym(symbol: SemanticSymbol) | Nothing

  /** `str(v)` of a string or an integer. */
  function Str(v: SemVal): string
    requires v.Lexeme? || v.Num?
  {
    if v.Lexeme? then v.text else IntToString(v.n)
  }

  /**
   * A stack entry `generate_address` accepts: `None` (a call's value, or an
   * identifier the symbol table did not find), which gives an absent operand,
   * or a string of one of the operand forms.
   */
  predicate IsOperand(v: SemVal)
  {
    v.Nothing? || (v.Lexeme? && IsOperandString(v.text))
  }

  /** What an operand entry hands to `generate_address`: `None` as it is, a string as its text. */
  function OperandArg(v: SemVal): Option<string>
    requires IsOperand(v)
  {
    if v.Nothing? then None else Some(v.text)
  }

  function AddressOf(v: SemVal): Address
    requires IsOperand(v)
  {
    GenerateAddress(OperandArg(v)).value
  }

  /** A stack entry naming a symbol type once upper-cased and prefixed, as `SymbolType[prefix + v.upper()]` needs. */
  predicate NamesType(prefix: string, v: SemVal)
  {
    v.Lexeme? && SymbolTypeNamed(prefix + Upper(v.text)).Some?
  }

  function TypeOf(prefix: string, v: SemVal): SymbolType
    requires NamesType(prefix, v)
  {
    SymbolTypeNamed(prefix + Upper(v.text)).value
  }

  /** The calls the generator makes on the symbol table, in the order it makes them. */
  datatype TableRequest =
    | InstallVariable(name: SemVal, typ: SymbolType)
    | InstallFunc(name: SemVal, typ: SymbolType, pc: int)
    | InstallArray(name: SemVal, typ: SymbolType, size: int)
    | AddArgToFunc(name: SemVal, typ: SymbolType)
    | EndFunc
    | OpenScope
    | CloseScope
    | GetById(lexeme: string)
    | GetSymbolByAddr(addr: SemVal)

  /** The errors `action_call` raises. */
  datatype Fault = NotAFunction | ArgumentCountMismatch

  // ---- two actions as written, which always raise ----

  /** The Python exceptions the as-written actions raise. */
  datatype PyException = TypeError | AttributeError | ValueError

  /** Constructing a dataclass with the named arguments `given`: a field with no default left out raises `TypeError`. */
  function DataclassInit(fields: seq<string>, given: seq<string>): Option<PyException>
  {
    if exists k :: 0 <= k < |fields| && fields[k] !in given then Some(TypeError) else None
  }

  /** The arguments `action_pnum` gives `SemanticSymbol`: three positionally and `is_constant` by keyword. */
  const PnumArguments: seq<string> := ["name", "typ", "value", "is_constant"]

  /** As written, `action_pnum` raises before it pushes anything, whatever the number: `args` has no value. */
  lemma PnumAsWrittenRaises()
    ensures DataclassInit(SymbolFields, PnumArguments) == Some(TypeError)
  {
    assert SymbolFields[3] == "args" && "args" !in PnumArguments;
  }

  /**
   * `action_call` as written, for the callee symbol and the argument count:
   * the exception it raises, if any. The not-a-function message, the
   * argument-count message and the `output` test each read `symbol.lexeme`
   * first, which exists only if the dataclass has such a field.
   */
  function CallAsWritten(callee: SemanticSymbol, numArg: nat): Option<PyException>
  {
    var hasLexeme := "lexeme" in SymbolFields;
    if callee.args.None? then Some(if hasLexeme then ValueError else AttributeError)
    else if |callee.args.value| != numArg then Some(if hasLexeme then TypeError else AttributeError)
    else if hasLexeme then None
    else Some(AttributeError)
  }

  /** As written, every call raises `AttributeError`, `output(a)` included. */
  lemma CallAsWrittenRaises(callee: SemanticSymbol, numArg: nat)
    ensures CallAsWritten(callee, numArg) == Some(AttributeError)
  {
    assert "lexeme" !in SymbolFields by {
      forall k | 0 <= k < |SymbolFields| ensures SymbolFields[k] != "lexeme" {
      }
    }
  }

  /**
   * The function prologue at conversion temp `ct`: store the caller's SP at
   * SP + 8 and its CF just after, then make SP the new frame pointer.
   */
  function Prologue(ct: int): (p: seq<Instruction>)
    ensures |p| == 5
  {
    [Instruction(ADD, Address(IMMEDIATE, 8), Address(ADDRESS, SP), Address(ADDRESS, ct)),
     Instruction(ASSIGN, Address(ADDRESS, SP), Address(INDIRECT, ct), NoAddress),
     Instruction(ADD, Address(IMMEDIATE, 4), Address(ADDRESS, ct), Address(ADDRESS, ct)),
     Instruction(ASSIGN, Address(ADDRESS, CF), Address(INDIRECT, ct), NoAddress),
     Instruction(ASSIGN, Address(ADDRESS, SP), Address(ADDRESS, CF), NoAddress)]
  }

  /** The prologue's operand strings, as `action_func` formats them, build exactly `Prologue(ct)`. */
  lemma PrologueOperands(ct: int)
    ensures AddInstr(Some("#8"), Some(IntToString(SP)), Some(IntToString(ct))) == Success(Prologue(ct)[0])
    ensures AssignInstr(Some(IntToString(SP)), Some("@" + IntToString(ct))) == Success(Prologue(ct)[1])
    ensures AddInstr(Some("#4"), Some(IntToString(ct)), Some(IntToString(ct))) == Success(Prologue(ct)[2])
    ensures AssignInstr(Some(IntToString(CF)), Some("@" + IntToString(ct))) == Success(Prologue(ct)[3])
    ensures AssignInstr(Some(IntToString(SP)), Some(IntToString(CF))) == Success(Prologue(ct)[4])
  {
    PrintedOperands(8);
    PrintedOperands(4);
    PrintedOperands(SP);
    PrintedOperands(CF);
    PrintedOperands(ct);
    assert "#8" == "#" + IntToString(8) && "#4" == "#" + IntToString(4);
  }

  /** The actions the parser can fire, with what each reads of the lookahead or of a collaborator. */
  datatype Action =
    | Ptype(lexeme: string)
    | Pname(lexeme: string)
    | Pid(lexeme: string, found: Option<SemanticSymbol>)
    | Pnum(lexeme: string)
    | Var
    | Func
    | FuncEnd
    | Arr
    | ParPtr
    | ParVar
    | ScopeUp
    | ScopeDown
    | Assign
    | Pexpr
    | Calc(t: int)
    | PushOperator(lexeme: string)
    | Call(callee: SemanticSymbol)
    | Incarg
    | Pcount
    | Index(t: int)
    | Save
    | JpfSave
    | Jp
    | Label
    | Jpf
    | Pbp(t: int)
    | Until
    | Break

  /** How many semantic-stack entries an action (other than a call) removes and adds, as each action documents. */
  function StackEffect(a: Action): (nat, nat)
    requires !a.Call?
  {
    match a
    case Ptype(_) => (0, 1)
    case Pname(_) => (0, 1)
    case Pid(_, _) => (0, 1)
    case Pnum(_) => (0, 1)
    case Var => (2, 0)
    case Func => (2, 1)
    case FuncEnd => (0, 0)
    case Arr => (3, 0)
    case ParPtr => (2, 0)
    case ParVar => (2, 0)
    case ScopeUp => (0, 0)
    case ScopeDown => (0, 0)
    case Assign => (2, 1)
    case Pexpr => (1, 0)
    case Calc(_) => (3, 1)
    case PushOperator(_) => (0, 1)
    case Incarg => (0, 0)
    case Pcount => (0, 0)
    case Index(_) => (2, 1)
    case Save => (0, 1)
    case JpfSave => (2, 1)
    case Jp => (1, 0)
    case Label => (0, 1)
    case Jpf => (2, 0)
    case Pbp(_) => (0, 0)
    case Until => (1, 0)
    case Break => (0, 0)
  }

  /** How far an action (other than a call) moves the program counter: one per instruction emitted or slot reserved, six for a prologue. */
  function PcAdvance(a: Action): nat
    requires !a.Call?
  {
    match a
    case Func => 6
    case Assign => 1
    case Calc(_) => 1
    case Index(_) => 2
    case Save => 1
    case JpfSave => 1
    case Jpf => 1
    case Break => 1
    case _ => 0
  }

  // ---- the listing ----

  /** The lines `line(k, ins)` of the filled slots from `k` on, up to the first empty slot. */
  function Lines<T>(line: (nat, T) -> string, pb: seq<Option<T>>, k: nat): string
    decreases |pb| - k
  {
    if k >= |pb| || pb[k].None? then ""
    else line(k, pb[k].value) + Lines(line, pb, k + 1)
  }

  /** One line of the listing: the index, a tab and the instruction. */
  function ListingLine(k: nat, ins: Instruction): string
  {
    IntToString(k) + "\t" + InstructionString(ins) + "\n"
  }

  /** The listing from slot `k`: one `k\t(OP, a, b, c)` line per instruction, up to the first empty slot. */
  function Listing(pb: seq<Option<Instruction>>, k: nat): string
  {
    Lines(ListingLine, pb, k)
  }

  /** Nothing after the first empty slot is listed: program blocks that agree up to it list the same. */
  lemma {:induction false} ListingStopsAtGap<T>(line: (nat, T) -> string, pb: seq<Option<T>>, pb': seq<Option<T>>, k: nat, g: nat)
    requires k <= g < |pb| && g < |pb'| && pb[g].None?
    requires pb[..g + 1] == pb'[..g + 1]
    ensures Lines(line, pb, k) == Lines(line, pb', k)
    decreases g - k
  {
    assert pb[k] == pb[..g + 1][k] && pb'[k] == pb'[..g + 1][k];
    if k < g {
      ListingStopsAtGap(line, pb, pb', k + 1, g);
    }
  }

  /**
   * Emitting at the first empty slot, when the slot after it is empty too,
   * adds exactly one line at the end of the listing.
   */
  lemma {:induction false} ListingEmit<T>(line: (nat, T) -> string, pb: seq<Option<T>>, j: nat, k: nat, ins: T)
    requires j <= k < |pb| && pb[k].None? && (k + 1 < |pb| ==> pb[k + 1].None?)
    requires forall m :: j <= m < k ==> pb[m].Some?
    ensures Lines(line, pb[k := Some(ins)], j) == Lines(line, pb, j) + line(k, ins)
    decreases k - j
  {
    var pb' := pb[k := Some(ins)];
    if j == k {
      assert Lines(line, pb', k + 1) == "";
    } else {
      ListingEmit(line, pb, j + 1, k, ins);
      var x, y, z := line(j, pb[j].value), Lines(line, pb, j + 1), line(k, ins);
      assert x + (y + z) == (x + y) + z;
    }
  }

  /** What `generate_output` writes: the listing, or a notice when there were semantic errors. */
  function Output(pb: seq<Option<Instruction>>, semanticErrors: seq<string>): string
  {
    if |semanticErrors| == 0 then Listing(pb, 0) else "The output code has not been generated."
  }

  /** What `generate_errors` writes; the listing of the errors themselves is not written by the source. */
  function GenerateErrors(semanticErrors: seq<string>): (r: string)
    ensures r != "" <==> |semanticErrors| == 0
  {
    if |semanticErrors| == 0 then "The input program is semantically correct.\n" else ""
  }

  class CodeGenerator {
    const pb: array<Option<Instruction>>
    var i: nat
    var ss: seq<SemVal>
    var argCount: seq<nat>
    var breakStack: seq<int>
    var semanticErrors: seq<string>
    var temp: int
    var requests: seq<TableRequest>

    ghost predicate Valid()
      reads this
    {
      pb.Length == ProgramSize
    }

    constructor()
      ensures Valid() && fresh(pb)
      ensures forall k :: 0 <= k < pb.Length ==> pb[k].None?
      ensures i == 0 && ss == [] && argCount == [] && breakStack == []
      ensures semanticErrors == [] && temp == TempBase && requests == []
    {
      pb := new Option<Instruction>[ProgramSize](_ => None);
      i := 0;
      ss := [];
      argCount := [];
      breakStack := [];
      semanticErrors := [];
      temp := TempBase;
      requests := [];
    }

    /** `ss[TOP - k]`: the entry `k` below the top. */
    function Peek(k: nat): SemVal
      reads this
      requires k < |ss|
    {
      ss[|ss| - 1 - k]
    }

    predicate OperandAt(k: nat)
      reads this
    {
      k < |ss| && IsOperand(Peek(k))
    }

    /** The entry `k` below the top is a reserved program-block slot. */
    predicate SlotAt(k: nat)
      reads this
    {
      k < |ss| && Peek(k).Num? && 0 <= Peek(k).n < ProgramSize
    }

    predicate NamesTypeAt(prefix: string, k: nat)
      reads this
    {
      k < |ss| && NamesType(prefix, Peek(k))
    }

    /** `n` more instructions fit in the program block from the program counter on. */
    predicate Room(n: nat)
      reads this
    {
      i + n <= ProgramSize
    }

    method Pop(n: nat)
      requires n <= |ss|
      modifies this`ss
      ensures ss == old(ss)[..|old(ss)| - n]
    {
      for k := 0 to n
        invariant ss == old(ss)[..|old(ss)| - k]
      {
        ss := ss[..|ss| - 1];
      }
    }

    method Push(x: SemVal)
      modifies this`ss
      ensures ss == old(ss) + [x]
    {
      ss := ss + [x];
    }

    method GetConversionTemp() returns (addr: int)
      modifies this`temp
      ensures addr == old(temp) && temp == old(temp) + 4
    {
      addr := temp;
      temp := temp + 4;
    }

    method ActionPtype(lexeme: string)
      modifies this`ss
      ensures ss == old(ss) + [Lexeme(lexeme)]
    {
      Push(Lexeme(lexeme));
    }

    method ActionPname(lexeme: string)
      modifies this`ss
      ensures ss == old(ss) + [Lexeme(lexeme)]
    {
      Push(Lexeme(lexeme));
    }

    /** Pushes what the symbol table answers for the identifier; `None` when it knows none. */
    method ActionPid(lexeme: string, found: Option<SemanticSymbol>)
      modifies this`ss, this`requests
      ensures requests == old(requests) + [GetById(lexeme)]
      ensures ss == old(ss) + [if found.Some? then Sym(found.value) else Nothing]
    {
      requests := requests + [GetById(lexeme)];
      Push(if found.Some? then Sym(found.value) else Nothing);
    }

    /** Pushes a constant integer symbol holding the number's value. */
    method ActionPnum(lexeme: string)
      requires ParseInt(lexeme).Some?
      modifies this`ss
      ensures ss == old(ss) + [Sym(SemanticSymbol(None, INT, ParseInt(lexeme).value, None, false, false, true, false))]
    {
      Push(Sym(SemanticSymbol(None, INT, ParseInt(lexeme).value, None, false, false, true, false)));
    }

    /** Installs a variable: the type below the name, both popped. */
    method ActionVar()
      requires NamesTypeAt("", 1)
      modifies this`ss, this`requests
      ensures requests == old(requests) + [InstallVariable(old(Peek(0)), TypeOf("", old(Peek(1))))]
      ensures ss == old(ss)[..|old(ss)| - 2]
    {
      var symbolType := TypeOf("", Peek(1));
      requests := requests + [InstallVariable(Peek(0), symbolType)];
      Pop(2);
    }

    /**
     * Installs a function at the current program counter, pops its type and
     * name, writes the five-instruction prologue, leaves the next slot empty
     * for the frame size and pushes that slot's index.
     */
    method ActionFunc()
      requires Valid() && NamesTypeAt("", 1) && Room(5)
      modifies this`ss, this`requests, this`temp, this`i, pb
      ensures requests == old(requests) + [InstallFunc(old(Peek(0)), TypeOf("", old(Peek(1))), old(i))]
      ensures var p := Prologue(old(temp));
        pb[..] == old(pb[..])[old(i) := Some(p[0])][old(i) + 1 := Some(p[1])][old(i) + 2 := Some(p[2])]
                             [old(i) + 3 := Some(p[3])][old(i) + 4 := Some(p[4])]
      ensures ss == old(ss)[..|old(ss)| - 2] + [Num(old(i) + 5)]
      ensures i == old(i) + 6 && temp == old(temp) + 4
    {
      var symbolType := TypeOf("", Peek(1));
      requests := requests + [InstallFunc(Peek(0), symbolType, i)];
      Pop(2);
      var ct := GetConversionTemp();
      WritePrologue(ct);
      Push(Num(i + 5));
      i := i + 6;
    }

    /** The five prologue writes of `action_func`, at `i` through `i + 4`. */
    method WritePrologue(ct: int)
      requires Valid() && Room(5)
      modifies pb
      ensures var p := Prologue(ct);
        pb[..] == old(pb[..])[i := Some(p[0])][i + 1 := Some(p[1])][i + 2 := Some(p[2])]
                             [i + 3 := Some(p[3])][i + 4 := Some(p[4])]
    {
      PrologueOperands(ct);
      pb[i] := Some(AddInstr(Some("#8"), Some(IntToString(SP)), Some(IntToString(ct))).value);
      pb[i + 1] := Some(AssignInstr(Some(IntToString(SP)), Some("@" + IntToString(ct))).value);
      pb[i + 2] := Some(AddInstr(Some("#4"), Some(IntToString(ct)), Some(IntToString(ct))).value);
      pb[i + 3] := Some(AssignInstr(Some(IntToString(CF)), Some("@" + IntToString(ct))).value);
      pb[i + 4] := Some(AssignInstr(Some(IntToString(SP)), Some(IntToString(CF))).value);
    }

    method ActionFuncEnd()
      modifies this`requests
      ensures requests == old(requests) + [EndFunc]
    {
      requests := requests + [EndFunc];
    }

    /** Installs an array: the element type, the name and the size symbol, top last, all three popped. */
    method ActionArr()
      requires NamesTypeAt("ARRAY_", 2) && Peek(0).Sym?
      modifies this`ss, this`requests
      ensures requests == old(requests) + [InstallArray(old(Peek(1)), TypeOf("ARRAY_", old(Peek(2))), old(Peek(0)).symbol.value)]
      ensures ss == old(ss)[..|old(ss)| - 3]
    {
      var size := Peek(0).symbol.value;
      var symbolType := TypeOf("ARRAY_", Peek(2));
      requests := requests + [InstallArray(Peek(1), symbolType, size)];
      Pop(3);
    }

    method ActionParPtr()
      requires NamesTypeAt("POINTER_", 1)
      modifies this`ss, this`requests
      ensures requests == old(requests) + [AddArgToFunc(old(Peek(0)), TypeOf("POINTER_", old(Peek(1))))]
      ensures ss == old(ss)[..|old(ss)| - 2]
    {
      var symbolType := TypeOf("POINTER_", Peek(1));
      requests := requests + [AddArgToFunc(Peek(0), symbolType)];
      Pop(2);
    }

    method ActionParVar()
      requires NamesTypeAt("", 1)
      modifies this`ss, this`requests
      ensures requests == old(requests) + [AddArgToFunc(old(Peek(0)), TypeOf("", old(Peek(1))))]
      ensures ss == old(ss)[..|old(ss)| - 2]
    {
      var symbolType := TypeOf("", Peek(1));
      requests := requests + [AddArgToFunc(Peek(0), symbolType)];
      Pop(2);
    }

    method ActionScopeUp()
      modifies this`requests
      ensures requests == old(requests) + [OpenScope]
    {
      requests := requests + [OpenScope];
    }

    method ActionScopeDown()
      modifies this`requests
      ensures requests == old(requests) + [CloseScope]
    {
      requests := requests + [CloseScope];
    }

    /** Emits ASSIGN(top, below top); the assigned value replaces both, as the value of the assignment. */
    method ActionAssign()
      requires Valid() && OperandAt(0) && OperandAt(1) && Room(1)
      modifies this`ss, this`i, pb
      ensures pb[..] == old(pb[..])[old(i) := Some(Instruction(ASSIGN, AddressOf(old(Peek(0))), AddressOf(old(Peek(1))), NoAddress))]
      ensures i == old(i) + 1
      ensures ss == old(ss)[..|old(ss)| - 2] + [old(Peek(0))]
    {
      var val := Peek(0);
      pb[i] := Some(AssignInstr(OperandArg(val), OperandArg(Peek(1))).value);
      i := i + 1;
      Pop(2);
      Push(val);
    }

    method ActionPexpr()
      requires |ss| >= 1
      modifies this`ss
      ensures ss == old(ss)[..|old(ss)| - 1]
    {
      Pop(1);
    }

    /** Emits `left op right` into temp `t`, replacing operand, operator and operand by `t`. */
    method ActionCalc(t: int)
      requires Valid() && OperandAt(0) && OperandAt(2) && Room(1)
      requires Peek(1).Lexeme? && Peek(1).text in Operation
      modifies this`ss, this`i, pb
      ensures pb[..] == old(pb[..])[old(i) := Some(Instruction(Operation[old(Peek(1)).text], AddressOf(old(Peek(2))), AddressOf(old(Peek(0))), Address(ADDRESS, t)))]
      ensures i == old(i) + 1
      ensures ss == old(ss)[..|old(ss)| - 3] + [Lexeme(IntToString(t))]
    {
      PrintedOperands(t);
      pb[i] := Some(OperationInstr(Peek(1).text, OperandArg(Peek(2)), OperandArg(Peek(0)), Some(IntToString(t))).value);
      i := i + 1;
      Pop(3);
      Push(Lexeme(IntToString(t)));
    }

    /** `action_pop`: pushes the operator lexeme. */
    method ActionPushOperator(lexeme: string)
      modifies this`ss
      ensures ss == old(ss) + [Lexeme(lexeme)]
    {
      Push(Lexeme(lexeme));
    }

    predicate CallEnabled(callee: SemanticSymbol)
      reads this
    {
      && |argCount| > 0
      && argCount[|argCount| - 1] < |ss|
      && (callee.args.Some? && |callee.args.value| == argCount[|argCount| - 1] && callee.name == Some("output") ==>
            OperandAt(0) && Room(1))
    }

    /**
     * Ends a call: pops the argument count, looks up the callee below the
     * arguments, and fails if it is not a function or takes another number of
     * arguments. Otherwise a call to `output` prints its argument, and callee
     * and arguments are replaced by one placeholder.
     */
    method ActionCall(callee: SemanticSymbol) returns (fault: Option<Fault>)
      requires Valid() && CallEnabled(callee)
      modifies this`argCount, this`requests, this`ss, this`i, pb
      ensures argCount == old(argCount)[..|old(argCount)| - 1]
      ensures requests == old(requests) + [GetSymbolByAddr(old(Peek(argCount[|argCount| - 1])))]
      ensures var n := old(argCount[|argCount| - 1]);
        if callee.args.None? || |callee.args.value| != n then
          && fault == Some(if callee.args.None? then NotAFunction else ArgumentCountMismatch)
          && ss == old(ss) && i == old(i) && pb[..] == old(pb[..])
        else
          && fault == None
          && ss == old(ss)[..|old(ss)| - (n + 1)] + [Nothing]
          && if callee.name == Some("output") then
               i == old(i) + 1 && pb[..] == old(pb[..])[old(i) := Some(Instruction(PRINT, AddressOf(old(Peek(0))), NoAddress, NoAddress))]
             else
               i == old(i) && pb[..] == old(pb[..])
    {
      var numArg := argCount[|argCount| - 1];
      argCount := argCount[..|argCount| - 1];
      requests := requests + [GetSymbolByAddr(Peek(numArg))];
      if callee.args == None {
        return Some(NotAFunction);
      }
      if |callee.args.value| != numArg {
        return Some(ArgumentCountMismatch);
      }
      if callee.name == Some("output") {
        CodeOutput();
      }
      Pop(numArg + 1);
      Push(Nothing);
      fault := None;
    }

    /** Emits PRINT of the top of the stack. */
    method CodeOutput()
      requires Valid() && OperandAt(0) && Room(1)
      modifies this`i, pb
      ensures pb[..] == old(pb[..])[old(i) := Some(Instruction(PRINT, AddressOf(Peek(0)), NoAddress, NoAddress))]
      ensures i == old(i) + 1
    {
      pb[i] := Some(PrintInstr(OperandArg(Peek(0))).value);
      i := i + 1;
    }

    method ActionIncarg()
      requires |argCount| > 0
      modifies this`argCount
      ensures argCount == old(argCount)[..|old(argCount)| - 1] + [old(argCount[|argCount| - 1]) + 1]
    {
      argCount := argCount[|argCount| - 1 := argCount[|argCount| - 1] + 1];
    }

    method ActionPcount()
      modifies this`argCount
      ensures argCount == old(argCount) + [0]
    {
      argCount := argCount + [0];
    }

    /** An array base below the index: `"#" + str(base)` must be an immediate operand. */
    predicate IndexBaseAt(k: nat)
      reads this
    {
      k < |ss| && (Peek(k).Lexeme? || Peek(k).Num?) && IsOperandString("#" + Str(Peek(k)))
    }

    /** Emits `t := index * 4` and `t := t + #base`, replacing index and base by the indirect operand `@t`. */
    method ActionIndex(t: int)
      requires Valid() && OperandAt(0) && IndexBaseAt(1) && Room(2)
      modifies this`ss, this`i, pb
      ensures pb[..] == old(pb[..])
                [old(i) := Some(Instruction(MULT, AddressOf(old(Peek(0))), Address(IMMEDIATE, 4), Address(ADDRESS, t)))]
                [old(i) + 1 := Some(Instruction(ADD, Address(ADDRESS, t), GenerateAddress(Some("#" + Str(old(Peek(1))))).value, Address(ADDRESS, t)))]
      ensures i == old(i) + 2
      ensures ss == old(ss)[..|old(ss)| - 2] + [Lexeme("@" + IntToString(t))]
    {
      PrintedOperands(t);
      PrintedOperands(4);
      assert "#4" == "#" + IntToString(4);
      var st := IntToString(t);
      pb[i] := Some(MulInstr(OperandArg(Peek(0)), Some("#4"), Some(st)).value);
      pb[i + 1] := Some(AddInstr(Some(st), Some("#" + Str(Peek(1))), Some(st)).value);
      i := i + 2;
      Pop(2);
      Push(Lexeme("@" + st));
    }

    /** Reserves the slot at the program counter and pushes its index; no slot is written. */
    method ActionSave()
      modifies this`ss, this`i
      ensures ss == old(ss) + [Num(old(i))]
      ensures i == old(i) + 1
    {
      Push(Num(i));
      i := i + 1;
    }

    /** Fills the saved slot with a jump past the slot it then reserves, taken when the condition below it is false. */
    method ActionJpfSave()
      requires Valid() && SlotAt(0) && OperandAt(1)
      modifies this`ss, this`i, pb
      ensures pb[..] == old(pb[..])[old(Peek(0)).n := Some(Instruction(JPF, AddressOf(old(Peek(1))), Address(ADDRESS, old(i) + 1), NoAddress))]
      ensures ss == old(ss)[..|old(ss)| - 2] + [Num(old(i))]
      ensures i == old(i) + 1
    {
      PrintedOperands(i + 1);
      pb[Peek(0).n] := Some(JpfInstr(OperandArg(Peek(1)), Some(IntToString(i + 1))).value);
      Pop(2);
      ActionSave();
    }

    /** Fills the saved slot with a jump to the program counter. */
    method ActionJp()
      requires Valid() && SlotAt(0)
      modifies this`ss, pb
      ensures pb[..] == old(pb[..])[old(Peek(0)).n := Some(Instruction(JP, Address(ADDRESS, i), NoAddress, NoAddress))]
      ensures ss == old(ss)[..|old(ss)| - 1]
    {
      PrintedOperands(i);
      pb[Peek(0).n] := Some(JpInstr(Some(IntToString(i))).value);
      Pop(1);
    }

    method ActionLabel()
      modifies this`ss
      ensures ss == old(ss) + [Num(i)]
    {
      Push(Num(i));
    }

    /** A jump target below the condition: `str` of it must be an operand. */
    predicate TargetAt(k: nat)
      reads this
    {
      k < |ss| && (Peek(k).Lexeme? || Peek(k).Num?) && IsOperandString(Str(Peek(k)))
    }

    /** Emits a jump, when the condition on top is false, to the label below it; pops both. */
    method ActionJpf()
      requires Valid() && OperandAt(0) && TargetAt(1) && Room(1)
      modifies this`ss, this`i, pb
      ensures pb[..] == old(pb[..])[old(i) := Some(Instruction(JPF, AddressOf(old(Peek(0))), GenerateAddress(Some(Str(old(Peek(1))))).value, NoAddress))]
      ensures i == old(i) + 1
      ensures ss == old(ss)[..|old(ss)| - 2]
    {
      pb[i] := Some(JpfInstr(OperandArg(Peek(0)), Some(Str(Peek(1)))).value);
      i := i + 1;
      Pop(2);
    }

    /** Pushes temp `t` as the break point of the innermost loop. */
    method ActionPbp(t: int)
      modifies this`breakStack
      ensures breakStack == old(breakStack) + [t]
    {
      breakStack := breakStack + [t];
    }

    /** Fills the saved slot with `break point := #pc`, popping the break point and the slot. */
    method ActionUntil()
      requires Valid() && SlotAt(0) && |breakStack| > 0
      modifies this`ss, this`breakStack, pb
      ensures pb[..] == old(pb[..])[old(Peek(0)).n := Some(Instruction(ASSIGN, Address(IMMEDIATE, i), Address(ADDRESS, old(breakStack[|breakStack| - 1])), NoAddress))]
      ensures breakStack == old(breakStack)[..|old(breakStack)| - 1]
      ensures ss == old(ss)[..|old(ss)| - 1]
    {
      var bp := breakStack[|breakStack| - 1];
      breakStack := breakStack[..|breakStack| - 1];
      PrintedOperands(i);
      PrintedOperands(bp);
      pb[Peek(0).n] := Some(AssignInstr(Some("#" + IntToString(i)), Some(IntToString(bp))).value);
      Pop(1);
    }

    /** Emits a jump through the innermost loop's break point. */
    method ActionBreak()
      requires Valid() && |breakStack| > 0 && Room(1)
      modifies this`i, pb
      ensures pb[..] == old(pb[..])[old(i) := Some(Instruction(JP, Address(INDIRECT, breakStack[|breakStack| - 1]), NoAddress, NoAddress))]
      ensures i == old(i) + 1
    {
      PrintedOperands(breakStack[|breakStack| - 1]);
      pb[i] := Some(JpInstr(Some("@" + IntToString(breakStack[|breakStack| - 1]))).value);
      i := i + 1;
    }

    /** What an action needs of the generator's state to run without a runtime error. */
    predicate Enabled(a: Action)
      reads this
    {
      match a
      case Pnum(lexeme) => ParseInt(lexeme).Some?
      case Var => NamesTypeAt("", 1)
      case Func => NamesTypeAt("", 1) && Room(5)
      case Arr => NamesTypeAt("ARRAY_", 2) && Peek(0).Sym?
      case ParPtr => NamesTypeAt("POINTER_", 1)
      case ParVar => NamesTypeAt("", 1)
      case Assign => OperandAt(0) && OperandAt(1) && Room(1)
      case Pexpr => |ss| >= 1
      case Calc(_) => OperandAt(0) && OperandAt(2) && Room(1) && Peek(1).Lexeme? && Peek(1).text in Operation
      case Call(callee) => CallEnabled(callee)
      case Incarg => |argCount| > 0
      case Index(_) => OperandAt(0) && IndexBaseAt(1) && Room(2)
      case JpfSave => SlotAt(0) && OperandAt(1)
      case Jp => SlotAt(0)
      case Jpf => OperandAt(0) && TargetAt(1) && Room(1)
      case Until => SlotAt(0) && |breakStack| > 0
      case Break => |breakStack| > 0 && Room(1)
      case _ => true
    }

    /**
     * `code_gen`: resets the conversion temps, then runs the action. Only a
     * call can fail; every other action changes the stack and the program
     * counter by its documented amounts, and only a function prologue uses a
     * conversion temp.
     */
    method CodeGen(a: Action) returns (fault: Option<Fault>)
      requires Valid() && Enabled(a)
      modifies this, pb
      ensures Valid()
      ensures temp == TempBase + (if a.Func? then 4 else 0)
      ensures fault.Some? ==> a.Call?
      ensures !a.Call? ==> |ss| == |old(ss)| - StackEffect(a).0 + StackEffect(a).1
      ensures !a.Call? ==> i == old(i) + PcAdvance(a)
    {
      temp := TempBase;
      fault := None;
      match a {
        case Ptype(lexeme) => ActionPtype(lexeme);
        case Pname(lexeme) => ActionPname(lexeme);
        case Pid(lexeme, found) => ActionPid(lexeme, found);
        case Pnum(lexeme) => ActionPnum(lexeme);
        case Var => ActionVar();
        case Func => ActionFunc();
        case FuncEnd => ActionFuncEnd();
        case Arr => ActionArr();
        case ParPtr => ActionParPtr();
        case ParVar => ActionParVar();
        case ScopeUp => ActionScopeUp();
        case ScopeDown => ActionScopeDown();
        case Assign => ActionAssign();
        case Pexpr => ActionPexpr();
        case Calc(t) => ActionCalc(t);
        case PushOperator(lexeme) => ActionPushOperator(lexeme);
        case Call(callee) => fault := ActionCall(callee);
        case Incarg => ActionIncarg();
        case Pcount => ActionPcount();
        case Index(t) => ActionIndex(t);
        case Save => ActionSave();
        case JpfSave => ActionJpfSave();
        case Jp => ActionJp();
        case Label => ActionLabel();
        case Jpf => ActionJpf();
        case Pbp(t) => ActionPbp(t);
        case Until => ActionUntil();
        case Break => ActionBreak();
      }
    }

    /** `generate_output`: the listing up to the first empty slot, unless there were semantic errors. */
    method GenerateOutput() returns (out: string)
      requires Valid()
      ensures out == Output(pb[..], semanticErrors)
    {
      if |semanticErrors| != 0 {
        return "The output code has not been generated.";
      }
      var code := pb[..];
      out := "";
      var k := 0;
      while k < |code|
        invariant 0 <= k <= |code|
        invariant out + Listing(code, k) == Listing(code, 0)
      {
        if code[k].None? {
          break;
        }
        var line := ListingLine(k, code[k].value);
        var rest := Listing(code, k + 1);
        assert Listing(code, k) == line + rest;
        assert out + (line + rest) == (out + line) + rest;
        out := out + line;
        k := k + 1;
      }
    }
  }
}
