/**
 * Three-address instructions of the target machine: operand addresses with
 * their rendering prefixes, the parsing of operand strings such as `500`,
 * `@500` and `#500`, instruction rendering and the operator table.
 */
module Instruction {
  import opened Wrappers
  import opened Decimal

  datatype AddressType = NONE | ADDRESS | IMMEDIATE | INDIRECT

  /** The enumeration value of an address type. */
  function Ordinal(t: AddressType): nat
  {
    match t
    case NONE => 0
    case ADDRESS => 1
    case IMMEDIATE => 2
    case INDIRECT => 3
  }

  /** How an address type renders: decided on the enumeration value, as the source does. */
  function Prefix(t: AddressType): (p: string)
    ensures p == "" <==> t == NONE || t == ADDRESS
    ensures p == "#" <==> t == IMMEDIATE
    ensures p == "@" <==> t == INDIRECT
  {
    if Ordinal(t) < 2 then "" else if Ordinal(t) == 2 then "#" else "@"
  }

  datatype Address = Address(kind: AddressType, value: int)

  /** The address `generate_address(None)` builds: type NONE, default value 0. */
  const NoAddress := Address(NONE, 0)

  function AddressString(a: Address): string
  {
    if a.kind == NONE then Prefix(a.kind) else Prefix(a.kind) + IntToString(a.value)
  }

  datatype Op = ADD | MULT | SUB | EQ | LT | ASSIGN | JPF | JP | PRINT

  /** The enumeration member's name, which is what an instruction listing shows. */
  function OpName(op: Op): string
  {
    match op
    case ADD => "ADD"
    case MULT => "MULT"
    case SUB => "SUB"
    case EQ => "EQ"
    case LT => "LT"
    case ASSIGN => "ASSIGN"
    case JPF => "JPF"
    case JP => "JP"
    case PRINT => "PRINT"
  }

  datatype Instruction = Instruction(op: Op, a: Address, b: Address, c: Address)

  function InstructionString(ins: Instruction): string
  {
    "(" + OpName(ins.op) + ", " + AddressString(ins.a) + ", " + AddressString(ins.b) + ", " + AddressString(ins.c) + ")"
  }

  /** Why `generate_address` fails: indexing an empty string, or `int()` rejecting the digits. */
  datatype AddressError = EmptyOperand | NotAnInteger

  function ParseValue(s: string): Result<int, AddressError>
  {
    match ParseInt(s)
    case Some(v) => Success(v)
    case None => Failure(NotAnInteger)
  }

  /** `generate_address`: builds an address from an operand string. */
  function GenerateAddress(addr: Option<string>): Result<Address, AddressError>
  {
    match addr
    case None => Success(Address(NONE, 0))
    case Some(s) =>
      if |s| == 0 then Failure(EmptyOperand)
      else if s[0] == '@' then
        match ParseValue(s[1..])
        case Success(v) => Success(Address(INDIRECT, v))
        case Failure(e) => Failure(e)
      else if s[0] == '#' then
        match ParseValue(s[1..])
        case Success(v) => Success(Address(IMMEDIATE, v))
        case Failure(e) => Failure(e)
      else
        match ParseValue(s)
        case Success(v) => Success(Address(ADDRESS, v))
        case Failure(e) => Failure(e)
  }

  /** The part of an operand string after its `@` or `#` prefix, if it has one. */
  function OperandDigits(s: string): string
  {
    if |s| > 0 && (s[0] == '@' || s[0] == '#') then s[1..] else s
  }

  /**
   * `generate_address` accepts a non-empty operand string exactly when what
   * follows its prefix is an integer, and the address it builds prints back
   * with the same prefix followed by that integer in `str` form: parsing
   * normalises an operand (`#007` prints as `#7`) and never changes its kind
   * or value.
   */
  lemma OperandNormalised(s: string)
    requires |s| > 0
    ensures GenerateAddress(Some(s)).Success? <==> ParseInt(OperandDigits(s)).Some?
    ensures GenerateAddress(Some(s)).Success? ==>
              AddressString(GenerateAddress(Some(s)).value) == s[..|s| - |OperandDigits(s)|] + IntToString(ParseInt(OperandDigits(s)).value)
  {
    if GenerateAddress(Some(s)).Success? {
      if s[0] == '@' || s[0] == '#' {
        assert s[..1] == [s[0]];
      } else {
        assert s[..0] == "";
      }
    }
  }

  /** True of an operand string `generate_address` accepts. */
  predicate IsOperandString(s: string)
  {
    GenerateAddress(Some(s)).Success?
  }

  /** An operand string exactly as the listing prints one: a prefix and a canonical integer. */
  predicate CanonicalOperand(s: string)
  {
    || CanonicalInt(s)
    || (|s| > 1 && (s[0] == '@' || s[0] == '#') && CanonicalInt(s[1..]))
  }

  /** Parsing the rendering of an address gives the address back; an absent operand stands for NONE. */
  lemma AddressRoundTrip(a: Address)
    requires a.kind == NONE ==> a.value == 0
    ensures GenerateAddress(if a.kind == NONE then None else Some(AddressString(a))) == Success(a)
  {
    if a.kind != NONE {
      var s := AddressString(a);
      IntToStringParses(a.value);
      IntToStringCanonical(a.value);
      if a.kind == ADDRESS {
        assert s == IntToString(a.value);
        assert s[0] != '@' && s[0] != '#';
      } else {
        assert s[1..] == IntToString(a.value);
      }
    }
  }

  /** Rendering the address parsed from a canonical operand string gives the string back. */
  lemma CanonicalOperandRoundTrip(s: string)
    requires CanonicalOperand(s)
    ensures GenerateAddress(Some(s)).Success?
    ensures AddressString(GenerateAddress(Some(s)).value) == s
  {
    if CanonicalInt(s) {
      CanonicalIntPrints(s);
      assert s[0] != '@' && s[0] != '#';
    } else {
      CanonicalIntPrints(s[1..]);
      assert s == [s[0]] + s[1..];
    }
  }

  /** An operand as codegen writes it: `str(n)`, `"#" + str(n)` or `"@" + str(n)`. */
  lemma PrintedOperands(n: int)
    ensures GenerateAddress(Some(IntToString(n))) == Success(Address(ADDRESS, n))
    ensures GenerateAddress(Some("#" + IntToString(n))) == Success(Address(IMMEDIATE, n))
    ensures GenerateAddress(Some("@" + IntToString(n))) == Success(Address(INDIRECT, n))
  {
    AddressRoundTrip(Address(ADDRESS, n));
    AddressRoundTrip(Address(IMMEDIATE, n));
    AddressRoundTrip(Address(INDIRECT, n));
  }

  /** Builds an instruction from an operation and three operand strings, failing as the first bad operand does. */
  function GenerateInstruction(op: Op, a: Option<string>, b: Option<string>, c: Option<string>): (r: Result<Instruction, AddressError>)
    ensures r.Success? <==> GenerateAddress(a).Success? && GenerateAddress(b).Success? && GenerateAddress(c).Success?
    ensures r.Success? ==> r.value.op == op
    ensures r.Success? ==> r.value.a == GenerateAddress(a).value && r.value.b == GenerateAddress(b).value && r.value.c == GenerateAddress(c).value
  {
    match GenerateAddress(a)
    case Failure(e) => Failure(e)
    case Success(x) =>
      match GenerateAddress(b)
      case Failure(e) => Failure(e)
      case Success(y) =>
        match GenerateAddress(c)
        case Failure(e) => Failure(e)
        case Success(z) => Success(Instruction(op, x, y, z))
  }

  /** What an operand shows in a listing: its own text, or nothing when it is absent. */
  function Shown(addr: Option<string>): string
  {
    if addr.None? then "" else addr.value
  }

  /**
   * An instruction built from operands written as the listing prints them
   * renders as `(OPNAME, a, b, c)` with each operand's own text, an absent
   * operand showing as nothing.
   */
  lemma InstructionListed(op: Op, a: Option<string>, b: Option<string>, c: Option<string>)
    requires a.Some? ==> CanonicalOperand(a.value)
    requires b.Some? ==> CanonicalOperand(b.value)
    requires c.Some? ==> CanonicalOperand(c.value)
    ensures GenerateInstruction(op, a, b, c).Success?
    ensures InstructionString(GenerateInstruction(op, a, b, c).value) ==
            "(" + OpName(op) + ", " + Shown(a) + ", " + Shown(b) + ", " + Shown(c) + ")"
  {
    ShownRoundTrip(a);
    ShownRoundTrip(b);
    ShownRoundTrip(c);
  }

  lemma ShownRoundTrip(addr: Option<string>)
    requires addr.Some? ==> CanonicalOperand(addr.value)
    ensures GenerateAddress(addr).Success? && AddressString(GenerateAddress(addr).value) == Shown(addr)
  {
    if addr.Some? {
      CanonicalOperandRoundTrip(addr.value);
    }
  }

  // The instruction builders: `generate_instruction` with the operation fixed,
  // and with the unused operands fixed to absent where the source fixes them.

  function AddInstr(a: Option<string>, b: Option<string>, c: Option<string>): (r: Result<Instruction, AddressError>)
    ensures r.Success? ==> r.value.op == ADD
  {
    GenerateInstruction(ADD, a, b, c)
  }

  function MulInstr(a: Option<string>, b: Option<string>, c: Option<string>): (r: Result<Instruction, AddressError>)
    ensures r.Success? ==> r.value.op == MULT && OpName(r.value.op) == "MULT"
  {
    GenerateInstruction(MULT, a, b, c)
  }

  function SubInstr(a: Option<string>, b: Option<string>, c: Option<string>): (r: Result<Instruction, AddressError>)
    ensures r.Success? ==> r.value.op == SUB
  {
    GenerateInstruction(SUB, a, b, c)
  }

  function EqInstr(a: Option<string>, b: Option<string>, c: Option<string>): (r: Result<Instruction, AddressError>)
    ensures r.Success? ==> r.value.op == EQ
  {
    GenerateInstruction(EQ, a, b, c)
  }

  function LtInstr(a: Option<string>, b: Option<string>, c: Option<string>): (r: Result<Instruction, AddressError>)
    ensures r.Success? ==> r.value.op == LT
  {
    GenerateInstruction(LT, a, b, c)
  }

  function AssignInstr(a: Option<string>, b: Option<string>): (r: Result<Instruction, AddressError>)
    ensures r.Success? ==> r.value.op == ASSIGN && r.value.c == NoAddress
  {
    GenerateInstruction(ASSIGN, a, b, None)
  }

  function JpfInstr(a: Option<string>, b: Option<string>): (r: Result<Instruction, AddressError>)
    ensures r.Success? ==> r.value.op == JPF && r.value.c == NoAddress
  {
    GenerateInstruction(JPF, a, b, None)
  }

  function JpInstr(a: Option<string>): (r: Result<Instruction, AddressError>)
    ensures r.Success? ==> r.value.op == JP && r.value.b == NoAddress && r.value.c == NoAddress
  {
    GenerateInstruction(JP, a, None, None)
  }

  function PrintInstr(a: Option<string>): (r: Result<Instruction, AddressError>)
    ensures r.Success? ==> r.value.op == PRINT && r.value.b == NoAddress && r.value.c == NoAddress
  {
    GenerateInstruction(PRINT, a, None, None)
  }

  /** The operator table: source operator lexeme to the operation its instruction performs. */
  const Operation: map<string, Op> := map["+" := ADD, "*" := MULT, "-" := SUB, "==" := EQ, "<" := LT]

  /** Builds the instruction for an operator lexeme, as `operation[lexeme](a, b, c)` does. */
  function OperationInstr(lexeme: string, a: Option<string>, b: Option<string>, c: Option<string>): (r: Result<Instruction, AddressError>)
    requires lexeme in Operation
    ensures r.Success? ==> r.value.op == Operation[lexeme]
  {
    GenerateInstruction(Operation[lexeme], a, b, c)
  }

  /**
   * Distinct operators build distinct operations, and every one of them is an
   * arithmetic or comparison operation, never an assignment, jump or print.
   */
  lemma OperationTableInjective(x: string, y: string)
    requires x in Operation && y in Operation
    ensures Operation[x] == Operation[y] ==> x == y
    ensures Operation[x] != ASSIGN && Operation[x] != JPF && Operation[x] != JP && Operation[x] != PRINT
  {
  }
}
