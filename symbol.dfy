/**
 * What the code generator needs of the symbol table's vocabulary: the symbol
 * types it looks up by name, and the symbol record the table hands back.
 */
module Symbol {
  import opened Wrappers

  /** The symbol types codegen names: a base type, or an array or pointer of one. */
  datatype SymbolType = VOID | INT | ARRAY_VOID | ARRAY_INT | POINTER_VOID | POINTER_INT

  function SymbolTypeName(t: SymbolType): string
  {
    match t
    case VOID => "VOID"
    case INT => "INT"
    case ARRAY_VOID => "ARRAY_VOID"
    case ARRAY_INT => "ARRAY_INT"
    case POINTER_VOID => "POINTER_VOID"
    case POINTER_INT => "POINTER_INT"
  }

  /** `SymbolType[name]`: the member with that name, `None` standing for the `KeyError`. */
  function SymbolTypeNamed(name: string): (r: Option<SymbolType>)
    ensures r.Some? ==> SymbolTypeName(r.value) == name
  {
    if name == "VOID" then Some(VOID)
    else if name == "INT" then Some(INT)
    else if name == "ARRAY_VOID" then Some(ARRAY_VOID)
    else if name == "ARRAY_INT" then Some(ARRAY_INT)
    else if name == "POINTER_VOID" then Some(POINTER_VOID)
    else if name == "POINTER_INT" then Some(POINTER_INT)
    else None
  }

  /** Every member is found by its own name. */
  lemma SymbolTypeNamedRoundTrip(t: SymbolType)
    ensures SymbolTypeNamed(SymbolTypeName(t)) == Some(t)
  {
  }

  function UpperChar(c: char): char
  {
    if 'a' <= c <= 'z' then (c as int - 'a' as int + 'A' as int) as char else c
  }

  /** `s.upper()` on ASCII letters. */
  function Upper(s: string): (r: string)
    ensures |r| == |s| && forall k :: 0 <= k < |s| ==> r[k] == UpperChar(s[k])
  {
    if |s| == 0 then "" else [UpperChar(s[0])] + Upper(s[1..])
  }

  /** The two type keywords of C-Minus name the two base types. */
  lemma KeywordTypes()
    ensures SymbolTypeNamed(Upper("int")) == Some(INT)
    ensures SymbolTypeNamed(Upper("void")) == Some(VOID)
    ensures SymbolTypeNamed("ARRAY_" + Upper("int")) == Some(ARRAY_INT)
    ensures SymbolTypeNamed("POINTER_" + Upper("int")) == Some(POINTER_INT)
  {
    assert Upper("int") == "INT";
    assert Upper("void") == "VOID";
  }

  /** The fields of the `SemanticSymbol` dataclass, in declaration order; none has a default. */
  const SymbolFields: seq<string> := ["name", "typ", "value", "args", "is_function", "is_global", "is_constant", "is_pointer"]

  /**
   * A symbol as the table reports it: its name, type, address or constant
   * value, the argument types of a function (`None` for a non-function), and
   * its flags.
   */
  datatype SemanticSymbol = SemanticSymbol(
    name: Option<string>,
    typ: SymbolType,
    value: int,
    args: Option<seq<SymbolType>>,
    isFunction: bool,
    isGlobal: bool,
    isConstant: bool,
    isPointer: bool)
}
