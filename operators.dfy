/** The operator table both renderers share: ten binary operators keep their
    own symbol, every other operator is rendered as `other_operator`. */
module Operators {
  import opened Wrappers
  import opened Syntax

  const OtherOperator := "other_operator"

  /** The ten operators the renderers name. */
  predicate Named(op: BinOp) {
    op in {Add, Sub, Mul, Div, Eq, Lt, Le, Ne, Ge, Gt}
  }

  /** The symbol printed (text) or stored (JSON) for an operator. */
  function Symbol(op: BinOp): (r: string)
    ensures Named(op) <==> r != OtherOperator
    ensures Named(op) ==> 1 <= |r| <= 2
  {
    match op
    case Add => "+"
    case Sub => "-"
    case Mul => "*"
    case Div => "/"
    case Eq => "=="
    case Lt => "<"
    case Le => "<="
    case Ne => "!="
    case Ge => ">="
    case Gt => ">"
    case _ => OtherOperator
  }

  /** Reads a rendered symbol back: the inverse of `Symbol` on the named
      operators, `None` for `other_operator` and any other text. */
  function Parse(s: string): (r: Option<BinOp>)
    ensures r.Some? ==> Named(r.value) && Symbol(r.value) == s
  {
    if s == "+" then Some(Add)
    else if s == "-" then Some(Sub)
    else if s == "*" then Some(Mul)
    else if s == "/" then Some(Div)
    else if s == "==" then Some(Eq)
    else if s == "<" then Some(Lt)
    else if s == "<=" then Some(Le)
    else if s == "!=" then Some(Ne)
    else if s == ">=" then Some(Ge)
    else if s == ">" then Some(Gt)
    else None
  }

  /** A named operator keeps its symbol and can be read back from it; every
      other operator collapses to `other_operator`, which reads back as nothing. */
  lemma SymbolRoundTrip(op: BinOp)
    ensures Named(op) ==> Parse(Symbol(op)) == Some(op) && Symbol(op) != OtherOperator
    ensures !Named(op) <==> Symbol(op) == OtherOperator
    ensures Parse(OtherOperator) == None
  {
    assert "other_operator"[0] == 'o';
  }

  /** Distinct named operators are rendered with distinct symbols. */
  lemma SymbolInjective(op1: BinOp, op2: BinOp)
    requires Named(op1) && Named(op2)
    requires Symbol(op1) == Symbol(op2)
    ensures op1 == op2
  {
    SymbolRoundTrip(op1);
    SymbolRoundTrip(op2);
  }
}
