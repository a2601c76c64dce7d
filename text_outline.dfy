/** The outline the text renderer prints, as a function of the tree and the
    indent it starts at: one line per construct, each line the indent's
    spaces followed by a label. */
module TextOutline {
  import opened Wrappers
  import Syntax
  import Operators

  /** `" ".repeat(n)`. */
  function Spaces(n: nat): (r: string)
    ensures |r| == n
    ensures forall k :: 0 <= k < n ==> r[k] == ' '
  {
    seq(n, _ => ' ')
  }

  /** One printed line: the indent, then the label. */
  function Line(indent: nat, text: string): string {
    Spaces(indent) + text
  }

  function LitLabel(lit: Syntax.Lit): string {
    match lit
    case IntLit(digits) => "Integer literal: " + digits
    case FloatLit(digits) => "Float literal: " + digits
    case StrLit(text) => "String literal: \"" + text + "\""
    case BoolLit(flag) => "Boolean literal: " + (if flag then "true" else "false")
    case OtherLit(tokens) => "Other literal: " + tokens
  }

  /** The line printed for one input: receivers and identifier-pattern
      parameters print one, other typed parameters print nothing. */
  function ParamLine(arg: Syntax.FnArg, indent: nat): seq<string> {
    match arg
    case Typed(pat, ty) => if pat.Ident? then [Line(indent, "Parameter: " + pat.ident + " - Type: " + ty)] else []
    case Receiver(tokens) => [Line(indent, "Self receiver: " + tokens)]
  }

  function ParamLines(inputs: seq<Syntax.FnArg>, indent: nat): seq<string> {
    if inputs == [] then []
    else ParamLines(inputs[..|inputs| - 1], indent) + ParamLine(inputs[|inputs| - 1], indent)
  }

  function FieldLine(field: Syntax.Field, indent: nat): string {
    if field.ident.Some? then Line(indent, "Field: " + field.ident.value + " - Type: " + field.ty)
    else Line(indent, "Tuple field: " + field.ty)
  }

  function FieldLines(fields: seq<Syntax.Field>, indent: nat): seq<string> {
    if fields == [] then []
    else FieldLines(fields[..|fields| - 1], indent) + [FieldLine(fields[|fields| - 1], indent)]
  }

  function VariantLines(variants: seq<Syntax.Variant>, indent: nat): seq<string> {
    if variants == [] then []
    else VariantLines(variants[..|variants| - 1], indent) + [Line(indent, "Variant: " + variants[|variants| - 1].ident)]
  }

  /** `visit_item_fn`: the header at the indent, the section labels two
      deeper, parameters and body statements four deeper. */
  function FnLines(f: Syntax.ItemFn, indent: nat): (r: seq<string>)
    ensures |r| >= 2 + |f.stmts|
    decreases f
  {
    [Line(indent, "Function: " + f.ident)]
    + (if |f.inputs| > 0 then [Line(indent + 2, "Parameters:")] + ParamLines(f.inputs, indent + 4) else [])
    + (if f.output.Type? then [Line(indent + 2, "Return type: " + f.output.ty)] else [])
    + [Line(indent + 2, "Body:")]
    + StmtsLines(f.stmts, indent + 4)
  }

  /** The item arm of `visit_stmt`. */
  function ItemLines(item: Syntax.Item, indent: nat): (r: seq<string>)
    ensures |r| > 0
    decreases item
  {
    match item
    case Fn(f) => FnLines(f, indent)
    case Struct(s) =>
      [Line(indent, "Struct: " + s.ident)]
      + (if |s.fields| > 0 then [Line(indent, "Fields:")] + FieldLines(s.fields, indent + 2) else [])
    case Enum(e) =>
      [Line(indent, "Enum: " + e.ident)]
      + (if |e.variants| > 0 then [Line(indent, "Variants:")] + VariantLines(e.variants, indent + 2) else [])
    case OtherItem(tokens) => [Line(indent, "Other item: " + tokens)]
  }

  /** `visit_stmt`. */
  function StmtLines(s: Syntax.Stmt, indent: nat): (r: seq<string>)
    ensures |r| > 0
    decreases s
  {
    match s
    case Local(pat, init) =>
      [Line(indent, "Variable declaration:")]
      + (if pat.Ident? then [Line(indent, "Name: " + pat.ident)] else [])
      + (if init.Some? then [Line(indent, "Initializer:")] + ExprLines(init.value, indent + 2) else [])
    case ExprStmt(e) => [Line(indent, "Expression statement:")] + ExprLines(e, indent + 2)
    case ItemStmt(item, _) => ItemLines(item, indent)
    case OtherStmt(tokens) => [Line(indent, "Other statement: " + tokens)]
  }

  function StmtsLines(ss: seq<Syntax.Stmt>, indent: nat): (r: seq<string>)
    ensures |r| >= |ss|
    decreases ss
  {
    if ss == [] then [] else StmtsLines(ss[..|ss| - 1], indent) + StmtLines(ss[|ss| - 1], indent)
  }

  function ExprsLines(es: seq<Syntax.Expr>, indent: nat): (r: seq<string>)
    ensures |r| >= |es|
    decreases es
  {
    if es == [] then [] else ExprsLines(es[..|es| - 1], indent) + ExprLines(es[|es| - 1], indent)
  }

  /** The `else` part of an `if`: the label and the branch two deeper, only
      when there is one. */
  function ElseLines(elseBranch: Option<Syntax.Expr>, indent: nat): seq<string>
    decreases elseBranch
  {
    if elseBranch.Some? then [Line(indent, "Else branch:")] + ExprLines(elseBranch.value, indent + 2) else []
  }

  /** `visit_expr`. */
  function ExprLines(e: Syntax.Expr, indent: nat): (r: seq<string>)
    ensures |r| > 0
    decreases e
  {
    match e
    case LitExpr(lit) => [Line(indent, LitLabel(lit))]
    case Binary(op, left, right) =>
      [Line(indent, "Binary expression: " + Operators.Symbol(op)), Line(indent, "Left:")]
      + ExprLines(left, indent + 2)
      + [Line(indent, "Right:")]
      + ExprLines(right, indent + 2)
    case Call(func, args) =>
      [Line(indent, "Function call:"), Line(indent, "Function:")]
      + ExprLines(func, indent + 2)
      + (if |args| > 0 then [Line(indent, "Arguments:")] + ExprsLines(args, indent + 2) else [])
    case Path(path) => [Line(indent, "Identifier: " + path)]
    case If(cond, thenBranch, elseBranch) =>
      [Line(indent, "If statement:"), Line(indent, "Condition:")]
      + ExprLines(cond, indent + 2)
      + [Line(indent, "Then branch:")]
      + StmtsLines(thenBranch, indent + 2)
      + ElseLines(elseBranch, indent)
    case Loop(body) => [Line(indent, "Loop:")] + StmtsLines(body, indent + 2)
    case While(cond, body) =>
      [Line(indent, "While loop:"), Line(indent, "Condition:")]
      + ExprLines(cond, indent + 2)
      + [Line(indent, "Body:")]
      + StmtsLines(body, indent + 2)
    case Return(value) =>
      [Line(indent, "Return statement:")] + (if value.Some? then ExprLines(value.value, indent + 2) else [])
    case OtherExpr(tokens) => [Line(indent, "Other expression: " + tokens)]
  }
}
