/** The JSON model builder's records and its pure translators
    (`visit_stmt_json`, `visit_expr_json` and the per-item rules of
    `process_item`). Each record variant is named after the `"type"`
    discriminator it is serialised with. */
module JsonModel {
  import opened Wrappers
  import Syntax
  import Operators

  datatype ParameterJson = ParameterJson(name: string, typeInfo: string)

  /** `name` is `None` for a tuple field. */
  datatype FieldJson = FieldJson(name: Option<string>, typeInfo: string)

  datatype VariantJson = VariantJson(name: string)

  datatype ItemJson =
    | Function(name: string, parameters: seq<ParameterJson>, returnType: Option<string>, body: seq<StmtJson>)
    | Struct(name: string, fields: seq<FieldJson>)
    | Enum(name: string, variants: seq<VariantJson>)
    | Other(description: string)

  datatype StmtJson =
    | VariableDeclaration(name: string, initializer: Option<ExprJson>)
    | Expression(expr: ExprJson)
    | Other(description: string)

  datatype ExprJson =
    | IntLiteral(value: string)
    | FloatLiteral(value: string)
    | StringLiteral(value: string)
    | BoolLiteral(truth: bool)
    | Binary(operator: string, left: ExprJson, right: ExprJson)
    | FunctionCall(callee: ExprJson, arguments: seq<ExprJson>)
    | Identifier(name: string)
    | If(condition: ExprJson, thenBranch: seq<StmtJson>, elseBranch: Option<ExprJson>)
    | Loop(body: seq<StmtJson>)
    | While(condition: ExprJson, body: seq<StmtJson>)
    | Return(returned: Option<ExprJson>)
    | Other(description: string)

  /** `AstJson`: the document root. */
  datatype AstJson = AstJson(items: seq<ItemJson>)

  // ---------------------------------------------------------------------
  // Per-item rules of `process_item`

  /** The parameter record of one input: a receiver is a parameter named
      `self` typed by the receiver's text; a typed input has one only when
      its pattern is an identifier. */
  function ParamOf(arg: Syntax.FnArg): (r: Option<ParameterJson>)
    ensures r.None? <==> arg.Typed? && !arg.pat.Ident?
    ensures r.Some? ==> r.value.name == (if arg.Receiver? then "self" else arg.pat.ident)
    ensures r.Some? ==> r.value.typeInfo == (if arg.Receiver? then arg.tokens else arg.ty)
  {
    match arg
    case Typed(pat, ty) => if pat.Ident? then Some(ParameterJson(pat.ident, ty)) else None
    case Receiver(tokens) => Some(ParameterJson("self", tokens))
  }

  /** The `parameters` vector that the loop over the inputs builds. */
  function Parameters(inputs: seq<Syntax.FnArg>): (r: seq<ParameterJson>)
    ensures |r| <= |inputs|
  {
    if inputs == [] then []
    else
      var front := Parameters(inputs[..|inputs| - 1]);
      match ParamOf(inputs[|inputs| - 1])
      case Some(p) => front + [p]
      case None => front
  }

  function FieldOf(field: Syntax.Field): FieldJson {
    FieldJson(field.ident, field.ty)
  }

  /** The `fields` vector that the loop over the struct's fields builds. */
  function Fields(fields: seq<Syntax.Field>): (r: seq<FieldJson>)
    ensures |r| == |fields|
  {
    if fields == [] then [] else Fields(fields[..|fields| - 1]) + [FieldOf(fields[|fields| - 1])]
  }

  /** The `variants` vector that the loop over the enum's variants builds. */
  function Variants(variants: seq<Syntax.Variant>): (r: seq<VariantJson>)
    ensures |r| == |variants|
  {
    if variants == [] then []
    else Variants(variants[..|variants| - 1]) + [VariantJson(variants[|variants| - 1].ident)]
  }

  /** The `return_type` of a function record: absent for the default `()`. */
  function ReturnTypeOf(output: Syntax.ReturnType): (r: Option<string>)
    ensures r.None? <==> output.Default?
    ensures output.Type? ==> r == Some(output.ty)
  {
    match output
    case Default => None
    case Type(ty) => Some(ty)
  }

  /** The record `process_item` pushes for one item. */
  function ItemToJson(item: Syntax.Item): (r: ItemJson)
    ensures r.Function? <==> item.Fn?
    ensures r.Struct? <==> item.Struct?
    ensures r.Enum? <==> item.Enum?
    ensures r.Other? <==> item.OtherItem?
  {
    match item
    case Fn(f) => Function(f.ident, Parameters(f.inputs), ReturnTypeOf(f.output), StmtsToJson(f.stmts))
    case Struct(s) => Struct(s.ident, Fields(s.fields))
    case Enum(e) => Enum(e.ident, Variants(e.variants))
    case OtherItem(tokens) => ItemJson.Other(tokens)
  }

  /** The records `process_file` pushes for a file's items, in order. */
  function ItemsToJson(items: seq<Syntax.Item>): (r: seq<ItemJson>)
    ensures |r| == |items|
  {
    if items == [] then [] else ItemsToJson(items[..|items| - 1]) + [ItemToJson(items[|items| - 1])]
  }

  // ---------------------------------------------------------------------
  // `visit_stmt_json` and `visit_expr_json`

  /** `visit_stmt_json`. Nested items are not dispatched through the item
      rules: like macro statements they become `Other` with their text. */
  function StmtToJson(s: Syntax.Stmt): (r: StmtJson)
    ensures s.Local? ==> r.VariableDeclaration? && (r.initializer.Some? <==> s.init.Some?)
    ensures s.ExprStmt? ==> r.Expression?
    ensures s.ItemStmt? || s.OtherStmt? ==> r == StmtJson.Other(s.tokens)
    decreases s
  {
    match s
    case Local(pat, init) =>
      var name := if pat.Ident? then pat.ident else "unknown";
      VariableDeclaration(name, if init.Some? then Some(ExprToJson(init.value)) else None)
    case ExprStmt(e) => Expression(ExprToJson(e))
    case ItemStmt(_, tokens) => StmtJson.Other(tokens)
    case OtherStmt(tokens) => StmtJson.Other(tokens)
  }

  /** The statements vector that a loop of `visit_stmt_json` calls builds. */
  function StmtsToJson(ss: seq<Syntax.Stmt>): seq<StmtJson>
    decreases ss
  {
    if ss == [] then [] else StmtsToJson(ss[..|ss| - 1]) + [StmtToJson(ss[|ss| - 1])]
  }

  /** The call arguments, mapped by `visit_expr_json` and collected. */
  function ExprsToJson(es: seq<Syntax.Expr>): seq<ExprJson>
    decreases es
  {
    if es == [] then [] else ExprsToJson(es[..|es| - 1]) + [ExprToJson(es[|es| - 1])]
  }

  function LitToJson(lit: Syntax.Lit): ExprJson {
    match lit
    case IntLit(digits) => IntLiteral(digits)
    case FloatLit(digits) => FloatLiteral(digits)
    case StrLit(text) => StringLiteral(text)
    case BoolLit(flag) => BoolLiteral(flag)
    case OtherLit(tokens) => ExprJson.Other(tokens)
  }

  /** `visit_expr_json`. */
  function ExprToJson(e: Syntax.Expr): (r: ExprJson)
    ensures r.Other? <==> e.OtherExpr? || (e.LitExpr? && e.lit.OtherLit?)
    ensures r.Identifier? <==> e.Path?
    ensures r.IntLiteral? || r.FloatLiteral? || r.StringLiteral? || r.BoolLiteral?
      <==> e.LitExpr? && !e.lit.OtherLit?
    decreases e
  {
    match e
    case LitExpr(lit) => LitToJson(lit)
    case Binary(op, left, right) => Binary(Operators.Symbol(op), ExprToJson(left), ExprToJson(right))
    case Call(func, args) => FunctionCall(ExprToJson(func), ExprsToJson(args))
    case Path(path) => Identifier(path)
    case If(cond, thenBranch, elseBranch) =>
      If(ExprToJson(cond), StmtsToJson(thenBranch),
         if elseBranch.Some? then Some(ExprToJson(elseBranch.value)) else None)
    case Loop(body) => Loop(StmtsToJson(body))
    case While(cond, body) => While(ExprToJson(cond), StmtsToJson(body))
    case Return(value) => Return(if value.Some? then Some(ExprToJson(value.value)) else None)
    case OtherExpr(tokens) => ExprJson.Other(tokens)
  }
}
