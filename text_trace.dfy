/** What the text renderer has printed after visiting a construct, given what
    it had printed before: each function appends lines in exactly the order
    the visitor's `println!` calls and recursive visits produce them. */
module TextTrace {
  import opened Wrappers
  import Syntax
  import Operators
  import opened TextOutline

  /** The loop over the inputs in `visit_item_fn`. */
  function ParamsTrace(out: seq<string>, inputs: seq<Syntax.FnArg>, indent: nat): (r: seq<string>)
    ensures |r| >= |out|
  {
    if inputs == [] then out
    else ParamsTrace(out, inputs[..|inputs| - 1], indent) + ParamLine(inputs[|inputs| - 1], indent)
  }

  /** The loop over a struct's fields. */
  function FieldsTrace(out: seq<string>, fields: seq<Syntax.Field>, indent: nat): (r: seq<string>)
    ensures |r| >= |out|
  {
    if fields == [] then out
    else FieldsTrace(out, fields[..|fields| - 1], indent) + [FieldLine(fields[|fields| - 1], indent)]
  }

  /** The loop over an enum's variants. */
  function VariantsTrace(out: seq<string>, variants: seq<Syntax.Variant>, indent: nat): (r: seq<string>)
    ensures |r| >= |out|
  {
    if variants == [] then out
    else VariantsTrace(out, variants[..|variants| - 1], indent) + [Line(indent, "Variant: " + variants[|variants| - 1].ident)]
  }

  /** The `Parameters:` section, printed only when there are inputs. */
  function ParamsSection(out: seq<string>, inputs: seq<Syntax.FnArg>, indent: nat): (r: seq<string>)
    ensures |r| >= |out|
  {
    if |inputs| > 0 then ParamsTrace(out + [Line(indent, "Parameters:")], inputs, indent + 2) else out
  }

  /** `visit_item_fn`. */
  function FnTrace(out: seq<string>, f: Syntax.ItemFn, indent: nat): (r: seq<string>)
    ensures |r| > |out|
    decreases f, 1
  {
    var header := out + [Line(indent, "Function: " + f.ident)];
    var params := ParamsSection(header, f.inputs, indent + 2);
    var ret := if f.output.Type? then params + [Line(indent + 2, "Return type: " + f.output.ty)] else params;
    BlockTrace(ret + [Line(indent + 2, "Body:")], f.stmts, indent + 4)
  }

  /** A loop of `visit_stmt` calls over a block's statements. */
  function BlockTrace(out: seq<string>, ss: seq<Syntax.Stmt>, indent: nat): (r: seq<string>)
    ensures |r| >= |out|
    decreases ss, 1
  {
    if ss == [] then out else StmtTrace(BlockTrace(out, ss[..|ss| - 1], indent), ss[|ss| - 1], indent)
  }

  /** `visit_stmt`. */
  function StmtTrace(out: seq<string>, s: Syntax.Stmt, indent: nat): (r: seq<string>)
    ensures |r| > |out|
    decreases s, 1
  {
    match s
    case Local(pat, init) =>
      var decl := out + [Line(indent, "Variable declaration:")];
      var named := if pat.Ident? then decl + [Line(indent, "Name: " + pat.ident)] else decl;
      if init.Some? then OperandTrace(named, "Initializer:", init.value, indent) else named
    case ExprStmt(e) => OperandTrace(out, "Expression statement:", e, indent)
    case ItemStmt(item, _) => ItemTrace(out, item, indent)
    case OtherStmt(tokens) => out + [Line(indent, "Other statement: " + tokens)]
  }

  /** The item arm of `visit_stmt`. */
  function ItemTrace(out: seq<string>, item: Syntax.Item, indent: nat): (r: seq<string>)
    ensures |r| > |out|
    decreases item, 1
  {
    match item
    case Fn(f) => FnTrace(out, f, indent)
    case Struct(s) =>
      var header := out + [Line(indent, "Struct: " + s.ident)];
      if |s.fields| > 0 then FieldsTrace(header + [Line(indent, "Fields:")], s.fields, indent + 2) else header
    case Enum(e) =>
      var header := out + [Line(indent, "Enum: " + e.ident)];
      if |e.variants| > 0 then VariantsTrace(header + [Line(indent, "Variants:")], e.variants, indent + 2) else header
    case OtherItem(tokens) => out + [Line(indent, "Other item: " + tokens)]
  }

  /** The loop over a call's arguments. */
  function ArgsTrace(out: seq<string>, es: seq<Syntax.Expr>, indent: nat): (r: seq<string>)
    ensures |r| >= |out|
    decreases es, 1
  {
    if es == [] then out else ExprTrace(ArgsTrace(out, es[..|es| - 1], indent), es[|es| - 1], indent)
  }

  /** `visit_expr`. */
  function ExprTrace(out: seq<string>, e: Syntax.Expr, indent: nat): (r: seq<string>)
    ensures |r| > |out|
    decreases e, 1
  {
    match e
    case LitExpr(lit) => out + [Line(indent, LitLabel(lit))]
    case Binary(op, left, right) => BinaryTrace(out, op, left, right, indent)
    case Call(func, args) => CallTrace(out, func, args, indent)
    case Path(path) => out + [Line(indent, "Identifier: " + path)]
    case If(cond, thenBranch, elseBranch) => IfTrace(out, cond, thenBranch, elseBranch, indent)
    case Loop(body) => SectionTrace(out, "Loop:", body, indent)
    case While(cond, body) => WhileTrace(out, cond, body, indent)
    case Return(value) =>
      var r := out + [Line(indent, "Return statement:")];
      if value.Some? then ExprTrace(r, value.value, indent + 2) else r
    case OtherExpr(tokens) => out + [Line(indent, "Other expression: " + tokens)]
  }

  function BinaryTrace(out: seq<string>, op: Syntax.BinOp, left: Syntax.Expr, right: Syntax.Expr, indent: nat): (r: seq<string>)
    ensures |r| > |out|
    decreases Syntax.Binary(op, left, right), 0
  {
    var l := OperandTrace(out + [Line(indent, "Binary expression: " + Operators.Symbol(op))], "Left:", left, indent);
    OperandTrace(l, "Right:", right, indent)
  }

  function CallTrace(out: seq<string>, func: Syntax.Expr, args: seq<Syntax.Expr>, indent: nat): (r: seq<string>)
    ensures |r| > |out|
    decreases Syntax.Call(func, args), 0
  {
    var f := OperandTrace(out + [Line(indent, "Function call:")], "Function:", func, indent);
    if |args| > 0 then ArgsTrace(f + [Line(indent, "Arguments:")], args, indent + 2) else f
  }

  function IfTrace(out: seq<string>, cond: Syntax.Expr, thenBranch: seq<Syntax.Stmt>, elseBranch: Option<Syntax.Expr>, indent: nat): (r: seq<string>)
    ensures |r| > |out|
    decreases Syntax.If(cond, thenBranch, elseBranch), 0
  {
    var c := OperandTrace(out + [Line(indent, "If statement:")], "Condition:", cond, indent);
    var t := SectionTrace(c, "Then branch:", thenBranch, indent);
    ElseTrace(t, elseBranch, indent)
  }

  function WhileTrace(out: seq<string>, cond: Syntax.Expr, body: seq<Syntax.Stmt>, indent: nat): (r: seq<string>)
    ensures |r| > |out|
    decreases Syntax.While(cond, body), 0
  {
    var c := OperandTrace(out + [Line(indent, "While loop:")], "Condition:", cond, indent);
    SectionTrace(c, "Body:", body, indent)
  }

  /** The `else` part of an `if`, visited only when there is one. */
  function ElseTrace(out: seq<string>, elseBranch: Option<Syntax.Expr>, indent: nat): (r: seq<string>)
    ensures |r| >= |out|
    decreases elseBranch, 3
  {
    if elseBranch.Some? then OperandTrace(out, "Else branch:", elseBranch.value, indent) else out
  }

  /** A label, then a sub-expression visited two deeper. */
  function OperandTrace(out: seq<string>, text: string, e: Syntax.Expr, indent: nat): (r: seq<string>)
    ensures |r| > |out|
    decreases e, 2
  {
    ExprTrace(out + [Line(indent, text)], e, indent + 2)
  }

  /** A label, then a block visited two deeper. */
  function SectionTrace(out: seq<string>, text: string, ss: seq<Syntax.Stmt>, indent: nat): (r: seq<string>)
    ensures |r| >= |out|
    decreases ss, 2
  {
    BlockTrace(out + [Line(indent, text)], ss, indent + 2)
  }

  // ---------------------------------------------------------------------
  // The renderer only appends: each trace is the earlier output followed by
  // the construct's outline.

  lemma {:induction false} ParamsAppend(out: seq<string>, inputs: seq<Syntax.FnArg>, indent: nat)
    ensures ParamsTrace(out, inputs, indent) == out + ParamLines(inputs, indent)
  {
    if inputs != [] {
      ParamsAppend(out, inputs[..|inputs| - 1], indent);
    }
  }

  lemma {:induction false} FieldsAppend(out: seq<string>, fields: seq<Syntax.Field>, indent: nat)
    ensures FieldsTrace(out, fields, indent) == out + FieldLines(fields, indent)
  {
    if fields != [] {
      FieldsAppend(out, fields[..|fields| - 1], indent);
    }
  }

  lemma {:induction false} VariantsAppend(out: seq<string>, variants: seq<Syntax.Variant>, indent: nat)
    ensures VariantsTrace(out, variants, indent) == out + VariantLines(variants, indent)
  {
    if variants != [] {
      VariantsAppend(out, variants[..|variants| - 1], indent);
    }
  }

  lemma {:induction false} FnAppend(out: seq<string>, f: Syntax.ItemFn, indent: nat)
    ensures FnTrace(out, f, indent) == out + FnLines(f, indent)
    decreases f, 1
  {
    var h := [Line(indent, "Function: " + f.ident)];
    var header := out + h;
    var params := ParamsSection(header, f.inputs, indent + 2);
    var section := if |f.inputs| > 0 then [Line(indent + 2, "Parameters:")] + ParamLines(f.inputs, indent + 4) else [];
    var output := if f.output.Type? then [Line(indent + 2, "Return type: " + f.output.ty)] else [];
    var ret := if f.output.Type? then params + output else params;
    var body := [Line(indent + 2, "Body:")];
    var stmts := StmtsLines(f.stmts, indent + 4);
    if |f.inputs| > 0 {
      ParamsAppend(header + [Line(indent + 2, "Parameters:")], f.inputs, indent + 4);
      Assoc(header, [Line(indent + 2, "Parameters:")], ParamLines(f.inputs, indent + 4));
    }
    assert params == header + section;
    assert ret == params + output;
    BlockAppend(ret + body, f.stmts, indent + 4);
    Assoc(out, h + section + output + body, stmts);
    Assoc(out, h + section + output, body);
    Assoc(out, h + section, output);
    Assoc(out, h, section);
  }

  lemma {:induction false} BlockAppend(out: seq<string>, ss: seq<Syntax.Stmt>, indent: nat)
    ensures BlockTrace(out, ss, indent) == out + StmtsLines(ss, indent)
    decreases ss, 1
  {
    if ss != [] {
      var front := ss[..|ss| - 1];
      BlockAppend(out, front, indent);
      StmtAppend(BlockTrace(out, front, indent), ss[|ss| - 1], indent);
    }
  }

  lemma {:induction false} StmtAppend(out: seq<string>, s: Syntax.Stmt, indent: nat)
    ensures StmtTrace(out, s, indent) == out + StmtLines(s, indent)
    decreases s, 1
  {
    match s
    case Local(pat, init) =>
      var decl := out + [Line(indent, "Variable declaration:")];
      var named := if pat.Ident? then decl + [Line(indent, "Name: " + pat.ident)] else decl;
      if init.Some? {
        OperandAppend(named, "Initializer:", init.value, indent);
      }
    case ExprStmt(e) =>
      OperandAppend(out, "Expression statement:", e, indent);
    case ItemStmt(item, _) =>
      ItemAppend(out, item, indent);
    case OtherStmt(_) =>
  }

  lemma {:induction false} ItemAppend(out: seq<string>, item: Syntax.Item, indent: nat)
    ensures ItemTrace(out, item, indent) == out + ItemLines(item, indent)
    decreases item, 1
  {
    match item
    case Fn(f) =>
      FnAppend(out, f, indent);
    case Struct(st) =>
      if |st.fields| > 0 {
        FieldsAppend(out + [Line(indent, "Struct: " + st.ident)] + [Line(indent, "Fields:")], st.fields, indent + 2);
      }
    case Enum(en) =>
      if |en.variants| > 0 {
        VariantsAppend(out + [Line(indent, "Enum: " + en.ident)] + [Line(indent, "Variants:")], en.variants, indent + 2);
      }
    case OtherItem(_) =>
  }

  lemma {:induction false} ArgsAppend(out: seq<string>, es: seq<Syntax.Expr>, indent: nat)
    ensures ArgsTrace(out, es, indent) == out + ExprsLines(es, indent)
    decreases es, 1
  {
    if es != [] {
      var front := es[..|es| - 1];
      ArgsAppend(out, front, indent);
      ExprAppend(ArgsTrace(out, front, indent), es[|es| - 1], indent);
    }
  }

  lemma {:induction false} ExprAppend(out: seq<string>, e: Syntax.Expr, indent: nat)
    ensures ExprTrace(out, e, indent) == out + ExprLines(e, indent)
    decreases e, 1
  {
    match e
    case LitExpr(_) =>
    case Binary(op, left, right) =>
      BinaryAppend(out, op, left, right, indent);
    case Call(func, args) =>
      CallAppend(out, func, args, indent);
    case Path(_) =>
    case If(cond, thenBranch, elseBranch) =>
      IfAppend(out, cond, thenBranch, elseBranch, indent);
    case Loop(body) =>
      SectionAppend(out, "Loop:", body, indent);
    case While(cond, body) =>
      WhileAppend(out, cond, body, indent);
    case Return(value) =>
      if value.Some? {
        ExprAppend(out + [Line(indent, "Return statement:")], value.value, indent + 2);
      }
    case OtherExpr(_) =>
  }

  lemma {:induction false} OperandAppend(out: seq<string>, text: string, e: Syntax.Expr, indent: nat)
    ensures OperandTrace(out, text, e, indent) == out + [Line(indent, text)] + ExprLines(e, indent + 2)
    decreases e, 2
  {
    ExprAppend(out + [Line(indent, text)], e, indent + 2);
  }

  lemma {:induction false} SectionAppend(out: seq<string>, text: string, ss: seq<Syntax.Stmt>, indent: nat)
    ensures SectionTrace(out, text, ss, indent) == out + [Line(indent, text)] + StmtsLines(ss, indent + 2)
    decreases ss, 2
  {
    BlockAppend(out + [Line(indent, text)], ss, indent + 2);
  }

  lemma {:induction false} BinaryAppend(out: seq<string>, op: Syntax.BinOp, left: Syntax.Expr, right: Syntax.Expr, indent: nat)
    ensures BinaryTrace(out, op, left, right, indent) == out + ExprLines(Syntax.Binary(op, left, right), indent)
    decreases Syntax.Binary(op, left, right), 0
  {
    var header := Line(indent, "Binary expression: " + Operators.Symbol(op));
    OperandAppend(out + [header], "Left:", left, indent);
    OperandAppend(OperandTrace(out + [header], "Left:", left, indent), "Right:", right, indent);
    Join(out, header, Line(indent, "Left:"), ExprLines(left, indent + 2), Line(indent, "Right:"), ExprLines(right, indent + 2));
  }

  lemma {:induction false} CallAppend(out: seq<string>, func: Syntax.Expr, args: seq<Syntax.Expr>, indent: nat)
    ensures CallTrace(out, func, args, indent) == out + ExprLines(Syntax.Call(func, args), indent)
    decreases Syntax.Call(func, args), 0
  {
    var heads := [Line(indent, "Function call:"), Line(indent, "Function:")];
    var start := out + [heads[0]];
    OperandAppend(start, "Function:", func, indent);
    assert start + [heads[1]] == out + heads;
    var f := ExprLines(func, indent + 2);
    var arguments := if |args| > 0 then [Line(indent, "Arguments:")] + ExprsLines(args, indent + 2) else [];
    if |args| > 0 {
      ArgsAppend(OperandTrace(start, "Function:", func, indent) + [Line(indent, "Arguments:")], args, indent + 2);
      Assoc(out + heads + f, [Line(indent, "Arguments:")], ExprsLines(args, indent + 2));
    }
    assert CallTrace(out, func, args, indent) == out + heads + f + arguments;
    Assoc(out, heads + f, arguments);
    Assoc(out, heads, f);
  }

  lemma {:induction false} IfAppend(out: seq<string>, cond: Syntax.Expr, thenBranch: seq<Syntax.Stmt>, elseBranch: Option<Syntax.Expr>, indent: nat)
    ensures IfTrace(out, cond, thenBranch, elseBranch, indent) == out + ExprLines(Syntax.If(cond, thenBranch, elseBranch), indent)
    decreases Syntax.If(cond, thenBranch, elseBranch), 0
  {
    var header := Line(indent, "If statement:");
    var c := OperandTrace(out + [header], "Condition:", cond, indent);
    OperandAppend(out + [header], "Condition:", cond, indent);
    SectionAppend(c, "Then branch:", thenBranch, indent);
    ElseAppend(SectionTrace(c, "Then branch:", thenBranch, indent), elseBranch, indent);
    var parts := [header, Line(indent, "Condition:")] + ExprLines(cond, indent + 2) + [Line(indent, "Then branch:")] + StmtsLines(thenBranch, indent + 2);
    Join(out, header, Line(indent, "Condition:"), ExprLines(cond, indent + 2), Line(indent, "Then branch:"), StmtsLines(thenBranch, indent + 2));
    var el := ElseLines(elseBranch, indent);
    Assoc(out, parts, el);
  }

  /** The `else` part of an `if`, printed only when there is one. */
  lemma {:induction false} ElseAppend(out: seq<string>, elseBranch: Option<Syntax.Expr>, indent: nat)
    ensures ElseTrace(out, elseBranch, indent) == out + ElseLines(elseBranch, indent)
    decreases elseBranch, 4
  {
    if elseBranch.Some? {
      OperandAppend(out, "Else branch:", elseBranch.value, indent);
      Assoc(out, [Line(indent, "Else branch:")], ExprLines(elseBranch.value, indent + 2));
    } else {
      assert out + [] == out;
    }
  }

  lemma {:induction false} WhileAppend(out: seq<string>, cond: Syntax.Expr, body: seq<Syntax.Stmt>, indent: nat)
    ensures WhileTrace(out, cond, body, indent) == out + ExprLines(Syntax.While(cond, body), indent)
    decreases Syntax.While(cond, body), 0
  {
    var header := Line(indent, "While loop:");
    var c := OperandTrace(out + [header], "Condition:", cond, indent);
    OperandAppend(out + [header], "Condition:", cond, indent);
    SectionAppend(c, "Body:", body, indent);
    Join(out, header, Line(indent, "Condition:"), ExprLines(cond, indent + 2), Line(indent, "Body:"), StmtsLines(body, indent + 2));
  }

  /** Regrouping the output of a compound construct: a header, a label and
      its part, then a second label and its part. A proof aid with no
      counterpart in the renderer; it keeps the solver's work small. */
  lemma Join(out: seq<string>, header: string, a: string, x: seq<string>, b: string, y: seq<string>)
    ensures out + [header] + [a] + x + [b] + y == out + ([header, a] + x + [b] + y)
  {
    Assoc(out, [header, a] + x + [b], y);
    Assoc(out, [header, a] + x, [b]);
    Assoc(out, [header, a], x);
    assert out + [header] + [a] == out + [header, a];
  }

  /** Concatenation of outputs is associative; the proofs above rewrite with
      it one step at a time. A proof aid with no counterpart in the
      renderer; it keeps the solver's work small. */
  lemma Assoc(a: seq<string>, b: seq<string>, c: seq<string>)
    ensures a + (b + c) == a + b + c
  {
  }
}
