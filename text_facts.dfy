/** What the printed outline promises: every construct starts on a line at
    the indent it was visited with and everything inside it is deeper, a
    section label appears exactly when the section has something in it, and
    the lists the renderer prints are the ones the JSON builder records. */
module TextFacts {
  import opened Wrappers
  import Syntax
  import Operators
  import opened TextOutline
  import JsonModel
  import JsonFacts

  /** How many spaces a printed line starts with. */
  function Depth(line: string): nat
    decreases |line|
  {
    if line == [] || line[0] != ' ' then 0 else 1 + Depth(line[1..])
  }

  /** `Depth` counts exactly the leading spaces: they are all spaces and the
      character after them, if any, is not. */
  lemma {:induction false} DepthSpaces(line: string)
    ensures Depth(line) <= |line|
    ensures forall k :: 0 <= k < Depth(line) ==> line[k] == ' '
    ensures Depth(line) < |line| ==> line[Depth(line)] != ' '
    decreases |line|
  {
    if line != [] && line[0] == ' ' {
      var rest := line[1..];
      DepthSpaces(rest);
      forall k | 0 <= k < Depth(line) ensures line[k] == ' ' {
        if k > 0 {
          assert line[k] == rest[k - 1];
        }
      }
    }
  }

  /** A label: text that does not itself start with a space. Every label
      the renderer prints starts with a capital letter. */
  predicate IsLabel(text: string) {
    text != [] && text[0] != ' '
  }

  /** A line printed with a label is at exactly the indent it was printed
      with. */
  lemma LineDepth(indent: nat, text: string)
    requires IsLabel(text)
    ensures Depth(Line(indent, text)) == indent
  {
    DepthSpaces(Line(indent, text));
    assert Line(indent, text)[indent] == text[0];
  }

  /** Two lines printed with labels are equal only if both the indent and
      the label are. */
  lemma LineInjective(i: nat, a: string, j: nat, b: string)
    requires IsLabel(a) && IsLabel(b)
    requires Line(i, a) == Line(j, b)
    ensures i == j && a == b
  {
    LineDepth(i, a);
    LineDepth(j, b);
    assert a == Line(i, a)[i..];
    assert b == Line(j, b)[j..];
  }
  /** The label of a literal determines the literal: its kind by the first
      character, its text by what follows the kind's prefix. */
  lemma LitLabelInjective(a: Syntax.Lit, b: Syntax.Lit)
    requires LitLabel(a) == LitLabel(b)
    ensures a == b
  {
    var la := LitLabel(a);
    assert la[0] == LitLabel(b)[0];
    match a {
      case IntLit(x) =>
        assert x == la[|"Integer literal: "|..];
      case FloatLit(x) =>
        assert x == la[|"Float literal: "|..];
      case StrLit(x) =>
        assert x == la[|"String literal: \""|..|la| - 1];
      case BoolLit(x) =>
        assert |la| == if x then 21 else 22;
      case OtherLit(x) =>
        assert x == la[|"Other literal: "|..];
    }
  }


  /** Every line of `lines` is at `n` or deeper. */
  predicate AtLeast(lines: seq<string>, n: nat)
    decreases |lines|
  {
    lines == [] || (AtLeast(lines[..|lines| - 1], n) && Depth(lines[|lines| - 1]) >= n)
  }

  /** `AtLeast` speaks of every line. */
  lemma {:induction false} AtLeastAt(lines: seq<string>, n: nat, k: nat)
    requires AtLeast(lines, n) && k < |lines|
    ensures Depth(lines[k]) >= n
    decreases |lines|
  {
    if k < |lines| - 1 {
      AtLeastAt(lines[..|lines| - 1], n, k);
    }
  }

  /** Every line of `lines` is at exactly `n`. */
  predicate Exactly(lines: seq<string>, n: nat) {
    forall k :: 0 <= k < |lines| ==> Depth(lines[k]) == n
  }

  /** A construct's outline: it is not empty, its first line is at the
      indent it was visited with, and no line is shallower. */
  predicate Nested(lines: seq<string>, n: nat) {
    |lines| > 0 && Depth(lines[0]) == n && AtLeast(lines, n)
  }

  lemma {:induction false} AtLeastJoin(a: seq<string>, b: seq<string>, n: nat)
    requires AtLeast(a, n) && AtLeast(b, n)
    ensures AtLeast(a + b, n)
    decreases |b|
  {
    if b == [] {
      assert a + b == a;
    } else {
      assert (a + b)[..|a + b| - 1] == a + b[..|b| - 1];
      assert (a + b)[|a + b| - 1] == b[|b| - 1];
      AtLeastJoin(a, b[..|b| - 1], n);
    }
  }

  lemma {:induction false} AtLeastDeeper(lines: seq<string>, m: nat, n: nat)
    requires AtLeast(lines, m) && n <= m
    ensures AtLeast(lines, n)
    decreases |lines|
  {
    if lines != [] {
      AtLeastDeeper(lines[..|lines| - 1], m, n);
    }
  }

  /** Lines all at exactly `n` are at `n` or deeper. */
  lemma {:induction false} ExactlyAtLeast(lines: seq<string>, n: nat)
    requires Exactly(lines, n)
    ensures AtLeast(lines, n)
    decreases |lines|
  {
    if lines != [] {
      var front := lines[..|lines| - 1];
      assert Exactly(front, n) by {
        forall k | 0 <= k < |front| ensures Depth(front[k]) == n {
          assert front[k] == lines[k];
        }
      }
      ExactlyAtLeast(front, n);
    }
  }

  /** A line printed at `d` or deeper, on its own. */
  lemma LineAtLeast(d: nat, n: nat, text: string)
    requires IsLabel(text) && n <= d
    ensures AtLeast([Line(d, text)], n)
  {
    LineDepth(d, text);
    assert [Line(d, text)][..0] == [];
  }

  /** A one-line construct. */
  lemma Single(indent: nat, text: string)
    requires IsLabel(text)
    ensures Nested([Line(indent, text)], indent)
  {
    LineDepth(indent, text);
    LineAtLeast(indent, indent, text);
  }

  /** The two labels that open a compound expression. */
  lemma Pair(indent: nat, a: string, b: string)
    requires IsLabel(a) && IsLabel(b)
    ensures Nested([Line(indent, a), Line(indent, b)], indent)
  {
    LineDepth(indent, a);
    LineAtLeast(indent, indent, a);
    LineAtLeast(indent, indent, b);
    AtLeastJoin([Line(indent, a)], [Line(indent, b)], indent);
    assert [Line(indent, a)] + [Line(indent, b)] == [Line(indent, a), Line(indent, b)];
  }

  /** Appending a part that lies at or below the indent keeps a construct
      nested at that indent. */
  lemma Extend(lines: seq<string>, part: seq<string>, indent: nat)
    requires Nested(lines, indent) && AtLeast(part, indent)
    ensures Nested(lines + part, indent)
  {
    AtLeastJoin(lines, part, indent);
  }

  /** Appending a label line at the indent. */
  lemma ExtendLabel(lines: seq<string>, indent: nat, text: string)
    requires Nested(lines, indent) && IsLabel(text)
    ensures Nested(lines + [Line(indent, text)], indent)
  {
    LineAtLeast(indent, indent, text);
    AtLeastJoin(lines, [Line(indent, text)], indent);
  }

  /** A label line followed by lines at least as deep as the label. */
  lemma Headed(d: nat, n: nat, text: string, part: seq<string>)
    requires IsLabel(text) && n <= d && AtLeast(part, n)
    ensures AtLeast([Line(d, text)] + part, n)
  {
    LineAtLeast(d, n, text);
    AtLeastJoin([Line(d, text)], part, n);
  }

  // ---------------------------------------------------------------------
  // Nesting

  lemma {:induction false} ParamsExactly(inputs: seq<Syntax.FnArg>, indent: nat)
    ensures Exactly(ParamLines(inputs, indent), indent)
    decreases |inputs|
  {
    if inputs != [] {
      ParamsExactly(inputs[..|inputs| - 1], indent);
      match inputs[|inputs| - 1] {
        case Typed(pat, ty) =>
          if pat.Ident? {
            LineDepth(indent, "Parameter: " + pat.ident + " - Type: " + ty);
          }
        case Receiver(tokens) =>
          LineDepth(indent, "Self receiver: " + tokens);
      }
    }
  }

  lemma {:induction false} FieldsExactly(fields: seq<Syntax.Field>, indent: nat)
    ensures Exactly(FieldLines(fields, indent), indent)
    decreases |fields|
  {
    if fields != [] {
      FieldsExactly(fields[..|fields| - 1], indent);
      var field := fields[|fields| - 1];
      if field.ident.Some? {
        LineDepth(indent, "Field: " + field.ident.value + " - Type: " + field.ty);
      } else {
        LineDepth(indent, "Tuple field: " + field.ty);
      }
    }
  }

  lemma {:induction false} VariantsExactly(variants: seq<Syntax.Variant>, indent: nat)
    ensures Exactly(VariantLines(variants, indent), indent)
    decreases |variants|
  {
    if variants != [] {
      VariantsExactly(variants[..|variants| - 1], indent);
      LineDepth(indent, "Variant: " + variants[|variants| - 1].ident);
    }
  }

  /** The parameters section of a function at `indent`: the label two
      deeper, the parameter lines four deeper. */
  lemma ParamsSectionAtLeast(inputs: seq<Syntax.FnArg>, indent: nat)
    ensures AtLeast(if |inputs| > 0 then [Line(indent + 2, "Parameters:")] + ParamLines(inputs, indent + 4) else [], indent)
  {
    if |inputs| > 0 {
      ParamsExactly(inputs, indent + 4);
      ExactlyAtLeast(ParamLines(inputs, indent + 4), indent + 4);
      AtLeastDeeper(ParamLines(inputs, indent + 4), indent + 4, indent);
      Headed(indent + 2, indent, "Parameters:", ParamLines(inputs, indent + 4));
    }
  }

  lemma FieldsSectionAtLeast(fields: seq<Syntax.Field>, indent: nat)
    ensures AtLeast(if |fields| > 0 then [Line(indent, "Fields:")] + FieldLines(fields, indent + 2) else [], indent)
  {
    if |fields| > 0 {
      FieldsExactly(fields, indent + 2);
      ExactlyAtLeast(FieldLines(fields, indent + 2), indent + 2);
      AtLeastDeeper(FieldLines(fields, indent + 2), indent + 2, indent);
      Headed(indent, indent, "Fields:", FieldLines(fields, indent + 2));
    }
  }

  lemma VariantsSectionAtLeast(variants: seq<Syntax.Variant>, indent: nat)
    ensures AtLeast(if |variants| > 0 then [Line(indent, "Variants:")] + VariantLines(variants, indent + 2) else [], indent)
  {
    if |variants| > 0 {
      VariantsExactly(variants, indent + 2);
      ExactlyAtLeast(VariantLines(variants, indent + 2), indent + 2);
      AtLeastDeeper(VariantLines(variants, indent + 2), indent + 2, indent);
      Headed(indent, indent, "Variants:", VariantLines(variants, indent + 2));
    }
  }

  /** Everything a function prints before its body statements. */
  lemma FnHeaderNested(f: Syntax.ItemFn, indent: nat)
    ensures Nested([Line(indent, "Function: " + f.ident)]
      + (if |f.inputs| > 0 then [Line(indent + 2, "Parameters:")] + ParamLines(f.inputs, indent + 4) else [])
      + (if f.output.Type? then [Line(indent + 2, "Return type: " + f.output.ty)] else [])
      + [Line(indent + 2, "Body:")], indent)
  {
    var head := [Line(indent, "Function: " + f.ident)];
    var params := if |f.inputs| > 0 then [Line(indent + 2, "Parameters:")] + ParamLines(f.inputs, indent + 4) else [];
    var ret := if f.output.Type? then [Line(indent + 2, "Return type: " + f.output.ty)] else [];
    Single(indent, "Function: " + f.ident);
    ParamsSectionAtLeast(f.inputs, indent);
    Extend(head, params, indent);
    if f.output.Type? {
      LineAtLeast(indent + 2, indent, "Return type: " + f.output.ty);
    }
    Extend(head + params, ret, indent);
    LineAtLeast(indent + 2, indent, "Body:");
    Extend(head + params + ret, [Line(indent + 2, "Body:")], indent);
  }

  /** A function definition starts at the indent it is visited with; its
      sections are two deeper and its parameters and statements four. */
  lemma {:induction false} FnNested(f: Syntax.ItemFn, indent: nat)
    ensures Nested(FnLines(f, indent), indent)
    decreases f, 1
  {
    var header := [Line(indent, "Function: " + f.ident)]
      + (if |f.inputs| > 0 then [Line(indent + 2, "Parameters:")] + ParamLines(f.inputs, indent + 4) else [])
      + (if f.output.Type? then [Line(indent + 2, "Return type: " + f.output.ty)] else [])
      + [Line(indent + 2, "Body:")];
    FnHeaderNested(f, indent);
    StmtsAtLeast(f.stmts, indent + 4);
    AtLeastDeeper(StmtsLines(f.stmts, indent + 4), indent + 4, indent);
    Extend(header, StmtsLines(f.stmts, indent + 4), indent);
  }

  lemma {:induction false} ItemNested(item: Syntax.Item, indent: nat)
    ensures Nested(ItemLines(item, indent), indent)
    decreases item, 1
  {
    match item {
      case Fn(f) =>
        FnNested(f, indent);
      case Struct(s) =>
        StructNested(s, indent);
      case Enum(e) =>
        EnumNested(e, indent);
      case OtherItem(tokens) =>
        Single(indent, "Other item: " + tokens);
    }
  }

  lemma StructNested(s: Syntax.ItemStruct, indent: nat)
    ensures Nested(ItemLines(Syntax.Struct(s), indent), indent)
  {
    Single(indent, "Struct: " + s.ident);
    FieldsSectionAtLeast(s.fields, indent);
    Extend([Line(indent, "Struct: " + s.ident)],
      if |s.fields| > 0 then [Line(indent, "Fields:")] + FieldLines(s.fields, indent + 2) else [], indent);
  }

  lemma EnumNested(e: Syntax.ItemEnum, indent: nat)
    ensures Nested(ItemLines(Syntax.Enum(e), indent), indent)
  {
    Single(indent, "Enum: " + e.ident);
    VariantsSectionAtLeast(e.variants, indent);
    Extend([Line(indent, "Enum: " + e.ident)],
      if |e.variants| > 0 then [Line(indent, "Variants:")] + VariantLines(e.variants, indent + 2) else [], indent);
  }

  lemma {:induction false} StmtNested(s: Syntax.Stmt, indent: nat)
    ensures Nested(StmtLines(s, indent), indent)
    decreases s, 1
  {
    match s {
      case Local(pat, init) =>
        LocalNested(pat, init, indent);
      case ExprStmt(e) =>
        Single(indent, "Expression statement:");
        ExprNested(e, indent + 2);
        AtLeastDeeper(ExprLines(e, indent + 2), indent + 2, indent);
        Extend([Line(indent, "Expression statement:")], ExprLines(e, indent + 2), indent);
      case ItemStmt(item, _) =>
        ItemNested(item, indent);
      case OtherStmt(tokens) =>
        Single(indent, "Other statement: " + tokens);
    }
  }

  lemma {:induction false} LocalNested(pat: Syntax.Pat, init: Option<Syntax.Expr>, indent: nat)
    ensures Nested(StmtLines(Syntax.Local(pat, init), indent), indent)
    decreases Syntax.Local(pat, init), 0
  {
    var head := [Line(indent, "Variable declaration:")];
    var name := if pat.Ident? then [Line(indent, "Name: " + pat.ident)] else [];
    Single(indent, "Variable declaration:");
    if pat.Ident? {
      LineAtLeast(indent, indent, "Name: " + pat.ident);
    }
    Extend(head, name, indent);
    if init.Some? {
      ExprNested(init.value, indent + 2);
      AtLeastDeeper(ExprLines(init.value, indent + 2), indent + 2, indent);
      Headed(indent, indent, "Initializer:", ExprLines(init.value, indent + 2));
    }
    Extend(head + name,
      if init.Some? then [Line(indent, "Initializer:")] + ExprLines(init.value, indent + 2) else [], indent);
  }

  /** A block's statements all lie at or below the block's indent. */
  lemma {:induction false} StmtsAtLeast(ss: seq<Syntax.Stmt>, indent: nat)
    ensures AtLeast(StmtsLines(ss, indent), indent)
    decreases ss, 1
  {
    if ss != [] {
      StmtsAtLeast(ss[..|ss| - 1], indent);
      StmtNested(ss[|ss| - 1], indent);
      AtLeastJoin(StmtsLines(ss[..|ss| - 1], indent), StmtLines(ss[|ss| - 1], indent), indent);
    }
  }

  lemma {:induction false} ExprsAtLeast(es: seq<Syntax.Expr>, indent: nat)
    ensures AtLeast(ExprsLines(es, indent), indent)
    decreases es, 1
  {
    if es != [] {
      ExprsAtLeast(es[..|es| - 1], indent);
      ExprNested(es[|es| - 1], indent);
      AtLeastJoin(ExprsLines(es[..|es| - 1], indent), ExprLines(es[|es| - 1], indent), indent);
    }
  }

  /** A label at the indent followed by a part printed two deeper. */
  lemma Section(lines: seq<string>, indent: nat, text: string, part: seq<string>)
    requires Nested(lines, indent) && IsLabel(text) && AtLeast(part, indent + 2)
    ensures Nested(lines + [Line(indent, text)] + part, indent)
  {
    ExtendLabel(lines, indent, text);
    AtLeastDeeper(part, indent + 2, indent);
    Extend(lines + [Line(indent, text)], part, indent);
  }

  /** A label followed by lines two deeper. */
  lemma HeadedShape(indent: nat, text: string, part: seq<string>)
    requires IsLabel(text) && AtLeast(part, indent + 2)
    ensures Nested([Line(indent, text)] + part, indent)
  {
    Single(indent, text);
    AtLeastDeeper(part, indent + 2, indent);
    Extend([Line(indent, text)], part, indent);
  }

  /** The shape of a binary expression's outline, whatever its operands
      print. */
  lemma BinaryShape(indent: nat, header: string, l: seq<string>, r: seq<string>)
    requires IsLabel(header) && AtLeast(l, indent + 2) && AtLeast(r, indent + 2)
    ensures Nested([Line(indent, header), Line(indent, "Left:")] + l + [Line(indent, "Right:")] + r, indent)
  {
    var head := [Line(indent, header), Line(indent, "Left:")];
    Pair(indent, header, "Left:");
    AtLeastDeeper(l, indent + 2, indent);
    Extend(head, l, indent);
    Section(head + l, indent, "Right:", r);
  }

  /** The shape of a call's outline. */
  lemma CallShape(indent: nat, f: seq<string>, hasArgs: bool, a: seq<string>)
    requires AtLeast(f, indent + 2) && AtLeast(a, indent + 2)
    ensures Nested([Line(indent, "Function call:"), Line(indent, "Function:")] + f
      + (if hasArgs then [Line(indent, "Arguments:")] + a else []), indent)
  {
    var head := [Line(indent, "Function call:"), Line(indent, "Function:")];
    Pair(indent, "Function call:", "Function:");
    AtLeastDeeper(f, indent + 2, indent);
    Extend(head, f, indent);
    if hasArgs {
      Section(head + f, indent, "Arguments:", a);
      assert head + f + ([Line(indent, "Arguments:")] + a) == head + f + [Line(indent, "Arguments:")] + a;
    } else {
      assert head + f + [] == head + f;
    }
  }

  /** A header, a condition two deeper under its label, then a block two
      deeper under its label: the common shape of `if` and `while`. */
  lemma ConditionalShape(indent: nat, header: string, c: seq<string>, section: string, t: seq<string>)
    requires IsLabel(header) && IsLabel(section)
    requires AtLeast(c, indent + 2) && AtLeast(t, indent + 2)
    ensures Nested([Line(indent, header), Line(indent, "Condition:")] + c
      + [Line(indent, section)] + t, indent)
  {
    var head := [Line(indent, header), Line(indent, "Condition:")];
    Pair(indent, header, "Condition:");
    AtLeastDeeper(c, indent + 2, indent);
    Extend(head, c, indent);
    Section(head + c, indent, section, t);
  }

  /** The shape of an `if`'s outline, the `else` part already placed. */
  lemma IfShape(indent: nat, c: seq<string>, t: seq<string>, el: seq<string>)
    requires AtLeast(c, indent + 2) && AtLeast(t, indent + 2) && AtLeast(el, indent)
    ensures Nested([Line(indent, "If statement:"), Line(indent, "Condition:")] + c
      + [Line(indent, "Then branch:")] + t + el, indent)
  {
    ConditionalShape(indent, "If statement:", c, "Then branch:", t);
    Extend([Line(indent, "If statement:"), Line(indent, "Condition:")] + c + [Line(indent, "Then branch:")] + t, el, indent);
  }

  /** An expression starts at the indent it is visited with and every
      sub-expression and statement inside it is at least two deeper than
      the label that introduces it. */
  lemma {:induction false} ExprNested(e: Syntax.Expr, indent: nat)
    ensures Nested(ExprLines(e, indent), indent)
    decreases e, 1
  {
    match e {
      case LitExpr(lit) =>
        Single(indent, LitLabel(lit));
      case Binary(op, left, right) =>
        BinaryNested(op, left, right, indent);
      case Call(func, args) =>
        CallNested(func, args, indent);
      case Path(path) =>
        Single(indent, "Identifier: " + path);
      case If(cond, thenBranch, elseBranch) =>
        IfNested(cond, thenBranch, elseBranch, indent);
      case Loop(body) =>
        LoopNested(body, indent);
      case While(cond, body) =>
        WhileNested(cond, body, indent);
      case Return(value) =>
        ReturnNested(value, indent);
      case OtherExpr(tokens) =>
        Single(indent, "Other expression: " + tokens);
    }
  }

  lemma {:induction false} BinaryNested(op: Syntax.BinOp, left: Syntax.Expr, right: Syntax.Expr, indent: nat)
    ensures Nested(ExprLines(Syntax.Binary(op, left, right), indent), indent)
    decreases Syntax.Binary(op, left, right), 0
  {
    var header := "Binary expression: " + Operators.Symbol(op);
    var l := ExprLines(left, indent + 2);
    var r := ExprLines(right, indent + 2);
    assert ExprLines(Syntax.Binary(op, left, right), indent) == [Line(indent, header), Line(indent, "Left:")] + l + [Line(indent, "Right:")] + r;
    ExprNested(left, indent + 2);
    ExprNested(right, indent + 2);
    BinaryShape(indent, header, l, r);
  }

  lemma {:induction false} CallNested(func: Syntax.Expr, args: seq<Syntax.Expr>, indent: nat)
    ensures Nested(ExprLines(Syntax.Call(func, args), indent), indent)
    decreases Syntax.Call(func, args), 0
  {
    var f := ExprLines(func, indent + 2);
    var a := ExprsLines(args, indent + 2);
    assert ExprLines(Syntax.Call(func, args), indent)
      == [Line(indent, "Function call:"), Line(indent, "Function:")] + f + (if |args| > 0 then [Line(indent, "Arguments:")] + a else []);
    ExprNested(func, indent + 2);
    ExprsAtLeast(args, indent + 2);
    CallShape(indent, f, |args| > 0, a);
  }

  lemma {:induction false} LoopNested(body: seq<Syntax.Stmt>, indent: nat)
    ensures Nested(ExprLines(Syntax.Loop(body), indent), indent)
    decreases Syntax.Loop(body), 0
  {
    StmtsAtLeast(body, indent + 2);
    HeadedShape(indent, "Loop:", StmtsLines(body, indent + 2));
  }

  lemma {:induction false} WhileNested(cond: Syntax.Expr, body: seq<Syntax.Stmt>, indent: nat)
    ensures Nested(ExprLines(Syntax.While(cond, body), indent), indent)
    decreases Syntax.While(cond, body), 0
  {
    var c := ExprLines(cond, indent + 2);
    var t := StmtsLines(body, indent + 2);
    assert ExprLines(Syntax.While(cond, body), indent) == [Line(indent, "While loop:"), Line(indent, "Condition:")] + c + [Line(indent, "Body:")] + t;
    ExprNested(cond, indent + 2);
    StmtsAtLeast(body, indent + 2);
    ConditionalShape(indent, "While loop:", c, "Body:", t);
  }

  lemma {:induction false} ReturnNested(value: Option<Syntax.Expr>, indent: nat)
    ensures Nested(ExprLines(Syntax.Return(value), indent), indent)
    decreases Syntax.Return(value), 0
  {
    if value.Some? {
      ExprNested(value.value, indent + 2);
      HeadedShape(indent, "Return statement:", ExprLines(value.value, indent + 2));
    } else {
      HeadedShape(indent, "Return statement:", []);
    }
  }

  lemma {:induction false} IfNested(cond: Syntax.Expr, thenBranch: seq<Syntax.Stmt>, elseBranch: Option<Syntax.Expr>, indent: nat)
    ensures Nested(ExprLines(Syntax.If(cond, thenBranch, elseBranch), indent), indent)
    decreases Syntax.If(cond, thenBranch, elseBranch), 0
  {
    var c := ExprLines(cond, indent + 2);
    var t := StmtsLines(thenBranch, indent + 2);
    var el := ElseLines(elseBranch, indent);
    assert ExprLines(Syntax.If(cond, thenBranch, elseBranch), indent)
      == [Line(indent, "If statement:"), Line(indent, "Condition:")] + c + [Line(indent, "Then branch:")] + t + el;
    ExprNested(cond, indent + 2);
    StmtsAtLeast(thenBranch, indent + 2);
    ElseAtLeast(elseBranch, indent);
    IfShape(indent, c, t, el);
  }

  /** An `else` branch, when there is one, lies at or below the `if`. */
  lemma {:induction false} ElseAtLeast(elseBranch: Option<Syntax.Expr>, indent: nat)
    ensures AtLeast(ElseLines(elseBranch, indent), indent)
    decreases elseBranch, 2
  {
    if elseBranch.Some? {
      ExprNested(elseBranch.value, indent + 2);
      HeadedShape(indent, "Else branch:", ExprLines(elseBranch.value, indent + 2));
    }
  }

  // ---------------------------------------------------------------------
  // Section labels

  /** Lines with different indents, or with labels that start differently,
      are different lines. */
  lemma Distinct(i: nat, a: string, j: nat, b: string)
    requires IsLabel(a) && IsLabel(b)
    requires i != j || a[0] != b[0]
    ensures Line(i, a) != Line(j, b)
  {
    LineDepth(i, a);
    LineDepth(j, b);
    if i == j {
      assert Line(i, a)[i] == a[0];
      assert Line(j, b)[j] == b[0];
    }
  }

  /** A label line cannot be among lines that are all deeper than it. */
  lemma LabelNotIn(lines: seq<string>, n: nat, text: string)
    requires AtLeast(lines, n + 1) && IsLabel(text)
    ensures Line(n, text) !in lines
  {
    LineDepth(n, text);
    forall k | 0 <= k < |lines| ensures lines[k] != Line(n, text) {
      AtLeastAt(lines, n + 1, k);
    }
  }

  /** A label line is not among the lines of a sub-expression printed two
      deeper. */
  lemma LabelNotInExpr(e: Syntax.Expr, n: nat, text: string)
    requires IsLabel(text)
    ensures Line(n, text) !in ExprLines(e, n + 2)
  {
    ExprNested(e, n + 2);
    AtLeastDeeper(ExprLines(e, n + 2), n + 2, n + 1);
    LabelNotIn(ExprLines(e, n + 2), n, text);
  }

  /** The same for a block printed two deeper. */
  lemma LabelNotInStmts(ss: seq<Syntax.Stmt>, n: nat, text: string)
    requires IsLabel(text)
    ensures Line(n, text) !in StmtsLines(ss, n + 2)
  {
    StmtsAtLeast(ss, n + 2);
    AtLeastDeeper(StmtsLines(ss, n + 2), n + 2, n + 1);
    LabelNotIn(StmtsLines(ss, n + 2), n, text);
  }

  /** The same for parameter lines printed two deeper. */
  lemma LabelNotInParams(inputs: seq<Syntax.FnArg>, n: nat, text: string)
    requires IsLabel(text)
    ensures Line(n, text) !in ParamLines(inputs, n + 2)
  {
    ParamsExactly(inputs, n + 2);
    ExactlyAtLeast(ParamLines(inputs, n + 2), n + 2);
    AtLeastDeeper(ParamLines(inputs, n + 2), n + 2, n + 1);
    LabelNotIn(ParamLines(inputs, n + 2), n, text);
  }

  /** A function's outline has its "Parameters:" label exactly when the
      function has inputs (even inputs that print no line of their own); its
      "Body:" label is always there. */
  lemma FnParametersLabel(f: Syntax.ItemFn, indent: nat)
    ensures Line(indent + 2, "Parameters:") in FnLines(f, indent) <==> |f.inputs| > 0
    ensures Line(indent + 2, "Body:") in FnLines(f, indent)
  {
    Distinct(indent + 2, "Parameters:", indent, "Function: " + f.ident);
    LabelNotInParams(f.inputs, indent + 2, "Parameters:");
    if f.output.Type? {
      Distinct(indent + 2, "Parameters:", indent + 2, "Return type: " + f.output.ty);
    }
    Distinct(indent + 2, "Parameters:", indent + 2, "Body:");
    LabelNotInStmts(f.stmts, indent + 2, "Parameters:");
  }

  /** A function's outline shows the return type `ty` exactly when the
      function declares `-> ty`. */
  lemma FnReturnTypeLabel(f: Syntax.ItemFn, indent: nat, ty: string)
    ensures Line(indent + 2, "Return type: " + ty) in FnLines(f, indent) <==> f.output == Syntax.Type(ty)
  {
    var text := "Return type: " + ty;
    Distinct(indent + 2, text, indent, "Function: " + f.ident);
    Distinct(indent + 2, text, indent + 2, "Parameters:");
    LabelNotInParams(f.inputs, indent + 2, text);
    if f.output.Type? && Line(indent + 2, text) == Line(indent + 2, "Return type: " + f.output.ty) {
      LineInjective(indent + 2, text, indent + 2, "Return type: " + f.output.ty);
      assert ty == text[13..] == ("Return type: " + f.output.ty)[13..] == f.output.ty;
    }
    Distinct(indent + 2, text, indent + 2, "Body:");
    LabelNotInStmts(f.stmts, indent + 2, text);
  }

  /** A struct's outline has its "Fields:" label exactly when the struct has
      fields. */
  lemma StructFieldsLabel(s: Syntax.ItemStruct, indent: nat)
    ensures Line(indent, "Fields:") in ItemLines(Syntax.Struct(s), indent) <==> |s.fields| > 0
  {
    Distinct(indent, "Fields:", indent, "Struct: " + s.ident);
  }

  /** An enum's outline has its "Variants:" label exactly when the enum has
      variants. */
  lemma EnumVariantsLabel(e: Syntax.ItemEnum, indent: nat)
    ensures Line(indent, "Variants:") in ItemLines(Syntax.Enum(e), indent) <==> |e.variants| > 0
  {
    Distinct(indent, "Variants:", indent, "Enum: " + e.ident);
  }

  /** A `let` statement's outline has its "Initializer:" label exactly when
      the statement has an initializer. */
  lemma LocalInitializerLabel(pat: Syntax.Pat, init: Option<Syntax.Expr>, indent: nat)
    ensures Line(indent, "Initializer:") in StmtLines(Syntax.Local(pat, init), indent) <==> init.Some?
  {
    Distinct(indent, "Initializer:", indent, "Variable declaration:");
    if pat.Ident? {
      Distinct(indent, "Initializer:", indent, "Name: " + pat.ident);
    }
  }

  /** A `let` statement's outline shows "Name: n", at the declaration's own
      indent, exactly when its pattern is the identifier `n`. */
  lemma LocalNameLabel(pat: Syntax.Pat, init: Option<Syntax.Expr>, indent: nat, n: string)
    ensures Line(indent, "Name: " + n) in StmtLines(Syntax.Local(pat, init), indent) <==> pat == Syntax.Ident(n)
  {
    var text := "Name: " + n;
    Distinct(indent, text, indent, "Variable declaration:");
    if pat.Ident? && Line(indent, text) == Line(indent, "Name: " + pat.ident) {
      LineInjective(indent, text, indent, "Name: " + pat.ident);
      assert n == text[6..] == ("Name: " + pat.ident)[6..] == pat.ident;
    }
    if init.Some? {
      Distinct(indent, text, indent, "Initializer:");
      LabelNotInExpr(init.value, indent, text);
    }
  }

  /** A binary expression's outline opens with the operator the JSON builder
      records for it, then "Left:" at the same indent, the left operand two
      deeper, and "Right:" back at the header's indent. */
  lemma BinaryHeader(op: Syntax.BinOp, left: Syntax.Expr, right: Syntax.Expr, indent: nat)
    ensures var lines := ExprLines(Syntax.Binary(op, left, right), indent);
      var k := 2 + |ExprLines(left, indent + 2)|;
      k + 1 < |lines|
      && lines[0] == Line(indent, "Binary expression: " + JsonModel.ExprToJson(Syntax.Binary(op, left, right)).operator)
      && lines[1] == Line(indent, "Left:")
      && Depth(lines[2]) == indent + 2
      && lines[k] == Line(indent, "Right:")
      && Depth(lines[k + 1]) == indent + 2
  {
    var header := "Binary expression: " + Operators.Symbol(op);
    var l := ExprLines(left, indent + 2);
    var r := ExprLines(right, indent + 2);
    JsonFacts.BinaryOperator(op, left, right);
    ExprNested(left, indent + 2);
    ExprNested(right, indent + 2);
    BinaryIndices(indent, header, l, r);
    assert ExprLines(Syntax.Binary(op, left, right), indent) == [Line(indent, header), Line(indent, "Left:")] + l + [Line(indent, "Right:")] + r;
  }

  /** Where the labels and operands sit in a binary expression's outline. */
  lemma BinaryIndices(indent: nat, header: string, l: seq<string>, r: seq<string>)
    requires |l| > 0 && |r| > 0
    ensures var lines := [Line(indent, header), Line(indent, "Left:")] + l + [Line(indent, "Right:")] + r;
      var k := 2 + |l|;
      k + 1 < |lines|
      && lines[0] == Line(indent, header)
      && lines[1] == Line(indent, "Left:")
      && lines[2] == l[0]
      && lines[k] == Line(indent, "Right:")
      && lines[k + 1] == r[0]
  {
  }

  /** A `let`'s outline: the declaration line, then `Name:` for an
      identifier pattern, then `Initializer:` at the same indent with the
      initializer's outline starting two deeper; nothing else. */
  lemma LocalLayout(pat: Syntax.Pat, init: Option<Syntax.Expr>, indent: nat)
    ensures var ls := StmtLines(Syntax.Local(pat, init), indent);
      var k := if pat.Ident? then 2 else 1;
      k <= |ls|
      && ls[0] == Line(indent, "Variable declaration:")
      && (pat.Ident? ==> ls[1] == Line(indent, "Name: " + pat.ident))
      && (init.None? ==> |ls| == k)
      && (init.Some? ==> k + 1 < |ls| && ls[k] == Line(indent, "Initializer:") && Depth(ls[k + 1]) == indent + 2)
      && (init.Some? ==> ls[k + 1..] == ExprLines(init.value, indent + 2))
  {
    var name := if pat.Ident? then [Line(indent, "Name: " + pat.ident)] else [];
    if init.Some? {
      var e := ExprLines(init.value, indent + 2);
      var tail := [Line(indent, "Initializer:")] + e;
      ExprNested(init.value, indent + 2);
      LocalIndices(Line(indent, "Variable declaration:"), name, Line(indent, "Initializer:"), e);
      assert StmtLines(Syntax.Local(pat, init), indent) == [Line(indent, "Variable declaration:")] + name + tail;
      assert ([Line(indent, "Variable declaration:")] + name + tail)[|name| + 2..] == e;
    }
  }

  /** Positions in a header, an optional line, a label and a part. */
  lemma LocalIndices(header: string, name: seq<string>, tag: string, e: seq<string>)
    requires |e| > 0
    ensures var ls := [header] + name + [tag] + e;
      |name| + 2 < |ls| && ls[0] == header && (|name| > 0 ==> ls[1] == name[0])
      && ls[|name| + 1] == tag && ls[|name| + 2] == e[0]
  {
  }


  /** A call's outline has its "Arguments:" label exactly when the call has
      arguments. */
  lemma CallArgumentsLabel(func: Syntax.Expr, args: seq<Syntax.Expr>, indent: nat)
    ensures Line(indent, "Arguments:") in ExprLines(Syntax.Call(func, args), indent) <==> |args| > 0
  {
    Distinct(indent, "Arguments:", indent, "Function call:");
    Distinct(indent, "Arguments:", indent, "Function:");
    LabelNotInExpr(func, indent, "Arguments:");
  }

  /** An `if`'s outline has its "Else branch:" label exactly when the `if`
      has an `else`. */
  lemma IfElseLabel(cond: Syntax.Expr, thenBranch: seq<Syntax.Stmt>, elseBranch: Option<Syntax.Expr>, indent: nat)
    ensures Line(indent, "Else branch:") in ExprLines(Syntax.If(cond, thenBranch, elseBranch), indent)
        <==> elseBranch.Some?
  {
    var elseLabel := Line(indent, "Else branch:");
    var c := ExprLines(cond, indent + 2);
    var t := StmtsLines(thenBranch, indent + 2);
    var el := ElseLines(elseBranch, indent);
    assert ExprLines(Syntax.If(cond, thenBranch, elseBranch), indent)
      == [Line(indent, "If statement:"), Line(indent, "Condition:")] + c + [Line(indent, "Then branch:")] + t + el;
    Distinct(indent, "Else branch:", indent, "If statement:");
    Distinct(indent, "Else branch:", indent, "Condition:");
    Distinct(indent, "Else branch:", indent, "Then branch:");
    LabelNotInExpr(cond, indent, "Else branch:");
    LabelNotInStmts(thenBranch, indent, "Else branch:");
    OnlyInTail(elseLabel, Line(indent, "If statement:"), Line(indent, "Condition:"), c, Line(indent, "Then branch:"), t, el);
    if elseBranch.Some? {
      assert el[0] == elseLabel;
    }
  }

  /** A line other than the headers and labels of a two-part construct, and
      absent from both parts, can only occur in what follows them. */
  lemma OnlyInTail(x: string, header: string, a: string, p: seq<string>, b: string, q: seq<string>, tail: seq<string>)
    requires x != header && x != a && x != b && x !in p && x !in q
    ensures x in [header, a] + p + [b] + q + tail <==> x in tail
  {
  }

  // ---------------------------------------------------------------------
  // The two visitors agree

  /** The renderer prints one parameter line for each parameter record the
      JSON builder makes: both skip typed inputs whose pattern is not an
      identifier. */
  lemma {:induction false} ParamLinesCount(inputs: seq<Syntax.FnArg>, indent: nat)
    ensures |ParamLines(inputs, indent)| == |JsonModel.Parameters(inputs)|
    decreases |inputs|
  {
    if inputs != [] {
      ParamLinesCount(inputs[..|inputs| - 1], indent);
    }
  }

  /** For a function whose inputs are all named, typed parameters, the
      renderer's k-th parameter line shows the name and type of the JSON
      builder's k-th parameter record. */
  lemma {:induction false} ParamLinesTyped(inputs: seq<Syntax.FnArg>, indent: nat)
    requires forall j :: 0 <= j < |inputs| ==> inputs[j].Typed? && inputs[j].pat.Ident?
    ensures |ParamLines(inputs, indent)| == |JsonModel.Parameters(inputs)| == |inputs|
    ensures forall k :: 0 <= k < |inputs| ==>
      ParamLines(inputs, indent)[k]
        == Line(indent, "Parameter: " + JsonModel.Parameters(inputs)[k].name + " - Type: " + JsonModel.Parameters(inputs)[k].typeInfo)
    decreases |inputs|
  {
    if inputs != [] {
      var front := inputs[..|inputs| - 1];
      assert forall j :: 0 <= j < |front| ==> front[j].Typed? && front[j].pat.Ident? by {
        forall j | 0 <= j < |front| ensures front[j].Typed? && front[j].pat.Ident? {
          assert front[j] == inputs[j];
        }
      }
      ParamLinesTyped(front, indent);
      var last := inputs[|inputs| - 1];
      assert last.Typed? && last.pat.Ident?;
      assert ParamLines(inputs, indent) == ParamLines(front, indent) + [Line(indent, "Parameter: " + last.pat.ident + " - Type: " + last.ty)];
      assert JsonModel.Parameters(inputs) == JsonModel.Parameters(front) + [JsonModel.ParameterJson(last.pat.ident, last.ty)];
    }
  }

  /** The renderer prints the struct's fields as the JSON builder records
      them: same number, same order, a named field with its name and type, a
      tuple field with its type alone. */
  lemma {:induction false} FieldLinesMatch(fields: seq<Syntax.Field>, indent: nat)
    ensures |FieldLines(fields, indent)| == |JsonModel.Fields(fields)| == |fields|
    ensures forall k :: 0 <= k < |fields| ==>
      var record := JsonModel.Fields(fields)[k];
      FieldLines(fields, indent)[k]
        == if record.name.Some? then Line(indent, "Field: " + record.name.value + " - Type: " + record.typeInfo)
           else Line(indent, "Tuple field: " + record.typeInfo)
    decreases |fields|
  {
    if fields != [] {
      var front := fields[..|fields| - 1];
      FieldLinesMatch(front, indent);
      assert FieldLines(fields, indent) == FieldLines(front, indent) + [FieldLine(fields[|fields| - 1], indent)];
      assert JsonModel.Fields(fields) == JsonModel.Fields(front) + [JsonModel.FieldOf(fields[|fields| - 1])];
    }
  }

  /** The renderer prints the enum's variants as the JSON builder records
      them: same number, same order, same names. */
  lemma {:induction false} VariantLinesMatch(variants: seq<Syntax.Variant>, indent: nat)
    ensures |VariantLines(variants, indent)| == |JsonModel.Variants(variants)| == |variants|
    ensures forall k :: 0 <= k < |variants| ==>
      VariantLines(variants, indent)[k] == Line(indent, "Variant: " + JsonModel.Variants(variants)[k].name)
    decreases |variants|
  {
    if variants != [] {
      var front := variants[..|variants| - 1];
      VariantLinesMatch(front, indent);
      assert VariantLines(variants, indent)
          == VariantLines(front, indent) + [Line(indent, "Variant: " + variants[|variants| - 1].ident)];
      assert JsonModel.Variants(variants) == JsonModel.Variants(front) + [JsonModel.VariantJson(variants[|variants| - 1].ident)];
    }
  }
}
