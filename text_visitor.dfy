/** The text renderer: a visitor that keeps the current indent and prints one
    entry per construct while it walks the tree. Standard output is the
    `lines` field, one entry per `println!`; an entry whose text holds a
    line break shows as more than one line on the terminal. */
module TextRenderer {
  import opened Wrappers
  import Syntax
  import Operators
  import opened TextOutline
  import opened TextTrace

  class TextVisitor {
    /** The current indent, in spaces. As a `nat`, every decrement the
        visitor makes is shown not to underflow. */
    var indent: nat
    /** Everything printed so far, one entry per `println!`. */
    var lines: seq<string>

    constructor ()
      ensures indent == 0 && lines == []
    {
      indent := 0;
      lines := [];
    }

    /** `print_indent`: as many spaces as the current indent. */
    function PrintIndent(): (r: string)
      reads this
      ensures |r| == indent
      ensures forall k :: 0 <= k < |r| ==> r[k] == ' '
    {
      Spaces(indent)
    }

    /** One print of the renderer: the current indent's spaces, then the
        text, as one entry. */
    method Println(text: string)
      modifies this
      ensures indent == old(indent)
      ensures lines == old(lines) + [Line(indent, text)]
    {
      lines := lines + [PrintIndent() + text];
    }

    /** `visit_with_name`: prints the name as a section label and leaves the
        indent where it found it. */
    method VisitWithName(name: string)
      modifies this
      ensures indent == old(indent)
      ensures lines == old(lines) + [Line(indent, name + ":")]
    {
      Println(name + ":");
      indent := indent + 2;
      indent := indent - 2;
    }

    /** The loop that visits each statement of a block in turn, at the
        current indent. */
    method VisitBlock(ss: seq<Syntax.Stmt>)
      modifies this
      ensures indent == old(indent)
      ensures lines == BlockTrace(old(lines), ss, old(indent))
      decreases ss, 2
    {
      for k := 0 to |ss|
        invariant indent == old(indent)
        invariant lines == BlockTrace(old(lines), ss[..k], indent)
      {
        VisitStmt(ss[k]);
        assert ss[..k + 1][..k] == ss[..k];
      }
      assert ss[..|ss|] == ss;
    }

    /** The parameters section of `visit_item_fn`, entered two spaces in from
        the function header. */
    method VisitParameters(inputs: seq<Syntax.FnArg>)
      modifies this
      ensures indent == old(indent)
      ensures lines == ParamsSection(old(lines), inputs, old(indent))
    {
      if |inputs| > 0 {
        Println("Parameters:");
        indent := indent + 2;
        ghost var top := lines;
        for k := 0 to |inputs|
          invariant indent == old(indent) + 2
          invariant lines == ParamsTrace(top, inputs[..k], indent)
        {
          match inputs[k] {
            case Typed(pat, ty) =>
              if pat.Ident? {
                Println("Parameter: " + pat.ident + " - Type: " + ty);
              }
            case Receiver(tokens) =>
              Println("Self receiver: " + tokens);
          }
          assert inputs[..k + 1][..k] == inputs[..k];
        }
        assert inputs[..|inputs|] == inputs;
        indent := indent - 2;
      }
    }

    /** `visit_item_fn`: the header, the sections two deeper, the parameters
        and statements four deeper, and the indent restored by the final
        decrement of four. */
    method VisitItemFn(f: Syntax.ItemFn)
      modifies this
      ensures indent == old(indent)
      ensures lines == FnTrace(old(lines), f, old(indent))
      decreases f, 2
    {
      Println("Function: " + f.ident);
      indent := indent + 2;
      VisitParameters(f.inputs);
      if f.output.Type? {
        Println("Return type: " + f.output.ty);
      }
      Println("Body:");
      indent := indent + 2;
      VisitBlock(f.stmts);
      indent := indent - 4;
    }

    /** The step the renderer repeats for every labelled sub-expression:
        print the label, visit the expression two deeper, come back. */
    method VisitOperand(text: string, e: Syntax.Expr)
      modifies this
      ensures indent == old(indent)
      ensures lines == OperandTrace(old(lines), text, e, old(indent))
      decreases e, 3
    {
      Println(text);
      indent := indent + 2;
      VisitExpr(e);
      indent := indent - 2;
    }

    /** The same step for a labelled block of statements. */
    method VisitSection(text: string, ss: seq<Syntax.Stmt>)
      modifies this
      ensures indent == old(indent)
      ensures lines == SectionTrace(old(lines), text, ss, old(indent))
      decreases ss, 3
    {
      Println(text);
      indent := indent + 2;
      VisitBlock(ss);
      indent := indent - 2;
    }

    /** `visit_expr`. Each compound arm is a method of its own below. */
    method VisitExpr(e: Syntax.Expr)
      modifies this
      ensures indent == old(indent)
      ensures lines == ExprTrace(old(lines), e, old(indent))
      decreases e, 2
    {
      match e {
        case LitExpr(lit) =>
          Println(LitLabel(lit));
        case Binary(op, left, right) =>
          VisitBinary(op, left, right);
        case Call(func, args) =>
          VisitCall(func, args);
        case Path(path) =>
          Println("Identifier: " + path);
        case If(cond, thenBranch, elseBranch) =>
          VisitIf(cond, thenBranch, elseBranch);
        case Loop(body) =>
          VisitSection("Loop:", body);
        case While(cond, body) =>
          VisitWhile(cond, body);
        case Return(value) =>
          Println("Return statement:");
          if value.Some? {
            indent := indent + 2;
            VisitExpr(value.value);
            indent := indent - 2;
          }
        case OtherExpr(tokens) =>
          Println("Other expression: " + tokens);
      }
    }

    /** The binary arm of `visit_expr`. */
    method VisitBinary(op: Syntax.BinOp, left: Syntax.Expr, right: Syntax.Expr)
      modifies this
      ensures indent == old(indent)
      ensures lines == BinaryTrace(old(lines), op, left, right, old(indent))
      decreases Syntax.Binary(op, left, right), 1
    {
      VisitHeaderAndLeft(op, left, right);
      VisitOperand("Right:", right);
    }

    /** The first half of the binary arm: the header, then `Left:` and the
        left operand two deeper. */
    method VisitHeaderAndLeft(op: Syntax.BinOp, left: Syntax.Expr, ghost right: Syntax.Expr)
      modifies this
      ensures indent == old(indent)
      ensures lines == OperandTrace(old(lines) + [Line(old(indent), "Binary expression: " + Operators.Symbol(op))], "Left:", left, old(indent))
      decreases Syntax.Binary(op, left, right), 0
    {
      Println("Binary expression: " + Operators.Symbol(op));
      VisitOperand("Left:", left);
    }

    /** The call arm of `visit_expr`: `Arguments:` only when there are any. */
    method VisitCall(func: Syntax.Expr, args: seq<Syntax.Expr>)
      modifies this
      ensures indent == old(indent)
      ensures lines == CallTrace(old(lines), func, args, old(indent))
      decreases Syntax.Call(func, args), 0
    {
      Println("Function call:");
      VisitOperand("Function:", func);
      if |args| > 0 {
        Println("Arguments:");
        indent := indent + 2;
        ghost var top := lines;
        for k := 0 to |args|
          invariant indent == old(indent) + 2
          invariant lines == ArgsTrace(top, args[..k], indent)
        {
          VisitExpr(args[k]);
          assert args[..k + 1][..k] == args[..k];
        }
        assert args[..|args|] == args;
        indent := indent - 2;
      }
    }

    /** The `if` arm of `visit_expr`. */
    method VisitIf(cond: Syntax.Expr, thenBranch: seq<Syntax.Stmt>, elseBranch: Option<Syntax.Expr>)
      modifies this
      ensures indent == old(indent)
      ensures lines == IfTrace(old(lines), cond, thenBranch, elseBranch, old(indent))
      decreases Syntax.If(cond, thenBranch, elseBranch), 0
    {
      Println("If statement:");
      VisitOperand("Condition:", cond);
      VisitSection("Then branch:", thenBranch);
      if elseBranch.Some? {
        VisitOperand("Else branch:", elseBranch.value);
      }
    }

    /** The `while` arm of `visit_expr`. */
    method VisitWhile(cond: Syntax.Expr, body: seq<Syntax.Stmt>)
      modifies this
      ensures indent == old(indent)
      ensures lines == WhileTrace(old(lines), cond, body, old(indent))
      decreases Syntax.While(cond, body), 0
    {
      Println("While loop:");
      VisitOperand("Condition:", cond);
      VisitSection("Body:", body);
    }

    /** `visit_stmt`. */
    method VisitStmt(s: Syntax.Stmt)
      modifies this
      ensures indent == old(indent)
      ensures lines == StmtTrace(old(lines), s, old(indent))
      decreases s, 2
    {
      match s {
        case Local(pat, init) =>
          Println("Variable declaration:");
          if pat.Ident? {
            Println("Name: " + pat.ident);
          }
          if init.Some? {
            VisitOperand("Initializer:", init.value);
          }
        case ExprStmt(e) =>
          VisitOperand("Expression statement:", e);
        case ItemStmt(item, _) =>
          VisitItem(item);
        case OtherStmt(tokens) =>
          Println("Other statement: " + tokens);
      }
    }

    /** The `Stmt::Item` arm of `visit_stmt`. */
    method VisitItem(item: Syntax.Item)
      modifies this
      ensures indent == old(indent)
      ensures lines == ItemTrace(old(lines), item, old(indent))
      decreases item, 2
    {
      match item {
        case Fn(f) =>
          VisitItemFn(f);
        case Struct(st) =>
          VisitStruct(st);
        case Enum(en) =>
          VisitEnum(en);
        case OtherItem(tokens) =>
          Println("Other item: " + tokens);
      }
    }

    /** The struct arm: `Fields:` only when there are any. */
    method VisitStruct(st: Syntax.ItemStruct)
      modifies this
      ensures indent == old(indent)
      ensures lines == ItemTrace(old(lines), Syntax.Struct(st), old(indent))
    {
      Println("Struct: " + st.ident);
      if |st.fields| > 0 {
        Println("Fields:");
        indent := indent + 2;
        ghost var top := lines;
        for k := 0 to |st.fields|
          invariant indent == old(indent) + 2
          invariant lines == FieldsTrace(top, st.fields[..k], indent)
        {
          var field := st.fields[k];
          if field.ident.Some? {
            Println("Field: " + field.ident.value + " - Type: " + field.ty);
          } else {
            Println("Tuple field: " + field.ty);
          }
          assert st.fields[..k + 1][..k] == st.fields[..k];
        }
        assert st.fields[..|st.fields|] == st.fields;
        indent := indent - 2;
      }
    }

    /** The enum arm: `Variants:` only when there are any. */
    method VisitEnum(en: Syntax.ItemEnum)
      modifies this
      ensures indent == old(indent)
      ensures lines == ItemTrace(old(lines), Syntax.Enum(en), old(indent))
    {
      Println("Enum: " + en.ident);
      if |en.variants| > 0 {
        Println("Variants:");
        indent := indent + 2;
        ghost var top := lines;
        for k := 0 to |en.variants|
          invariant indent == old(indent) + 2
          invariant lines == VariantsTrace(top, en.variants[..k], indent)
        {
          Println("Variant: " + en.variants[k].ident);
          assert en.variants[..k + 1][..k] == en.variants[..k];
        }
        assert en.variants[..|en.variants|] == en.variants;
        indent := indent - 2;
      }
    }
  }
}
