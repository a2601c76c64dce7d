/** What the JSON model builder's translation preserves: one record per
    input in order, optional parts present exactly when the source has them,
    and, on the constructs it recognises, no information lost at all. */
module JsonFacts {
  import opened Wrappers
  import Syntax
  import Operators
  import opened JsonModel

  // ---------------------------------------------------------------------
  // Parameters, fields and variants

  /** The parameter list of a split signature is the two parts' lists
      joined: the translation keeps the inputs' order. */
  lemma {:induction false} ParametersAppend(a: seq<Syntax.FnArg>, b: seq<Syntax.FnArg>)
    ensures Parameters(a + b) == Parameters(a) + Parameters(b)
    decreases |b|
  {
    if b != [] {
      var b' := b[..|b| - 1];
      assert (a + b)[..|a + b| - 1] == a + b';
      assert (a + b)[|a + b| - 1] == b[|b| - 1];
      ParametersAppend(a, b');
    } else {
      assert a + b == a;
    }
  }

  /** A method's receiver becomes an extra leading parameter named `self`
      whose type is the receiver's text. */
  lemma ReceiverIsSelf(receiver: string, rest: seq<Syntax.FnArg>)
    ensures Parameters([Syntax.Receiver(receiver)] + rest)
         == [ParameterJson("self", receiver)] + Parameters(rest)
  {
    ParametersAppend([Syntax.Receiver(receiver)], rest);
    assert Parameters([Syntax.Receiver(receiver)]) == [ParameterJson("self", receiver)] by {
      assert [Syntax.Receiver(receiver)][..0] == [];
    }
  }

  /** Every parameter record comes from one of the inputs: the builder
      never invents a parameter. */
  lemma {:induction false} ParametersFromInputs(inputs: seq<Syntax.FnArg>)
    ensures forall p :: p in Parameters(inputs) ==> exists a :: a in inputs && ParamOf(a) == Some(p)
    decreases |inputs|
  {
    if inputs != [] {
      var front := inputs[..|inputs| - 1];
      ParametersFromInputs(front);
      forall p | p in Parameters(inputs) ensures exists a :: a in inputs && ParamOf(a) == Some(p) {
        if p in Parameters(front) {
          var a :| a in front && ParamOf(a) == Some(p);
          assert a in inputs;
        } else {
          assert inputs[|inputs| - 1] in inputs;
        }
      }
    }
  }

  /** Inputs without a record (typed inputs whose pattern is not an
      identifier) are dropped, so there are never more parameters than
      inputs, and exactly as many when every input has a record. */
  lemma {:induction false} ParametersCount(inputs: seq<Syntax.FnArg>)
    ensures |Parameters(inputs)| <= |inputs|
    ensures |Parameters(inputs)| == |inputs| <==> forall i :: 0 <= i < |inputs| ==> ParamOf(inputs[i]).Some?
    decreases |inputs|
  {
    if inputs != [] {
      var front := inputs[..|inputs| - 1];
      ParametersCount(front);
      if forall i :: 0 <= i < |inputs| ==> ParamOf(inputs[i]).Some? {
        assert forall i :: 0 <= i < |front| ==> ParamOf(front[i]).Some? by {
          forall i | 0 <= i < |front| ensures ParamOf(front[i]).Some? {
            assert front[i] == inputs[i];
          }
        }
      } else {
        var k :| 0 <= k < |inputs| && ParamOf(inputs[k]).None?;
        if k < |front| {
          assert front[k] == inputs[k];
        }
      }
    }
  }

  /** When every input has a record, the i-th parameter is the i-th input's. */
  lemma {:induction false} ParametersAt(inputs: seq<Syntax.FnArg>, i: nat)
    requires forall j :: 0 <= j < |inputs| ==> ParamOf(inputs[j]).Some?
    requires i < |inputs|
    ensures |Parameters(inputs)| == |inputs|
    ensures Parameters(inputs)[i] == ParamOf(inputs[i]).value
    decreases |inputs|
  {
    ParametersCount(inputs);
    var front := inputs[..|inputs| - 1];
    assert forall j :: 0 <= j < |front| ==> ParamOf(front[j]).Some? by {
      forall j | 0 <= j < |front| ensures ParamOf(front[j]).Some? {
        assert front[j] == inputs[j];
      }
    }
    ParametersCount(front);
    if i < |front| {
      ParametersAt(front, i);
    }
  }

  /** Struct fields map one to one and in order; a field's name is absent
      exactly when it is a tuple field. */
  lemma {:induction false} FieldsMatch(fields: seq<Syntax.Field>)
    ensures |Fields(fields)| == |fields|
    ensures forall i :: 0 <= i < |fields| ==>
      Fields(fields)[i].name == fields[i].ident && Fields(fields)[i].typeInfo == fields[i].ty
    ensures forall i :: 0 <= i < |fields| ==> (Fields(fields)[i].name.None? <==> fields[i].ident.None?)
    decreases |fields|
  {
    if fields != [] {
      FieldsMatch(fields[..|fields| - 1]);
    }
  }

  /** Enum variants map to their names in declaration order. */
  lemma {:induction false} VariantsMatch(variants: seq<Syntax.Variant>)
    ensures |Variants(variants)| == |variants|
    ensures forall i :: 0 <= i < |variants| ==> Variants(variants)[i].name == variants[i].ident
    decreases |variants|
  {
    if variants != [] {
      VariantsMatch(variants[..|variants| - 1]);
    }
  }

  /** `enum Direction { North, East, South, West }` gives the variant names
      `North, East, South, West`, in that order. */
  lemma DirectionVariants()
    ensures ItemToJson(Syntax.Enum(Syntax.ItemEnum("Direction",
              [Syntax.Variant("North"), Syntax.Variant("East"), Syntax.Variant("South"), Syntax.Variant("West")])))
         == Enum("Direction", [VariantJson("North"), VariantJson("East"), VariantJson("South"), VariantJson("West")])
  {
    var vs := [Syntax.Variant("North"), Syntax.Variant("East"), Syntax.Variant("South"), Syntax.Variant("West")];
    VariantsMatch(vs);
  }

  // ---------------------------------------------------------------------
  // Statement lists and argument lists

  /** A block's statements translate one to one and in order. */
  lemma {:induction false} StmtsToJsonAt(ss: seq<Syntax.Stmt>)
    ensures |StmtsToJson(ss)| == |ss|
    ensures forall i :: 0 <= i < |ss| ==> StmtsToJson(ss)[i] == StmtToJson(ss[i])
    decreases |ss|
  {
    if ss != [] {
      StmtsToJsonAt(ss[..|ss| - 1]);
    }
  }

  /** A call's arguments translate one to one and in order. */
  lemma {:induction false} ExprsToJsonAt(es: seq<Syntax.Expr>)
    ensures |ExprsToJson(es)| == |es|
    ensures forall i :: 0 <= i < |es| ==> ExprsToJson(es)[i] == ExprToJson(es[i])
    decreases |es|
  {
    if es != [] {
      ExprsToJsonAt(es[..|es| - 1]);
    }
  }

  /** A file's items become one record each, in order. */
  lemma {:induction false} ItemsToJsonAt(items: seq<Syntax.Item>)
    ensures |ItemsToJson(items)| == |items|
    ensures forall i :: 0 <= i < |items| ==> ItemsToJson(items)[i] == ItemToJson(items[i])
    decreases |items|
  {
    if items != [] {
      ItemsToJsonAt(items[..|items| - 1]);
    }
  }

  // ---------------------------------------------------------------------
  // Shape of each record

  /** A function's record: its name, at most one parameter per input, a
      return type present exactly when the signature has `-> T`, and one
      body statement per block statement, in order. */
  lemma FunctionRecord(f: Syntax.ItemFn)
    ensures ItemToJson(Syntax.Fn(f)).Function?
    ensures ItemToJson(Syntax.Fn(f)).name == f.ident
    ensures |ItemToJson(Syntax.Fn(f)).parameters| <= |f.inputs|
    ensures ItemToJson(Syntax.Fn(f)).returnType.None? <==> f.output.Default?
    ensures f.output.Type? ==> ItemToJson(Syntax.Fn(f)).returnType == Some(f.output.ty)
    ensures |ItemToJson(Syntax.Fn(f)).body| == |f.stmts|
    ensures forall i :: 0 <= i < |f.stmts| ==> ItemToJson(Syntax.Fn(f)).body[i] == StmtToJson(f.stmts[i])
  {
    ParametersCount(f.inputs);
    StmtsToJsonAt(f.stmts);
  }

  /** Every statement maps to exactly one kind of statement record: a `let`
      to a declaration that records its identifier, and is named `unknown`
      exactly when its pattern is no identifier or the identifier `unknown`;
      an expression statement to an expression record; anything else,
      nested items included, to `Other`. */
  lemma StmtRecord(s: Syntax.Stmt)
    ensures StmtToJson(s).VariableDeclaration? <==> s.Local?
    ensures s.Local? && s.pat.Ident? ==> StmtToJson(s).name == s.pat.ident
    ensures s.Local? ==> (StmtToJson(s).name == "unknown" <==> !s.pat.Ident? || s.pat.ident == "unknown")
    ensures StmtToJson(s).Expression? <==> s.ExprStmt?
    ensures StmtToJson(s).Other? <==> (s.ItemStmt? || s.OtherStmt?)
  {
  }

  /** A binary record stores the operator's symbol. */
  lemma BinaryOperator(op: Syntax.BinOp, left: Syntax.Expr, right: Syntax.Expr)
    ensures ExprToJson(Syntax.Binary(op, left, right)).operator == Operators.Symbol(op)
  {
  }

  /** Expression records: binary operators keep their symbol if named and
      become `other_operator` otherwise; a call keeps its arguments, and an
      `if`, `loop` or `while` its statements, one to one and in order; the
      else branch and the returned value are present exactly when the source
      has them. */
  lemma ExprRecord(e: Syntax.Expr)
    ensures e.Binary? ==> (ExprToJson(e).Binary?
      && ExprToJson(e).operator == (if Operators.Named(e.op) then Operators.Symbol(e.op) else Operators.OtherOperator)
      && ExprToJson(e).left == ExprToJson(e.left) && ExprToJson(e).right == ExprToJson(e.right))
    ensures e.Call? ==> (ExprToJson(e).FunctionCall?
      && |ExprToJson(e).arguments| == |e.args|
      && forall i :: 0 <= i < |e.args| ==> ExprToJson(e).arguments[i] == ExprToJson(e.args[i]))
    ensures e.If? ==> (ExprToJson(e).If? && (ExprToJson(e).elseBranch.Some? <==> e.elseBranch.Some?)
      && |ExprToJson(e).thenBranch| == |e.thenBranch|
      && forall i :: 0 <= i < |e.thenBranch| ==> ExprToJson(e).thenBranch[i] == StmtToJson(e.thenBranch[i]))
    ensures e.Loop? ==> (ExprToJson(e).Loop? && |ExprToJson(e).body| == |e.body|
      && forall i :: 0 <= i < |e.body| ==> ExprToJson(e).body[i] == StmtToJson(e.body[i]))
    ensures e.While? ==> (ExprToJson(e).While? && |ExprToJson(e).body| == |e.body|
      && forall i :: 0 <= i < |e.body| ==> ExprToJson(e).body[i] == StmtToJson(e.body[i]))
    ensures e.Return? ==> ExprToJson(e).Return? && (ExprToJson(e).returned.Some? <==> e.value.Some?)
  {
    match e {
      case Binary(op, _, _) => Operators.SymbolRoundTrip(op);
      case Call(_, args) => ExprsToJsonAt(args);
      case If(_, thenBranch, _) => StmtsToJsonAt(thenBranch);
      case Loop(body) => StmtsToJsonAt(body);
      case While(_, body) => StmtsToJsonAt(body);
      case _ =>
    }
  }

  // ---------------------------------------------------------------------
  // The translation loses nothing on the constructs it recognises

  /** An expression whose every node the JSON records fully: no literal
      outside the four kinds, no operator outside the ten, no `let` with a
      non-identifier pattern, no nested item. */
  predicate LosslessExpr(e: Syntax.Expr)
    decreases e
  {
    match e
    case LitExpr(lit) => !lit.OtherLit?
    case Binary(op, left, right) => Operators.Named(op) && LosslessExpr(left) && LosslessExpr(right)
    case Call(func, args) => LosslessExpr(func) && LosslessExprs(args)
    case Path(_) => true
    case If(cond, thenBranch, elseBranch) =>
      LosslessExpr(cond) && LosslessStmts(thenBranch)
      && (elseBranch.Some? ==> LosslessExpr(elseBranch.value))
    case Loop(body) => LosslessStmts(body)
    case While(cond, body) => LosslessExpr(cond) && LosslessStmts(body)
    case Return(value) => value.Some? ==> LosslessExpr(value.value)
    case OtherExpr(_) => true
  }

  predicate LosslessExprs(es: seq<Syntax.Expr>)
    decreases es
  {
    forall i :: 0 <= i < |es| ==> LosslessExpr(es[i])
  }

  predicate LosslessStmts(ss: seq<Syntax.Stmt>)
    decreases ss
  {
    forall i :: 0 <= i < |ss| ==> LosslessStmt(ss[i])
  }

  predicate LosslessStmt(s: Syntax.Stmt)
    decreases s
  {
    match s
    case Local(pat, init) => pat.Ident? && (init.Some? ==> LosslessExpr(init.value))
    case ExprStmt(e) => LosslessExpr(e)
    case ItemStmt(_, _) => false
    case OtherStmt(_) => true
  }

  /** Rebuilds a syntax tree from a statement record: the inverse of
      `StmtToJson` on lossless statements. */
  function StmtFromJson(j: StmtJson): Syntax.Stmt
    decreases j
  {
    match j
    case VariableDeclaration(name, initializer) =>
      Syntax.Local(Syntax.Ident(name), if initializer.Some? then Some(ExprFromJson(initializer.value)) else None)
    case Expression(e) => Syntax.ExprStmt(ExprFromJson(e))
    case Other(description) => Syntax.OtherStmt(description)
  }

  function StmtsFromJson(js: seq<StmtJson>): seq<Syntax.Stmt>
    decreases js
  {
    if js == [] then [] else StmtsFromJson(js[..|js| - 1]) + [StmtFromJson(js[|js| - 1])]
  }

  function ExprsFromJson(js: seq<ExprJson>): seq<Syntax.Expr>
    decreases js
  {
    if js == [] then [] else ExprsFromJson(js[..|js| - 1]) + [ExprFromJson(js[|js| - 1])]
  }

  /** Rebuilds a syntax tree from an expression record: the inverse of
      `ExprToJson` on lossless expressions. An `other_operator` cannot be
      rebuilt and becomes an `Other` expression. */
  function ExprFromJson(j: ExprJson): Syntax.Expr
    decreases j
  {
    match j
    case IntLiteral(value) => Syntax.LitExpr(Syntax.IntLit(value))
    case FloatLiteral(value) => Syntax.LitExpr(Syntax.FloatLit(value))
    case StringLiteral(value) => Syntax.LitExpr(Syntax.StrLit(value))
    case BoolLiteral(truth) => Syntax.LitExpr(Syntax.BoolLit(truth))
    case Binary(operator, left, right) =>
      (match Operators.Parse(operator)
       case Some(op) => Syntax.Binary(op, ExprFromJson(left), ExprFromJson(right))
       case None => Syntax.OtherExpr(operator))
    case FunctionCall(callee, arguments) => Syntax.Call(ExprFromJson(callee), ExprsFromJson(arguments))
    case Identifier(name) => Syntax.Path(name)
    case If(condition, thenBranch, elseBranch) =>
      Syntax.If(ExprFromJson(condition), StmtsFromJson(thenBranch),
                if elseBranch.Some? then Some(ExprFromJson(elseBranch.value)) else None)
    case Loop(body) => Syntax.Loop(StmtsFromJson(body))
    case While(condition, body) => Syntax.While(ExprFromJson(condition), StmtsFromJson(body))
    case Return(returned) => Syntax.Return(if returned.Some? then Some(ExprFromJson(returned.value)) else None)
    case Other(description) => Syntax.OtherExpr(description)
  }

  /** On lossless expressions the JSON record determines the expression:
      reading it back gives the expression that was translated. */
  lemma {:induction false} ExprRoundTrip(e: Syntax.Expr)
    requires LosslessExpr(e)
    ensures ExprFromJson(ExprToJson(e)) == e
    decreases e, 1
  {
    match e {
      case LitExpr(lit) =>
      case Binary(op, left, right) =>
        BinaryRoundTrip(op, left, right);
      case Call(func, args) =>
        CallRoundTrip(func, args);
      case Path(_) =>
      case If(cond, thenBranch, elseBranch) =>
        IfRoundTrip(cond, thenBranch, elseBranch);
      case Loop(body) =>
        StmtsRoundTrip(body);
        assert ExprToJson(e) == Loop(StmtsToJson(body));
      case While(cond, body) =>
        WhileRoundTrip(cond, body);
      case Return(value) =>
        if value.Some? {
          ExprRoundTrip(value.value);
        }
      case OtherExpr(_) =>
    }
  }

  /** The binary case of `ExprRoundTrip`: a named operator's symbol parses
      back to the operator. */
  lemma {:induction false} BinaryRoundTrip(op: Syntax.BinOp, left: Syntax.Expr, right: Syntax.Expr)
    requires LosslessExpr(Syntax.Binary(op, left, right))
    ensures ExprFromJson(ExprToJson(Syntax.Binary(op, left, right))) == Syntax.Binary(op, left, right)
    decreases Syntax.Binary(op, left, right), 0
  {
    Operators.SymbolRoundTrip(op);
    ExprRoundTrip(left);
    ExprRoundTrip(right);
    assert ExprToJson(Syntax.Binary(op, left, right)) == Binary(Operators.Symbol(op), ExprToJson(left), ExprToJson(right));
  }

  /** The call case of `ExprRoundTrip`. */
  lemma {:induction false} CallRoundTrip(func: Syntax.Expr, args: seq<Syntax.Expr>)
    requires LosslessExpr(Syntax.Call(func, args))
    ensures ExprFromJson(ExprToJson(Syntax.Call(func, args))) == Syntax.Call(func, args)
    decreases Syntax.Call(func, args), 0
  {
    ExprRoundTrip(func);
    ExprsRoundTrip(args);
    assert ExprToJson(Syntax.Call(func, args)) == FunctionCall(ExprToJson(func), ExprsToJson(args));
  }

  /** The `if` case of `ExprRoundTrip`. */
  lemma {:induction false} IfRoundTrip(cond: Syntax.Expr, thenBranch: seq<Syntax.Stmt>, elseBranch: Option<Syntax.Expr>)
    requires LosslessExpr(Syntax.If(cond, thenBranch, elseBranch))
    ensures ExprFromJson(ExprToJson(Syntax.If(cond, thenBranch, elseBranch))) == Syntax.If(cond, thenBranch, elseBranch)
    decreases Syntax.If(cond, thenBranch, elseBranch), 0
  {
    ExprRoundTrip(cond);
    StmtsRoundTrip(thenBranch);
    var elseJson := if elseBranch.Some? then Some(ExprToJson(elseBranch.value)) else None;
    if elseBranch.Some? {
      ExprRoundTrip(elseBranch.value);
    }
    assert ExprToJson(Syntax.If(cond, thenBranch, elseBranch)) == If(ExprToJson(cond), StmtsToJson(thenBranch), elseJson);
  }

  /** The `while` case of `ExprRoundTrip`. */
  lemma {:induction false} WhileRoundTrip(cond: Syntax.Expr, body: seq<Syntax.Stmt>)
    requires LosslessExpr(Syntax.While(cond, body))
    ensures ExprFromJson(ExprToJson(Syntax.While(cond, body))) == Syntax.While(cond, body)
    decreases Syntax.While(cond, body), 0
  {
    ExprRoundTrip(cond);
    StmtsRoundTrip(body);
    assert ExprToJson(Syntax.While(cond, body)) == While(ExprToJson(cond), StmtsToJson(body));
  }

  /** On lossless statements the JSON record determines the statement. */
  lemma {:induction false} StmtRoundTrip(s: Syntax.Stmt)
    requires LosslessStmt(s)
    ensures StmtFromJson(StmtToJson(s)) == s
    decreases s, 1
  {
    match s {
      case Local(pat, init) =>
        if init.Some? {
          ExprRoundTrip(init.value);
        }
      case ExprStmt(e) =>
        ExprRoundTrip(e);
      case OtherStmt(_) =>
    }
  }

  /** A block of lossless statements is rebuilt in full and in order. */
  lemma {:induction false} StmtsRoundTrip(ss: seq<Syntax.Stmt>)
    requires LosslessStmts(ss)
    ensures StmtsFromJson(StmtsToJson(ss)) == ss
    decreases ss, 1
  {
    if ss != [] {
      var front := ss[..|ss| - 1];
      assert LosslessStmts(front) by {
        forall i | 0 <= i < |front| ensures LosslessStmt(front[i]) {
          assert front[i] == ss[i];
        }
      }
      var last := ss[|ss| - 1];
      var js := StmtsToJson(ss);
      assert js[..|js| - 1] == StmtsToJson(front) && js[|js| - 1] == StmtToJson(last) by {
        assert js == StmtsToJson(front) + [StmtToJson(last)];
      }
      calc {
        StmtsFromJson(js);
        StmtsFromJson(StmtsToJson(front)) + [StmtFromJson(StmtToJson(last))];
        { StmtsRoundTrip(front); StmtRoundTrip(last); }
        front + [last];
        ss;
      }
    }
  }

  /** Lossless call arguments are rebuilt in full and in order. */
  lemma {:induction false} ExprsRoundTrip(es: seq<Syntax.Expr>)
    requires LosslessExprs(es)
    ensures ExprsFromJson(ExprsToJson(es)) == es
    decreases es, 1
  {
    if es != [] {
      var front := es[..|es| - 1];
      assert LosslessExprs(front) by {
        forall i | 0 <= i < |front| ensures LosslessExpr(front[i]) {
          assert front[i] == es[i];
        }
      }
      var last := es[|es| - 1];
      var js := ExprsToJson(es);
      assert js[..|js| - 1] == ExprsToJson(front) && js[|js| - 1] == ExprToJson(last) by {
        assert js == ExprsToJson(front) + [ExprToJson(last)];
      }
      calc {
        ExprsFromJson(js);
        ExprsFromJson(ExprsToJson(front)) + [ExprFromJson(ExprToJson(last))];
        { ExprsRoundTrip(front); ExprRoundTrip(last); }
        front + [last];
        es;
      }
    }
  }

  /** Where the record is lossy: a `let` whose pattern is not an identifier
      gets the same record as `let unknown`, any other literal the same as an
      unrecognised expression of the same text, and `%` the same as `&&`
      (`UnnamedOperatorsAlike` states this for any two unnamed operators). */
  lemma LossyCases(pat: string, init: Option<Syntax.Expr>, tokens: string, l: Syntax.Expr, r: Syntax.Expr)
    ensures StmtToJson(Syntax.Local(Syntax.OtherPat(pat), init)) == StmtToJson(Syntax.Local(Syntax.Ident("unknown"), init))
    ensures ExprToJson(Syntax.LitExpr(Syntax.OtherLit(tokens))) == ExprToJson(Syntax.OtherExpr(tokens))
    ensures ExprToJson(Syntax.Binary(Syntax.Rem, l, r)) == ExprToJson(Syntax.Binary(Syntax.And, l, r))
  {
  }
  /** Any two operators outside the ten named ones give the same binary
      record, so the record cannot tell them apart. */
  lemma UnnamedOperatorsAlike(op1: Syntax.BinOp, op2: Syntax.BinOp, l: Syntax.Expr, r: Syntax.Expr)
    requires !Operators.Named(op1) && !Operators.Named(op2)
    ensures ExprToJson(Syntax.Binary(op1, l, r)) == ExprToJson(Syntax.Binary(op2, l, r))
  {
    Operators.SymbolRoundTrip(op1);
    Operators.SymbolRoundTrip(op2);
  }

}
