/** The serialised document: how the records are encoded as JSON values
    (serde's `tag = "type"` enums, `Option` as `null`, `items` skipped when
    empty), and a reader that recovers every record from its encoding. The
    byte layout of the pretty-printed text is not modelled; a JSON object is
    a map from keys to values. */
module JsonDocument {
  import opened Wrappers
  import opened JsonModel

  datatype Json =
    | Null
    | Bool(b: bool)
    | Str(s: string)
    | Array(elems: seq<Json>)
    | Object(members: map<string, Json>)

  // ---------------------------------------------------------------------
  // Encoding

  function EncodeText(o: Option<string>): Json {
    if o.Some? then Str(o.value) else Null
  }

  function EncodeParameter(p: ParameterJson): Json {
    Object(map["name" := Str(p.name), "type_info" := Str(p.typeInfo)])
  }

  function EncodeField(f: FieldJson): Json {
    Object(map["name" := EncodeText(f.name), "type_info" := Str(f.typeInfo)])
  }

  function EncodeVariant(v: VariantJson): Json {
    Object(map["name" := Str(v.name)])
  }

  /** A JSON array of records, each encoded by `encode`, in order. */
  function EncodeAll<T>(xs: seq<T>, encode: T -> Json): seq<Json> {
    if xs == [] then [] else EncodeAll(xs[..|xs| - 1], encode) + [encode(xs[|xs| - 1])]
  }

  function EncodeItem(item: ItemJson): Json {
    match item
    case Function(name, parameters, returnType, body) =>
      Object(map["type" := Str("Function"), "name" := Str(name),
                 "parameters" := Array(EncodeAll(parameters, EncodeParameter)),
                 "return_type" := EncodeText(returnType), "body" := Array(EncodeStmts(body))])
    case Struct(name, fields) =>
      Object(map["type" := Str("Struct"), "name" := Str(name), "fields" := Array(EncodeAll(fields, EncodeField))])
    case Enum(name, variants) =>
      Object(map["type" := Str("Enum"), "name" := Str(name), "variants" := Array(EncodeAll(variants, EncodeVariant))])
    case Other(description) =>
      Object(map["type" := Str("Other"), "description" := Str(description)])
  }

  function EncodeStmt(s: StmtJson): Json
    decreases s
  {
    match s
    case VariableDeclaration(name, initializer) =>
      Object(map["type" := Str("VariableDeclaration"), "name" := Str(name),
                 "initializer" := if initializer.Some? then EncodeExpr(initializer.value) else Null])
    case Expression(expr) =>
      Object(map["type" := Str("Expression"), "expr" := EncodeExpr(expr)])
    case Other(description) =>
      Object(map["type" := Str("Other"), "description" := Str(description)])
  }

  function EncodeStmts(ss: seq<StmtJson>): seq<Json>
    decreases ss
  {
    if ss == [] then [] else EncodeStmts(ss[..|ss| - 1]) + [EncodeStmt(ss[|ss| - 1])]
  }

  function EncodeExprs(es: seq<ExprJson>): seq<Json>
    decreases es
  {
    if es == [] then [] else EncodeExprs(es[..|es| - 1]) + [EncodeExpr(es[|es| - 1])]
  }

  function EncodeExpr(e: ExprJson): Json
    decreases e
  {
    match e
    case IntLiteral(value) => Object(map["type" := Str("IntLiteral"), "value" := Str(value)])
    case FloatLiteral(value) => Object(map["type" := Str("FloatLiteral"), "value" := Str(value)])
    case StringLiteral(value) => Object(map["type" := Str("StringLiteral"), "value" := Str(value)])
    case BoolLiteral(truth) => Object(map["type" := Str("BoolLiteral"), "value" := Bool(truth)])
    case Binary(operator, left, right) =>
      Object(map["type" := Str("Binary"), "operator" := Str(operator),
                 "left" := EncodeExpr(left), "right" := EncodeExpr(right)])
    case FunctionCall(callee, arguments) =>
      Object(map["type" := Str("FunctionCall"), "function" := EncodeExpr(callee),
                 "arguments" := Array(EncodeExprs(arguments))])
    case Identifier(name) => Object(map["type" := Str("Identifier"), "name" := Str(name)])
    case If(condition, thenBranch, elseBranch) =>
      Object(map["type" := Str("If"), "condition" := EncodeExpr(condition),
                 "then_branch" := Array(EncodeStmts(thenBranch)),
                 "else_branch" := if elseBranch.Some? then EncodeExpr(elseBranch.value) else Null])
    case Loop(body) => Object(map["type" := Str("Loop"), "body" := Array(EncodeStmts(body))])
    case While(condition, body) =>
      Object(map["type" := Str("While"), "condition" := EncodeExpr(condition),
                 "body" := Array(EncodeStmts(body))])
    case Return(returned) =>
      Object(map["type" := Str("Return"), "value" := if returned.Some? then EncodeExpr(returned.value) else Null])
    case Other(description) => Object(map["type" := Str("Other"), "description" := Str(description)])
  }

  /** The document root: `items` is left out when there are none. */
  function EncodeAst(ast: AstJson): Json {
    if ast.items == [] then Object(map[]) else Object(map["items" := Array(EncodeAll(ast.items, EncodeItem))])
  }

  // ---------------------------------------------------------------------
  // Reading a document back

  function TextAt(m: map<string, Json>, key: string): Option<string> {
    if key in m && m[key].Str? then Some(m[key].s) else None
  }

  function OptionalTextAt(m: map<string, Json>, key: string): Option<Option<string>> {
    if key !in m then None
    else if m[key].Null? then Some(None)
    else if m[key].Str? then Some(Some(m[key].s))
    else None
  }

  function DecodeParameter(j: Json): Option<ParameterJson> {
    if !j.Object? then None
    else
      var name :- TextAt(j.members, "name");
      var typeInfo :- TextAt(j.members, "type_info");
      Some(ParameterJson(name, typeInfo))
  }

  function DecodeField(j: Json): Option<FieldJson> {
    if !j.Object? then None
    else
      var name :- OptionalTextAt(j.members, "name");
      var typeInfo :- TextAt(j.members, "type_info");
      Some(FieldJson(name, typeInfo))
  }

  function DecodeVariant(j: Json): Option<VariantJson> {
    if !j.Object? then None
    else
      var name :- TextAt(j.members, "name");
      Some(VariantJson(name))
  }

  /** Reads a JSON array element by element with `decode`; fails if any
      element fails. */
  function DecodeAll<T>(js: seq<Json>, decode: Json -> Option<T>): Option<seq<T>> {
    if js == [] then Some([])
    else
      var front :- DecodeAll(js[..|js| - 1], decode);
      var last :- decode(js[|js| - 1]);
      Some(front + [last])
  }

  function DecodeItem(j: Json): Option<ItemJson> {
    if !j.Object? then None
    else
      var m := j.members;
      var tag :- TextAt(m, "type");
      if tag == "Function" then
        if "parameters" !in m || !m["parameters"].Array? || "body" !in m || !m["body"].Array? then None
        else
          var name :- TextAt(m, "name");
          var parameters :- DecodeAll(m["parameters"].elems, DecodeParameter);
          var returnType :- OptionalTextAt(m, "return_type");
          var body :- DecodeStmts(m["body"].elems);
          Some(Function(name, parameters, returnType, body))
      else if tag == "Struct" then
        if "fields" !in m || !m["fields"].Array? then None
        else
          var name :- TextAt(m, "name");
          var fields :- DecodeAll(m["fields"].elems, DecodeField);
          Some(Struct(name, fields))
      else if tag == "Enum" then
        if "variants" !in m || !m["variants"].Array? then None
        else
          var name :- TextAt(m, "name");
          var variants :- DecodeAll(m["variants"].elems, DecodeVariant);
          Some(Enum(name, variants))
      else if tag == "Other" then
        var description :- TextAt(m, "description");
        Some(ItemJson.Other(description))
      else None
  }

  function DecodeStmt(j: Json): Option<StmtJson>
    decreases j, 1
  {
    if !j.Object? then None
    else
      var m := j.members;
      var tag :- TextAt(m, "type");
      if tag == "VariableDeclaration" then
        if "initializer" !in m then None
        else
          var name :- TextAt(m, "name");
          if m["initializer"].Null? then Some(VariableDeclaration(name, None))
          else
            var initializer :- DecodeExpr(m["initializer"]);
            Some(VariableDeclaration(name, Some(initializer)))
      else if tag == "Expression" then
        if "expr" !in m then None
        else
          var expr :- DecodeExpr(m["expr"]);
          Some(Expression(expr))
      else if tag == "Other" then
        var description :- TextAt(m, "description");
        Some(StmtJson.Other(description))
      else None
  }

  function DecodeStmts(js: seq<Json>): Option<seq<StmtJson>>
    decreases js, 1
  {
    if js == [] then Some([])
    else
      var front :- DecodeStmts(js[..|js| - 1]);
      var last :- DecodeStmt(js[|js| - 1]);
      Some(front + [last])
  }

  function DecodeExprs(js: seq<Json>): Option<seq<ExprJson>>
    decreases js, 1
  {
    if js == [] then Some([])
    else
      var front :- DecodeExprs(js[..|js| - 1]);
      var last :- DecodeExpr(js[|js| - 1]);
      Some(front + [last])
  }

  function DecodeExpr(j: Json): Option<ExprJson>
    decreases j, 1
  {
    if !j.Object? then None
    else
      var m := j.members;
      var tag :- TextAt(m, "type");
      if tag == "IntLiteral" then
        var value :- TextAt(m, "value");
        Some(IntLiteral(value))
      else if tag == "FloatLiteral" then
        var value :- TextAt(m, "value");
        Some(FloatLiteral(value))
      else if tag == "StringLiteral" then
        var value :- TextAt(m, "value");
        Some(StringLiteral(value))
      else if tag == "BoolLiteral" then
        if "value" in m && m["value"].Bool? then Some(BoolLiteral(m["value"].b)) else None
      else if tag == "Binary" then DecodeBinary(j)
      else if tag == "FunctionCall" then DecodeCall(j)
      else if tag == "Identifier" then
        var name :- TextAt(m, "name");
        Some(Identifier(name))
      else if tag == "If" then DecodeIf(j)
      else if tag == "Loop" then DecodeLoop(j)
      else if tag == "While" then DecodeWhile(j)
      else if tag == "Return" then DecodeReturn(j)
      else if tag == "Other" then
        var description :- TextAt(m, "description");
        Some(ExprJson.Other(description))
      else None
  }

  function DecodeBinary(j: Json): Option<ExprJson>
    requires j.Object?
    decreases j, 0
  {
    var m := j.members;
    if "left" !in m || "right" !in m then None
    else
      var operator :- TextAt(m, "operator");
      var left :- DecodeExpr(m["left"]);
      var right :- DecodeExpr(m["right"]);
      Some(Binary(operator, left, right))
  }

  function DecodeCall(j: Json): Option<ExprJson>
    requires j.Object?
    decreases j, 0
  {
    var m := j.members;
    if "function" !in m || "arguments" !in m || !m["arguments"].Array? then None
    else
      var callee :- DecodeExpr(m["function"]);
      var arguments :- DecodeExprs(m["arguments"].elems);
      Some(FunctionCall(callee, arguments))
  }

  function DecodeIf(j: Json): Option<ExprJson>
    requires j.Object?
    decreases j, 0
  {
    var m := j.members;
    if "condition" !in m || "then_branch" !in m || !m["then_branch"].Array? || "else_branch" !in m then None
    else
      var condition :- DecodeExpr(m["condition"]);
      var thenBranch :- DecodeStmts(m["then_branch"].elems);
      if m["else_branch"].Null? then Some(If(condition, thenBranch, None))
      else
        var elseBranch :- DecodeExpr(m["else_branch"]);
        Some(If(condition, thenBranch, Some(elseBranch)))
  }

  function DecodeLoop(j: Json): Option<ExprJson>
    requires j.Object?
    decreases j, 0
  {
    var m := j.members;
    if "body" !in m || !m["body"].Array? then None
    else
      var body :- DecodeStmts(m["body"].elems);
      Some(Loop(body))
  }

  function DecodeWhile(j: Json): Option<ExprJson>
    requires j.Object?
    decreases j, 0
  {
    var m := j.members;
    if "condition" !in m || "body" !in m || !m["body"].Array? then None
    else
      var condition :- DecodeExpr(m["condition"]);
      var body :- DecodeStmts(m["body"].elems);
      Some(While(condition, body))
  }

  function DecodeReturn(j: Json): Option<ExprJson>
    requires j.Object?
    decreases j, 0
  {
    var m := j.members;
    if "value" !in m then None
    else if m["value"].Null? then Some(Return(None))
    else
      var value :- DecodeExpr(m["value"]);
      Some(Return(Some(value)))
  }

  /** Reads a document root; a root without `items` holds no items. */
  function DecodeAst(j: Json): Option<AstJson> {
    if !j.Object? then None
    else if "items" !in j.members then Some(AstJson([]))
    else if !j.members["items"].Array? then None
    else
      var items :- DecodeAll(j.members["items"].elems, DecodeItem);
      Some(AstJson(items))
  }

  // ---------------------------------------------------------------------
  // Every record is recovered from its encoding

  /** An array of records is recovered from its encoding whenever each
      record is. */
  lemma {:induction false} AllRoundTrip<T>(xs: seq<T>, encode: T -> Json, decode: Json -> Option<T>)
    requires forall x :: decode(encode(x)) == Some(x)
    ensures DecodeAll(EncodeAll(xs, encode), decode) == Some(xs)
    decreases |xs|
  {
    if xs != [] {
      var front, last := xs[..|xs| - 1], xs[|xs| - 1];
      var js := EncodeAll(xs, encode);
      assert js == EncodeAll(front, encode) + [encode(last)];
      assert js[..|js| - 1] == EncodeAll(front, encode);
      AllRoundTrip(front, encode, decode);
      assert decode(js[|js| - 1]) == Some(last);
      assert DecodeAll(js, decode) == Some(front + [last]);
      assert front + [last] == xs;
    }
  }

  lemma ParametersRoundTrip(ps: seq<ParameterJson>)
    ensures DecodeAll(EncodeAll(ps, EncodeParameter), DecodeParameter) == Some(ps)
  {
    assert forall p :: DecodeParameter(EncodeParameter(p)) == Some(p);
    AllRoundTrip(ps, EncodeParameter, DecodeParameter);
  }

  lemma FieldsRoundTrip(fs: seq<FieldJson>)
    ensures DecodeAll(EncodeAll(fs, EncodeField), DecodeField) == Some(fs)
  {
    assert forall f :: DecodeField(EncodeField(f)) == Some(f);
    AllRoundTrip(fs, EncodeField, DecodeField);
  }

  lemma VariantsRoundTrip(vs: seq<VariantJson>)
    ensures DecodeAll(EncodeAll(vs, EncodeVariant), DecodeVariant) == Some(vs)
  {
    assert forall v :: DecodeVariant(EncodeVariant(v)) == Some(v);
    AllRoundTrip(vs, EncodeVariant, DecodeVariant);
  }

  // ---------------------------------------------------------------------
  // How the reader takes apart an object whose parts it can read

  lemma DecodeBinaryObject(m: map<string, Json>, operator: string, left: ExprJson, right: ExprJson)
    requires TextAt(m, "type") == Some("Binary") && TextAt(m, "operator") == Some(operator)
    requires "left" in m && DecodeExpr(m["left"]) == Some(left)
    requires "right" in m && DecodeExpr(m["right"]) == Some(right)
    ensures DecodeExpr(Object(m)) == Some(Binary(operator, left, right))
  {
  }

  lemma DecodeCallObject(m: map<string, Json>, callee: ExprJson, arguments: seq<ExprJson>)
    requires TextAt(m, "type") == Some("FunctionCall")
    requires "function" in m && DecodeExpr(m["function"]) == Some(callee)
    requires "arguments" in m && m["arguments"].Array? && DecodeExprs(m["arguments"].elems) == Some(arguments)
    ensures DecodeExpr(Object(m)) == Some(FunctionCall(callee, arguments))
  {
  }

  lemma DecodeIfObject(m: map<string, Json>, condition: ExprJson, thenBranch: seq<StmtJson>, elseBranch: Option<ExprJson>)
    requires TextAt(m, "type") == Some("If")
    requires "condition" in m && DecodeExpr(m["condition"]) == Some(condition)
    requires "then_branch" in m && m["then_branch"].Array? && DecodeStmts(m["then_branch"].elems) == Some(thenBranch)
    requires "else_branch" in m
    requires elseBranch.None? ==> m["else_branch"].Null?
    requires elseBranch.Some? ==> !m["else_branch"].Null? && DecodeExpr(m["else_branch"]) == elseBranch
    ensures DecodeExpr(Object(m)) == Some(If(condition, thenBranch, elseBranch))
  {
  }

  lemma DecodeLoopObject(m: map<string, Json>, body: seq<StmtJson>)
    requires TextAt(m, "type") == Some("Loop")
    requires "body" in m && m["body"].Array? && DecodeStmts(m["body"].elems) == Some(body)
    ensures DecodeExpr(Object(m)) == Some(Loop(body))
  {
  }

  lemma DecodeWhileObject(m: map<string, Json>, condition: ExprJson, body: seq<StmtJson>)
    requires TextAt(m, "type") == Some("While")
    requires "condition" in m && DecodeExpr(m["condition"]) == Some(condition)
    requires "body" in m && m["body"].Array? && DecodeStmts(m["body"].elems) == Some(body)
    ensures DecodeExpr(Object(m)) == Some(While(condition, body))
  {
  }

  lemma DecodeReturnObject(m: map<string, Json>, returned: Option<ExprJson>)
    requires TextAt(m, "type") == Some("Return")
    requires "value" in m
    requires returned.None? ==> m["value"].Null?
    requires returned.Some? ==> !m["value"].Null? && DecodeExpr(m["value"]) == returned
    ensures DecodeExpr(Object(m)) == Some(Return(returned))
  {
  }

  lemma DecodeDeclarationObject(m: map<string, Json>, name: string, initializer: Option<ExprJson>)
    requires TextAt(m, "type") == Some("VariableDeclaration") && TextAt(m, "name") == Some(name)
    requires "initializer" in m
    requires initializer.None? ==> m["initializer"].Null?
    requires initializer.Some? ==> !m["initializer"].Null? && DecodeExpr(m["initializer"]) == initializer
    ensures DecodeStmt(Object(m)) == Some(VariableDeclaration(name, initializer))
  {
  }

  lemma DecodeExpressionObject(m: map<string, Json>, expr: ExprJson)
    requires TextAt(m, "type") == Some("Expression")
    requires "expr" in m && DecodeExpr(m["expr"]) == Some(expr)
    ensures DecodeStmt(Object(m)) == Some(Expression(expr))
  {
  }

  // ---------------------------------------------------------------------
  // Every record is recovered from its encoding

  /** An expression record is recovered from its encoding. */
  lemma {:induction false} ExprRoundTrip(e: ExprJson)
    ensures DecodeExpr(EncodeExpr(e)) == Some(e)
    decreases e, 1
  {
    match e {
      case Binary(_, _, _) =>
        BinaryRoundTrip(e);
      case FunctionCall(_, _) =>
        CallRoundTrip(e);
      case If(_, _, _) =>
        IfRoundTrip(e);
      case Loop(_) =>
        LoopRoundTrip(e);
      case While(_, _) =>
        WhileRoundTrip(e);
      case Return(_) =>
        ReturnRoundTrip(e);
      case IntLiteral(_) =>
        LiteralRoundTrip(e);
      case FloatLiteral(_) =>
        LiteralRoundTrip(e);
      case StringLiteral(_) =>
        LiteralRoundTrip(e);
      case BoolLiteral(_) =>
        LiteralRoundTrip(e);
      case Identifier(_) =>
        NameRoundTrip(e);
      case Other(_) =>
        NameRoundTrip(e);
    }
  }

  lemma {:induction false} BinaryRoundTrip(e: ExprJson)
    requires e.Binary?
    ensures DecodeExpr(EncodeExpr(e)) == Some(e)
    decreases e, 0
  {
    ExprRoundTrip(e.left);
    ExprRoundTrip(e.right);
    DecodeBinaryObject(EncodeExpr(e).members, e.operator, e.left, e.right);
  }

  lemma {:induction false} CallRoundTrip(e: ExprJson)
    requires e.FunctionCall?
    ensures DecodeExpr(EncodeExpr(e)) == Some(e)
    decreases e, 0
  {
    ExprRoundTrip(e.callee);
    ExprsRoundTrip(e.arguments);
    DecodeCallObject(EncodeExpr(e).members, e.callee, e.arguments);
  }

  lemma {:induction false} IfRoundTrip(e: ExprJson)
    requires e.If?
    ensures DecodeExpr(EncodeExpr(e)) == Some(e)
    decreases e, 0
  {
    ExprRoundTrip(e.condition);
    StmtsRoundTrip(e.thenBranch);
    if e.elseBranch.Some? {
      ExprRoundTrip(e.elseBranch.value);
    }
    DecodeIfObject(EncodeExpr(e).members, e.condition, e.thenBranch, e.elseBranch);
  }

  lemma {:induction false} LoopRoundTrip(e: ExprJson)
    requires e.Loop?
    ensures DecodeExpr(EncodeExpr(e)) == Some(e)
    decreases e, 0
  {
    StmtsRoundTrip(e.body);
    DecodeLoopObject(EncodeExpr(e).members, e.body);
  }

  lemma {:induction false} WhileRoundTrip(e: ExprJson)
    requires e.While?
    ensures DecodeExpr(EncodeExpr(e)) == Some(e)
    decreases e, 0
  {
    ExprRoundTrip(e.condition);
    StmtsRoundTrip(e.body);
    DecodeWhileObject(EncodeExpr(e).members, e.condition, e.body);
  }

  lemma {:induction false} ReturnRoundTrip(e: ExprJson)
    requires e.Return?
    ensures DecodeExpr(EncodeExpr(e)) == Some(e)
    decreases e, 0
  {
    if e.returned.Some? {
      ExprRoundTrip(e.returned.value);
    }
    DecodeReturnObject(EncodeExpr(e).members, e.returned);
  }

  /** The literal leaves of `ExprRoundTrip`. */
  lemma LiteralRoundTrip(e: ExprJson)
    requires e.IntLiteral? || e.FloatLiteral? || e.StringLiteral? || e.BoolLiteral?
    ensures DecodeExpr(EncodeExpr(e)) == Some(e)
  {
    var m := EncodeExpr(e).members;
    match e {
      case IntLiteral(value) =>
        assert TextAt(m, "type") == Some("IntLiteral");
      case FloatLiteral(value) =>
        assert TextAt(m, "type") == Some("FloatLiteral");
      case StringLiteral(value) =>
        assert TextAt(m, "type") == Some("StringLiteral");
      case BoolLiteral(truth) =>
        assert TextAt(m, "type") == Some("BoolLiteral");
    }
  }

  /** The identifier and unrecognised leaves of `ExprRoundTrip`. */
  lemma NameRoundTrip(e: ExprJson)
    requires e.Identifier? || e.Other?
    ensures DecodeExpr(EncodeExpr(e)) == Some(e)
  {
    var m := EncodeExpr(e).members;
    match e {
      case Identifier(name) =>
        assert TextAt(m, "type") == Some("Identifier");
      case Other(description) =>
        assert TextAt(m, "type") == Some("Other");
    }
  }

  /** A statement record is recovered from its encoding. */
  lemma {:induction false} StmtRoundTrip(s: StmtJson)
    ensures DecodeStmt(EncodeStmt(s)) == Some(s)
    decreases s, 1
  {
    var m := EncodeStmt(s).members;
    match s {
      case VariableDeclaration(name, initializer) =>
        if initializer.Some? {
          ExprRoundTrip(initializer.value);
        }
        DecodeDeclarationObject(m, name, initializer);
      case Expression(expr) =>
        ExprRoundTrip(expr);
        DecodeExpressionObject(m, expr);
      case Other(_) =>
        assert TextAt(m, "type") == Some("Other");
    }
  }

  lemma {:induction false} StmtsRoundTrip(ss: seq<StmtJson>)
    ensures DecodeStmts(EncodeStmts(ss)) == Some(ss)
    decreases ss, 1
  {
    if ss != [] {
      var front, last := ss[..|ss| - 1], ss[|ss| - 1];
      var js := EncodeStmts(ss);
      assert js[..|js| - 1] == EncodeStmts(front) && js[|js| - 1] == EncodeStmt(last);
      StmtsRoundTrip(front);
      StmtRoundTrip(last);
      assert front + [last] == ss;
    }
  }

  lemma {:induction false} ExprsRoundTrip(es: seq<ExprJson>)
    ensures DecodeExprs(EncodeExprs(es)) == Some(es)
    decreases es, 1
  {
    if es != [] {
      var front, last := es[..|es| - 1], es[|es| - 1];
      var js := EncodeExprs(es);
      assert js[..|js| - 1] == EncodeExprs(front) && js[|js| - 1] == EncodeExpr(last);
      ExprsRoundTrip(front);
      ExprRoundTrip(last);
      assert front + [last] == es;
    }
  }

  /** An item record is recovered from its encoding. */
  lemma ItemRoundTrip(item: ItemJson)
    ensures DecodeItem(EncodeItem(item)) == Some(item)
  {
    match item {
      case Function(_, _, _, _) =>
        FunctionRoundTrip(item);
      case Struct(_, _) =>
        StructRoundTrip(item);
      case Enum(_, _) =>
        EnumRoundTrip(item);
      case Other(_) =>
        assert TextAt(EncodeItem(item).members, "type") == Some("Other");
    }
  }

  lemma FunctionRoundTrip(item: ItemJson)
    requires item.Function?
    ensures DecodeItem(EncodeItem(item)) == Some(item)
  {
    ParametersRoundTrip(item.parameters);
    StmtsRoundTrip(item.body);
    DecodeFunctionObject(EncodeItem(item).members, item.name, item.parameters, item.returnType, item.body);
  }

  lemma StructRoundTrip(item: ItemJson)
    requires item.Struct?
    ensures DecodeItem(EncodeItem(item)) == Some(item)
  {
    FieldsRoundTrip(item.fields);
    DecodeStructObject(EncodeItem(item).members, item.name, item.fields);
  }

  lemma EnumRoundTrip(item: ItemJson)
    requires item.Enum?
    ensures DecodeItem(EncodeItem(item)) == Some(item)
  {
    VariantsRoundTrip(item.variants);
    DecodeEnumObject(EncodeItem(item).members, item.name, item.variants);
  }

  lemma DecodeFunctionObject(m: map<string, Json>, name: string, parameters: seq<ParameterJson>,
                             returnType: Option<string>, body: seq<StmtJson>)
    requires TextAt(m, "type") == Some("Function") && TextAt(m, "name") == Some(name)
    requires "parameters" in m && m["parameters"].Array?
    requires DecodeAll(m["parameters"].elems, DecodeParameter) == Some(parameters)
    requires OptionalTextAt(m, "return_type") == Some(returnType)
    requires "body" in m && m["body"].Array? && DecodeStmts(m["body"].elems) == Some(body)
    ensures DecodeItem(Object(m)) == Some(Function(name, parameters, returnType, body))
  {
  }

  lemma DecodeStructObject(m: map<string, Json>, name: string, fields: seq<FieldJson>)
    requires TextAt(m, "type") == Some("Struct") && TextAt(m, "name") == Some(name)
    requires "fields" in m && m["fields"].Array? && DecodeAll(m["fields"].elems, DecodeField) == Some(fields)
    ensures DecodeItem(Object(m)) == Some(Struct(name, fields))
  {
  }

  lemma DecodeEnumObject(m: map<string, Json>, name: string, variants: seq<VariantJson>)
    requires TextAt(m, "type") == Some("Enum") && TextAt(m, "name") == Some(name)
    requires "variants" in m && m["variants"].Array? && DecodeAll(m["variants"].elems, DecodeVariant) == Some(variants)
    ensures DecodeItem(Object(m)) == Some(Enum(name, variants))
  {
  }

  /** The serialised document loses nothing: reading it back gives the
      records it was written from, the empty document `{}` included. */
  lemma DocumentRoundTrip(ast: AstJson)
    ensures DecodeAst(EncodeAst(ast)) == Some(ast)
  {
    if ast.items != [] {
      forall item ensures DecodeItem(EncodeItem(item)) == Some(item) {
        ItemRoundTrip(item);
      }
      AllRoundTrip(ast.items, EncodeItem, DecodeItem);
    }
  }
}
