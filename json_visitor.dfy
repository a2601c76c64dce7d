/** The JSON model builder: a visitor whose only state is the document root
    it appends one record to per top-level item. */
module JsonBuilder {
  import opened Wrappers
  import Syntax
  import opened JsonModel
  import JsonDocument

  class JsonVisitor {
    /** The records built so far, in the order their items were processed. */
    var ast: AstJson

    /** `new` (and `Default`): an empty document. */
    constructor ()
      ensures ast == AstJson([])
    {
      ast := AstJson([]);
    }

    /** `to_json`: the document serde writes for the records. The text's
        layout is not modelled, and the `"{}"` fallback for a failed
        serialisation cannot be taken, since every record serialises. */
    function ToJson(): (doc: JsonDocument.Json)
      reads this
      ensures doc.Object?
      ensures "items" in doc.members <==> ast.items != []
      ensures JsonDocument.DecodeAst(doc) == Some(ast)
    {
      JsonDocument.DocumentRoundTrip(ast);
      JsonDocument.EncodeAst(ast)
    }

    /** `visit_file`, which only hands the file to `process_file`. */
    method VisitFile(file: Syntax.File)
      modifies this
      ensures ast.items == old(ast.items) + ItemsToJson(file.items)
    {
      ProcessFile(file);
    }

    /** `process_file`: one record per top-level item, in order. */
    method ProcessFile(file: Syntax.File)
      modifies this
      ensures ast.items == old(ast.items) + ItemsToJson(file.items)
    {
      for k := 0 to |file.items|
        invariant ast.items == old(ast.items) + ItemsToJson(file.items[..k])
      {
        ProcessItem(file.items[k]);
        assert file.items[..k + 1][..k] == file.items[..k];
      }
      assert file.items[..|file.items|] == file.items;
    }

    /** `process_item`: builds the item's record with one loop per list it
        holds and pushes it onto the document. */
    method ProcessItem(item: Syntax.Item)
      modifies this
      ensures ast.items == old(ast.items) + [ItemToJson(item)]
    {
      match item {
        case Fn(f) =>
          var parameters: seq<ParameterJson> := [];
          for k := 0 to |f.inputs|
            invariant parameters == Parameters(f.inputs[..k])
          {
            match f.inputs[k] {
              case Typed(pat, ty) =>
                if pat.Ident? {
                  parameters := parameters + [ParameterJson(pat.ident, ty)];
                }
              case Receiver(tokens) =>
                parameters := parameters + [ParameterJson("self", tokens)];
            }
            assert f.inputs[..k + 1][..k] == f.inputs[..k];
          }
          assert f.inputs[..|f.inputs|] == f.inputs;
          var returnType := match f.output case Default => None case Type(ty) => Some(ty);
          var statements: seq<StmtJson> := [];
          for k := 0 to |f.stmts|
            invariant statements == StmtsToJson(f.stmts[..k])
          {
            statements := statements + [StmtToJson(f.stmts[k])];
            assert f.stmts[..k + 1][..k] == f.stmts[..k];
          }
          assert f.stmts[..|f.stmts|] == f.stmts;
          ast := AstJson(ast.items + [Function(f.ident, parameters, returnType, statements)]);
        case Struct(s) =>
          var fields: seq<FieldJson> := [];
          for k := 0 to |s.fields|
            invariant fields == Fields(s.fields[..k])
          {
            fields := fields + [FieldJson(s.fields[k].ident, s.fields[k].ty)];
            assert s.fields[..k + 1][..k] == s.fields[..k];
          }
          assert s.fields[..|s.fields|] == s.fields;
          ast := AstJson(ast.items + [Struct(s.ident, fields)]);
        case Enum(e) =>
          var variants: seq<VariantJson> := [];
          for k := 0 to |e.variants|
            invariant variants == Variants(e.variants[..k])
          {
            variants := variants + [VariantJson(e.variants[k].ident)];
            assert e.variants[..k + 1][..k] == e.variants[..k];
          }
          assert e.variants[..|e.variants|] == e.variants;
          ast := AstJson(ast.items + [Enum(e.ident, variants)]);
        case OtherItem(tokens) =>
          ast := AstJson(ast.items + [ItemJson.Other(tokens)]);
      }
    }
  }
}
