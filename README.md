# rusty-ast: the two renderers of a Rust syntax tree

rusty-ast walks a parsed Rust file (a `syn` tree) and renders it in two ways:

- The **JSON model builder** (`JsonVisitor`) appends one tagged record per
  top-level item to a document root. It then serialises that document with
  serde. Statements and expressions are translated by two recursive,
  value-returning functions, `visit_stmt_json` and `visit_expr_json`.
- The **text renderer** (`TextVisitor`) keeps one mutable `indent` counter. It
  prints one `println!` per construct, prefixed by `indent` spaces, and brackets
  every nested part with `indent += 2` / `indent -= 2`.

This project models both renderers in Dafny over an explicit syntax tree and
proves what they promise.

- `syntax.dfy` (module `Syntax`) is the input tree: items, function
  arguments, patterns, statements, expressions and binary operators. There
  are more operators than the ten the renderers name. Every piece of text
  that `to_token_stream()`, `base10_digits()` or `value()` would produce is
  an opaque string.
- `operators.dfy` (module `Operators`) is the ten-symbol operator table that
  both renderers use, with `other_operator` as the fallback. It also has the
  table's inverse.
- `json_model.dfy` (module `JsonModel`) holds the `AstJson`, `ItemJson`,
  `StmtJson`, `ExprJson`, `ParameterJson`, `FieldJson` and `VariantJson`
  records. `StmtToJson` and `ExprToJson` model `visit_stmt_json` and
  `visit_expr_json`. The other functions give the record `process_item`
  builds for each item.
- `json_visitor.dfy` (module `JsonBuilder`) is the class `JsonVisitor`. Its
  field `ast` is updated in place by `ProcessFile` and `ProcessItem`, whose
  loops build the parameter, statement, field and variant vectors exactly
  as the source does.
- `json_facts.dfy` (module `JsonFacts`) proves the shape of the records:
  - one record per input, in order;
  - each optional part present exactly when the source has it;
  - the cases where the translation loses information;
  - that it loses none on every other construct: an inverse translation
    reads each such record back to the tree it came from.
- `json_document.dfy` (module `JsonDocument`) is the serialised document as a
  JSON value:
  - serde's `"type"` tag for `ItemJson`, `StmtJson` and `ExprJson`;
  - `null` for an absent option;
  - `items` left out when empty.

  A reader decodes every document back to its records, so serialisation
  never fails.
- `text_outline.dfy` (module `TextOutline`) gives the lines printed for each
  construct at a given indent. `text_trace.dfy` (module `TextTrace`) gives
  the whole output after each visit, in print order. It proves that each
  visit appends exactly the construct's outline.
- `text_visitor.dfy` (module `TextRenderer`) is the class `TextVisitor`, with
  fields `indent: nat` and `lines: seq<string>`. Standard output is `lines`,
  one entry per `println!`.
  Each visit method states that it leaves `indent` where it found it and
  appends exactly the construct's outline. Because `indent` is a `nat`,
  every decrement is also proved not to underflow. This includes the
  `+= 2 … += 2 … -= 4` of `visit_item_fn`.
- `text_facts.dfy` (module `TextFacts`) proves three groups of facts about
  the printed outline:
  - **Nesting:** every construct starts at its own indent and nothing inside
    it is shallower.
  - **Section labels:** each optional label (`Parameters:`, `Return type:`,
    `Fields:`, `Variants:`, `Name:`, `Initializer:`, `Arguments:`,
    `Else branch:`) appears exactly when its part exists.
  - **Agreement with the JSON builder:** the renderer prints the same
    parameters, fields, variants and operator symbols that the builder
    records.

The repository holds the same code several times, and one model covers each
group of copies:

- `src/json.rs` repeats the JSON builder of `src/json_visitor.rs`:
  - `process_file` at lines 151-156;
  - `process_item` at lines 159-234;
  - `visit_stmt_json` at lines 248-272;
  - `visit_expr_json` at lines 274-372;
  - `to_json` at lines 125-148, which adds debug output to standard error.
- `src/visitor.rs` and `src/main.rs` repeat the text renderer of
  `src/text_visitor.rs`:
  - `new` and `print_indent` at `src/visitor.rs` lines 8-14 and
    `src/main.rs` lines 14-20;
  - `visit_item_fn` at `src/visitor.rs` lines 28-76 and `src/main.rs`
    lines 37-85;
  - `visit_expr` at `src/visitor.rs` lines 86-232 and `src/main.rs`
    lines 88-234;
  - `visit_stmt` at `src/visitor.rs` lines 242-322 and `src/main.rs`
    lines 237-317.

The table cites the first copy of each.

The two renderers treat an item nested inside a statement differently.
`visit_stmt_json` turns it into `StmtJson::Other` carrying its text
(`src/json_visitor.rs` lines 323-325; `JsonModel.StmtToJson`). The text
renderer dispatches it to the item rules (`src/text_visitor.rs` lines
267-313; `TextRenderer.TextVisitor.VisitItem`).

## Model

| member | source | states |
|---|---|---|
| Operators.Symbol | src/json_visitor.rs:356-369 | exactly the ten named operators get a symbol of their own, one or two characters long; every other operator gets `other_operator` |
| Operators.Parse | src/json_visitor.rs:356-368 | a symbol read back names one of the ten operators and is exactly that operator's symbol |
| Operators.SymbolRoundTrip | src/json_visitor.rs:356-368 | the ten named operators keep their symbol and read back to themselves; an operator gets `other_operator` exactly when it is not one of the ten; `other_operator` reads back as no operator |
| Operators.SymbolInjective | src/text_visitor.rs:123-135 | two named operators with the same printed symbol are the same operator |
| JsonBuilder.JsonVisitor.constructor | src/json_visitor.rs:147-165 | a new builder (also `Default`) holds no records |
| JsonBuilder.JsonVisitor.ToJson | src/json_visitor.rs:174-179 | the serialised document is an object; it has `items` exactly when there are records; reading it back yields exactly the records held, so the `"{}"` fallback is never taken |
| JsonBuilder.JsonVisitor.VisitFile | src/json_visitor.rs:292-294 | visiting a file appends the file's records after those already held |
| JsonBuilder.JsonVisitor.ProcessFile | src/json_visitor.rs:189-193 | the records already held are unchanged, followed by the records of the file's items in order (loop invariant over the items processed so far) |
| JsonBuilder.JsonVisitor.ProcessItem | src/json_visitor.rs:203-278 | exactly one record is appended, the item's record; the parameter, statement, field and variant loops build `Parameters`, `StmtsToJson`, `Fields` and `Variants` of the prefix processed so far |
| JsonModel.ItemsToJson | src/json_visitor.rs:189-193 | one record per file item |
| JsonModel.ItemToJson | src/json_visitor.rs:203-278 | a function, struct or enum gets a record of its own kind; any other item gets an `Other` record |
| JsonModel.ParamOf | src/json_visitor.rs:208-223 | an input has a parameter record unless it is a typed input whose pattern is not an identifier; the record's name is the identifier, or `self` for a receiver, and its type is the input's type text |
| JsonModel.Parameters | src/json_visitor.rs:206-224 | never more parameter records than inputs |
| JsonModel.ReturnTypeOf | src/json_visitor.rs:226-231 | the return type is absent exactly for the default return type, and is `T` for `-> T` |
| JsonModel.Fields | src/json_visitor.rs:245-252 | one field record per struct field |
| JsonModel.Variants | src/json_visitor.rs:259-265 | one variant record per enum variant |
| JsonModel.StmtToJson | src/json_visitor.rs:307-327 | a `let` becomes a declaration with an initializer exactly when the `let` has one; an expression statement becomes an expression record; a nested item or a macro becomes `Other` with the statement's text |
| JsonModel.ExprToJson | src/json_visitor.rs:337-435 | the record is `Other` exactly for an unrecognised expression or literal, an identifier exactly for a path, and a literal record exactly for the four recognised literal kinds |
| JsonFacts.ItemsToJsonAt | src/json_visitor.rs:189-193 | one record per file item, and the k-th record is the k-th item's |
| JsonFacts.ParametersAppend | src/json_visitor.rs:206-224 | the parameters of a split input list are the two parts' parameters joined, so input order is kept |
| JsonFacts.ReceiverIsSelf | src/json_visitor.rs:217-222 | a receiver becomes a leading parameter named `self` whose type is the receiver's text |
| JsonFacts.ParametersFromInputs | src/json_visitor.rs:206-224 | every parameter record is the record of one of the function's inputs |
| JsonFacts.ParametersCount | src/json_visitor.rs:206-224 | there are never more parameters than inputs, and exactly as many iff every input has a record (typed inputs with a non-identifier pattern are dropped) |
| JsonFacts.ParametersAt | src/json_visitor.rs:208-216 | when every input has a record, the i-th parameter is the i-th input's name and type |
| JsonFacts.FieldsMatch | src/json_visitor.rs:245-252 | struct fields map one to one and in order; a field's name is absent exactly for a tuple field |
| JsonFacts.VariantsMatch | src/json_visitor.rs:259-265 | enum variants map to their names, one to one and in declaration order |
| JsonFacts.DirectionVariants | src/json_visitor.rs:515-549 | `enum Direction { North, East, South, West }` records its variants as `North, East, South, West` |
| JsonFacts.StmtsToJsonAt | src/json_visitor.rs:233-236 | a block's statements translate one to one and in order |
| JsonFacts.ExprsToJsonAt | src/json_visitor.rs:377-384 | call arguments translate one to one and in order |
| JsonFacts.FunctionRecord | src/json_visitor.rs:205-243 | a function's record has its name, at most one parameter per input, a return type absent exactly for the default return type and equal to `T` for `-> T`, and one body statement per block statement, in order |
| JsonFacts.StmtRecord | src/json_visitor.rs:307-327 | exactly the `let` statements become declarations, which record the identifier and are named `unknown` exactly when the pattern is no identifier or the identifier `unknown`; exactly the expression statements become `Expression`; exactly nested items and macros become `Other` |
| JsonFacts.ExprRecord | src/json_visitor.rs:356-430 | a binary record holds the operator's symbol or `other_operator`, with both operands translated; a call keeps its arguments, and an `if`, `loop` or `while` its statements, one to one and in order; the else branch and the returned value are present exactly when the source has them |
| JsonFacts.ExprRoundTrip | src/json_visitor.rs:337-435 | on expressions built only from recognised constructs, reading the record back gives the original expression, so the translation is injective there |
| JsonFacts.StmtRoundTrip | src/json_visitor.rs:307-327 | on statements built only from recognised constructs, reading the record back gives the original statement |
| JsonFacts.StmtsRoundTrip | src/json_visitor.rs:388-392 | the same for a block of such statements |
| JsonFacts.ExprsRoundTrip | src/json_visitor.rs:377-384 | the same for a list of such arguments |
| JsonFacts.LossyCases | src/json_visitor.rs:309-369 | where the record loses information: a `let` with a non-identifier pattern looks like `let unknown`, an unrecognised literal like an unrecognised expression with the same text, and `%` like `&&` |
| JsonFacts.UnnamedOperatorsAlike | src/json_visitor.rs:356-369 | any two operators outside the ten named ones give the same binary record |
| JsonDocument.AllRoundTrip | src/json_visitor.rs:10-12 | an array of records is read back exactly, in order, whenever each element is |
| JsonDocument.ParametersRoundTrip | src/json_visitor.rs:46-49 | parameter records are read back from their encoding |
| JsonDocument.FieldsRoundTrip | src/json_visitor.rs:55-58 | field records, with `null` for a tuple field's name, are read back from their encoding |
| JsonDocument.VariantsRoundTrip | src/json_visitor.rs:63-65 | variant records are read back from their encoding |
| JsonDocument.ExprRoundTrip | src/json_visitor.rs:88-132 | every expression record is read back from its `"type"`-tagged encoding |
| JsonDocument.StmtRoundTrip | src/json_visitor.rs:71-83 | every statement record is read back from its `"type"`-tagged encoding |
| JsonDocument.StmtsRoundTrip | src/json_visitor.rs:71-83 | a statement array is read back from its encoding |
| JsonDocument.ExprsRoundTrip | src/json_visitor.rs:88-132 | an argument array is read back from its encoding |
| JsonDocument.ItemRoundTrip | src/json_visitor.rs:21-40 | every item record is read back from its `"type"`-tagged encoding |
| JsonDocument.DocumentRoundTrip | src/json_visitor.rs:9-13 | the whole document is read back from its encoding, including an empty one whose `items` was skipped |
| TextOutline.Spaces | src/text_visitor.rs:17-19 | the indent string has exactly `n` characters, all spaces |
| TextOutline.FnLines | src/text_visitor.rs:33-78 | a function prints at least its header, `Body:` and one line per body statement |
| TextOutline.ItemLines | src/text_visitor.rs:267-313 | every nested item prints at least one line |
| TextOutline.StmtLines | src/text_visitor.rs:244-323 | every statement prints at least one line |
| TextOutline.StmtsLines | src/text_visitor.rs:72-76 | a block prints at least one line per statement |
| TextOutline.ExprsLines | src/text_visitor.rs:161-163 | a call's arguments print at least one line each |
| TextOutline.ExprLines | src/text_visitor.rs:88-234 | every expression prints at least one line |
| TextRenderer.TextVisitor.constructor | src/text_visitor.rs:13-15 | a new renderer starts at indent 0 with nothing printed |
| TextRenderer.TextVisitor.PrintIndent | src/text_visitor.rs:17-19 | exactly `indent` space characters |
| TextRenderer.TextVisitor.Println | src/text_visitor.rs:34 | appends one line, the indent followed by the text, and nothing else changes |
| TextRenderer.TextVisitor.VisitWithName | src/main.rs:23-32 | prints exactly one `name:` line at the current indent and leaves the indent unchanged |
| TextRenderer.TextVisitor.VisitBlock | src/text_visitor.rs:72-76 | the statements are printed in order at the current indent, which is restored |
| TextRenderer.TextVisitor.VisitParameters | src/text_visitor.rs:37-62 | `Parameters:` only when there are inputs, then one line per receiver or identifier parameter two deeper; indent restored |
| TextRenderer.TextVisitor.VisitItemFn | src/text_visitor.rs:33-78 | appends exactly the function's outline; the `+2`, `+2`, `-4` bracketing restores the indent without underflow |
| TextRenderer.TextVisitor.VisitExpr | src/text_visitor.rs:88-234 | appends exactly the expression's outline; every branch restores the indent |
| TextRenderer.TextVisitor.VisitOperand | src/text_visitor.rs:139-147 | a label at the current indent, then the operand's outline two deeper; indent restored |
| TextRenderer.TextVisitor.VisitSection | src/text_visitor.rs:181-186 | a label at the current indent, then the block's statements two deeper; indent restored |
| TextRenderer.TextVisitor.VisitHeaderAndLeft | src/text_visitor.rs:137-142 | the header with the operator symbol, then `Left:` and the left operand two deeper; indent restored |
| TextRenderer.TextVisitor.VisitBinary | src/text_visitor.rs:122-148 | header with the operator symbol, `Left:`, left operand two deeper, `Right:`, right operand two deeper; indent restored |
| TextRenderer.TextVisitor.VisitCall | src/text_visitor.rs:149-165 | `Function call:`, `Function:`, callee two deeper, `Arguments:` and the arguments in order only when there are any; indent restored |
| TextRenderer.TextVisitor.VisitIf | src/text_visitor.rs:173-194 | condition, then branch and (only when present) else branch, each two deeper than its label; indent restored |
| TextRenderer.TextVisitor.VisitWhile | src/text_visitor.rs:203-217 | condition and body, each two deeper than its label; indent restored |
| TextRenderer.TextVisitor.VisitStmt | src/text_visitor.rs:244-323 | appends exactly the statement's outline; nested functions go to `visit_item_fn`; indent restored |
| TextRenderer.TextVisitor.VisitItem | src/text_visitor.rs:267-313 | appends exactly the nested item's outline; indent restored |
| TextRenderer.TextVisitor.VisitStruct | src/text_visitor.rs:271-294 | the struct header, and `Fields:` with one line per field two deeper only when there are fields; indent restored |
| TextRenderer.TextVisitor.VisitEnum | src/text_visitor.rs:295-305 | the enum header, and `Variants:` with one line per variant two deeper only when there are variants; indent restored |
| TextTrace.ParamsTrace | src/text_visitor.rs:40-60 | the output after the parameter loop; the output never gets shorter (TextTrace.ParamsAppend gives the exact lines) |
| TextTrace.ParamsSection | src/text_visitor.rs:37-62 | the output after the `Parameters:` section; the output never gets shorter (TextTrace.ParamsAppend gives the exact parameter lines, and TextTrace.FnAppend the whole section inside a function's outline) |
| TextTrace.FieldsTrace | src/text_visitor.rs:276-291 | the output after the field loop; the output never gets shorter (TextTrace.FieldsAppend gives the exact lines) |
| TextTrace.VariantsTrace | src/text_visitor.rs:300-302 | the output after the variant loop; the output never gets shorter (TextTrace.VariantsAppend gives the exact lines) |
| TextTrace.FnTrace | src/text_visitor.rs:33-78 | the output after visiting a function: at least one line longer (TextTrace.FnAppend gives the exact lines) |
| TextTrace.BlockTrace | src/text_visitor.rs:72-76 | the output after visiting a block; the output never gets shorter (TextTrace.BlockAppend gives the exact lines) |
| TextTrace.StmtTrace | src/text_visitor.rs:244-323 | the output after visiting a statement: at least one line longer (TextTrace.StmtAppend gives the exact lines) |
| TextTrace.ItemTrace | src/text_visitor.rs:267-313 | the output after visiting a nested item: at least one line longer (TextTrace.ItemAppend gives the exact lines) |
| TextTrace.ArgsTrace | src/text_visitor.rs:161-163 | the output after the argument loop; the output never gets shorter (TextTrace.ArgsAppend gives the exact lines) |
| TextTrace.ExprTrace | src/text_visitor.rs:88-234 | the output after visiting an expression: at least one line longer (TextTrace.ExprAppend gives the exact lines) |
| TextTrace.BinaryTrace | src/text_visitor.rs:122-148 | the output after the binary arm: at least one line longer (TextTrace.BinaryAppend gives the exact lines) |
| TextTrace.CallTrace | src/text_visitor.rs:149-165 | the output after the call arm: at least one line longer (TextTrace.CallAppend gives the exact lines) |
| TextTrace.IfTrace | src/text_visitor.rs:173-194 | the output after the `if` arm: at least one line longer (TextTrace.IfAppend gives the exact lines) |
| TextTrace.ElseTrace | src/text_visitor.rs:188-193 | the output after an optional `else` branch; the output never gets shorter (TextTrace.ElseAppend gives the exact lines) |
| TextTrace.WhileTrace | src/text_visitor.rs:203-217 | the output after the `while` arm: at least one line longer (TextTrace.WhileAppend gives the exact lines) |
| TextTrace.OperandTrace | src/text_visitor.rs:139-147 | the output after a label and a sub-expression two deeper: at least one line longer (TextTrace.OperandAppend gives the exact lines) |
| TextTrace.SectionTrace | src/text_visitor.rs:181-186 | the output after a label and a block two deeper; the output never gets shorter (TextTrace.SectionAppend gives the exact lines) |
| TextTrace.ParamsAppend | src/text_visitor.rs:40-60 | the parameter loop appends the parameter lines and keeps what was printed before |
| TextTrace.FieldsAppend | src/text_visitor.rs:276-291 | the field loop appends the field lines and keeps what was printed before |
| TextTrace.VariantsAppend | src/text_visitor.rs:300-302 | the variant loop appends the variant lines and keeps what was printed before |
| TextTrace.FnAppend | src/text_visitor.rs:33-78 | visiting a function appends its outline and keeps what was printed before |
| TextTrace.BlockAppend | src/text_visitor.rs:72-76 | visiting a block appends the statements' outlines in order |
| TextTrace.StmtAppend | src/text_visitor.rs:244-323 | visiting a statement appends its outline |
| TextTrace.ItemAppend | src/text_visitor.rs:267-313 | visiting a nested item appends its outline |
| TextTrace.ArgsAppend | src/text_visitor.rs:161-163 | the argument loop appends the arguments' outlines in order |
| TextTrace.ExprAppend | src/text_visitor.rs:88-234 | visiting an expression appends its outline |
| TextTrace.OperandAppend | src/text_visitor.rs:139-142 | a label and a sub-expression two deeper append the label line, then the sub-expression's outline |
| TextTrace.SectionAppend | src/text_visitor.rs:181-186 | a label and a block two deeper append the label line, then the statements' outlines |
| TextTrace.BinaryAppend | src/text_visitor.rs:122-148 | visiting a binary expression appends its outline |
| TextTrace.CallAppend | src/text_visitor.rs:149-165 | visiting a call appends its outline |
| TextTrace.IfAppend | src/text_visitor.rs:173-194 | visiting an `if` appends its outline |
| TextTrace.ElseAppend | src/text_visitor.rs:188-193 | visiting an optional `else` branch appends `Else branch:` and the branch two deeper, or nothing when there is none |
| TextTrace.WhileAppend | src/text_visitor.rs:203-217 | visiting a `while` appends its outline |
| TextFacts.LineDepth | src/text_visitor.rs:17-19 | a line printed with a label at indent `i` starts with exactly `i` spaces |
| TextFacts.LitLabelInjective | src/text_visitor.rs:90-121 | the printed literal line determines the literal: no two literals, of the same kind or not, print the same label |
| TextFacts.LineInjective | src/text_visitor.rs:17-19 | two printed lines are equal only when their indents and labels are |
| TextFacts.ParamsExactly | src/text_visitor.rs:40-60 | every parameter line is at exactly the parameters' indent |
| TextFacts.FieldsExactly | src/text_visitor.rs:276-291 | every field line is at exactly the fields' indent |
| TextFacts.VariantsExactly | src/text_visitor.rs:300-302 | every variant line is at exactly the variants' indent |
| TextFacts.FnNested | src/text_visitor.rs:33-78 | a function's outline starts at its indent and no line is shallower |
| TextFacts.ItemNested | src/text_visitor.rs:267-313 | a nested item's outline starts at its indent and no line is shallower |
| TextFacts.StructNested | src/text_visitor.rs:271-294 | a struct's outline starts at its indent and no line is shallower |
| TextFacts.EnumNested | src/text_visitor.rs:295-305 | an enum's outline starts at its indent and no line is shallower |
| TextFacts.StmtNested | src/text_visitor.rs:244-323 | a statement's outline starts at its indent and no line is shallower |
| TextFacts.LocalNested | src/text_visitor.rs:246-258 | a `let`'s outline starts at its indent and no line is shallower |
| TextFacts.LocalLayout | src/text_visitor.rs:246-258 | a `let` prints its declaration line, then `Name:` for an identifier pattern, then `Initializer:` at the same indent followed by exactly the initializer's outline two deeper, and nothing else |
| TextFacts.StmtsAtLeast | src/text_visitor.rs:72-76 | no line of a block is shallower than the block's indent |
| TextFacts.ExprsAtLeast | src/text_visitor.rs:157-164 | no line of the arguments is shallower than their indent |
| TextFacts.ExprNested | src/text_visitor.rs:88-234 | an expression's outline starts at its indent and no line is shallower |
| TextFacts.BinaryNested | src/text_visitor.rs:122-148 | a binary expression's outline starts at its indent and no line is shallower |
| TextFacts.CallNested | src/text_visitor.rs:149-165 | a call's outline starts at its indent and no line is shallower |
| TextFacts.IfNested | src/text_visitor.rs:173-194 | an `if`'s outline starts at its indent and no line is shallower |
| TextFacts.LoopNested | src/text_visitor.rs:195-202 | a `loop`'s outline starts at its indent and no line is shallower |
| TextFacts.ReturnNested | src/text_visitor.rs:218-225 | a `return`'s outline starts at its indent and no line is shallower |
| TextFacts.WhileNested | src/text_visitor.rs:203-217 | a `while`'s outline starts at its indent and no line is shallower |
| TextFacts.FnParametersLabel | src/text_visitor.rs:37-73 | `Parameters:` appears in a function's outline iff the function has inputs; `Body:` always appears |
| TextFacts.FnReturnTypeLabel | src/text_visitor.rs:64-70 | `Return type: T` appears iff the function declares `-> T` |
| TextFacts.StructFieldsLabel | src/text_visitor.rs:271-275 | `Fields:` appears iff the struct has fields |
| TextFacts.EnumVariantsLabel | src/text_visitor.rs:295-299 | `Variants:` appears iff the enum has variants |
| TextFacts.LocalNameLabel | src/text_visitor.rs:246-250 | `Name: n`, at the declaration's indent, appears iff the pattern is the identifier `n` |
| TextFacts.LocalInitializerLabel | src/text_visitor.rs:252-257 | `Initializer:` appears iff the `let` has an initializer |
| TextFacts.CallArgumentsLabel | src/text_visitor.rs:157-164 | `Arguments:` appears iff the call has arguments |
| TextFacts.IfElseLabel | src/text_visitor.rs:188-193 | `Else branch:` appears iff the `if` has an else |
| TextFacts.BinaryHeader | src/text_visitor.rs:122-148 | the header shows the same operator symbol the JSON builder records; `Left:` and `Right:` are at the header's indent and each operand starts two deeper |
| TextFacts.ParamLinesCount | src/text_visitor.rs:40-60 | the renderer prints as many parameter lines as the JSON builder makes parameter records |
| TextFacts.ParamLinesTyped | src/text_visitor.rs:42-50 | for named typed inputs, the k-th parameter line shows the name and type of the k-th parameter record |
| TextFacts.FieldLinesMatch | src/text_visitor.rs:276-291 | the k-th field line shows the k-th field record: `Field: n - Type: t` for a named field, `Tuple field: t` for a tuple field |
| TextFacts.VariantLinesMatch | src/text_visitor.rs:300-302 | the k-th variant line shows the k-th variant record's name |

## Left out

- Parsing and file I/O are not modelled. This covers `parse_rust_source`,
  `parse_rust_file`, `print_ast`, `src/parser.rs`, `main` in `src/main.rs`,
  the command-line front end in `src/bin/rusty-ast.rs`, and the module
  wiring in `src/lib.rs`. The model starts from an already parsed tree.
- syn's inherited default walker (`visit_file`, `visit_item` and the
  rest) is not modelled. It decides which top-level items reach the
  overridden methods, and it is library code not part of this model. The
  text model starts at the overridden `visit_item_fn`, `visit_stmt` and
  `visit_expr`.
- Text produced by the library (`to_token_stream()`, `base10_digits()`,
  the string literal's `value()`) is an opaque string in the input tree.
  The model does not reconstruct it.
- `lines` holds one entry per `println!`, not one per terminal line. A
  string literal's `value()` and the text of `to_token_stream()` may hold
  line breaks, and such an entry shows as several lines, the later ones not
  indented. The depth and nesting facts of `TextFacts` are about entries.
- The byte layout of `serde_json::to_string_pretty` is not modelled. The
  document is a JSON value (objects as maps), so key order and whitespace
  are not captured.
- JsonBuilder.JsonVisitor.ToJson: returns the document value rather than
  its text. The `"{}"` fallback for a serialisation error is not a branch
  of the model, since every record has an encoding.
- The `eprintln!` debug output of `to_json` in `src/json.rs` is not
  modelled: it goes to standard error only.
- The semicolon flag of `Stmt::Expr` is not in the input tree, because
  neither renderer reads it.
- `visit_stmt_json` and `visit_expr_json` take `&mut self` but never change
  the builder, so they are modelled as pure functions. `ProcessItem`'s
  contract shows that only one record is appended.
- The text renderer's `indent` is a `usize`; the model uses a `nat`. An
  overflow of `indent += 2` would need a tree nested about 2^63 levels
  deep, so it is not modelled. Underflow is ruled out by the proofs.
- The compound arms of `visit_expr` and the item arms of `visit_stmt` are
  separate methods in the model: `VisitBinary`, `VisitCall`, `VisitIf`,
  `VisitWhile`, `VisitItem`, `VisitStruct` and `VisitEnum`. The loop over
  the parameters is `VisitParameters`, and each loop over a block's
  statements is `VisitBlock`. A label followed by a sub-expression two
  deeper is `VisitOperand`, and a label followed by a block two deeper is
  `VisitSection`. The binary arm prints its header and left operand in
  `VisitHeaderAndLeft`, whose ghost `right` parameter only serves its
  termination measure. They print the same lines in the same order
  as the inline code.
- TextFacts.ParamLinesTyped: states the line-by-line agreement only for
  functions whose inputs are all named typed parameters. For a receiver,
  the printed `Self receiver: T` and the record `self: T` are related by
  `TextRenderer.TextVisitor.VisitParameters` and `JsonFacts.ReceiverIsSelf`
  separately. `TextFacts.ParamLinesCount` gives the counts for all inputs.
- JsonFacts.ExprRoundTrip: holds only for trees built from recognised
  constructs, because the records are lossy elsewhere, as
  `JsonFacts.LossyCases` shows.
