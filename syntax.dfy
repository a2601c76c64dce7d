/** Rust's `Option`, shared by the input tree and the JSON records. */
module Wrappers {
  datatype Option<+T> = None | Some(value: T) {
    predicate IsFailure() {
      None?
    }

    function PropagateFailure<U>(): Option<U>
      requires None?
    {
      None
    }

    function Extract(): T
      requires Some?
    {
      value
    }
  }
}

/** The parsed syntax tree that both renderers consume: the part of `syn`'s
    node types that the renderers look at. Every piece of text the renderers
    obtain from the parser library (`to_token_stream()`, `base10_digits()`,
    a string literal's value, an identifier) is an opaque `string` here. */
module Syntax {
  import opened Wrappers

  /** `syn::BinOp`: all of its operators, of which the renderers name ten. */
  datatype BinOp =
    | Add | Sub | Mul | Div | Rem
    | And | Or
    | BitXor | BitAnd | BitOr | Shl | Shr
    | Eq | Lt | Le | Ne | Ge | Gt
    | AddAssign | SubAssign | MulAssign | DivAssign | RemAssign
    | BitXorAssign | BitAndAssign | BitOrAssign | ShlAssign | ShrAssign

  /** `syn::Lit`: the four kinds the renderers decompose, and every other
      literal (char, byte, byte string, ...) with its token text. */
  datatype Lit =
    | IntLit(digits: string)
    | FloatLit(digits: string)
    | StrLit(text: string)
    | BoolLit(flag: bool)
    | OtherLit(tokens: string)

  /** `syn::Pat`: an identifier pattern, or any other pattern. */
  datatype Pat = Ident(ident: string) | OtherPat(tokens: string)

  /** `syn::FnArg`: a typed parameter `pat: ty`, or a `self` receiver. */
  datatype FnArg = Typed(pat: Pat, ty: string) | Receiver(tokens: string)

  /** `syn::ReturnType`: no `-> T` (the unit default), or an explicit type. */
  datatype ReturnType = Default | Type(ty: string)

  /** `syn::Field`: a named field has `Some(ident)`, a tuple field `None`. */
  datatype Field = Field(ident: Option<string>, ty: string)

  datatype Variant = Variant(ident: string)

  datatype ItemFn = ItemFn(ident: string, inputs: seq<FnArg>, output: ReturnType, stmts: seq<Stmt>)

  datatype ItemStruct = ItemStruct(ident: string, fields: seq<Field>)

  datatype ItemEnum = ItemEnum(ident: string, variants: seq<Variant>)

  /** `syn::Item`: functions, structs, enums, and every other item
      (`impl`, `use`, `mod`, ...) with its token text. */
  datatype Item =
    | Fn(itemFn: ItemFn)
    | Struct(itemStruct: ItemStruct)
    | Enum(itemEnum: ItemEnum)
    | OtherItem(tokens: string)

  /** `syn::Stmt`. A `let` keeps its pattern and the expression of its
      initializer; an item statement keeps the item and the statement's own
      token text; macro statements are `OtherStmt`. */
  datatype Stmt =
    | Local(pat: Pat, init: Option<Expr>)
    | ExprStmt(expr: Expr)
    | ItemStmt(item: Item, tokens: string)
    | OtherStmt(tokens: string)

  /** `syn::Expr`: the forms the renderers decompose, and every other
      expression with its token text. `If`'s else branch is the expression
      after `else` (a block or another `if`), as in `syn::ExprIf`. */
  datatype Expr =
    | LitExpr(lit: Lit)
    | Binary(op: BinOp, left: Expr, right: Expr)
    | Call(func: Expr, args: seq<Expr>)
    | Path(path: string)
    | If(cond: Expr, thenBranch: seq<Stmt>, elseBranch: Option<Expr>)
    | Loop(body: seq<Stmt>)
    | While(cond: Expr, body: seq<Stmt>)
    | Return(value: Option<Expr>)
    | OtherExpr(tokens: string)

  /** `syn::File`: the top-level items in declaration order. */
  datatype File = File(items: seq<Item>)
}
