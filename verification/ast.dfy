/** The tree the grammar actions build. Each constructor stands for one tuple
    shape of the parser: its first field is the tuple's tag, the rest its
    components in order. */
module Ast {
  import opened Wrappers

  /** `('base_type', name)`, `('array_type', t)`, `('ref_type', t)` and
      `('map_type', key, value)`. */
  datatype TypeDecl =
    | BaseType(name: string)
    | ArrayType(elem: TypeDecl)
    | RefType(target: TypeDecl)
    | MapType(key: TypeDecl, value: TypeDecl)

  /** Expressions. A binary node is `(name, left, right)` with the operator's
      name (`'add'`, `'less'`, ...) as its tag; `Temp` is the `('temp', 0)`
      node that compound assignment introduces. */
  datatype Expr =
    | Binary(op: string, left: Expr, right: Expr)
    | AccessIndex(target: Expr, index: Expr)
    | FnCall(callee: Expr, args: seq<Expr>)
    | MemberAccess(target: Expr, member: Expr)
    | In(elem: Expr, collection: Expr)
    | Arr(items: seq<Expr>)
    | Var(name: string)
    | Num(n: nat)
    | Str(text: string)
    | Chr(text: string)
    | Temp(id: nat)

  /** Statements. An expression statement is the expression itself; `Block` is a
      statement that is a list: a braced statement group, or the two statements
      a compound assignment becomes. `Break` and `Continue` are the plain strings
      `'break'` and `'continue'`, not tuples. */
  datatype Stmt =
    | ExprStmt(expr: Expr)
    | Return(values: seq<Expr>)
    | VarDecl(mutable: bool, name: string, value: Expr)
    | If(cond: Expr, thenBody: seq<Stmt>, elseBody: Option<seq<Stmt>>)
    | ForEver(body: seq<Stmt>)
    | ForEach(key: Option<string>, name: string, iter: Expr, body: seq<Stmt>)
    | TempDecl(id: nat, value: Expr)
    | Assign(target: Expr, value: Expr)
    | Defer(expr: Expr)
    | Break
    | Continue
    | Assert(expr: Expr)
    | Block(stmts: seq<Stmt>)

  /** A function parameter: the first is the pair `(name, type)`, every later one
      the 4-tuple `(name, mut, optional, type)`. */
  datatype Param =
    | FirstParam(name: string, ty: TypeDecl)
    | LaterParam(name: string, mutable: bool, optional: bool, ty: TypeDecl)

  /** An entry of a function's return list: the first entry of a parenthesised
      list is a bare name, every other entry a type declaration. */
  datatype RetItem = RetName(name: string) | RetType(ty: TypeDecl)

  /** A struct field `(name, type)`; an unnamed field has the name `''`. */
  datatype Field = Field(name: string, ty: TypeDecl)

  /** Module items. An enum written with an empty body `{}` is the pair
      `('enum_decl', [])`, without its name. */
  datatype ModuleItem =
    | FnDecl(name: string, params: seq<Param>, rets: seq<RetItem>, body: seq<Stmt>)
    | StructDecl(name: string, fields: seq<Field>)
    | EnumDecl(name: string, members: seq<string>)
    | NamelessEnumDecl(members: seq<string>)
    | ModuleDecl(name: string)
    | Import(name: string)
}
