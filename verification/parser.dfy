/** The parser: one function per nonterminal of the grammar, each recognising
    that nonterminal at a position of the token list and returning its value
    (built with the grammar's actions) and the position after it. Binary and
    postfix expressions are parsed by precedence climbing over the precedence
    table, which builds the trees the LALR parser builds when it settles its
    shift/reduce conflicts with that table: a higher level binds tighter, and an
    operator of the same level reduces first (left associativity). */
module Parser {
  import opened Wrappers
  import opened Lexer
  import opened Ast
  import opened Grammar

  datatype ParseError =
    | SyntaxError(pos: nat)
    /** A grammar action raised: the token at `pos` is not a key of its table. */
    | ActionFailed(pos: nat, err: ActionError)

  /** A value and the position after the tokens it was parsed from. */
  type Parsed<T> = Result<(T, nat), ParseError>

  /** A token's text. The tokenizer gives every token a text except NUMBER,
      which carries an integer instead; a token without one reads as "". */
  function TextOf(t: Token): string {
    if t.value.Text? then t.value.text else ""
  }

  /** A NUMBER token's integer (0 for a token without one). */
  function NumberOf(t: Token): nat {
    if t.value.Int? then t.value.n else 0
  }

  predicate IsAt(ts: seq<Token>, pos: nat, k: Kind) {
    pos < |ts| && ts[pos].kind == k
  }

  /** The tokens an expression can start with. */
  predicate StartsExpr(k: Kind) {
    k == NAME || k == NUMBER || k == STRING || k == CHAR || k == Literal('(') || k == Literal('[')
  }

  /** The tokens a type declaration can start with. */
  predicate StartsType(k: Kind) {
    k == NAME || k == MAP || k == Literal('[') || k == Literal('&')
  }

  /** The compound-assignment tokens. */
  predicate IsCompound(k: Kind) {
    k == ASSIGN_ADD || k == ASSIGN_SUB || k == ASSIGN_MUL || k == ASSIGN_DIV || k == ASSIGN_MOD
    || k == ASSIGN_AND || k == ASSIGN_OR || k == ASSIGN_XOR || k == ASSIGN_LEFT_SHIFT || k == ASSIGN_RIGHT_SHIFT
  }

  function Expect(ts: seq<Token>, pos: nat, k: Kind): (r: Result<nat, ParseError>)
    ensures r.Ok? <==> IsAt(ts, pos, k)
    ensures r.Ok? ==> r.value == pos + 1
  {
    if IsAt(ts, pos, k) then Ok(pos + 1) else Err(SyntaxError(pos))
  }

  /** A NAME token's text. */
  function ExpectName(ts: seq<Token>, pos: nat): (r: Parsed<string>)
    ensures r.Ok? <==> IsAt(ts, pos, NAME)
    ensures r.Ok? ==> r.value == (TextOf(ts[pos]), pos + 1)
  {
    if IsAt(ts, pos, NAME) then Ok((TextOf(ts[pos]), pos + 1)) else Err(SyntaxError(pos))
  }

  // ---------------------------------------------------------------------------
  // Type declarations
  // ---------------------------------------------------------------------------

  /** `type_decl`: a name, `[]` and a type, `&` and a type, or `map [` key `]` value. */
  function ParseType(ts: seq<Token>, pos: nat): (r: Parsed<TypeDecl>)
    requires pos <= |ts|
    ensures r.Ok? ==> pos < r.value.1 <= |ts|
    decreases |ts| - pos
  {
    if pos == |ts| then Err(SyntaxError(pos))
    else match ts[pos].kind
      case NAME => Ok((BaseType(TextOf(ts[pos])), pos + 1))
      case MAP =>
        var open :- Expect(ts, pos + 1, Literal('['));
        var key :- ParseType(ts, open);
        var close :- Expect(ts, key.1, Literal(']'));
        var value :- ParseType(ts, close);
        Ok((MapType(key.0, value.0), value.1))
      case Literal(c) =>
        if c == '[' then
          var close :- Expect(ts, pos + 1, Literal(']'));
          var elem :- ParseType(ts, close);
          Ok((ArrayType(elem.0), elem.1))
        else if c == '&' then
          var target :- ParseType(ts, pos + 1);
          Ok((RefType(target.0), target.1))
        else Err(SyntaxError(pos))
      case _ => Err(SyntaxError(pos))
  }

  // ---------------------------------------------------------------------------
  // Expressions
  // ---------------------------------------------------------------------------

  /** The operand rules: a name, a number, a string, a character, a parenthesised
      expression (its value is the inner expression's) or an array literal. */
  function ParsePrimary(ts: seq<Token>, pos: nat): (r: Parsed<Expr>)
    requires pos <= |ts|
    ensures r.Ok? ==> pos < r.value.1 <= |ts|
    decreases |ts| - pos, 0
  {
    if pos == |ts| then Err(SyntaxError(pos))
    else match ts[pos].kind
      case NAME => Ok((Var(TextOf(ts[pos])), pos + 1))
      case NUMBER => Ok((Num(NumberOf(ts[pos])), pos + 1))
      case STRING => Ok((Str(TextOf(ts[pos])), pos + 1))
      case CHAR => Ok((Chr(TextOf(ts[pos])), pos + 1))
      case Literal(c) =>
        if c == '(' then
          var inner :- ParseExpr(ts, pos + 1, 1);
          var close :- Expect(ts, inner.1, Literal(')'));
          Ok((inner.0, close))
        else if c == '[' then
          var items :- ParseExprList(ts, pos + 1);
          var close :- Expect(ts, items.1, Literal(']'));
          Ok((Arr(items.0), close))
        else Err(SyntaxError(pos))
      case _ => Err(SyntaxError(pos))
  }

  /** An expression whose operators all have level `min` or more. */
  function ParseExpr(ts: seq<Token>, pos: nat, min: nat): (r: Parsed<Expr>)
    requires pos <= |ts| && min >= 1
    ensures r.Ok? ==> pos < r.value.1 <= |ts|
    decreases |ts| - pos, 1
  {
    var first :- ParsePrimary(ts, pos);
    ParseClimb(ts, first.0, first.1, min)
  }

  /** Extends `lhs` with the operators from `pos` on whose level is `min` or more.
      The right operand of an operator of level L takes only operators above L,
      so an operator of the same level applies to the tree built so far. */
  function ParseClimb(ts: seq<Token>, lhs: Expr, pos: nat, min: nat): (r: Parsed<Expr>)
    requires pos <= |ts| && min >= 1
    ensures r.Ok? ==> pos <= r.value.1 <= |ts|
    decreases |ts| - pos, 0
  {
    if pos == |ts| || Level(ts[pos].kind) < min then Ok((lhs, pos))
    else
      var op := ts[pos];
      if op.kind == Literal('[') then
        var index :- ParseExpr(ts, pos + 1, 1);
        var close :- Expect(ts, index.1, Literal(']'));
        ParseClimb(ts, AccessIndex(lhs, index.0), close, min)
      else if op.kind == Literal('(') then
        var args :- ParseExprList(ts, pos + 1);
        var close :- Expect(ts, args.1, Literal(')'));
        ParseClimb(ts, FnCall(lhs, args.0), close, min)
      else
        var rhs :- ParseExpr(ts, pos + 1, Level(op.kind) + 1);
        var node :- Reduce(op, lhs, rhs.0, pos);
        ParseClimb(ts, node, rhs.1, min)
  }

  /** The action of an infix rule: member access, `in`, or a binary operator
      named through the operator dictionary by the token's text. */
  function Reduce(op: Token, lhs: Expr, rhs: Expr, pos: nat): (r: Result<Expr, ParseError>)
    ensures r.Ok? ==> r.value in {MemberAccess(lhs, rhs), In(lhs, rhs)} ||
                      (r.value.Binary? && r.value.left == lhs && r.value.right == rhs &&
                       SymbolFor(r.value.op) == Some(TextOf(op)))
    ensures r.Err? ==> r.error == ActionFailed(pos, KeyError(TextOf(op)))
  {
    if op.kind == Literal('.') then Ok(MemberAccess(lhs, rhs))
    else if op.kind == IN then Ok(In(lhs, rhs))
    else match BinaryAction(TextOf(op), lhs, rhs)
      case Ok(node) => Ok(node)
      case Err(e) => Err(ActionFailed(pos, e))
  }

  /** `expr_list` (and `return_list_item`, which has the same rules): nothing or
      one expression, then any number of `,` and an expression. */
  function ParseExprList(ts: seq<Token>, pos: nat): (r: Parsed<seq<Expr>>)
    requires pos <= |ts|
    ensures r.Ok? ==> pos <= r.value.1 <= |ts|
    decreases |ts| - pos, 3
  {
    if pos < |ts| && StartsExpr(ts[pos].kind) then
      var first :- ParseExpr(ts, pos, 1);
      ParseExprListTail(ts, [first.0], first.1)
    else ParseExprListTail(ts, [], pos)
  }

  /** The `expr_list "," expr` rule, applied while a comma follows. */
  function ParseExprListTail(ts: seq<Token>, acc: seq<Expr>, pos: nat): (r: Parsed<seq<Expr>>)
    requires pos <= |ts|
    ensures r.Ok? ==> pos <= r.value.1 <= |ts|
    decreases |ts| - pos, 2
  {
    if IsAt(ts, pos, Literal(',')) then
      var next :- ParseExpr(ts, pos + 1, 1);
      ParseExprListTail(ts, acc + [next.0], next.1)
    else Ok((acc, pos))
  }

  // ---------------------------------------------------------------------------
  // Statements
  // ---------------------------------------------------------------------------

  /** `stmt`: None for a blank line. */
  function ParseStmt(ts: seq<Token>, pos: nat): (r: Parsed<Option<Stmt>>)
    requires pos <= |ts|
    ensures r.Ok? ==> pos < r.value.1 <= |ts|
    decreases |ts| - pos, 1
  {
    if pos == |ts| then Err(SyntaxError(pos))
    else
      var k := ts[pos].kind;
      if k == NEWLINE then Ok((None, pos + 1))
      else if k == Literal('{') then
        var group :- ParseStmts(ts, pos + 1, []);
        Ok((Some(Block(ComStmt(group.0))), group.1))
      else if k == RETURN then
        var values :- ParseExprList(ts, pos + 1);
        var end :- Expect(ts, values.1, NEWLINE);
        Ok((Some(Return(values.0)), end))
      else if k == MUT then
        var name :- ExpectName(ts, pos + 1);
        var p :- Expect(ts, name.1, ASSIGN_DECLARE);
        var value :- ParseExpr(ts, p, 1);
        var end :- Expect(ts, value.1, NEWLINE);
        Ok((Some(VarDecl(true, name.0, value.0)), end))
      else if k == NAME && IsAt(ts, pos + 1, ASSIGN_DECLARE) then
        var value :- ParseExpr(ts, pos + 2, 1);
        var end :- Expect(ts, value.1, NEWLINE);
        Ok((Some(VarDecl(false, TextOf(ts[pos]), value.0)), end))
      else if k == IF then
        var st :- ParseIf(ts, pos + 1);
        Ok((Some(st.0), st.1))
      else if k == FOR then
        var st :- ParseFor(ts, pos + 1);
        Ok((Some(st.0), st.1))
      else if k == DEFER || k == ASSERT then
        var value :- ParseExpr(ts, pos + 1, 1);
        var end :- Expect(ts, value.1, NEWLINE);
        Ok((Some(if k == DEFER then Defer(value.0) else Assert(value.0)), end))
      else if k == BREAK || k == CONTINUE then
        var end :- Expect(ts, pos + 1, NEWLINE);
        Ok((Some(if k == BREAK then Break else Continue), end))
      else
        var lhs :- ParseExpr(ts, pos, 1);
        ParseExprStmt(ts, lhs.0, lhs.1)
  }

  /** The rest of an `if` statement: the condition, a block, and an optional
      `else` block, then a line break. */
  function ParseIf(ts: seq<Token>, pos: nat): (r: Parsed<Stmt>)
    requires pos <= |ts|
    ensures r.Ok? ==> pos < r.value.1 <= |ts|
    decreases |ts| - pos, 0
  {
    var cond :- ParseExpr(ts, pos, 1);
    var body :- ParseStmtBlock(ts, cond.1);
    if IsAt(ts, body.1, ELSE) then
      var other :- ParseStmtBlock(ts, body.1 + 1);
      var end :- Expect(ts, other.1, NEWLINE);
      Ok((If(cond.0, body.0, Some(other.0)), end))
    else
      var end :- Expect(ts, body.1, NEWLINE);
      Ok((If(cond.0, body.0, None), end))
  }

  /** The rest of a `for` statement: a bare block, `name in expr` and a block, or
      `name , name in expr` and a block, then a line break. */
  function ParseFor(ts: seq<Token>, pos: nat): (r: Parsed<Stmt>)
    requires pos <= |ts|
    ensures r.Ok? ==> pos < r.value.1 <= |ts|
    decreases |ts| - pos, 1
  {
    if IsAt(ts, pos, NAME) then
      if IsAt(ts, pos + 1, Literal(',')) then
        var name :- ExpectName(ts, pos + 2);
        ParseForIn(ts, Some(TextOf(ts[pos])), name.0, name.1)
      else ParseForIn(ts, None, TextOf(ts[pos]), pos + 1)
    else
      var body :- ParseStmtBlock(ts, pos);
      var end :- Expect(ts, body.1, NEWLINE);
      Ok((ForEver(body.0), end))
  }

  /** The rest of a `for` statement after its names: `in`, the collection, a
      block and a line break. */
  function ParseForIn(ts: seq<Token>, key: Option<string>, name: string, pos: nat): (r: Parsed<Stmt>)
    requires pos <= |ts|
    ensures r.Ok? ==> pos < r.value.1 <= |ts|
    decreases |ts| - pos, 2
  {
    var p :- Expect(ts, pos, IN);
    var iter :- ParseExpr(ts, p, 1);
    var body :- ParseStmtBlock(ts, iter.1);
    var end :- Expect(ts, body.1, NEWLINE);
    Ok((ForEach(key, name, iter.0, body.0), end))
  }

  /** The statements that start with an expression: the expression alone, an
      assignment `=`, or a compound assignment, which the action desugars. */
  function ParseExprStmt(ts: seq<Token>, lhs: Expr, pos: nat): (r: Parsed<Option<Stmt>>)
    requires pos <= |ts|
    ensures r.Ok? ==> pos < r.value.1 <= |ts|
  {
    if IsAt(ts, pos, NEWLINE) then Ok((Some(ExprStmt(lhs)), pos + 1))
    else if IsAt(ts, pos, Literal('=')) then
      var rhs :- ParseExpr(ts, pos + 1, 1);
      var end :- Expect(ts, rhs.1, NEWLINE);
      Ok((Some(Assign(lhs, rhs.0)), end))
    else if pos < |ts| && IsCompound(ts[pos].kind) then
      var rhs :- ParseExpr(ts, pos + 1, 1);
      var end :- Expect(ts, rhs.1, NEWLINE);
      match CompoundAssign(lhs, TextOf(ts[pos]), rhs.0)
      case Ok(st) => Ok((Some(st), end))
      case Err(e) => Err(ActionFailed(pos, e))
    else Err(SyntaxError(pos))
  }

  /** The statement values up to the closing brace, and the position after it. */
  function ParseStmts(ts: seq<Token>, pos: nat, acc: seq<Option<Stmt>>): (r: Parsed<seq<Option<Stmt>>>)
    requires pos <= |ts|
    ensures r.Ok? ==> pos < r.value.1 <= |ts|
    decreases |ts| - pos, 2
  {
    if pos == |ts| then Err(SyntaxError(pos))
    else if ts[pos].kind == Literal('}') then Ok((acc, pos + 1))
    else
      var item :- ParseStmt(ts, pos);
      ParseStmts(ts, item.1, acc + [item.0])
  }

  /** `stmt_block`: `{` `}` is the empty list, otherwise the `stmt_list` value of
      the statements between the braces. */
  function ParseStmtBlock(ts: seq<Token>, pos: nat): (r: Parsed<seq<Stmt>>)
    requires pos <= |ts|
    ensures r.Ok? ==> pos < r.value.1 <= |ts|
    decreases |ts| - pos, 0
  {
    var open :- Expect(ts, pos, Literal('{'));
    var items :- ParseStmts(ts, open, []);
    Ok((if |items.0| == 0 then [] else ItemList(items.0), items.1))
  }

  // ---------------------------------------------------------------------------
  // Module items
  // ---------------------------------------------------------------------------

  /** `fn_args`: nothing or a first `name type` pair, then any number of `,`
      `name [mut] [?] type` entries. */
  function ParseFnArgs(ts: seq<Token>, pos: nat): (r: Parsed<seq<Param>>)
    requires pos <= |ts|
    ensures r.Ok? ==> pos <= r.value.1 <= |ts|
  {
    if IsAt(ts, pos, NAME) then
      var ty :- ParseType(ts, pos + 1);
      ParseFnArgsTail(ts, [FirstParam(TextOf(ts[pos]), ty.0)], ty.1)
    else ParseFnArgsTail(ts, [], pos)
  }

  function ParseFnArgsTail(ts: seq<Token>, acc: seq<Param>, pos: nat): (r: Parsed<seq<Param>>)
    requires pos <= |ts|
    ensures r.Ok? ==> pos <= r.value.1 <= |ts|
    decreases |ts| - pos
  {
    if IsAt(ts, pos, Literal(',')) then
      var name :- ExpectName(ts, pos + 1);
      var mutable := IsAt(ts, name.1, MUT);
      var p := if mutable then name.1 + 1 else name.1;
      var optional := IsAt(ts, p, Literal('?'));
      var q := if optional then p + 1 else p;
      var ty :- ParseType(ts, q);
      ParseFnArgsTail(ts, acc + [LaterParam(name.0, mutable, optional, ty.0)], ty.1)
    else Ok((acc, pos))
  }

  /** `fn_ret`: nothing, one type, or a parenthesised list whose first entry is a
      bare name and whose later entries are types. */
  function ParseFnRet(ts: seq<Token>, pos: nat): (r: Parsed<seq<RetItem>>)
    requires pos <= |ts|
    ensures r.Ok? ==> pos <= r.value.1 <= |ts|
  {
    if IsAt(ts, pos, Literal('(')) then
      var first :- ExpectName(ts, pos + 1);
      var items :- ParseRetListTail(ts, [RetName(first.0)], first.1);
      var close :- Expect(ts, items.1, Literal(')'));
      Ok((items.0, close))
    else if pos < |ts| && StartsType(ts[pos].kind) then
      var ty :- ParseType(ts, pos);
      Ok(([RetType(ty.0)], ty.1))
    else Ok(([], pos))
  }

  function ParseRetListTail(ts: seq<Token>, acc: seq<RetItem>, pos: nat): (r: Parsed<seq<RetItem>>)
    requires pos <= |ts|
    ensures r.Ok? ==> pos <= r.value.1 <= |ts|
    decreases |ts| - pos
  {
    if IsAt(ts, pos, Literal(',')) then
      var ty :- ParseType(ts, pos + 1);
      ParseRetListTail(ts, acc + [RetType(ty.0)], ty.1)
    else Ok((acc, pos))
  }

  /** `struct_item`: `name type` or an unnamed `type`, then a line break; a blank
      line is None. A name directly followed by the line break is an unnamed
      field of that base type. */
  function ParseField(ts: seq<Token>, pos: nat): (r: Parsed<Option<Field>>)
    requires pos <= |ts|
    ensures r.Ok? ==> pos < r.value.1 <= |ts|
  {
    if IsAt(ts, pos, NEWLINE) then Ok((None, pos + 1))
    else if IsAt(ts, pos, NAME) && !IsAt(ts, pos + 1, NEWLINE) then
      var ty :- ParseType(ts, pos + 1);
      var end :- Expect(ts, ty.1, NEWLINE);
      Ok((Some(Field(TextOf(ts[pos]), ty.0)), end))
    else
      var ty :- ParseType(ts, pos);
      var end :- Expect(ts, ty.1, NEWLINE);
      Ok((Some(Field("", ty.0)), end))
  }

  /** The struct item values up to the closing brace, and the position after it. */
  function ParseFields(ts: seq<Token>, pos: nat, acc: seq<Option<Field>>): (r: Parsed<seq<Option<Field>>>)
    requires pos <= |ts|
    ensures r.Ok? ==> pos < r.value.1 <= |ts|
    decreases |ts| - pos
  {
    if pos == |ts| then Err(SyntaxError(pos))
    else if ts[pos].kind == Literal('}') then Ok((acc, pos + 1))
    else
      var item :- ParseField(ts, pos);
      ParseFields(ts, item.1, acc + [item.0])
  }

  /** The enum item values (a name, or None for a blank line) up to the closing
      brace, and the position after it. */
  function ParseEnumItems(ts: seq<Token>, pos: nat, acc: seq<Option<string>>): (r: Parsed<seq<Option<string>>>)
    requires pos <= |ts|
    ensures r.Ok? ==> pos < r.value.1 <= |ts|
    decreases |ts| - pos
  {
    if pos == |ts| then Err(SyntaxError(pos))
    else if ts[pos].kind == Literal('}') then Ok((acc, pos + 1))
    else if ts[pos].kind == NEWLINE then ParseEnumItems(ts, pos + 1, acc + [None])
    else
      var name :- ExpectName(ts, pos);
      ParseEnumItems(ts, name.1, acc + [Some(name.0)])
  }

  /** The rest of a function declaration after `fn`: the name, the parameters
      in parentheses, the return entries and the body. */
  function ParseFnDecl(ts: seq<Token>, pos: nat): (r: Parsed<ModuleItem>)
    requires pos <= |ts|
    ensures r.Ok? ==> pos < r.value.1 <= |ts|
  {
    var name :- ExpectName(ts, pos);
    var open :- Expect(ts, name.1, Literal('('));
    var params :- ParseFnArgs(ts, open);
    var close :- Expect(ts, params.1, Literal(')'));
    var rets :- ParseFnRet(ts, close);
    var body :- ParseStmtBlock(ts, rets.1);
    Ok((FnDecl(name.0, params.0, rets.0, body.0), body.1))
  }

  /** `module_item`: None for a blank line. */
  function ParseModuleItem(ts: seq<Token>, pos: nat): (r: Parsed<Option<ModuleItem>>)
    requires pos <= |ts|
    ensures r.Ok? ==> pos < r.value.1 <= |ts|
  {
    if pos == |ts| then Err(SyntaxError(pos))
    else
      var k := ts[pos].kind;
      if k == NEWLINE then Ok((None, pos + 1))
      else if k == FN then
        var decl :- ParseFnDecl(ts, pos + 1);
        Ok((Some(decl.0), decl.1))
      else if k == STRUCT then
        var name :- ExpectName(ts, pos + 1);
        var open :- Expect(ts, name.1, Literal('{'));
        var items :- ParseFields(ts, open, []);
        Ok((Some(StructDecl(name.0, if |items.0| == 0 then [] else ItemList(items.0))), items.1))
      else if k == ENUM then
        var name :- ExpectName(ts, pos + 1);
        var open :- Expect(ts, name.1, Literal('{'));
        var items :- ParseEnumItems(ts, open, []);
        if |items.0| == 0 then Ok((Some(NamelessEnumDecl([])), items.1))
        else Ok((Some(EnumDecl(name.0, ItemList(items.0))), items.1))
      else if k == MODULE || k == IMPORT then
        var name :- ExpectName(ts, pos + 1);
        Ok((Some(if k == MODULE then ModuleDecl(name.0) else Import(name.0)), name.1))
      else Err(SyntaxError(pos))
  }

  /** The module item values from `pos` to the end of the tokens. */
  function ParseModuleItems(ts: seq<Token>, pos: nat, acc: seq<Option<ModuleItem>>): (r: Result<seq<Option<ModuleItem>>, ParseError>)
    requires pos <= |ts|
    ensures r.Ok? ==> |acc| <= |r.value| <= |acc| + |ts| - pos
    ensures r.Ok? ==> forall k :: 0 <= k < |acc| ==> r.value[k] == acc[k]
    decreases |ts| - pos
  {
    if pos == |ts| then Ok(acc)
    else
      var item :- ParseModuleItem(ts, pos);
      ParseModuleItems(ts, item.1, acc + [item.0])
  }

  /** `module`: one or more module items, blank ones dropped. */
  function Parse(ts: seq<Token>): (r: Result<seq<ModuleItem>, ParseError>)
    ensures |ts| == 0 ==> r == Err(SyntaxError(0))
    ensures r.Ok? ==> |r.value| <= |ts|
  {
    var items :- ParseModuleItems(ts, 0, []);
    if |items| == 0 then Err(SyntaxError(0)) else Ok(ItemList(items))
  }
}
