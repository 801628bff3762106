/** What each statement rule and each of the function, module and import rules
    builds: given the parts that follow the first token, the statement or
    declaration is the tuple its action builds from those parts, and it ends
    where its last part ends. */
module ParserStmts {
  import opened Wrappers
  import opened Lexer
  import opened Ast
  import opened Grammar
  import opened Parser
  import opened ParserProps

  // ---------------------------------------------------------------------------
  // Statements that start with a keyword
  // ---------------------------------------------------------------------------

  /** A blank line is the blank statement. */
  lemma BlankStatement(ts: seq<Token>, pos: nat)
    requires IsAt(ts, pos, NEWLINE)
    ensures ParseStmt(ts, pos) == Ok((None, pos + 1))
  {
    hide ParseExprList, ParseStmts, ParseIf, ParseFor, ParseExpr, ParseExprStmt;
  }

  /** `return` list, then a line break: a return of the listed values. */
  lemma ReturnStatement(ts: seq<Token>, pos: nat, values: seq<Expr>, q: nat)
    requires IsAt(ts, pos, RETURN)
    requires ParseExprList(ts, pos + 1) == Ok((values, q)) && IsAt(ts, q, NEWLINE)
    ensures ParseStmt(ts, pos) == Ok((Some(Return(values)), q + 1))
  {
    hide ParseExprList, ParseStmts, ParseIf, ParseFor, ParseExpr, ParseExprStmt;
  }

  /** `mut name := value`, then a line break: a mutable variable declaration. */
  lemma MutDeclaration(ts: seq<Token>, pos: nat, value: Expr, q: nat)
    requires IsAt(ts, pos, MUT) && IsAt(ts, pos + 1, NAME) && IsAt(ts, pos + 2, ASSIGN_DECLARE)
    requires ParseExpr(ts, pos + 3, 1) == Ok((value, q)) && IsAt(ts, q, NEWLINE)
    ensures ParseStmt(ts, pos) == Ok((Some(VarDecl(true, TextOf(ts[pos + 1]), value)), q + 1))
  {
    hide ParseExprList, ParseStmts, ParseIf, ParseFor, ParseExpr, ParseExprStmt;
  }

  /** `name := value`, then a line break: an immutable variable declaration. */
  lemma VarDeclaration(ts: seq<Token>, pos: nat, value: Expr, q: nat)
    requires IsAt(ts, pos, NAME) && IsAt(ts, pos + 1, ASSIGN_DECLARE)
    requires ParseExpr(ts, pos + 2, 1) == Ok((value, q)) && IsAt(ts, q, NEWLINE)
    ensures ParseStmt(ts, pos) == Ok((Some(VarDecl(false, TextOf(ts[pos]), value)), q + 1))
  {
    hide ParseExprList, ParseStmts, ParseIf, ParseFor, ParseExpr, ParseExprStmt;
  }

  /** A statement that starts with `if` is the rest of the conditional. */
  lemma IfStep(ts: seq<Token>, pos: nat, st: Stmt, e: nat)
    requires IsAt(ts, pos, IF) && ParseIf(ts, pos + 1) == Ok((st, e))
    ensures ParseStmt(ts, pos) == Ok((Some(st), e))
  {
    hide ParseExprList, ParseStmts, ParseIf, ParseFor, ParseExpr, ParseExprStmt, ExpectName, Expect;
  }

  /** A statement that starts with `for` is the rest of the loop. */
  lemma ForStep(ts: seq<Token>, pos: nat, st: Stmt, e: nat)
    requires IsAt(ts, pos, FOR) && ParseFor(ts, pos + 1) == Ok((st, e))
    ensures ParseStmt(ts, pos) == Ok((Some(st), e))
  {
    hide ParseExprList, ParseStmts, ParseIf, ParseFor, ParseExpr, ParseExprStmt, ExpectName, Expect;
  }

  /** `if` condition block, then a line break: a conditional without `else`. */
  lemma IfStatement(ts: seq<Token>, pos: nat, cond: Expr, p: nat, body: seq<Stmt>, q: nat)
    requires IsAt(ts, pos, IF)
    requires ParseExpr(ts, pos + 1, 1) == Ok((cond, p))
    requires ParseStmtBlock(ts, p) == Ok((body, q)) && IsAt(ts, q, NEWLINE)
    ensures ParseStmt(ts, pos) == Ok((Some(If(cond, body, None)), q + 1))
  {
    hide *;
    IfRest(ts, pos + 1, cond, p, body, q);
    IfStep(ts, pos, If(cond, body, None), q + 1);
  }

  lemma IfRest(ts: seq<Token>, pos: nat, cond: Expr, p: nat, body: seq<Stmt>, q: nat)
    requires pos <= |ts| && ParseExpr(ts, pos, 1) == Ok((cond, p))
    requires ParseStmtBlock(ts, p) == Ok((body, q)) && IsAt(ts, q, NEWLINE)
    ensures ParseIf(ts, pos) == Ok((If(cond, body, None), q + 1))
  {
    hide ParseExpr, ParseStmtBlock;
    assert !IsAt(ts, q, ELSE);
  }

  /** `if` condition block `else` block, then a line break: a conditional with
      both branches. */
  lemma IfElseStatement(ts: seq<Token>, pos: nat, cond: Expr, p: nat, body: seq<Stmt>, q: nat,
                        other: seq<Stmt>, e: nat)
    requires IsAt(ts, pos, IF)
    requires ParseExpr(ts, pos + 1, 1) == Ok((cond, p))
    requires ParseStmtBlock(ts, p) == Ok((body, q)) && IsAt(ts, q, ELSE)
    requires ParseStmtBlock(ts, q + 1) == Ok((other, e)) && IsAt(ts, e, NEWLINE)
    ensures ParseStmt(ts, pos) == Ok((Some(If(cond, body, Some(other))), e + 1))
  {
    hide *;
    IfElseRest(ts, pos + 1, cond, p, body, q, other, e);
    IfStep(ts, pos, If(cond, body, Some(other)), e + 1);
  }

  lemma IfElseRest(ts: seq<Token>, pos: nat, cond: Expr, p: nat, body: seq<Stmt>, q: nat,
                   other: seq<Stmt>, e: nat)
    requires pos <= |ts| && ParseExpr(ts, pos, 1) == Ok((cond, p))
    requires ParseStmtBlock(ts, p) == Ok((body, q)) && IsAt(ts, q, ELSE)
    requires ParseStmtBlock(ts, q + 1) == Ok((other, e)) && IsAt(ts, e, NEWLINE)
    ensures ParseIf(ts, pos) == Ok((If(cond, body, Some(other)), e + 1))
  {
    hide ParseExpr, ParseStmtBlock;
  }

  /** `for` block, then a line break: a loop without a condition. */
  lemma ForEverStatement(ts: seq<Token>, pos: nat, body: seq<Stmt>, q: nat)
    requires IsAt(ts, pos, FOR) && IsAt(ts, pos + 1, Literal('{'))
    requires ParseStmtBlock(ts, pos + 1) == Ok((body, q)) && IsAt(ts, q, NEWLINE)
    ensures ParseStmt(ts, pos) == Ok((Some(ForEver(body)), q + 1))
  {
    hide *;
    ForEverRest(ts, pos + 1, body, q);
    ForStep(ts, pos, ForEver(body), q + 1);
  }

  lemma ForEverRest(ts: seq<Token>, pos: nat, body: seq<Stmt>, q: nat)
    requires IsAt(ts, pos, Literal('{'))
    requires ParseStmtBlock(ts, pos) == Ok((body, q)) && IsAt(ts, q, NEWLINE)
    ensures ParseFor(ts, pos) == Ok((ForEver(body), q + 1))
  {
    hide ParseExpr, ParseStmtBlock;
  }

  /** `for name in` collection block, then a line break: a loop over the values. */
  lemma ForEachStatement(ts: seq<Token>, pos: nat, iter: Expr, p: nat, body: seq<Stmt>, q: nat)
    requires IsAt(ts, pos, FOR) && IsAt(ts, pos + 1, NAME) && IsAt(ts, pos + 2, IN)
    requires ParseExpr(ts, pos + 3, 1) == Ok((iter, p))
    requires ParseStmtBlock(ts, p) == Ok((body, q)) && IsAt(ts, q, NEWLINE)
    ensures ParseStmt(ts, pos) == Ok((Some(ForEach(None, TextOf(ts[pos + 1]), iter, body)), q + 1))
  {
    hide *;
    ForEachRest(ts, pos + 1, iter, p, body, q);
    ForStep(ts, pos, ForEach(None, TextOf(ts[pos + 1]), iter, body), q + 1);
  }

  lemma ForEachRest(ts: seq<Token>, pos: nat, iter: Expr, p: nat, body: seq<Stmt>, q: nat)
    requires IsAt(ts, pos, NAME) && IsAt(ts, pos + 1, IN)
    requires ParseExpr(ts, pos + 2, 1) == Ok((iter, p))
    requires ParseStmtBlock(ts, p) == Ok((body, q)) && IsAt(ts, q, NEWLINE)
    ensures ParseFor(ts, pos) == Ok((ForEach(None, TextOf(ts[pos]), iter, body), q + 1))
  {
    hide ParseExpr, ParseStmtBlock, ParseForIn;
    ForInRest(ts, None, TextOf(ts[pos]), pos + 1, iter, p, body, q);
  }

  /** `in` collection block and a line break complete the loop over the names. */
  lemma ForInRest(ts: seq<Token>, key: Option<string>, name: string, pos: nat, iter: Expr, p: nat,
                  body: seq<Stmt>, q: nat)
    requires IsAt(ts, pos, IN)
    requires ParseExpr(ts, pos + 1, 1) == Ok((iter, p))
    requires ParseStmtBlock(ts, p) == Ok((body, q)) && IsAt(ts, q, NEWLINE)
    ensures ParseForIn(ts, key, name, pos) == Ok((ForEach(key, name, iter, body), q + 1))
  {
    hide ParseExpr, ParseStmtBlock;
  }

  /** `for key , name in` collection block, then a line break: a loop over the
      keys and values. */
  lemma ForEachKeyStatement(ts: seq<Token>, pos: nat, iter: Expr, p: nat, body: seq<Stmt>, q: nat)
    requires IsAt(ts, pos, FOR) && IsAt(ts, pos + 1, NAME) && IsAt(ts, pos + 2, Literal(','))
    requires IsAt(ts, pos + 3, NAME) && IsAt(ts, pos + 4, IN)
    requires ParseExpr(ts, pos + 5, 1) == Ok((iter, p))
    requires ParseStmtBlock(ts, p) == Ok((body, q)) && IsAt(ts, q, NEWLINE)
    ensures ParseStmt(ts, pos) ==
      Ok((Some(ForEach(Some(TextOf(ts[pos + 1])), TextOf(ts[pos + 3]), iter, body)), q + 1))
  {
    hide *;
    ForEachKeyRest(ts, pos + 1, iter, p, body, q);
    ForStep(ts, pos, ForEach(Some(TextOf(ts[pos + 1])), TextOf(ts[pos + 3]), iter, body), q + 1);
  }

  lemma ForEachKeyRest(ts: seq<Token>, pos: nat, iter: Expr, p: nat, body: seq<Stmt>, q: nat)
    requires IsAt(ts, pos, NAME) && IsAt(ts, pos + 1, Literal(','))
    requires IsAt(ts, pos + 2, NAME) && IsAt(ts, pos + 3, IN)
    requires ParseExpr(ts, pos + 4, 1) == Ok((iter, p))
    requires ParseStmtBlock(ts, p) == Ok((body, q)) && IsAt(ts, q, NEWLINE)
    ensures ParseFor(ts, pos) == Ok((ForEach(Some(TextOf(ts[pos])), TextOf(ts[pos + 2]), iter, body), q + 1))
  {
    hide ParseExpr, ParseStmtBlock, ParseForIn;
    ForInRest(ts, Some(TextOf(ts[pos])), TextOf(ts[pos + 2]), pos + 3, iter, p, body, q);
  }

  /** `defer` expression, then a line break. */
  lemma DeferStatement(ts: seq<Token>, pos: nat, value: Expr, q: nat)
    requires IsAt(ts, pos, DEFER)
    requires ParseExpr(ts, pos + 1, 1) == Ok((value, q)) && IsAt(ts, q, NEWLINE)
    ensures ParseStmt(ts, pos) == Ok((Some(Defer(value)), q + 1))
  {
    hide ParseExprList, ParseStmts, ParseIf, ParseFor, ParseExpr, ParseExprStmt;
  }

  /** `assert` expression, then a line break. */
  lemma AssertStatement(ts: seq<Token>, pos: nat, value: Expr, q: nat)
    requires IsAt(ts, pos, ASSERT)
    requires ParseExpr(ts, pos + 1, 1) == Ok((value, q)) && IsAt(ts, q, NEWLINE)
    ensures ParseStmt(ts, pos) == Ok((Some(Assert(value)), q + 1))
  {
    hide ParseExprList, ParseStmts, ParseIf, ParseFor, ParseExpr, ParseExprStmt;
  }

  /** `break` and a line break. */
  lemma BreakStatement(ts: seq<Token>, pos: nat)
    requires IsAt(ts, pos, BREAK) && IsAt(ts, pos + 1, NEWLINE)
    ensures ParseStmt(ts, pos) == Ok((Some(Break), pos + 2))
  {
    hide ParseExprList, ParseStmts, ParseIf, ParseFor, ParseExpr, ParseExprStmt;
  }

  /** `continue` and a line break. */
  lemma ContinueStatement(ts: seq<Token>, pos: nat)
    requires IsAt(ts, pos, CONTINUE) && IsAt(ts, pos + 1, NEWLINE)
    ensures ParseStmt(ts, pos) == Ok((Some(Continue), pos + 2))
  {
    hide ParseExprList, ParseStmts, ParseIf, ParseFor, ParseExpr, ParseExprStmt;
  }

  // ---------------------------------------------------------------------------
  // Statements that start with an expression
  // ---------------------------------------------------------------------------

  /** An expression starts with an operand token, and a name followed by `:=`
      is an expression of that one token. */
  lemma ExprStart(ts: seq<Token>, pos: nat, e: Expr, q: nat)
    requires pos <= |ts| && ParseExpr(ts, pos, 1) == Ok((e, q))
    ensures pos < |ts| && StartsExpr(ts[pos].kind)
    ensures IsAt(ts, pos, NAME) && IsAt(ts, pos + 1, ASSIGN_DECLARE) ==> q == pos + 1
  {
    hide ParseClimb, ParseExpr, ParseExprList, ParsePrimary;
    var first := ParsePrimary(ts, pos);
    ExprFirst(ts, pos, 1);
    PrimaryStarts(ts, pos);
    if IsAt(ts, pos, NAME) && IsAt(ts, pos + 1, ASSIGN_DECLARE) {
      NamePrimary(ts, pos);
      ExprStep(ts, pos, 1, first.value.0, first.value.1);
      ClimbStops(ts, first.value.0, pos + 1, 1);
    }
  }

  /** An expression that parses starts with an operand that parses. */
  lemma ExprFirst(ts: seq<Token>, pos: nat, min: nat)
    requires pos <= |ts| && min >= 1 && ParseExpr(ts, pos, min).Ok?
    ensures ParsePrimary(ts, pos).Ok?
  {
    hide ParsePrimary, ParseClimb;
  }

  /** A name is the operand of that name. */
  lemma NamePrimary(ts: seq<Token>, pos: nat)
    requires IsAt(ts, pos, NAME)
    ensures ParsePrimary(ts, pos) == Ok((Var(TextOf(ts[pos])), pos + 1))
  {
    hide ParseExpr, ParseExprList;
  }

  /** An operand starts with a name, a number, a string, a character, `(` or `[`. */
  lemma PrimaryStarts(ts: seq<Token>, pos: nat)
    requires pos <= |ts| && ParsePrimary(ts, pos).Ok?
    ensures pos < |ts| && StartsExpr(ts[pos].kind)
  {
    hide ParseExpr, ParseExprList;
  }

  /** A statement that starts with an expression not followed by `:=` is that
      expression completed by the expression-statement rules. */
  lemma ExpressionBranch(ts: seq<Token>, pos: nat, lhs: Expr, p: nat)
    requires pos <= |ts| && ParseExpr(ts, pos, 1) == Ok((lhs, p)) && !IsAt(ts, p, ASSIGN_DECLARE)
    ensures ParseStmt(ts, pos) == ParseExprStmt(ts, lhs, p)
  {
    ExprStart(ts, pos, lhs, p);
    ExprBranchStep(ts, pos);
  }

  /** Past the keyword rules and the immutable declaration, a statement is an
      expression completed by the expression-statement rules. */
  lemma ExprBranchStep(ts: seq<Token>, pos: nat)
    requires pos < |ts| && StartsExpr(ts[pos].kind)
    requires !(IsAt(ts, pos, NAME) && IsAt(ts, pos + 1, ASSIGN_DECLARE))
    ensures ParseStmt(ts, pos) == (var lhs :- ParseExpr(ts, pos, 1); ParseExprStmt(ts, lhs.0, lhs.1))
  {
    hide ParseExprList, ParseStmts, ParseIf, ParseFor, ParseExpr, ParseExprStmt, ExpectName, Expect;
  }

  /** An expression and a line break: an expression statement. */
  lemma ExprStatement(ts: seq<Token>, pos: nat, lhs: Expr, p: nat)
    requires pos <= |ts| && ParseExpr(ts, pos, 1) == Ok((lhs, p)) && IsAt(ts, p, NEWLINE)
    ensures ParseStmt(ts, pos) == Ok((Some(ExprStmt(lhs)), p + 1))
  {
    ExpressionBranch(ts, pos, lhs, p);
  }

  /** `lhs = rhs` and a line break: an assignment. */
  lemma AssignStatement(ts: seq<Token>, pos: nat, lhs: Expr, p: nat, rhs: Expr, q: nat)
    requires pos <= |ts| && ParseExpr(ts, pos, 1) == Ok((lhs, p)) && IsAt(ts, p, Literal('='))
    requires ParseExpr(ts, p + 1, 1) == Ok((rhs, q)) && IsAt(ts, q, NEWLINE)
    ensures ParseStmt(ts, pos) == Ok((Some(Assign(lhs, rhs)), q + 1))
  {
    assert !IsAt(ts, p, ASSIGN_DECLARE);
    hide *;
    ExpressionBranch(ts, pos, lhs, p);
    AssignRest(ts, lhs, p, rhs, q);
  }

  lemma AssignRest(ts: seq<Token>, lhs: Expr, p: nat, rhs: Expr, q: nat)
    requires IsAt(ts, p, Literal('='))
    requires ParseExpr(ts, p + 1, 1) == Ok((rhs, q)) && IsAt(ts, q, NEWLINE)
    ensures ParseExprStmt(ts, lhs, p) == Ok((Some(Assign(lhs, rhs)), q + 1))
  {
    hide ParseExpr;
  }

  // ---------------------------------------------------------------------------
  // Module items
  // ---------------------------------------------------------------------------

  /** A blank line is the blank module item. */
  lemma BlankModuleItem(ts: seq<Token>, pos: nat)
    requires IsAt(ts, pos, NEWLINE)
    ensures ParseModuleItem(ts, pos) == Ok((None, pos + 1))
  {
    hide ParseEnumItems, ParseFields, ParseFnArgs, ParseFnRet, ParseStmtBlock;
  }

  /** `fn name ( params ) rets block`: a function declaration of its name,
      parameters, return entries and body. */
  lemma FnDeclaration(ts: seq<Token>, pos: nat, params: seq<Param>, p: nat, rets: seq<RetItem>, q: nat,
                      body: seq<Stmt>, e: nat)
    requires IsAt(ts, pos, FN) && IsAt(ts, pos + 1, NAME) && IsAt(ts, pos + 2, Literal('('))
    requires ParseFnArgs(ts, pos + 3) == Ok((params, p)) && IsAt(ts, p, Literal(')'))
    requires ParseFnRet(ts, p + 1) == Ok((rets, q))
    requires ParseStmtBlock(ts, q) == Ok((body, e))
    ensures ParseModuleItem(ts, pos) == Ok((Some(FnDecl(TextOf(ts[pos + 1]), params, rets, body)), e))
  {
    hide *;
    FnDeclRest(ts, pos + 1, params, p, rets, q, body, e);
    FnStep(ts, pos, FnDecl(TextOf(ts[pos + 1]), params, rets, body), e);
  }

  lemma FnDeclRest(ts: seq<Token>, pos: nat, params: seq<Param>, p: nat, rets: seq<RetItem>, q: nat,
                   body: seq<Stmt>, e: nat)
    requires IsAt(ts, pos, NAME) && IsAt(ts, pos + 1, Literal('('))
    requires ParseFnArgs(ts, pos + 2) == Ok((params, p)) && IsAt(ts, p, Literal(')'))
    requires ParseFnRet(ts, p + 1) == Ok((rets, q))
    requires ParseStmtBlock(ts, q) == Ok((body, e))
    ensures ParseFnDecl(ts, pos) == Ok((FnDecl(TextOf(ts[pos]), params, rets, body), e))
  {
    hide ParseFnArgs, ParseFnRet, ParseStmtBlock;
  }

  /** A module item that starts with `fn` is the rest of the declaration. */
  lemma FnStep(ts: seq<Token>, pos: nat, decl: ModuleItem, e: nat)
    requires IsAt(ts, pos, FN) && ParseFnDecl(ts, pos + 1) == Ok((decl, e))
    ensures ParseModuleItem(ts, pos) == Ok((Some(decl), e))
  {
    hide ParseEnumItems, ParseFields, ParseFnDecl;
  }

  /** `module name`: a module declaration. */
  lemma ModuleDeclaration(ts: seq<Token>, pos: nat)
    requires IsAt(ts, pos, MODULE) && IsAt(ts, pos + 1, NAME)
    ensures ParseModuleItem(ts, pos) == Ok((Some(ModuleDecl(TextOf(ts[pos + 1]))), pos + 2))
  {
    hide ParseEnumItems, ParseFields, ParseFnArgs, ParseFnRet, ParseStmtBlock;
  }

  /** `import name`: an import. */
  lemma ImportDeclaration(ts: seq<Token>, pos: nat)
    requires IsAt(ts, pos, IMPORT) && IsAt(ts, pos + 1, NAME)
    ensures ParseModuleItem(ts, pos) == Ok((Some(Import(TextOf(ts[pos + 1]))), pos + 2))
  {
    hide ParseEnumItems, ParseFields, ParseFnArgs, ParseFnRet, ParseStmtBlock;
  }
}
