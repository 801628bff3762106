/** The actions of the grammar rules: list accumulation, the operator tables,
    the precedence table and the desugaring of compound assignment. */
module Grammar {
  import opened Wrappers
  import opened Lexer
  import opened Ast

  /** The failure of an action: a dictionary lookup with a key that is not there. */
  datatype ActionError = KeyError(key: string)

  // ---------------------------------------------------------------------------
  // Lists with blank items
  // ---------------------------------------------------------------------------

  /** The items of `items` that are present, in order: the list a blank-tolerant
      rule is meant to build. */
  function Present<T>(items: seq<Option<T>>): seq<T> {
    if |items| == 0 then []
    else match items[0]
      case None => Present(items[1..])
      case Some(x) => [x] + Present(items[1..])
  }

  /** The action of a list rule on its first item (`module: module_item`): a
      blank item gives the empty list. */
  function ListStart<T>(item: Option<T>): (r: seq<T>)
    ensures item.None? <==> r == []
    ensures item.Some? ==> r == [item.value]
  {
    if item.None? then [] else [item.value]
  }

  /** The action of a left-recursive list rule (`module: module module_item`): the
      list so far, with the new item appended unless it is blank. */
  function ListAppend<T>(list: seq<T>, item: Option<T>): (r: seq<T>)
    ensures item.None? ==> r == list
    ensures item.Some? ==> |r| == |list| + 1 && r[..|list|] == list && r[|list|] == item.value
  {
    if item.None? then list else list + [item.value]
  }

  /** The value of `module`, `struct_items`, `enum_items` or `stmt_list` over the
      item values `items`: the first item through the start rule, each later one
      through the append rule. */
  function ItemList<T>(items: seq<Option<T>>): (r: seq<T>)
    requires |items| > 0
    ensures |r| <= |items|
  {
    if |items| == 1 then ListStart(items[0])
    else ListAppend(ItemList(items[..|items| - 1]), items[|items| - 1])
  }

  /** The value of `com_stmt` over the statement values `items`: the opening brace
      gives the empty list and each statement goes through the append rule. */
  function ComStmt<T>(items: seq<Option<T>>): (r: seq<T>)
    ensures |r| <= |items|
  {
    if |items| == 0 then []
    else ListAppend(ComStmt(items[..|items| - 1]), items[|items| - 1])
  }

  /** Appending an item to the item values appends its value, if any. */
  lemma {:induction false} PresentSnoc<T>(items: seq<Option<T>>, x: Option<T>)
    ensures Present(items + [x]) == Present(items) + Present([x])
    decreases |items|
  {
    if |items| == 0 {
      assert items + [x] == [x];
    } else {
      assert (items + [x])[1..] == items[1..] + [x];
      assert (items + [x])[0] == items[0];
      PresentSnoc(items[1..], x);
    }
  }

  /** Present distributes over concatenation. */
  lemma {:induction false} PresentConcat<T>(a: seq<Option<T>>, b: seq<Option<T>>)
    ensures Present(a + b) == Present(a) + Present(b)
    decreases |a|
  {
    if |a| == 0 {
      assert a + b == b;
    } else {
      assert (a + b)[1..] == a[1..] + b;
      assert (a + b)[0] == a[0];
      PresentConcat(a[1..], b);
    }
  }

  /** A list rule keeps its items in source order and drops exactly the blank ones. */
  lemma {:induction false} ItemListIsPresent<T>(items: seq<Option<T>>)
    requires |items| > 0
    ensures ItemList(items) == Present(items)
    decreases |items|
  {
    if |items| == 1 {
      assert items[1..] == [];
    } else {
      var init := items[..|items| - 1];
      ItemListIsPresent(init);
      PresentSnoc(init, items[|items| - 1]);
      assert init + [items[|items| - 1]] == items;
    }
  }

  /** The same for the statements of a braced group. */
  lemma {:induction false} ComStmtIsPresent<T>(items: seq<Option<T>>)
    ensures ComStmt(items) == Present(items)
    decreases |items|
  {
    if |items| > 0 {
      var init := items[..|items| - 1];
      ComStmtIsPresent(init);
      PresentSnoc(init, items[|items| - 1]);
      assert init + [items[|items| - 1]] == items;
    }
  }

  /** A value is in the list exactly when some item holds it. */
  lemma {:induction false} PresentMembers<T>(items: seq<Option<T>>, x: T)
    ensures x in Present(items) <==> Some(x) in items
    decreases |items|
  {
    if |items| > 0 {
      PresentMembers(items[1..], x);
      assert items == [items[0]] + items[1..];
    }
  }

  /** Blank lines anywhere among the items leave the list unchanged. */
  lemma {:induction false} BlankItemDropped<T>(a: seq<Option<T>>, b: seq<Option<T>>)
    ensures Present(a + [None] + b) == Present(a + b)
  {
    PresentConcat(a + [None], b);
    PresentSnoc(a, None);
    PresentConcat(a, b);
  }

  // ---------------------------------------------------------------------------
  // Operator tables
  // ---------------------------------------------------------------------------

  /** The node name of a binary operator, looked up by the operator token's
      text; None where the dictionary has no such key. */
  function ExprName(sym: string): (r: Option<string>)
    ensures r.Some? ==> SymbolFor(r.value) == Some(sym)
  {
    match sym
    case ">" => Some("greater")
    case "<" => Some("less")
    case "!=" => Some("not_equals")
    case "==" => Some("equals")
    case "<=" => Some("less_equals")
    case ">=" => Some("greater_equals")
    case "+" => Some("add")
    case "-" => Some("sub")
    case "*" => Some("mul")
    case "/" => Some("div")
    case "%" => Some("mod")
    case "&" => Some("bitwise_and")
    case "|" => Some("bitwise_or")
    case "^" => Some("bitwise_xor")
    case "||" => Some("logical_or")
    case "&&" => Some("logical_and")
    case "<<" => Some("left_shift")
    case ">>" => Some("right_shift")
    case _ => None
  }

  /** The operator text of a binary node name: the reverse reading of ExprName. */
  function SymbolFor(name: string): Option<string> {
    match name
    case "greater" => Some(">")
    case "less" => Some("<")
    case "not_equals" => Some("!=")
    case "equals" => Some("==")
    case "less_equals" => Some("<=")
    case "greater_equals" => Some(">=")
    case "add" => Some("+")
    case "sub" => Some("-")
    case "mul" => Some("*")
    case "div" => Some("/")
    case "mod" => Some("%")
    case "bitwise_and" => Some("&")
    case "bitwise_or" => Some("|")
    case "bitwise_xor" => Some("^")
    case "logical_or" => Some("||")
    case "logical_and" => Some("&&")
    case "left_shift" => Some("<<")
    case "right_shift" => Some(">>")
    case _ => None
  }

  /** The node name of a compound assignment, looked up by the operator token's text. */
  function CompoundName(sym: string): (r: Option<string>)
    ensures r.Some? ==> |sym| >= 2 && sym[|sym| - 1] == '='
  {
    match sym
    case "+=" => Some("add")
    case "-=" => Some("sub")
    case "*=" => Some("mul")
    case "/=" => Some("div")
    case "%=" => Some("mod")
    case "&=" => Some("bitwise_and")
    case "|=" => Some("bitwise_or")
    case "^=" => Some("bitwise_xor")
    case "<<=" => Some("left_shift")
    case ">>=" => Some("right_shift")
    case _ => None
  }

  /** The operator dictionary is one-to-one: every operator text is the text of
      its name, and every name is the name of its text. */
  lemma ExprNameInverse(sym: string, name: string)
    ensures ExprName(sym) == Some(name) <==> SymbolFor(name) == Some(sym)
  {
  }

  /** The NOT_EQUALS token's text `r!=` is not a key of the operator dictionary,
      while `!=` is. */
  lemma NotEqualsTextUnknown()
    ensures ExprName("r!=") == None
    ensures ExprName("!=") == Some("not_equals")
  {
  }

  /** `a op= b` is named after the binary operator `op`: each compound operator
      text is a binary operator text followed by `=`, with the same node name. */
  lemma CompoundMatchesBinary(c: string)
    requires CompoundName(c).Some?
    ensures |c| >= 2 && c[|c| - 1] == '='
    ensures ExprName(c[..|c| - 1]) == CompoundName(c)
  {
    if |c| == 2 {
      assert c[..1] == [c[0]];
    } else {
      assert c[..2] == [c[0], c[1]];
    }
  }

  /** The action of the binary rules: the node `(name, left, right)` with the name
      the dictionary gives the operator token's text. */
  function BinaryAction(sym: string, left: Expr, right: Expr): (r: Result<Expr, ActionError>)
    ensures r.Ok? <==> ExprName(sym).Some?
    ensures r.Ok? ==> r.value.Binary? && SymbolFor(r.value.op) == Some(sym)
    ensures r.Ok? ==> r.value.left == left && r.value.right == right
    ensures r.Err? ==> r.error == KeyError(sym)
  {
    match ExprName(sym)
    case Some(name) => ExprNameInverse(sym, name); Ok(Binary(name, left, right))
    case None => Err(KeyError(sym))
  }

  /** The action of the compound-assignment rules: the left side is stored once in
      temporary 0, which is then assigned the operator applied to itself and the
      right side. */
  function CompoundAssign(lhs: Expr, sym: string, rhs: Expr): (r: Result<Stmt, ActionError>)
    ensures r.Ok? <==> CompoundName(sym).Some?
    ensures r.Err? ==> r.error == KeyError(sym)
  {
    match CompoundName(sym)
    case Some(name) => Ok(Block([TempDecl(0, lhs), Assign(Temp(0), Binary(name, Temp(0), rhs))]))
    case None => Err(KeyError(sym))
  }

  /** The left side, operator name and right side of a desugared compound
      assignment, or None for any other statement. */
  function Resugar(st: Stmt): Option<(Expr, string, Expr)> {
    if st.Block? && |st.stmts| == 2 then
      match (st.stmts[0], st.stmts[1])
      case (TempDecl(0, lhs), Assign(Temp(0), Binary(name, Temp(0), rhs))) => Some((lhs, name, rhs))
      case _ => None
    else None
  }

  /** Desugaring loses nothing: the left side, the operator's name and the right
      side are recovered from the two statements, each from exactly one place. */
  lemma CompoundRoundTrip(lhs: Expr, sym: string, rhs: Expr)
    ensures CompoundAssign(lhs, sym, rhs).Ok? <==> CompoundName(sym).Some?
    ensures CompoundAssign(lhs, sym, rhs).Ok? ==>
      Resugar(CompoundAssign(lhs, sym, rhs).value) == Some((lhs, CompoundName(sym).value, rhs))
  {
  }

  /** Every statement Resugar accepts is the desugaring of what it returns. */
  lemma ResugarInverse(st: Stmt, sym: string)
    requires Resugar(st).Some? && CompoundName(sym) == Some(Resugar(st).value.1)
    ensures CompoundAssign(Resugar(st).value.0, sym, Resugar(st).value.2) == Ok(st)
  {
    assert st.stmts == [st.stmts[0], st.stmts[1]];
  }

  // ---------------------------------------------------------------------------
  // Precedence
  // ---------------------------------------------------------------------------

  /** The precedence table, lowest level first; every level is left-associative. */
  function Precedence(): (r: seq<seq<Kind>>)
    ensures |r| == 11
  {
    [[LOGICAL_OR],
     [LOGICAL_AND],
     [Literal('|')],
     [Literal('^')],
     [Literal('&')],
     [EQUALS, NOT_EQUALS],
     [Literal('<'), Literal('>'), LESS_EQUALS, GREATER_EQUALS],
     [RIGHT_SHIFT, LEFT_SHIFT],
     [Literal('+'), Literal('-')],
     [Literal('*'), Literal('/'), Literal('%')],
     [Literal('('), Literal('['), Literal('.'), IN]]
  }

  /** The level of a token in the precedence table, counted from 1; 0 for a token
      that is not in it. */
  function Level(k: Kind): (r: nat)
    ensures r <= 11
  {
    match k
    case LOGICAL_OR => 1
    case LOGICAL_AND => 2
    case EQUALS => 6
    case NOT_EQUALS => 6
    case LESS_EQUALS => 7
    case GREATER_EQUALS => 7
    case RIGHT_SHIFT => 8
    case LEFT_SHIFT => 8
    case IN => 11
    case Literal(c) =>
      if c == '|' then 3
      else if c == '^' then 4
      else if c == '&' then 5
      else if c == '<' || c == '>' then 7
      else if c == '+' || c == '-' then 9
      else if c == '*' || c == '/' || c == '%' then 10
      else if c == '(' || c == '[' || c == '.' then 11
      else 0
    case _ => 0
  }

  /** Level reads the table: a token's level is one more than the index of the
      row it is in, and a token with a level is in that row. */
  lemma LevelIsTableRow(k: Kind)
    ensures Level(k) <= 11
    ensures Level(k) > 0 ==> k in Precedence()[Level(k) - 1]
    ensures forall row :: 0 <= row < 11 && k in Precedence()[row] ==> Level(k) == row + 1
  {
    forall row | 0 <= row < 11 && k in Precedence()[row]
      ensures Level(k) == row + 1
    {
      RowLevel(row, k);
    }
  }

  /** Every token of row `row` of the table has level `row + 1`. */
  lemma RowLevel(row: nat, k: Kind)
    requires row < 11 && k in Precedence()[row]
    ensures Level(k) == row + 1
  {
    if row < 5 {
      LowRowLevel(row, k);
    } else {
      HighRowLevel(row, k);
    }
  }

  lemma LowRowLevel(row: nat, k: Kind)
    requires row < 5 && k in Precedence()[row]
    ensures Level(k) == row + 1
  {
    if row == 0 {
    } else if row == 1 {
    } else if row == 2 {
    } else if row == 3 {
    } else {
    }
  }

  lemma HighRowLevel(row: nat, k: Kind)
    requires 5 <= row < 11 && k in Precedence()[row]
    ensures Level(k) == row + 1
  {
    if row == 5 {
    } else if row == 6 {
    } else if row == 7 {
    } else if row == 8 {
    } else if row == 9 {
    } else {
    }
  }

  /** The token kind the tokenizer gives each binary operator text. */
  function SymbolKind(sym: string): Kind {
    match sym
    case "==" => EQUALS
    case "!=" => NOT_EQUALS
    case "<=" => LESS_EQUALS
    case ">=" => GREATER_EQUALS
    case "||" => LOGICAL_OR
    case "&&" => LOGICAL_AND
    case "<<" => LEFT_SHIFT
    case ">>" => RIGHT_SHIFT
    case _ => if |sym| == 1 then Literal(sym[0]) else NAME
  }

  /** Every binary operator sits on one of the ten binary levels of the table,
      below the postfix level 11. */
  lemma BinaryLevels(sym: string)
    requires ExprName(sym).Some?
    ensures 1 <= Level(SymbolKind(sym)) <= 10
    ensures SymbolKind(sym) in Precedence()[Level(SymbolKind(sym)) - 1]
  {
  }
}
