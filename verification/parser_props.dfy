/** Properties of the parser: a type declaration or an expression laid out as
    tokens is parsed back to the same tree, parentheses leave the tree inside
    unchanged, and operators group by the precedence table. */
module ParserProps {
  import opened Wrappers
  import opened Lexer
  import opened Ast
  import opened Grammar
  import opened Parser

  /** The token at `pos` has kind `k` and value `v`. */
  predicate TokenAt(ts: seq<Token>, pos: nat, k: Kind, v: Value) {
    pos < |ts| && ts[pos].kind == k && ts[pos].value == v
  }

  // ---------------------------------------------------------------------------
  // Type declarations
  // ---------------------------------------------------------------------------

  /** The position after the tokens of `t` laid out from `pos`. */
  function TypeEnd(pos: nat, t: TypeDecl): nat
    decreases t
  {
    match t
    case BaseType(_) => pos + 1
    case ArrayType(e) => TypeEnd(pos + 2, e)
    case RefType(e) => TypeEnd(pos + 1, e)
    case MapType(k, v) => TypeEnd(TypeEnd(pos + 2, k) + 1, v)
  }

  /** The tokens from `pos` on spell `t`: a name, `[` `]` and the element type,
      `&` and the target type, or `map` `[` key `]` value. */
  predicate TypeLaidOut(ts: seq<Token>, pos: nat, t: TypeDecl)
    decreases t
  {
    match t
    case BaseType(n) => TokenAt(ts, pos, NAME, Text(n))
    case ArrayType(e) => IsAt(ts, pos, Literal('[')) && IsAt(ts, pos + 1, Literal(']')) && TypeLaidOut(ts, pos + 2, e)
    case RefType(e) => IsAt(ts, pos, Literal('&')) && TypeLaidOut(ts, pos + 1, e)
    case MapType(k, v) =>
      IsAt(ts, pos, MAP) && IsAt(ts, pos + 1, Literal('[')) && TypeLaidOut(ts, pos + 2, k)
      && IsAt(ts, TypeEnd(pos + 2, k), Literal(']')) && TypeLaidOut(ts, TypeEnd(pos + 2, k) + 1, v)
  }

  lemma ArrayTypeStep(ts: seq<Token>, pos: nat, e: TypeDecl, q: nat)
    requires IsAt(ts, pos, Literal('[')) && IsAt(ts, pos + 1, Literal(']'))
    requires ParseType(ts, pos + 2) == Ok((e, q))
    ensures ParseType(ts, pos) == Ok((ArrayType(e), q))
  {
  }

  lemma RefTypeStep(ts: seq<Token>, pos: nat, e: TypeDecl, q: nat)
    requires IsAt(ts, pos, Literal('&')) && ParseType(ts, pos + 1) == Ok((e, q))
    ensures ParseType(ts, pos) == Ok((RefType(e), q))
  {
  }

  lemma MapTypeStep(ts: seq<Token>, pos: nat, k: TypeDecl, q: nat, v: TypeDecl, q2: nat)
    requires IsAt(ts, pos, MAP) && IsAt(ts, pos + 1, Literal('['))
    requires ParseType(ts, pos + 2) == Ok((k, q)) && IsAt(ts, q, Literal(']'))
    requires ParseType(ts, q + 1) == Ok((v, q2))
    ensures ParseType(ts, pos) == Ok((MapType(k, v), q2))
  {
    assert ts[pos].kind == MAP;
    assert Expect(ts, pos + 1, Literal('[')) == Ok(pos + 2);
    assert Expect(ts, q, Literal(']')) == Ok(q + 1);
  }

  /** Every type declaration is parsed back from its tokens, the components nested
      as they were. */
  lemma {:induction false} TypeRoundTrip(ts: seq<Token>, pos: nat, t: TypeDecl)
    requires TypeLaidOut(ts, pos, t)
    ensures TypeEnd(pos, t) <= |ts|
    ensures ParseType(ts, pos) == Ok((t, TypeEnd(pos, t)))
    decreases t, 1
  {
    match t
    case BaseType(_) =>
    case ArrayType(_) => ArrayTypeRoundTrip(ts, pos, t);
    case RefType(_) => RefTypeRoundTrip(ts, pos, t);
    case MapType(_, _) => MapTypeRoundTrip(ts, pos, t);
  }

  lemma {:induction false} ArrayTypeRoundTrip(ts: seq<Token>, pos: nat, t: TypeDecl)
    requires t.ArrayType? && TypeLaidOut(ts, pos, t)
    ensures TypeEnd(pos, t) <= |ts|
    ensures ParseType(ts, pos) == Ok((t, TypeEnd(pos, t)))
    decreases t, 0
  {
    TypeRoundTrip(ts, pos + 2, t.elem);
    ArrayTypeStep(ts, pos, t.elem, TypeEnd(pos + 2, t.elem));
  }

  lemma {:induction false} RefTypeRoundTrip(ts: seq<Token>, pos: nat, t: TypeDecl)
    requires t.RefType? && TypeLaidOut(ts, pos, t)
    ensures TypeEnd(pos, t) <= |ts|
    ensures ParseType(ts, pos) == Ok((t, TypeEnd(pos, t)))
    decreases t, 0
  {
    TypeRoundTrip(ts, pos + 1, t.target);
    RefTypeStep(ts, pos, t.target, TypeEnd(pos + 1, t.target));
  }

  lemma MapTypeParts(ts: seq<Token>, pos: nat, k: TypeDecl, v: TypeDecl)
    requires TypeLaidOut(ts, pos, MapType(k, v))
    ensures IsAt(ts, pos, MAP) && IsAt(ts, pos + 1, Literal('[')) && TypeLaidOut(ts, pos + 2, k)
    ensures IsAt(ts, TypeEnd(pos + 2, k), Literal(']')) && TypeLaidOut(ts, TypeEnd(pos + 2, k) + 1, v)
    ensures TypeEnd(pos, MapType(k, v)) == TypeEnd(TypeEnd(pos + 2, k) + 1, v)
  {
  }

  lemma {:induction false} MapTypeRoundTrip(ts: seq<Token>, pos: nat, t: TypeDecl)
    requires t.MapType? && TypeLaidOut(ts, pos, t)
    ensures TypeEnd(pos, t) <= |ts|
    ensures ParseType(ts, pos) == Ok((t, TypeEnd(pos, t)))
    decreases t, 0
  {
    hide *;
    MapTypeParts(ts, pos, t.key, t.value);
    var close := TypeEnd(pos + 2, t.key);
    TypeRoundTrip(ts, pos + 2, t.key);
    TypeRoundTrip(ts, close + 1, t.value);
    MapTypeStep(ts, pos, t.key, close, t.value, TypeEnd(close + 1, t.value));
  }

  // ---------------------------------------------------------------------------
  // Expressions
  // ---------------------------------------------------------------------------

  /** The token of a binary node's operator: the operator's text, with the kind
      the tokenizer gives that text. */
  function OperatorToken(op: string): (r: (Kind, Value))
    requires SymbolFor(op).Some?
  {
    (SymbolKind(SymbolFor(op).value), Text(SymbolFor(op).value))
  }

  /** The position after the tokens of `e` laid out from `pos`, every compound
      node in parentheses. */
  function End(pos: nat, e: Expr): nat
    decreases e
  {
    match e
    case Arr(items) => ListEnd(pos + 1, items) + 1
    case Binary(_, l, r) => End(End(pos + 1, l) + 1, r) + 1
    case MemberAccess(t, m) => End(End(pos + 1, t) + 1, m) + 1
    case In(a, b) => End(End(pos + 1, a) + 1, b) + 1
    case AccessIndex(t, i) => End(End(pos + 1, t) + 1, i) + 2
    case FnCall(f, args) => ListEnd(End(pos + 1, f) + 1, args) + 2
    case _ => pos + 1
  }

  /** The position after a comma-separated list. */
  function ListEnd(pos: nat, es: seq<Expr>): nat
    decreases es
  {
    if |es| == 0 then pos else RestEnd(End(pos, es[0]), es[1..])
  }

  /** The position after list entries each preceded by a comma. */
  function RestEnd(pos: nat, es: seq<Expr>): nat
    decreases es
  {
    if |es| == 0 then pos else RestEnd(End(pos + 1, es[0]), es[1..])
  }

  /** The tokens from `pos` on spell `e` with every compound node in parentheses:
      `( l op r )`, `( t . m )`, `( a in b )`, `( t [ i ] )`, `( f ( args ) )`
      and `[ items ]`, the lists comma-separated. A binary node is spelled with
      the operator text its name is the dictionary entry of; a temporary has no
      spelling. */
  predicate LaidOut(ts: seq<Token>, pos: nat, e: Expr)
    decreases e, 1
  {
    pos < |ts| &&
    match e
    case Var(n) => TokenAt(ts, pos, NAME, Text(n))
    case Num(n) => TokenAt(ts, pos, NUMBER, Int(n))
    case Str(s) => TokenAt(ts, pos, STRING, Text(s))
    case Chr(s) => TokenAt(ts, pos, CHAR, Text(s))
    case Arr(items) => ArrLaidOut(ts, pos, items)
    case Binary(op, l, r) => BinaryLaidOut(ts, pos, op, l, r)
    case MemberAccess(t, m) => MemberLaidOut(ts, pos, t, m)
    case In(a, b) => InLaidOut(ts, pos, a, b)
    case AccessIndex(t, i) => IndexLaidOut(ts, pos, t, i)
    case FnCall(f, args) => CallLaidOut(ts, pos, f, args)
    case Temp(_) => false
  }

  /** `[ items ]` */
  predicate ArrLaidOut(ts: seq<Token>, pos: nat, items: seq<Expr>)
    decreases Arr(items), 0
  {
    IsAt(ts, pos, Literal('[')) && ListLaidOut(ts, pos + 1, items)
    && IsAt(ts, ListEnd(pos + 1, items), Literal(']'))
  }

  /** `( l op r )` */
  predicate BinaryLaidOut(ts: seq<Token>, pos: nat, op: string, l: Expr, r: Expr)
    decreases Binary(op, l, r), 0
  {
    SymbolFor(op).Some? && IsAt(ts, pos, Literal('(')) && LaidOut(ts, pos + 1, l)
    && TokenAt(ts, End(pos + 1, l), OperatorToken(op).0, OperatorToken(op).1)
    && LaidOut(ts, End(pos + 1, l) + 1, r) && IsAt(ts, End(End(pos + 1, l) + 1, r), Literal(')'))
  }

  /** `( t . m )` */
  predicate MemberLaidOut(ts: seq<Token>, pos: nat, t: Expr, m: Expr)
    decreases MemberAccess(t, m), 0
  {
    IsAt(ts, pos, Literal('(')) && LaidOut(ts, pos + 1, t) && IsAt(ts, End(pos + 1, t), Literal('.'))
    && LaidOut(ts, End(pos + 1, t) + 1, m) && IsAt(ts, End(End(pos + 1, t) + 1, m), Literal(')'))
  }

  /** `( a in b )` */
  predicate InLaidOut(ts: seq<Token>, pos: nat, a: Expr, b: Expr)
    decreases In(a, b), 0
  {
    IsAt(ts, pos, Literal('(')) && LaidOut(ts, pos + 1, a) && IsAt(ts, End(pos + 1, a), IN)
    && LaidOut(ts, End(pos + 1, a) + 1, b) && IsAt(ts, End(End(pos + 1, a) + 1, b), Literal(')'))
  }

  /** `( t [ i ] )` */
  predicate IndexLaidOut(ts: seq<Token>, pos: nat, t: Expr, i: Expr)
    decreases AccessIndex(t, i), 0
  {
    IsAt(ts, pos, Literal('(')) && LaidOut(ts, pos + 1, t) && IsAt(ts, End(pos + 1, t), Literal('['))
    && LaidOut(ts, End(pos + 1, t) + 1, i) && IsAt(ts, End(End(pos + 1, t) + 1, i), Literal(']'))
    && IsAt(ts, End(End(pos + 1, t) + 1, i) + 1, Literal(')'))
  }

  /** `( f ( args ) )` */
  predicate CallLaidOut(ts: seq<Token>, pos: nat, f: Expr, args: seq<Expr>)
    decreases FnCall(f, args), 0
  {
    IsAt(ts, pos, Literal('(')) && LaidOut(ts, pos + 1, f) && IsAt(ts, End(pos + 1, f), Literal('('))
    && ListLaidOut(ts, End(pos + 1, f) + 1, args) && IsAt(ts, ListEnd(End(pos + 1, f) + 1, args), Literal(')'))
    && IsAt(ts, ListEnd(End(pos + 1, f) + 1, args) + 1, Literal(')'))
  }

  predicate ListLaidOut(ts: seq<Token>, pos: nat, es: seq<Expr>)
    decreases es
  {
    |es| == 0 || (LaidOut(ts, pos, es[0]) && RestLaidOut(ts, End(pos, es[0]), es[1..]))
  }

  predicate RestLaidOut(ts: seq<Token>, pos: nat, es: seq<Expr>)
    decreases es
  {
    |es| == 0
    || (IsAt(ts, pos, Literal(',')) && LaidOut(ts, pos + 1, es[0]) && RestLaidOut(ts, End(pos + 1, es[0]), es[1..]))
  }

  /** Where an expression ends: the end of the tokens, or a token of level below `min`. */
  predicate StopsAt(ts: seq<Token>, pos: nat, min: nat) {
    pos >= |ts| || Level(ts[pos].kind) < min
  }

  /** Where a list ends: a closing parenthesis or bracket. */
  predicate ClosesAt(ts: seq<Token>, pos: nat) {
    IsAt(ts, pos, Literal(')')) || IsAt(ts, pos, Literal(']'))
  }

  // One step of each expression parsing function, taken when the tokens it
  // looks at are the ones named.

  lemma ExprStep(ts: seq<Token>, pos: nat, min: nat, e: Expr, q: nat)
    requires pos <= |ts| && min >= 1 && ParsePrimary(ts, pos) == Ok((e, q))
    ensures ParseExpr(ts, pos, min) == ParseClimb(ts, e, q, min)
  {
    hide ParsePrimary, ParseClimb, ParseExprList;
  }

  lemma ParenStep(ts: seq<Token>, pos: nat, e: Expr, q: nat)
    requires IsAt(ts, pos, Literal('('))
    requires ParseExpr(ts, pos + 1, 1) == Ok((e, q)) && IsAt(ts, q, Literal(')'))
    ensures ParsePrimary(ts, pos) == Ok((e, q + 1))
  {
    hide ParseExpr, ParseExprList, ParseClimb, Reduce;
  }

  lemma ArrStep(ts: seq<Token>, pos: nat, es: seq<Expr>, q: nat)
    requires IsAt(ts, pos, Literal('['))
    requires ParseExprList(ts, pos + 1) == Ok((es, q)) && IsAt(ts, q, Literal(']'))
    ensures ParsePrimary(ts, pos) == Ok((Arr(es), q + 1))
  {
    hide ParseExpr, ParseExprList, ParseClimb, Reduce;
  }

  lemma ClimbStops(ts: seq<Token>, lhs: Expr, pos: nat, min: nat)
    requires pos <= |ts| && min >= 1 && StopsAt(ts, pos, min)
    ensures ParseClimb(ts, lhs, pos, min) == Ok((lhs, pos))
  {
    hide ParseExpr, ParseExprList, ParsePrimary, Reduce;
  }

  /** One infix step of the climb: an operator of level `min` or more, other than
      `[` and `(`, takes a right operand of the levels above its own. */
  lemma ClimbInfix(ts: seq<Token>, lhs: Expr, pos: nat, min: nat, rhs: Expr, q: nat)
    requires pos < |ts| && min >= 1 && Level(ts[pos].kind) >= min
    requires ts[pos].kind != Literal('[') && ts[pos].kind != Literal('(')
    requires ParseExpr(ts, pos + 1, Level(ts[pos].kind) + 1) == Ok((rhs, q))
    ensures Reduce(ts[pos], lhs, rhs, pos).Ok? ==>
      ParseClimb(ts, lhs, pos, min) == ParseClimb(ts, Reduce(ts[pos], lhs, rhs, pos).value, q, min)
    ensures Reduce(ts[pos], lhs, rhs, pos).Err? ==>
      ParseClimb(ts, lhs, pos, min) == Err(Reduce(ts[pos], lhs, rhs, pos).error)
  {
    hide ParseExprList, ParsePrimary, Reduce;
  }

  lemma ClimbIndex(ts: seq<Token>, lhs: Expr, pos: nat, min: nat, index: Expr, q: nat)
    requires IsAt(ts, pos, Literal('[')) && 1 <= min <= 11
    requires ParseExpr(ts, pos + 1, 1) == Ok((index, q)) && IsAt(ts, q, Literal(']'))
    ensures ParseClimb(ts, lhs, pos, min) == ParseClimb(ts, AccessIndex(lhs, index), q + 1, min)
  {
    hide ParseExpr, ParseExprList, ParsePrimary, Reduce;
  }

  lemma ClimbCall(ts: seq<Token>, lhs: Expr, pos: nat, min: nat, args: seq<Expr>, q: nat)
    requires IsAt(ts, pos, Literal('(')) && 1 <= min <= 11
    requires ParseExprList(ts, pos + 1) == Ok((args, q)) && IsAt(ts, q, Literal(')'))
    ensures ParseClimb(ts, lhs, pos, min) == ParseClimb(ts, FnCall(lhs, args), q + 1, min)
  {
    hide ParseExpr, ParseExprList, ParsePrimary, Reduce;
  }

  lemma ListNone(ts: seq<Token>, pos: nat)
    requires pos <= |ts| && ClosesAt(ts, pos)
    ensures ParseExprList(ts, pos) == ParseExprListTail(ts, [], pos)
  {
    hide ParseExpr, ParsePrimary, ParseClimb, ParseExprListTail;
  }

  lemma ListFirst(ts: seq<Token>, pos: nat, e: Expr, q: nat)
    requires pos < |ts| && StartsExpr(ts[pos].kind) && ParseExpr(ts, pos, 1) == Ok((e, q))
    ensures ParseExprList(ts, pos) == ParseExprListTail(ts, [e], q)
  {
    hide ParseExpr, ParsePrimary, ParseClimb, ParseExprListTail;
  }

  lemma TailNext(ts: seq<Token>, acc: seq<Expr>, pos: nat, e: Expr, q: nat)
    requires IsAt(ts, pos, Literal(',')) && ParseExpr(ts, pos + 1, 1) == Ok((e, q))
    ensures ParseExprListTail(ts, acc, pos) == ParseExprListTail(ts, acc + [e], q)
  {
    hide ParseExpr, ParsePrimary, ParseClimb;
  }

  lemma TailStop(ts: seq<Token>, acc: seq<Expr>, pos: nat)
    requires pos <= |ts| && ClosesAt(ts, pos)
    ensures ParseExprListTail(ts, acc, pos) == Ok((acc, pos))
  {
    hide ParseExpr, ParsePrimary, ParseClimb;
  }

  /** A binary operator token reduces to the node named after its text. */
  lemma ReduceOperator(ts: seq<Token>, pos: nat, op: string, lhs: Expr, rhs: Expr)
    requires SymbolFor(op).Some? && TokenAt(ts, pos, OperatorToken(op).0, OperatorToken(op).1)
    ensures 1 <= Level(ts[pos].kind) <= 10
    ensures Reduce(ts[pos], lhs, rhs, pos) == Ok(Binary(op, lhs, rhs))
  {
    ExprNameInverse(SymbolFor(op).value, op);
    BinaryLevels(SymbolFor(op).value);
  }

  // The steps of a parenthesised form, put together.

  lemma InfixClimb(ts: seq<Token>, start: nat, l: Expr, p1: nat, r: Expr, q: nat, node: Expr)
    requires start <= |ts| && ParsePrimary(ts, start) == Ok((l, p1))
    requires p1 < |ts| && Level(ts[p1].kind) >= 1 && ts[p1].kind != Literal('[') && ts[p1].kind != Literal('(')
    requires ParseExpr(ts, p1 + 1, Level(ts[p1].kind) + 1) == Ok((r, q))
    requires Reduce(ts[p1], l, r, p1) == Ok(node) && StopsAt(ts, q, 1)
    ensures ParseExpr(ts, start, 1) == Ok((node, q))
  {
    hide *;
    ExprStep(ts, start, 1, l, p1);
    ClimbInfix(ts, l, p1, 1, r, q);
    ClimbStops(ts, node, q, 1);
  }

  /** `( l op r )` is the binary node named after the operator's text. */
  lemma BinaryForm(ts: seq<Token>, pos: nat, op: string, l: Expr, p1: nat, r: Expr, q: nat)
    requires IsAt(ts, pos, Literal('(')) && ParsePrimary(ts, pos + 1) == Ok((l, p1))
    requires SymbolFor(op).Some? && TokenAt(ts, p1, OperatorToken(op).0, OperatorToken(op).1)
    requires ParseExpr(ts, p1 + 1, Level(ts[p1].kind) + 1) == Ok((r, q)) && IsAt(ts, q, Literal(')'))
    ensures ParsePrimary(ts, pos) == Ok((Binary(op, l, r), q + 1))
  {
    hide ParsePrimary, ParseExpr, ParseClimb;
    ReduceOperator(ts, p1, op, l, r);
    InfixClimb(ts, pos + 1, l, p1, r, q, Binary(op, l, r));
    ParenStep(ts, pos, Binary(op, l, r), q);
  }

  /** `( t . m )` is a member access. */
  lemma MemberForm(ts: seq<Token>, pos: nat, t: Expr, p1: nat, m: Expr, q: nat)
    requires IsAt(ts, pos, Literal('(')) && ParsePrimary(ts, pos + 1) == Ok((t, p1))
    requires IsAt(ts, p1, Literal('.')) && ParseExpr(ts, p1 + 1, 12) == Ok((m, q)) && IsAt(ts, q, Literal(')'))
    ensures ParsePrimary(ts, pos) == Ok((MemberAccess(t, m), q + 1))
  {
    hide ParsePrimary, ParseExpr, ParseClimb;
    InfixClimb(ts, pos + 1, t, p1, m, q, MemberAccess(t, m));
    ParenStep(ts, pos, MemberAccess(t, m), q);
  }

  /** `( a in b )` is a membership test. */
  lemma InForm(ts: seq<Token>, pos: nat, a: Expr, p1: nat, b: Expr, q: nat)
    requires IsAt(ts, pos, Literal('(')) && ParsePrimary(ts, pos + 1) == Ok((a, p1))
    requires IsAt(ts, p1, IN) && ParseExpr(ts, p1 + 1, 12) == Ok((b, q)) && IsAt(ts, q, Literal(')'))
    ensures ParsePrimary(ts, pos) == Ok((In(a, b), q + 1))
  {
    hide ParsePrimary, ParseExpr, ParseClimb;
    InfixClimb(ts, pos + 1, a, p1, b, q, In(a, b));
    ParenStep(ts, pos, In(a, b), q);
  }

  /** `( t [ i ] )` is an index access. */
  lemma IndexForm(ts: seq<Token>, pos: nat, t: Expr, p1: nat, i: Expr, q: nat)
    requires IsAt(ts, pos, Literal('(')) && ParsePrimary(ts, pos + 1) == Ok((t, p1))
    requires IsAt(ts, p1, Literal('[')) && ParseExpr(ts, p1 + 1, 1) == Ok((i, q))
    requires IsAt(ts, q, Literal(']')) && IsAt(ts, q + 1, Literal(')'))
    ensures ParsePrimary(ts, pos) == Ok((AccessIndex(t, i), q + 2))
  {
    hide *;
    ExprStep(ts, pos + 1, 1, t, p1);
    ClimbIndex(ts, t, p1, 1, i, q);
    ClosingStops(ts, q + 1, 1);
    ClimbStops(ts, AccessIndex(t, i), q + 1, 1);
    ParenStep(ts, pos, AccessIndex(t, i), q + 1);
  }

  /** `( f ( args ) )` is a call. */
  lemma CallForm(ts: seq<Token>, pos: nat, f: Expr, p1: nat, args: seq<Expr>, q: nat)
    requires IsAt(ts, pos, Literal('(')) && ParsePrimary(ts, pos + 1) == Ok((f, p1))
    requires IsAt(ts, p1, Literal('(')) && ParseExprList(ts, p1 + 1) == Ok((args, q))
    requires IsAt(ts, q, Literal(')')) && IsAt(ts, q + 1, Literal(')'))
    ensures ParsePrimary(ts, pos) == Ok((FnCall(f, args), q + 2))
  {
    hide *;
    ExprStep(ts, pos + 1, 1, f, p1);
    ClimbCall(ts, f, p1, 1, args, q);
    ClosingStops(ts, q + 1, 1);
    ClimbStops(ts, FnCall(f, args), q + 1, 1);
    ParenStep(ts, pos, FnCall(f, args), q + 1);
  }

  // What a layout says about the parts of each form. The round trip below
  // works from these facts and the parsing steps alone, with the definitions
  // hidden.

  /** A closing parenthesis or bracket ends an expression of any level. */
  lemma ClosingStops(ts: seq<Token>, pos: nat, min: nat)
    requires IsAt(ts, pos, Literal(')')) || IsAt(ts, pos, Literal(']'))
    requires min >= 1
    ensures pos < |ts| && StopsAt(ts, pos, min)
  {
  }

  /** A layout of a compound node is the layout of its form. */
  lemma NodeLaidOut(ts: seq<Token>, pos: nat, e: Expr)
    requires LaidOut(ts, pos, e)
    ensures !e.Temp?
    ensures e.Arr? ==> ArrLaidOut(ts, pos, e.items)
    ensures e.Binary? ==> BinaryLaidOut(ts, pos, e.op, e.left, e.right)
    ensures e.MemberAccess? ==> MemberLaidOut(ts, pos, e.target, e.member)
    ensures e.In? ==> InLaidOut(ts, pos, e.elem, e.collection)
    ensures e.AccessIndex? ==> IndexLaidOut(ts, pos, e.target, e.index)
    ensures e.FnCall? ==> CallLaidOut(ts, pos, e.callee, e.args)
  {
    hide ArrLaidOut, BinaryLaidOut, MemberLaidOut, InLaidOut, IndexLaidOut, CallLaidOut, TokenAt;
  }

  lemma ArrParts(ts: seq<Token>, pos: nat, items: seq<Expr>)
    requires ArrLaidOut(ts, pos, items)
    ensures IsAt(ts, pos, Literal('[')) && pos + 1 <= |ts| && ListLaidOut(ts, pos + 1, items)
    ensures ClosesAt(ts, ListEnd(pos + 1, items)) && IsAt(ts, ListEnd(pos + 1, items), Literal(']'))
    ensures End(pos, Arr(items)) == ListEnd(pos + 1, items) + 1 <= |ts|
  {
    hide LaidOut, ListLaidOut, RestLaidOut, ListEnd, RestEnd, SymbolFor, OperatorToken, TokenAt;
  }

  lemma BinaryParts(ts: seq<Token>, pos: nat, op: string, l: Expr, r: Expr)
    requires BinaryLaidOut(ts, pos, op, l, r)
    ensures IsAt(ts, pos, Literal('(')) && LaidOut(ts, pos + 1, l)
    ensures SymbolFor(op).Some?
    ensures TokenAt(ts, End(pos + 1, l), OperatorToken(op).0, OperatorToken(op).1)
    ensures LaidOut(ts, End(pos + 1, l) + 1, r)
    ensures IsAt(ts, End(End(pos + 1, l) + 1, r), Literal(')'))
    ensures End(pos, Binary(op, l, r)) == End(End(pos + 1, l) + 1, r) + 1 <= |ts|
  {
    hide LaidOut, ListLaidOut, RestLaidOut, ListEnd, RestEnd, SymbolFor, OperatorToken, TokenAt;
  }

  lemma TokenBound(ts: seq<Token>, pos: nat, k: Kind, v: Value)
    requires TokenAt(ts, pos, k, v)
    ensures pos < |ts|
  {
  }

  lemma MemberParts(ts: seq<Token>, pos: nat, t: Expr, m: Expr)
    requires MemberLaidOut(ts, pos, t, m)
    ensures IsAt(ts, pos, Literal('(')) && LaidOut(ts, pos + 1, t)
    ensures IsAt(ts, End(pos + 1, t), Literal('.')) && LaidOut(ts, End(pos + 1, t) + 1, m)
    ensures IsAt(ts, End(End(pos + 1, t) + 1, m), Literal(')'))
    ensures End(pos, MemberAccess(t, m)) == End(End(pos + 1, t) + 1, m) + 1 <= |ts|
  {
    hide LaidOut, ListLaidOut, RestLaidOut, ListEnd, RestEnd, SymbolFor, OperatorToken, TokenAt;
  }

  lemma InParts(ts: seq<Token>, pos: nat, a: Expr, b: Expr)
    requires InLaidOut(ts, pos, a, b)
    ensures IsAt(ts, pos, Literal('(')) && LaidOut(ts, pos + 1, a)
    ensures IsAt(ts, End(pos + 1, a), IN) && LaidOut(ts, End(pos + 1, a) + 1, b)
    ensures IsAt(ts, End(End(pos + 1, a) + 1, b), Literal(')'))
    ensures End(pos, In(a, b)) == End(End(pos + 1, a) + 1, b) + 1 <= |ts|
  {
    hide LaidOut, ListLaidOut, RestLaidOut, ListEnd, RestEnd, SymbolFor, OperatorToken, TokenAt;
  }

  lemma IndexParts(ts: seq<Token>, pos: nat, t: Expr, i: Expr)
    requires IndexLaidOut(ts, pos, t, i)
    ensures IsAt(ts, pos, Literal('(')) && LaidOut(ts, pos + 1, t)
    ensures IsAt(ts, End(pos + 1, t), Literal('[')) && LaidOut(ts, End(pos + 1, t) + 1, i)
    ensures IsAt(ts, End(End(pos + 1, t) + 1, i), Literal(']'))
    ensures IsAt(ts, End(End(pos + 1, t) + 1, i) + 1, Literal(')'))
    ensures End(pos, AccessIndex(t, i)) == End(End(pos + 1, t) + 1, i) + 2 <= |ts|
  {
    hide LaidOut, ListLaidOut, RestLaidOut, ListEnd, RestEnd, SymbolFor, OperatorToken, TokenAt;
  }

  lemma CallParts(ts: seq<Token>, pos: nat, f: Expr, args: seq<Expr>)
    requires CallLaidOut(ts, pos, f, args)
    ensures IsAt(ts, pos, Literal('(')) && LaidOut(ts, pos + 1, f)
    ensures IsAt(ts, End(pos + 1, f), Literal('(')) && End(pos + 1, f) + 1 <= |ts|
    ensures ListLaidOut(ts, End(pos + 1, f) + 1, args)
    ensures ClosesAt(ts, ListEnd(End(pos + 1, f) + 1, args))
    ensures IsAt(ts, ListEnd(End(pos + 1, f) + 1, args), Literal(')'))
    ensures IsAt(ts, ListEnd(End(pos + 1, f) + 1, args) + 1, Literal(')'))
    ensures End(pos, FnCall(f, args)) == ListEnd(End(pos + 1, f) + 1, args) + 2 <= |ts|
  {
    hide LaidOut, ListLaidOut, RestLaidOut, ListEnd, RestEnd, SymbolFor, OperatorToken, TokenAt;
  }

  lemma ListParts(ts: seq<Token>, pos: nat, es: seq<Expr>)
    requires |es| > 0 && ListLaidOut(ts, pos, es) && ClosesAt(ts, ListEnd(pos, es))
    ensures LaidOut(ts, pos, es[0]) && pos < |ts| && StartsExpr(ts[pos].kind)
    ensures StopsAt(ts, End(pos, es[0]), 1) && End(pos, es[0]) <= |ts|
    ensures RestLaidOut(ts, End(pos, es[0]), es[1..]) && ClosesAt(ts, RestEnd(End(pos, es[0]), es[1..]))
    ensures ListEnd(pos, es) == RestEnd(End(pos, es[0]), es[1..])
  {
    FirstStarts(ts, pos, es[0]);
    RestStops(ts, End(pos, es[0]), es[1..]);
  }

  lemma RestParts(ts: seq<Token>, pos: nat, es: seq<Expr>)
    requires |es| > 0 && RestLaidOut(ts, pos, es) && ClosesAt(ts, RestEnd(pos, es))
    ensures IsAt(ts, pos, Literal(',')) && LaidOut(ts, pos + 1, es[0])
    ensures StopsAt(ts, End(pos + 1, es[0]), 1) && End(pos + 1, es[0]) <= |ts|
    ensures RestLaidOut(ts, End(pos + 1, es[0]), es[1..]) && ClosesAt(ts, RestEnd(End(pos + 1, es[0]), es[1..]))
    ensures RestEnd(pos, es) == RestEnd(End(pos + 1, es[0]), es[1..])
  {
    RestStops(ts, End(pos + 1, es[0]), es[1..]);
  }

  // The round trip.

  /** An expression laid out as tokens is parsed back as an operand, whatever
      follows it. */
  lemma {:induction false} PrimaryRoundTrip(ts: seq<Token>, pos: nat, e: Expr)
    requires LaidOut(ts, pos, e)
    ensures End(pos, e) <= |ts|
    ensures ParsePrimary(ts, pos) == Ok((e, End(pos, e)))
    decreases e, 1
  {
    hide *;
    match e
    case Var(_) => AtomRoundTrip(ts, pos, e);
    case Num(_) => AtomRoundTrip(ts, pos, e);
    case Str(_) => AtomRoundTrip(ts, pos, e);
    case Chr(_) => AtomRoundTrip(ts, pos, e);
    case Temp(_) => NodeLaidOut(ts, pos, e);
    case Arr(_) => ArrRoundTrip(ts, pos, e);
    case Binary(_, _, _) => BinaryRoundTrip(ts, pos, e);
    case MemberAccess(_, _) => MemberRoundTrip(ts, pos, e);
    case In(_, _) => InRoundTrip(ts, pos, e);
    case AccessIndex(_, _) => IndexRoundTrip(ts, pos, e);
    case FnCall(_, _) => CallRoundTrip(ts, pos, e);
  }

  /** A name, number, string or character is its one token. */
  lemma AtomRoundTrip(ts: seq<Token>, pos: nat, e: Expr)
    requires (e.Var? || e.Num? || e.Str? || e.Chr?) && LaidOut(ts, pos, e)
    ensures End(pos, e) <= |ts|
    ensures ParsePrimary(ts, pos) == Ok((e, End(pos, e)))
  {
    hide ParseExpr, ParseExprList, ParseClimb, ListLaidOut, RestLaidOut, ListEnd, RestEnd, SymbolFor, OperatorToken;
  }

  lemma {:induction false} ArrRoundTrip(ts: seq<Token>, pos: nat, e: Expr)
    requires e.Arr? && LaidOut(ts, pos, e)
    ensures End(pos, e) <= |ts|
    ensures ParsePrimary(ts, pos) == Ok((e, End(pos, e)))
    decreases e, 0
  {
    hide *;
    NodeLaidOut(ts, pos, e);
    ArrParts(ts, pos, e.items);
    ListRoundTrip(ts, pos + 1, e.items);
    ArrStep(ts, pos, e.items, ListEnd(pos + 1, e.items));
  }

  lemma {:induction false} BinaryRoundTrip(ts: seq<Token>, pos: nat, e: Expr)
    requires e.Binary? && LaidOut(ts, pos, e)
    ensures End(pos, e) <= |ts|
    ensures ParsePrimary(ts, pos) == Ok((e, End(pos, e)))
    decreases e, 0
  {
    hide *;
    var p1 := End(pos + 1, e.left);
    NodeLaidOut(ts, pos, e);
    BinaryParts(ts, pos, e.op, e.left, e.right);
    TokenBound(ts, p1, OperatorToken(e.op).0, OperatorToken(e.op).1);
    ClosingStops(ts, End(p1 + 1, e.right), Level(ts[p1].kind) + 1);
    PrimaryRoundTrip(ts, pos + 1, e.left);
    ExprRoundTrip(ts, p1 + 1, e.right, Level(ts[p1].kind) + 1);
    BinaryForm(ts, pos, e.op, e.left, p1, e.right, End(p1 + 1, e.right));
  }

  lemma {:induction false} MemberRoundTrip(ts: seq<Token>, pos: nat, e: Expr)
    requires e.MemberAccess? && LaidOut(ts, pos, e)
    ensures End(pos, e) <= |ts|
    ensures ParsePrimary(ts, pos) == Ok((e, End(pos, e)))
    decreases e, 0
  {
    hide *;
    var p1 := End(pos + 1, e.target);
    NodeLaidOut(ts, pos, e);
    MemberParts(ts, pos, e.target, e.member);
    ClosingStops(ts, End(p1 + 1, e.member), 12);
    PrimaryRoundTrip(ts, pos + 1, e.target);
    ExprRoundTrip(ts, p1 + 1, e.member, 12);
    MemberForm(ts, pos, e.target, p1, e.member, End(p1 + 1, e.member));
  }

  lemma {:induction false} InRoundTrip(ts: seq<Token>, pos: nat, e: Expr)
    requires e.In? && LaidOut(ts, pos, e)
    ensures End(pos, e) <= |ts|
    ensures ParsePrimary(ts, pos) == Ok((e, End(pos, e)))
    decreases e, 0
  {
    hide *;
    var p1 := End(pos + 1, e.elem);
    NodeLaidOut(ts, pos, e);
    InParts(ts, pos, e.elem, e.collection);
    ClosingStops(ts, End(p1 + 1, e.collection), 12);
    PrimaryRoundTrip(ts, pos + 1, e.elem);
    ExprRoundTrip(ts, p1 + 1, e.collection, 12);
    InForm(ts, pos, e.elem, p1, e.collection, End(p1 + 1, e.collection));
  }

  lemma {:induction false} IndexRoundTrip(ts: seq<Token>, pos: nat, e: Expr)
    requires e.AccessIndex? && LaidOut(ts, pos, e)
    ensures End(pos, e) <= |ts|
    ensures ParsePrimary(ts, pos) == Ok((e, End(pos, e)))
    decreases e, 0
  {
    hide *;
    var p1 := End(pos + 1, e.target);
    NodeLaidOut(ts, pos, e);
    IndexParts(ts, pos, e.target, e.index);
    ClosingStops(ts, End(p1 + 1, e.index), 1);
    PrimaryRoundTrip(ts, pos + 1, e.target);
    ExprRoundTrip(ts, p1 + 1, e.index, 1);
    IndexForm(ts, pos, e.target, p1, e.index, End(p1 + 1, e.index));
  }

  lemma {:induction false} CallRoundTrip(ts: seq<Token>, pos: nat, e: Expr)
    requires e.FnCall? && LaidOut(ts, pos, e)
    ensures End(pos, e) <= |ts|
    ensures ParsePrimary(ts, pos) == Ok((e, End(pos, e)))
    decreases e, 0
  {
    hide *;
    var p1 := End(pos + 1, e.callee);
    NodeLaidOut(ts, pos, e);
    CallParts(ts, pos, e.callee, e.args);
    PrimaryRoundTrip(ts, pos + 1, e.callee);
    ListRoundTrip(ts, p1 + 1, e.args);
    CallForm(ts, pos, e.callee, p1, e.args, ListEnd(p1 + 1, e.args));
  }

  /** An expression laid out as tokens and followed by a token below level `min`
      is parsed back as an expression of level `min`. */
  lemma {:induction false} ExprRoundTrip(ts: seq<Token>, pos: nat, e: Expr, min: nat)
    requires LaidOut(ts, pos, e) && min >= 1 && StopsAt(ts, End(pos, e), min)
    ensures ParseExpr(ts, pos, min) == Ok((e, End(pos, e)))
    decreases e, 2
  {
    PrimaryRoundTrip(ts, pos, e);
    ExprStep(ts, pos, min, e, End(pos, e));
    ClimbStops(ts, e, End(pos, e), min);
  }

  /** A list laid out as tokens and followed by a closing bracket is parsed back. */
  lemma {:induction false} ListRoundTrip(ts: seq<Token>, pos: nat, es: seq<Expr>)
    requires pos <= |ts| && ListLaidOut(ts, pos, es) && ClosesAt(ts, ListEnd(pos, es))
    ensures ParseExprList(ts, pos) == Ok((es, ListEnd(pos, es)))
    decreases es, 1
  {
    hide *;
    if |es| == 0 {
      EmptyListEnd(pos, es);
      ListNone(ts, pos);
      TailStop(ts, [], pos);
    } else {
      var p1 := End(pos, es[0]);
      ListParts(ts, pos, es);
      ExprRoundTrip(ts, pos, es[0], 1);
      ListFirst(ts, pos, es[0], p1);
      RestRoundTrip(ts, p1, [es[0]], es[1..]);
      assert [es[0]] + es[1..] == es;
    }
  }

  /** The later entries of a list, each after a comma, are parsed onto `acc`. */
  lemma {:induction false} RestRoundTrip(ts: seq<Token>, pos: nat, acc: seq<Expr>, es: seq<Expr>)
    requires pos <= |ts| && RestLaidOut(ts, pos, es) && ClosesAt(ts, RestEnd(pos, es))
    ensures ParseExprListTail(ts, acc, pos) == Ok((acc + es, RestEnd(pos, es)))
    decreases es, 0
  {
    hide *;
    if |es| == 0 {
      EmptyListEnd(pos, es);
      TailStop(ts, acc, pos);
      assert acc + es == acc;
    } else {
      var p1 := End(pos + 1, es[0]);
      RestParts(ts, pos, es);
      ExprRoundTrip(ts, pos + 1, es[0], 1);
      TailNext(ts, acc, pos, es[0], p1);
      RestRoundTrip(ts, p1, acc + [es[0]], es[1..]);
      assert acc + [es[0]] + es[1..] == acc + es;
    }
  }

  /** An empty list ends where it starts. */
  lemma EmptyListEnd(pos: nat, es: seq<Expr>)
    requires |es| == 0
    ensures ListEnd(pos, es) == pos && RestEnd(pos, es) == pos
  {
  }

  /** A laid-out expression starts with a token that starts an expression. */
  lemma FirstStarts(ts: seq<Token>, pos: nat, e: Expr)
    requires LaidOut(ts, pos, e)
    ensures pos < |ts| && StartsExpr(ts[pos].kind)
  {
  }

  /** The token after a list entry: a comma, or the closing bracket. */
  lemma RestStops(ts: seq<Token>, pos: nat, es: seq<Expr>)
    requires RestLaidOut(ts, pos, es) && ClosesAt(ts, RestEnd(pos, es))
    ensures StopsAt(ts, pos, 1)
  {
    hide LaidOut, End, ListLaidOut;
    if |es| == 0 {
      EmptyListEnd(pos, es);
    }
  }

  // ---------------------------------------------------------------------------
  // Precedence and associativity
  // ---------------------------------------------------------------------------

  /** The level of a binary node's operator in the precedence table. */
  function OpLevel(op: string): nat
    requires SymbolFor(op).Some?
  {
    Level(OperatorToken(op).0)
  }

  /** Two operators between three operands, `a op1 b op2 c`, ending where an
      expression ends. */
  predicate TwoOperators(ts: seq<Token>, pos: nat, a: Expr, op1: string, b: Expr, op2: string, c: Expr) {
    SymbolFor(op1).Some? && SymbolFor(op2).Some?
    && LaidOut(ts, pos, a)
    && TokenAt(ts, End(pos, a), OperatorToken(op1).0, OperatorToken(op1).1)
    && LaidOut(ts, End(pos, a) + 1, b)
    && TokenAt(ts, End(End(pos, a) + 1, b), OperatorToken(op2).0, OperatorToken(op2).1)
    && LaidOut(ts, End(End(pos, a) + 1, b) + 1, c)
    && StopsAt(ts, End(End(End(pos, a) + 1, b) + 1, c), 1)
  }

  /** A binary operator of level `min` or more takes the operand after it. */
  lemma BinaryStep(ts: seq<Token>, lhs: Expr, pos: nat, min: nat, op: string, rhs: Expr, q: nat)
    requires SymbolFor(op).Some? && TokenAt(ts, pos, OperatorToken(op).0, OperatorToken(op).1)
    requires 1 <= min <= OpLevel(op)
    requires ParseExpr(ts, pos + 1, OpLevel(op) + 1) == Ok((rhs, q))
    ensures ParseClimb(ts, lhs, pos, min) == ParseClimb(ts, Binary(op, lhs, rhs), q, min)
  {
    ReduceOperator(ts, pos, op, lhs, rhs);
    ClimbInfix(ts, lhs, pos, min, rhs, q);
  }

  /** A binary operator below level `min` ends the expression before it. */
  lemma BinaryStops(ts: seq<Token>, lhs: Expr, pos: nat, min: nat, op: string)
    requires SymbolFor(op).Some? && TokenAt(ts, pos, OperatorToken(op).0, OperatorToken(op).1)
    requires min >= 1 && OpLevel(op) < min
    ensures ParseClimb(ts, lhs, pos, min) == Ok((lhs, pos))
  {
  }

  /** What `a op1 b op2 c` says about its parts. */
  lemma TwoOperatorsParts(ts: seq<Token>, pos: nat, a: Expr, op1: string, b: Expr, op2: string, c: Expr)
    requires TwoOperators(ts, pos, a, op1, b, op2, c)
    ensures SymbolFor(op1).Some? && SymbolFor(op2).Some?
    ensures 1 <= OpLevel(op1) <= 10 && 1 <= OpLevel(op2) <= 10
    ensures pos < |ts| && LaidOut(ts, pos, a)
    ensures TokenAt(ts, End(pos, a), OperatorToken(op1).0, OperatorToken(op1).1)
    ensures LaidOut(ts, End(pos, a) + 1, b)
    ensures TokenAt(ts, End(End(pos, a) + 1, b), OperatorToken(op2).0, OperatorToken(op2).1)
    ensures LaidOut(ts, End(End(pos, a) + 1, b) + 1, c)
    ensures End(End(End(pos, a) + 1, b) + 1, c) <= |ts|
    ensures StopsAt(ts, End(End(End(pos, a) + 1, b) + 1, c), 1)
    ensures StopsAt(ts, End(End(End(pos, a) + 1, b) + 1, c), OpLevel(op1) + 1)
    ensures StopsAt(ts, End(End(End(pos, a) + 1, b) + 1, c), OpLevel(op2) + 1)
  {
    hide LaidOut, ParsePrimary, ParseExpr, ParseClimb, ParseExprList, End, ListLaidOut, RestLaidOut, Reduce;
    var p1 := End(pos, a);
    var p2 := End(p1 + 1, b);
    ReduceOperator(ts, p1, op1, a, b);
    ReduceOperator(ts, p2, op2, b, c);
    FirstStarts(ts, pos, a);
    PrimaryRoundTrip(ts, p2 + 1, c);
  }

  /** An operator whose level is at least the next one's is applied first: the
      operators of one level associate to the left. */
  lemma {:induction false} LeftGrouping(ts: seq<Token>, pos: nat, a: Expr, op1: string, b: Expr, op2: string, c: Expr)
    requires TwoOperators(ts, pos, a, op1, b, op2, c) && OpLevel(op1) >= OpLevel(op2)
    ensures ParseExpr(ts, pos, 1) == Ok((Binary(op2, Binary(op1, a, b), c), End(End(End(pos, a) + 1, b) + 1, c)))
  {
    hide *;
    TwoOperatorsParts(ts, pos, a, op1, b, op2, c);
    var p1 := End(pos, a);
    var p2 := End(p1 + 1, b);
    var p3 := End(p2 + 1, c);
    PrimaryRoundTrip(ts, pos, a);
    PrimaryRoundTrip(ts, p1 + 1, b);
    ExprRoundTrip(ts, p2 + 1, c, OpLevel(op2) + 1);
    ExprStep(ts, pos, 1, a, p1);
    ExprStep(ts, p1 + 1, OpLevel(op1) + 1, b, p2);
    BinaryStops(ts, b, p2, OpLevel(op1) + 1, op2);
    BinaryStep(ts, a, p1, 1, op1, b, p2);
    BinaryStep(ts, Binary(op1, a, b), p2, 1, op2, c, p3);
    ClimbStops(ts, Binary(op2, Binary(op1, a, b), c), p3, 1);
  }

  /** An operator of a higher level than the one before it takes the operand
      between them. */
  lemma {:induction false} RightGrouping(ts: seq<Token>, pos: nat, a: Expr, op1: string, b: Expr, op2: string, c: Expr)
    requires TwoOperators(ts, pos, a, op1, b, op2, c) && OpLevel(op1) < OpLevel(op2)
    ensures ParseExpr(ts, pos, 1) == Ok((Binary(op1, a, Binary(op2, b, c)), End(End(End(pos, a) + 1, b) + 1, c)))
  {
    hide *;
    TwoOperatorsParts(ts, pos, a, op1, b, op2, c);
    var p1 := End(pos, a);
    var p2 := End(p1 + 1, b);
    var p3 := End(p2 + 1, c);
    PrimaryRoundTrip(ts, pos, a);
    PrimaryRoundTrip(ts, p1 + 1, b);
    ExprRoundTrip(ts, p2 + 1, c, OpLevel(op2) + 1);
    ExprStep(ts, pos, 1, a, p1);
    ExprStep(ts, p1 + 1, OpLevel(op1) + 1, b, p2);
    BinaryStep(ts, b, p2, OpLevel(op1) + 1, op2, c, p3);
    ClimbStops(ts, Binary(op2, b, c), p3, OpLevel(op1) + 1);
    BinaryStep(ts, a, p1, 1, op1, Binary(op2, b, c), p3);
    ClimbStops(ts, Binary(op1, a, Binary(op2, b, c)), p3, 1);
  }

  /** `a op1 b op2 c` groups as `(a op1 b) op2 c` exactly when op1's level in the
      precedence table is at least op2's, and as `a op1 (b op2 c)` otherwise. */
  lemma Grouping(ts: seq<Token>, pos: nat, a: Expr, op1: string, b: Expr, op2: string, c: Expr)
    requires TwoOperators(ts, pos, a, op1, b, op2, c)
    ensures ParseExpr(ts, pos, 1) == Ok((
      if OpLevel(op1) >= OpLevel(op2) then Binary(op2, Binary(op1, a, b), c) else Binary(op1, a, Binary(op2, b, c)),
      End(End(End(pos, a) + 1, b) + 1, c)))
  {
    if OpLevel(op1) >= OpLevel(op2) {
      LeftGrouping(ts, pos, a, op1, b, op2, c);
    } else {
      RightGrouping(ts, pos, a, op1, b, op2, c);
    }
  }

  /** The NOT_EQUALS token as the tokenizer produces it is an infix operator
      whose action fails. */
  lemma NotEqualsToken(ts: seq<Token>, pos: nat, a: Expr, b: Expr)
    requires TokenAt(ts, pos, NOT_EQUALS, Text("r!="))
    ensures pos < |ts| && ts[pos].kind == NOT_EQUALS && Level(NOT_EQUALS) >= 1
    ensures NOT_EQUALS != Literal('[') && NOT_EQUALS != Literal('(')
    ensures Reduce(ts[pos], a, b, pos) == Err(ActionFailed(pos, KeyError("r!=")))
  {
    NotEqualsTextUnknown();
  }

  /** `a != b` as the tokenizer produces it cannot be parsed: the NOT_EQUALS token
      carries the text `r!=`, which is not a key of the operator dictionary, so
      the comparison's action fails at the operator. */
  lemma NotEqualsFails(ts: seq<Token>, pos: nat, a: Expr, b: Expr)
    requires LaidOut(ts, pos, a) && TokenAt(ts, End(pos, a), NOT_EQUALS, Text("r!="))
    requires LaidOut(ts, End(pos, a) + 1, b) && StopsAt(ts, End(End(pos, a) + 1, b), Level(NOT_EQUALS) + 1)
    ensures ParseExpr(ts, pos, 1) == Err(ActionFailed(End(pos, a), KeyError("r!=")))
  {
    hide *;
    var p1 := End(pos, a);
    NotEqualsToken(ts, p1, a, b);
    PrimaryRoundTrip(ts, pos, a);
    ExprRoundTrip(ts, p1 + 1, b, Level(NOT_EQUALS) + 1);
    ExprStep(ts, pos, 1, a, p1);
    ClimbInfix(ts, a, p1, 1, b, End(p1 + 1, b));
  }
}
