/** Type resolution of literals, identifiers and binary expressions. */
module VExpr {
  import opened Wrappers
  import opened VTypes

  /** The expression nodes whose types are resolved here. */
  datatype Expr =
    | IntegerLiteral(num: int)
    | BoolLiteral(b: bool)
    | IdentifierLiteral(name: string)
    | Binary(op: string, expr0: Expr, expr1: Expr)

  /** The failures of resolution (the source's failed assertions and a missing table key). */
  datatype ResolveError =
    | UnknownIdentifier(name: string)
    | OperandTypesDiffer(op: string, t0: Option<VType>, t1: Option<VType>)
    | OperatorNotApplicable(op: string, t0: Option<VType>)
    | UnknownOperator(op: string)

  // ---------------------------------------------------------------------------
  // Integer literals
  // ---------------------------------------------------------------------------

  function Pow2(k: nat): (p: nat)
    ensures p >= 1
  {
    if k == 0 then 1 else 2 * Pow2(k - 1)
  }

  /** Number of binary digits of a non-negative number; zero has one digit. */
  function BitLength(n: nat): (b: nat)
    ensures b >= 1
  {
    if n < 2 then 1 else 1 + BitLength(n / 2)
  }

  /** Length of the text after the first two characters of the number's binary
      rendering: for a negative number the rendering starts with a minus sign, so
      one character of the prefix is the letter `b` and the count is one more. */
  function BinaryDigitCount(n: int): (b: nat)
    ensures b >= 1
  {
    if n >= 0 then BitLength(n) else BitLength(-n) + 1
  }

  /** The digit count is at most `k` exactly when the number lies strictly
      between `-2^(k-1)` and `2^k`: a negative number spends one place on the
      sign. */
  lemma DigitCountRange(n: int, k: nat)
    requires k >= 1
    ensures BinaryDigitCount(n) <= k <==> -(Pow2(k - 1) as int) < n < Pow2(k)
  {
    if n >= 0 {
      BitLengthBound(n, k);
    } else if k >= 2 {
      BitLengthBound(-n, k - 1);
    }
  }

  /** A literal has a type exactly when it lies strictly between `-2^126` and
      `2^127`. */
  lemma LiteralRange(n: int)
    ensures LiteralType(n).Some? <==> -(Pow2(126) as int) < n < Pow2(127)
  {
    DigitCountRange(n, 127);
  }

  /** Literal width inference. Both 8..15 and 16..31 bits give the 16-bit type,
      and 128 bits or more give no type at all. */
  function LiteralType(n: int): (r: Option<VType>)
    ensures r.Some? <==> BinaryDigitCount(n) < 128
    ensures r.Some? ==> IsIntegerType(r.value) && !r.value.flag
  {
    var bits := BinaryDigitCount(n);
    if bits < 8 then Some(VI8(false))
    else if bits < 16 then Some(VI16(false))
    else if bits < 32 then Some(VI16(false))
    else if bits < 64 then Some(VInt(false))
    else if bits < 128 then Some(VI128(false))
    else None
  }

  /** `BitLength(n) <= k` exactly when `n` is below `2^k`. */
  lemma {:induction false} BitLengthBound(n: nat, k: nat)
    requires k >= 1
    ensures BitLength(n) <= k <==> n < Pow2(k)
  {
    if n >= 2 && k >= 2 {
      BitLengthBound(n / 2, k - 1);
    } else if n >= 2 {
      assert BitLength(n) == 1 + BitLength(n / 2);
    } else if k >= 2 {
      Pow2AtLeast(k);
    }
  }

  lemma {:induction false} Pow2AtLeast(k: nat)
    requires k >= 1
    ensures Pow2(k) >= 2
  {
    if k > 1 {
      Pow2AtLeast(k - 1);
    }
  }

  lemma {:induction false} Pow2Sum(a: nat, b: nat)
    ensures Pow2(a + b) == Pow2(a) * Pow2(b)
  {
    if b > 0 {
      Pow2Sum(a, b - 1);
    }
  }

  /** The widths the literal bands are measured against. */
  lemma Pow2Values()
    ensures Pow2(7) == 0x80 && Pow2(15) == 0x8000 && Pow2(31) == 0x8000_0000
    ensures Pow2(63) == 0x8000_0000_0000_0000
    ensures Pow2(127) == 0x8000_0000_0000_0000_0000_0000_0000_0000
  {
    assert Pow2(8) == 0x100;
    Pow2Sum(7, 8);
    Pow2Sum(15, 8);
    Pow2Sum(15, 16);
    Pow2Sum(31, 32);
    Pow2Sum(63, 64);
  }

  /** The bands of literal width inference, stated on the literal's value. */
  lemma LiteralTypeBands(n: nat)
    ensures LiteralType(n) == Some(VI8(false)) <==> n < 0x80
    ensures LiteralType(n) == Some(VI16(false)) <==> 0x80 <= n < 0x8000_0000
    ensures LiteralType(n) == Some(VInt(false)) <==> 0x8000_0000 <= n < 0x8000_0000_0000_0000
    ensures LiteralType(n) == Some(VI128(false)) <==>
              0x8000_0000_0000_0000 <= n < 0x8000_0000_0000_0000_0000_0000_0000_0000
    ensures LiteralType(n) == None <==> 0x8000_0000_0000_0000_0000_0000_0000_0000 <= n
  {
    Pow2Values();
    BitLengthBound(n, 7);
    BitLengthBound(n, 15);
    BitLengthBound(n, 31);
    BitLengthBound(n, 63);
    BitLengthBound(n, 127);
  }

  /** Position of an integer type in the order VI8 < VI16 < VInt < VI128. */
  function Rank(t: VType): nat
    requires IsIntegerType(t)
  {
    match t
    case VI8(_) => 0
    case VI16(_) => 1
    case VInt(_) => 2
    case VI128(_) => 3
  }

  lemma {:induction false} BitLengthMonotone(m: nat, n: nat)
    requires m <= n
    ensures BitLength(m) <= BitLength(n)
  {
    if m >= 2 {
      BitLengthMonotone(m / 2, n / 2);
    }
  }

  /** The inferred type never shrinks as a (representable) literal grows. */
  lemma LiteralTypeMonotone(m: nat, n: nat)
    requires m <= n < 0x8000_0000_0000_0000_0000_0000_0000_0000
    ensures LiteralType(m).Some? && LiteralType(n).Some?
    ensures Rank(LiteralType(m).value) <= Rank(LiteralType(n).value)
  {
    LiteralTypeBands(m);
    LiteralTypeBands(n);
    BitLengthMonotone(m, n);
  }

  /** 5 has 3 bits, 1000 has 10 and 100000 has 17: the first is 8-bit, the
      other two both land on the 16-bit type. */
  lemma LiteralTypeExamples()
    ensures LiteralType(5) == Some(VI8(false))
    ensures LiteralType(1000) == Some(VI16(false))
    ensures LiteralType(100000) == Some(VI16(false))
  {
    LiteralTypeBands(5);
    LiteralTypeBands(1000);
    LiteralTypeBands(100000);
  }

  /** The `bits < 32` branch returns VI16, like the `bits < 16` branch, so
      every literal below 2^31 gets VI8 or VI16. */
  lemma SixteenBitBranchShadowsThirtyTwo(n: nat)
    requires n < 0x8000_0000
    ensures LiteralType(n) == Some(VI8(false)) || LiteralType(n) == Some(VI16(false))
  {
    LiteralTypeBands(n);
  }

  // ---------------------------------------------------------------------------
  // Identifiers
  // ---------------------------------------------------------------------------

  /** Reference definition of name lookup along a chain of namespaces, innermost
      first: the first namespace holding the name wins. */
  function ChainLookup(chain: seq<Namespace>, name: string): (r: Option<Identifier>)
    decreases |chain|
  {
    if |chain| == 0 then None
    else if name in chain[0] then Some(chain[0][name])
    else ChainLookup(chain[1..], name)
  }

  /** The lookup of the identifier resolver: the scope first, the module only
      when the scope has no entry. */
  function IdentifierLookup(module_: Namespace, scope: Namespace, name: string): (r: Option<Identifier>)
    ensures r.Some? <==> name in scope || name in module_
  {
    if name in scope then Some(scope[name])
    else if name in module_ then Some(module_[name])
    else None
  }

  /** The two-step lookup is the chain lookup over [scope, module]. */
  lemma IdentifierLookupIsChainLookup(module_: Namespace, scope: Namespace, name: string)
    ensures IdentifierLookup(module_, scope, name) == ChainLookup([scope, module_], name)
  {
    var chain := [scope, module_];
    assert chain[1..] == [module_];
    assert [module_][1..] == [];
    assert ChainLookup([module_], name) == if name in module_ then Some(module_[name]) else ChainLookup([], name);
  }

  /** The chain lookup finds exactly the first namespace that binds the name. */
  lemma {:induction false} ChainLookupFirstMatch(chain: seq<Namespace>, name: string, k: nat)
    requires k < |chain| && name in chain[k]
    requires forall j :: 0 <= j < k ==> name !in chain[j]
    ensures ChainLookup(chain, name) == Some(chain[k][name])
  {
    if k > 0 {
      ChainLookupFirstMatch(chain[1..], name, k - 1);
    }
  }

  /** The chain lookup fails exactly when no namespace binds the name. */
  lemma {:induction false} ChainLookupMissing(chain: seq<Namespace>, name: string)
    ensures ChainLookup(chain, name).None? <==> forall j :: 0 <= j < |chain| ==> name !in chain[j]
  {
    if |chain| > 0 {
      ChainLookupMissing(chain[1..], name);
      if name !in chain[0] {
        forall j | 0 < j < |chain| ensures chain[j] == chain[1..][j - 1] { }
      }
    }
  }

  // ---------------------------------------------------------------------------
  // Binary operators
  // ---------------------------------------------------------------------------

  /** Operand categories of the operator table. */
  datatype Category = IntegerFamily | BoolCategory

  predicate Fits(t: Option<VType>, c: Category) {
    t.Some? && match c
      case IntegerFamily => IsIntegerType(t.value)
      case BoolCategory => t.value.VBool?
  }

  /** A table entry: the allowed categories, and for comparisons the type that
      overrides the operand type as the result. */
  datatype OperatorRule = OperatorRule(categories: seq<Category>, override: Option<VType>)

  const PossibleTypes: map<string, OperatorRule> := map[
    "+" := OperatorRule([IntegerFamily], None),
    "-" := OperatorRule([IntegerFamily], None),
    "*" := OperatorRule([IntegerFamily], None),
    "/" := OperatorRule([IntegerFamily], None),
    "%" := OperatorRule([IntegerFamily], None),
    "&" := OperatorRule([IntegerFamily], None),
    "|" := OperatorRule([IntegerFamily], None),
    "^" := OperatorRule([IntegerFamily], None),
    "&&" := OperatorRule([BoolCategory], None),
    "||" := OperatorRule([BoolCategory], None),
    ">>" := OperatorRule([IntegerFamily], None),
    "<<" := OperatorRule([IntegerFamily], None),
    "==" := OperatorRule([IntegerFamily, BoolCategory], Some(VBool(false))),
    "!=" := OperatorRule([IntegerFamily, BoolCategory], Some(VBool(false))),
    ">=" := OperatorRule([IntegerFamily, BoolCategory], Some(VBool(false))),
    ">" := OperatorRule([IntegerFamily, BoolCategory], Some(VBool(false))),
    "<=" := OperatorRule([IntegerFamily, BoolCategory], Some(VBool(false))),
    "<" := OperatorRule([IntegerFamily, BoolCategory], Some(VBool(false)))
  ]

  /** The first-match search over the allowed categories. */
  predicate Applicable(rule: OperatorRule, t: Option<VType>): (b: bool)
    ensures b ==> t.Some? && (IsIntegerType(t.value) || t.value.VBool?)
  {
    exists k :: 0 <= k < |rule.categories| && Fits(t, rule.categories[k])
  }

  // ---------------------------------------------------------------------------
  // Resolution
  // ---------------------------------------------------------------------------

  /** The type of an expression: `None` is the absent type of a literal that is too
      wide; errors are the source's failed assertions. */
  function ResolveType(e: Expr, module_: Namespace, scope: Namespace): (r: Result<Option<VType>, ResolveError>)
    ensures e.Binary? && r.Ok? ==> r.value.Some? && (IsIntegerType(r.value.value) || r.value.value.VBool?)
    ensures e.BoolLiteral? ==> r == Ok(Some(VBool(false)))
    ensures e.IntegerLiteral? ==> r == Ok(LiteralType(e.num))
    ensures e.IdentifierLiteral? ==> (r.Ok? <==> IdentifierLookup(module_, scope, e.name).Some?)
    ensures e.Binary? && r.Ok? ==> e.op in PossibleTypes
  {
    match e
    case IntegerLiteral(n) => Ok(LiteralType(n))
    case BoolLiteral(_) => Ok(Some(VBool(false)))
    case IdentifierLiteral(name) =>
      (match IdentifierLookup(module_, scope, name)
       case None => Err(UnknownIdentifier(name))
       case Some(VFunction(t)) => Ok(Some(t))
       case Some(VVariable(t)) => Ok(Some(t)))
    case Binary(op, e0, e1) =>
      var t0 :- ResolveType(e0, module_, scope);
      var t1 :- ResolveType(e1, module_, scope);
      if t0 != t1 then Err(OperandTypesDiffer(op, t0, t1))
      else if op !in PossibleTypes then Err(UnknownOperator(op))
      else
        var rule := PossibleTypes[op];
        if !Applicable(rule, t0) then Err(OperatorNotApplicable(op, t0))
        else if rule.override.Some? then Ok(rule.override)
        else Ok(t0)
  }

  /** An identifier resolves to the stored type of its innermost binding: a scope
      entry shadows a module entry, and a name bound nowhere is an error naming it. */
  lemma IdentifierResolution(module_: Namespace, scope: Namespace, name: string)
    ensures name in scope ==> ResolveType(IdentifierLiteral(name), module_, scope) == Ok(Some(scope[name].ty))
    ensures name !in scope && name in module_ ==>
              ResolveType(IdentifierLiteral(name), module_, scope) == Ok(Some(module_[name].ty))
    ensures name !in scope && name !in module_ ==>
              ResolveType(IdentifierLiteral(name), module_, scope) == Err(UnknownIdentifier(name))
  {
  }

  /** Unequal operand types are reported before the operator is even looked up. */
  lemma OperandMismatchFirst(op: string, e0: Expr, e1: Expr, module_: Namespace, scope: Namespace,
                             t0: Option<VType>, t1: Option<VType>)
    requires ResolveType(e0, module_, scope) == Ok(t0)
    requires ResolveType(e1, module_, scope) == Ok(t1)
    requires t0 != t1
    ensures ResolveType(Binary(op, e0, e1), module_, scope) == Err(OperandTypesDiffer(op, t0, t1))
  {
  }

  /** `1 + true` fails on the unequal operand types before the operator is
      looked up. */
  lemma IntPlusBoolFails(module_: Namespace, scope: Namespace)
    ensures ResolveType(Binary("+", IntegerLiteral(1), BoolLiteral(true)), module_, scope)
         == Err(OperandTypesDiffer("+", Some(VI8(false)), Some(VBool(false))))
  {
    LiteralTypeBands(1);
  }

  predicate IsArithmeticOperator(op: string) {
    op in {"+", "-", "*", "/", "%", "&", "|", "^", "<<", ">>"}
  }

  predicate IsLogicalOperator(op: string) {
    op in {"&&", "||"}
  }

  predicate IsComparisonOperator(op: string) {
    op in {"==", "!=", ">=", ">", "<=", "<"}
  }

  lemma ArithmeticRule(op: string)
    requires IsArithmeticOperator(op)
    ensures op in PossibleTypes && PossibleTypes[op] == OperatorRule([IntegerFamily], None)
  {
  }

  lemma LogicalRule(op: string)
    requires IsLogicalOperator(op)
    ensures op in PossibleTypes && PossibleTypes[op] == OperatorRule([BoolCategory], None)
  {
  }

  lemma ComparisonRule(op: string)
    requires IsComparisonOperator(op)
    ensures op in PossibleTypes && PossibleTypes[op] == OperatorRule([IntegerFamily, BoolCategory], Some(VBool(false)))
  {
  }

  /** Arithmetic, bitwise and shift operators accept exactly equal integer-family
      operands and yield the operand type. */
  lemma ArithmeticTyping(op: string, e0: Expr, e1: Expr, module_: Namespace, scope: Namespace, t: VType)
    requires IsArithmeticOperator(op)
    ensures ResolveType(Binary(op, e0, e1), module_, scope) == Ok(Some(t)) <==>
              ResolveType(e0, module_, scope) == Ok(Some(t)) &&
              ResolveType(e1, module_, scope) == Ok(Some(t)) &&
              IsIntegerType(t)
  {
    ArithmeticRule(op);
    var rule := PossibleTypes[op];
    if IsIntegerType(t) {
      assert Fits(Some(t), rule.categories[0]);
    }
  }

  /** `&&` and `||` accept exactly equal boolean operands and yield the operand type. */
  lemma LogicalTyping(op: string, e0: Expr, e1: Expr, module_: Namespace, scope: Namespace, t: VType)
    requires IsLogicalOperator(op)
    ensures ResolveType(Binary(op, e0, e1), module_, scope) == Ok(Some(t)) <==>
              ResolveType(e0, module_, scope) == Ok(Some(t)) &&
              ResolveType(e1, module_, scope) == Ok(Some(t)) &&
              t.VBool?
  {
    LogicalRule(op);
    var rule := PossibleTypes[op];
    if t.VBool? {
      assert Fits(Some(t), rule.categories[0]);
    }
  }

  /** Comparisons accept equal integer-family or boolean operands and always
      yield the boolean type, whatever the operand type. */
  lemma ComparisonTyping(op: string, e0: Expr, e1: Expr, module_: Namespace, scope: Namespace, t: VType)
    requires IsComparisonOperator(op)
    requires ResolveType(e0, module_, scope) == Ok(Some(t))
    ensures ResolveType(Binary(op, e0, e1), module_, scope).Ok? <==>
              ResolveType(e1, module_, scope) == Ok(Some(t)) && (IsIntegerType(t) || t.VBool?)
    ensures ResolveType(Binary(op, e0, e1), module_, scope).Ok? ==>
              ResolveType(Binary(op, e0, e1), module_, scope) == Ok(Some(VBool(false)))
  {
    ComparisonRule(op);
    var rule := PossibleTypes[op];
    if IsIntegerType(t) {
      assert Fits(Some(t), rule.categories[0]);
    } else if t.VBool? {
      assert Fits(Some(t), rule.categories[1]);
    }
  }

  /** Every operator of the table is in exactly one of the three groups, so the
      three typing lemmas cover the table. */
  lemma TableCoversGroups(op: string)
    ensures op in PossibleTypes <==> IsArithmeticOperator(op) || IsLogicalOperator(op) || IsComparisonOperator(op)
  {
  }
}
