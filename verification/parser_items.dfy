/** What the statement, block and module-item rules build: blank lines are
    dropped from every list, compound assignment desugars to a form that keeps
    its three parts, an enum with an empty body loses its name, and the first
    entry of a parameter or return list has its own shape. */
module ParserItems {
  import opened Wrappers
  import opened Lexer
  import opened Ast
  import opened Grammar
  import opened Parser

  // ---------------------------------------------------------------------------
  // Compound assignment
  // ---------------------------------------------------------------------------

  /** `lhs op= rhs` followed by a line break is the desugared block exactly when
      the operator's text is a key of the compound table, and that block gives
      back the left side, the operator's name and the right side; any other text
      makes the action raise on the operator's key. */
  lemma CompoundStatement(ts: seq<Token>, lhs: Expr, pos: nat, rhs: Expr, q: nat)
    requires pos < |ts| && IsCompound(ts[pos].kind)
    requires ParseExpr(ts, pos + 1, 1) == Ok((rhs, q)) && IsAt(ts, q, NEWLINE)
    ensures ParseExprStmt(ts, lhs, pos).Ok? <==> CompoundName(TextOf(ts[pos])).Some?
    ensures ParseExprStmt(ts, lhs, pos).Ok? ==>
      var r := ParseExprStmt(ts, lhs, pos).value;
      r.1 == q + 1 && r.0.Some? && Resugar(r.0.value) == Some((lhs, CompoundName(TextOf(ts[pos])).value, rhs))
    ensures ParseExprStmt(ts, lhs, pos).Err? ==>
      ParseExprStmt(ts, lhs, pos) == Err(ActionFailed(pos, KeyError(TextOf(ts[pos]))))
  {
    CompoundRoundTrip(lhs, TextOf(ts[pos]), rhs);
  }

  // ---------------------------------------------------------------------------
  // Blocks
  // ---------------------------------------------------------------------------

  /** A block's statements are the statements between its braces in order, with
      the blank lines dropped; `{` `}` and a block of blank lines are both empty. */
  lemma BlockIsPresent(ts: seq<Token>, pos: nat)
    requires IsAt(ts, pos, Literal('{'))
    ensures ParseStmts(ts, pos + 1, []).Ok? ==>
      ParseStmtBlock(ts, pos) == Ok((Present(ParseStmts(ts, pos + 1, []).value.0), ParseStmts(ts, pos + 1, []).value.1))
    ensures ParseStmts(ts, pos + 1, []).Err? ==> ParseStmtBlock(ts, pos) == Err(ParseStmts(ts, pos + 1, []).error)
  {
    var items := ParseStmts(ts, pos + 1, []);
    if items.Ok? && |items.value.0| > 0 {
      ItemListIsPresent(items.value.0);
    }
  }

  /** A braced statement group is one statement holding the group's statements
      in order, blank lines dropped. */
  lemma GroupIsPresent(ts: seq<Token>, pos: nat)
    requires IsAt(ts, pos, Literal('{'))
    ensures ParseStmts(ts, pos + 1, []).Ok? ==>
      ParseStmt(ts, pos) == Ok((Some(Block(Present(ParseStmts(ts, pos + 1, []).value.0))), ParseStmts(ts, pos + 1, []).value.1))
    ensures ParseStmts(ts, pos + 1, []).Err? ==> ParseStmt(ts, pos) == Err(ParseStmts(ts, pos + 1, []).error)
  {
    var items := ParseStmts(ts, pos + 1, []);
    if items.Ok? {
      ComStmtIsPresent(items.value.0);
    }
  }

  // ---------------------------------------------------------------------------
  // Enums and structs
  // ---------------------------------------------------------------------------

  /** The enum item values extend the values so far, and add nothing exactly when
      the closing brace comes first. */
  lemma {:induction false} EnumItemsExtend(ts: seq<Token>, pos: nat, acc: seq<Option<string>>)
    requires pos <= |ts|
    ensures ParseEnumItems(ts, pos, acc).Ok? ==>
      var items := ParseEnumItems(ts, pos, acc).value.0;
      |acc| <= |items| && items[..|acc|] == acc && (|items| == |acc| <==> IsAt(ts, pos, Literal('}')))
    decreases |ts| - pos
  {
    if pos < |ts| && ts[pos].kind != Literal('}') {
      if ts[pos].kind == NEWLINE {
        EnumItemsExtend(ts, pos + 1, acc + [None]);
        var items := ParseEnumItems(ts, pos + 1, acc + [None]);
        if items.Ok? {
          assert items.value.0[..|acc|] == (items.value.0[..|acc| + 1])[..|acc|];
        }
      } else if IsAt(ts, pos, NAME) {
        var name := TextOf(ts[pos]);
        EnumItemsExtend(ts, pos + 1, acc + [Some(name)]);
        var items := ParseEnumItems(ts, pos + 1, acc + [Some(name)]);
        if items.Ok? {
          assert items.value.0[..|acc|] == (items.value.0[..|acc| + 1])[..|acc|];
        }
      }
    }
  }

  /** The enum rules, applied to the item values between the braces. */
  lemma EnumStep(ts: seq<Token>, pos: nat)
    requires IsAt(ts, pos, ENUM) && IsAt(ts, pos + 1, NAME) && IsAt(ts, pos + 2, Literal('{'))
    requires ParseEnumItems(ts, pos + 3, []).Ok?
    ensures ParseModuleItem(ts, pos) ==
      var items := ParseEnumItems(ts, pos + 3, []).value;
      Ok((Some(if |items.0| == 0 then NamelessEnumDecl([]) else EnumDecl(TextOf(ts[pos + 1]), ItemList(items.0))), items.1))
  {
    hide ParseEnumItems, ParseFields, ParseFnArgs, ParseFnRet, ParseStmtBlock, ExpectName, Expect;
  }

  /** `enum name { ... }` names its members, blank lines dropped, except that a
      body with nothing at all between the braces gives the nameless empty enum;
      a body of blank lines keeps the name. */
  lemma EnumDeclaration(ts: seq<Token>, pos: nat)
    requires IsAt(ts, pos, ENUM) && IsAt(ts, pos + 1, NAME) && IsAt(ts, pos + 2, Literal('{'))
    requires ParseEnumItems(ts, pos + 3, []).Ok?
    ensures ParseModuleItem(ts, pos) ==
      var items := ParseEnumItems(ts, pos + 3, []).value;
      Ok((Some(if IsAt(ts, pos + 3, Literal('}')) then NamelessEnumDecl([])
               else EnumDecl(TextOf(ts[pos + 1]), Present(items.0))), items.1))
  {
    hide *;
    EnumStep(ts, pos);
    EnumItemsExtend(ts, pos + 3, []);
    var items := ParseEnumItems(ts, pos + 3, []).value;
    if |items.0| > 0 {
      ItemListIsPresent(items.0);
    }
  }

  /** The struct rules, applied to the item values between the braces. */
  lemma StructStep(ts: seq<Token>, pos: nat)
    requires IsAt(ts, pos, STRUCT) && IsAt(ts, pos + 1, NAME) && IsAt(ts, pos + 2, Literal('{'))
    requires ParseFields(ts, pos + 3, []).Ok?
    ensures ParseModuleItem(ts, pos) ==
      var items := ParseFields(ts, pos + 3, []).value;
      Ok((Some(StructDecl(TextOf(ts[pos + 1]), if |items.0| == 0 then [] else ItemList(items.0))), items.1))
  {
    hide ParseEnumItems, ParseFields, ParseFnArgs, ParseFnRet, ParseStmtBlock, ExpectName, Expect;
  }

  /** `struct name { ... }` keeps its name whatever its body: its fields are the
      field lines in order, blank lines dropped. */
  lemma StructDeclaration(ts: seq<Token>, pos: nat)
    requires IsAt(ts, pos, STRUCT) && IsAt(ts, pos + 1, NAME) && IsAt(ts, pos + 2, Literal('{'))
    requires ParseFields(ts, pos + 3, []).Ok?
    ensures ParseModuleItem(ts, pos) ==
      var items := ParseFields(ts, pos + 3, []).value;
      Ok((Some(StructDecl(TextOf(ts[pos + 1]), Present(items.0))), items.1))
  {
    hide ParseModuleItem, ParseFields, ItemList, IsAt;
    StructStep(ts, pos);
    var items := ParseFields(ts, pos + 3, []).value;
    if |items.0| > 0 {
      ItemListIsPresent(items.0);
    }
  }

  /** A name alone on a field line is an unnamed field of that base type. */
  lemma BareNameField(ts: seq<Token>, pos: nat)
    requires IsAt(ts, pos, NAME) && IsAt(ts, pos + 1, NEWLINE)
    ensures ParseField(ts, pos) == Ok((Some(Field("", BaseType(TextOf(ts[pos])))), pos + 2))
  {
  }

  // ---------------------------------------------------------------------------
  // Parameter and return lists
  // ---------------------------------------------------------------------------

  /** One step of the parameter tail: a `,` entry adds a later-form parameter. */
  lemma ArgsTailStep(ts: seq<Token>, acc: seq<Param>, pos: nat) returns (next: Param, q: nat)
    requires pos <= |ts| && ParseFnArgsTail(ts, acc, pos).Ok?
    ensures !IsAt(ts, pos, Literal(',')) ==> ParseFnArgsTail(ts, acc, pos) == Ok((acc, pos))
    ensures IsAt(ts, pos, Literal(',')) ==>
      pos < q <= |ts| && next.LaterParam? && ParseFnArgsTail(ts, acc, pos) == ParseFnArgsTail(ts, acc + [next], q)
  {
    hide ParseType, ExpectName;
    next, q := LaterParam("", false, false, BaseType("")), pos;
    if IsAt(ts, pos, Literal(',')) {
      var name := ExpectName(ts, pos + 1).value;
      var mutable := IsAt(ts, name.1, MUT);
      var p := if mutable then name.1 + 1 else name.1;
      var optional := IsAt(ts, p, Literal('?'));
      var ty := ParseType(ts, if optional then p + 1 else p).value;
      next, q := LaterParam(name.0, mutable, optional, ty.0), ty.1;
    }
  }

  /** The `,`-separated parameters extend the parameters so far with later-form
      parameters only. */
  lemma {:induction false} ArgsTailLater(ts: seq<Token>, acc: seq<Param>, pos: nat)
    requires pos <= |ts|
    ensures ParseFnArgsTail(ts, acc, pos).Ok? ==>
      var ps := ParseFnArgsTail(ts, acc, pos).value.0;
      |acc| <= |ps| && ps[..|acc|] == acc && forall i | |acc| <= i < |ps| :: ps[i].LaterParam?
    decreases |ts| - pos
  {
    hide *;
    if ParseFnArgsTail(ts, acc, pos).Ok? {
      var next, q := ArgsTailStep(ts, acc, pos);
      if IsAt(ts, pos, Literal(',')) {
        ArgsTailLater(ts, acc + [next], q);
        var ps := ParseFnArgsTail(ts, acc, pos).value.0;
        assert ps[..|acc|] == ps[..|acc| + 1][..|acc|];
        forall i | |acc| <= i < |ps| ensures ps[i].LaterParam? {
          if i == |acc| {
            assert ps[i] == ps[..|acc| + 1][i];
          }
        }
      }
    }
  }

  /** A parameter has the two-field first form exactly when it is the first one
      and the list starts with a name; a list that starts with a name is not
      empty. */
  lemma ArgsShape(ts: seq<Token>, pos: nat)
    requires pos <= |ts|
    ensures ParseFnArgs(ts, pos).Ok? ==>
      var ps := ParseFnArgs(ts, pos).value.0;
      (IsAt(ts, pos, NAME) ==> |ps| > 0) &&
      forall i | 0 <= i < |ps| :: ps[i].FirstParam? <==> (i == 0 && IsAt(ts, pos, NAME))
  {
    hide ParseType, ParseFnArgsTail, ExpectName;
    if IsAt(ts, pos, NAME) {
      var ty := ParseType(ts, pos + 1);
      if ty.Ok? {
        ArgsTailLater(ts, [FirstParam(TextOf(ts[pos]), ty.value.0)], ty.value.1);
      }
    } else {
      ArgsTailLater(ts, [], pos);
    }
  }

  /** One step of the return-list tail: a `,` entry adds a type. */
  lemma RetTailStep(ts: seq<Token>, acc: seq<RetItem>, pos: nat) returns (next: RetItem, q: nat)
    requires pos <= |ts| && ParseRetListTail(ts, acc, pos).Ok?
    ensures !IsAt(ts, pos, Literal(',')) ==> ParseRetListTail(ts, acc, pos) == Ok((acc, pos))
    ensures IsAt(ts, pos, Literal(',')) ==>
      pos < q <= |ts| && next.RetType? && ParseRetListTail(ts, acc, pos) == ParseRetListTail(ts, acc + [next], q)
  {
    hide ParseType;
    next, q := RetType(BaseType("")), pos;
    if IsAt(ts, pos, Literal(',')) {
      var ty := ParseType(ts, pos + 1).value;
      next, q := RetType(ty.0), ty.1;
    }
  }

  /** The `,`-separated return types extend the entries so far with types only. */
  lemma {:induction false} RetTailTypes(ts: seq<Token>, acc: seq<RetItem>, pos: nat)
    requires pos <= |ts|
    ensures ParseRetListTail(ts, acc, pos).Ok? ==>
      var rs := ParseRetListTail(ts, acc, pos).value.0;
      |acc| <= |rs| && rs[..|acc|] == acc && forall i | |acc| <= i < |rs| :: rs[i].RetType?
    decreases |ts| - pos
  {
    hide *;
    if ParseRetListTail(ts, acc, pos).Ok? {
      var next, q := RetTailStep(ts, acc, pos);
      if IsAt(ts, pos, Literal(',')) {
        RetTailTypes(ts, acc + [next], q);
        var rs := ParseRetListTail(ts, acc, pos).value.0;
        assert rs[..|acc|] == rs[..|acc| + 1][..|acc|];
        forall i | |acc| <= i < |rs| ensures rs[i].RetType? {
          if i == |acc| {
            assert rs[i] == rs[..|acc| + 1][i];
          }
        }
      }
    }
  }

  /** A return entry is a bare name exactly when it is the first entry of a
      parenthesised list; without parentheses there is at most one entry. */
  lemma RetShape(ts: seq<Token>, pos: nat)
    requires pos <= |ts|
    ensures ParseFnRet(ts, pos).Ok? ==>
      var rs := ParseFnRet(ts, pos).value.0;
      (IsAt(ts, pos, Literal('(')) ==> |rs| > 0) &&
      (!IsAt(ts, pos, Literal('(')) ==> |rs| <= 1) &&
      forall i | 0 <= i < |rs| :: rs[i].RetName? <==> (i == 0 && IsAt(ts, pos, Literal('(')))
  {
    hide ParseType, ParseRetListTail, ExpectName;
    if IsAt(ts, pos, Literal('(')) && IsAt(ts, pos + 1, NAME) {
      RetTailTypes(ts, [RetName(TextOf(ts[pos + 1]))], pos + 2);
    }
  }

  // ---------------------------------------------------------------------------
  // Modules
  // ---------------------------------------------------------------------------

  /** The module item values extend the values so far, and add nothing exactly
      when no tokens are left. */
  lemma {:induction false} ModuleItemsExtend(ts: seq<Token>, pos: nat, acc: seq<Option<ModuleItem>>)
    requires pos <= |ts|
    ensures ParseModuleItems(ts, pos, acc).Ok? ==>
      var items := ParseModuleItems(ts, pos, acc).value;
      |acc| <= |items| && items[..|acc|] == acc && (|items| == |acc| <==> pos == |ts|)
    decreases |ts| - pos
  {
    if pos < |ts| {
      var item := ParseModuleItem(ts, pos);
      if item.Ok? {
        var acc' := acc + [item.value.0];
        ModuleItemsExtend(ts, item.value.1, acc');
        var r := ParseModuleItems(ts, item.value.1, acc');
        if r.Ok? {
          assert r.value[..|acc|] == (r.value[..|acc'|])[..|acc|];
        }
      }
    }
  }

  /** A module is its items in order with the blank lines dropped; only an empty
      token list is refused for having no item, so a module of blank lines is
      the empty list. */
  lemma ModuleIsPresent(ts: seq<Token>)
    ensures ParseModuleItems(ts, 0, []).Ok? ==>
      Parse(ts) == if |ts| == 0 then Err(SyntaxError(0)) else Ok(Present(ParseModuleItems(ts, 0, []).value))
    ensures ParseModuleItems(ts, 0, []).Err? ==> Parse(ts) == Err(ParseModuleItems(ts, 0, []).error)
  {
    var items := ParseModuleItems(ts, 0, []);
    ModuleItemsExtend(ts, 0, []);
    if items.Ok? && |items.value| > 0 {
      ItemListIsPresent(items.value);
    }
  }
}
