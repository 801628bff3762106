/** What the declaration lists contain: struct fields, enum members, parameters
    and return entries laid out as tokens parse back to the values their rules
    build, and a block or a module is the values of its statements or items
    parsed one after another. */
module ParserDecls {
  import opened Wrappers
  import opened Lexer
  import opened Ast
  import opened Grammar
  import opened Parser
  import opened ParserProps
  import opened ParserItems

  // ---------------------------------------------------------------------------
  // Struct fields
  // ---------------------------------------------------------------------------

  /** A NAME token holding `name` has `name` as its text. */
  lemma NameToken(ts: seq<Token>, pos: nat, name: string)
    requires TokenAt(ts, pos, NAME, Text(name))
    ensures IsAt(ts, pos, NAME) && TextOf(ts[pos]) == name
  {
  }

  /** A type laid out from `pos` starts with a type token, which is a name
      exactly for a base type. */
  lemma TypeStart(ts: seq<Token>, pos: nat, t: TypeDecl)
    requires TypeLaidOut(ts, pos, t)
    ensures pos < |ts| && StartsType(ts[pos].kind) && (ts[pos].kind == NAME <==> t.BaseType?)
  {
  }

  /** The position after the line break of field `f` laid out from `pos`. */
  function FieldEnd(pos: nat, f: Field): nat {
    if f.name != "" then TypeEnd(pos + 1, f.ty) + 1 else TypeEnd(pos, f.ty) + 1
  }

  /** The tokens from `pos` spell field `f`: its name and type, or its type
      alone when the name is empty, then a line break. */
  predicate FieldLaidOut(ts: seq<Token>, pos: nat, f: Field) {
    if f.name != "" then
      TokenAt(ts, pos, NAME, Text(f.name)) && TypeLaidOut(ts, pos + 1, f.ty) && IsAt(ts, TypeEnd(pos + 1, f.ty), NEWLINE)
    else TypeLaidOut(ts, pos, f.ty) && IsAt(ts, TypeEnd(pos, f.ty), NEWLINE)
  }

  /** `NAME type_decl NEWLINE` is the named field and `type_decl NEWLINE` the
      unnamed one, whatever the type, a bare name included. */
  lemma FieldRoundTrip(ts: seq<Token>, pos: nat, f: Field)
    requires FieldLaidOut(ts, pos, f)
    ensures FieldEnd(pos, f) <= |ts|
    ensures ParseField(ts, pos) == Ok((Some(f), FieldEnd(pos, f)))
  {
    hide ParseField, ParseType, TypeLaidOut;
    if f.name != "" {
      TypeStart(ts, pos + 1, f.ty);
      TypeRoundTrip(ts, pos + 1, f.ty);
      NamedFieldStep(ts, pos, f.ty, TypeEnd(pos + 1, f.ty));
    } else {
      TypeStart(ts, pos, f.ty);
      TypeRoundTrip(ts, pos, f.ty);
      UnnamedFieldStep(ts, pos, f.ty, TypeEnd(pos, f.ty));
    }
  }

  /** `NAME type_decl NEWLINE`, for whatever the type parses to. */
  lemma NamedFieldStep(ts: seq<Token>, pos: nat, ty: TypeDecl, q: nat)
    requires IsAt(ts, pos, NAME) && !IsAt(ts, pos + 1, NEWLINE)
    requires ParseType(ts, pos + 1) == Ok((ty, q)) && IsAt(ts, q, NEWLINE)
    ensures ParseField(ts, pos) == Ok((Some(Field(TextOf(ts[pos]), ty)), q + 1))
  {
    hide ParseType;
  }

  /** `type_decl NEWLINE`, for whatever the type parses to. */
  lemma UnnamedFieldStep(ts: seq<Token>, pos: nat, ty: TypeDecl, q: nat)
    requires pos < |ts| && !IsAt(ts, pos, NEWLINE) && !(IsAt(ts, pos, NAME) && !IsAt(ts, pos + 1, NEWLINE))
    requires ParseType(ts, pos) == Ok((ty, q)) && IsAt(ts, q, NEWLINE)
    ensures ParseField(ts, pos) == Ok((Some(Field("", ty)), q + 1))
  {
    hide ParseType;
  }

  /** The position after the line `line` laid out from `pos`. */
  function LineEnd(pos: nat, line: Option<Field>): nat {
    if line.None? then pos + 1 else FieldEnd(pos, line.value)
  }

  /** One struct line: a field line or a blank line, never the closing brace. */
  lemma FieldLineRoundTrip(ts: seq<Token>, pos: nat, line: Option<Field>)
    requires if line.None? then IsAt(ts, pos, NEWLINE) else FieldLaidOut(ts, pos, line.value)
    ensures pos < |ts| && ts[pos].kind != Literal('}') && LineEnd(pos, line) <= |ts|
    ensures ParseField(ts, pos) == Ok((line, LineEnd(pos, line)))
  {
    if line.Some? {
      hide ParseField, TypeLaidOut;
      FieldRoundTrip(ts, pos, line.value);
      TypeStart(ts, if line.value.name != "" then pos + 1 else pos, line.value.ty);
    }
  }

  /** A line that is not the closing brace adds its value to the struct items. */
  lemma FieldsStep(ts: seq<Token>, pos: nat, acc: seq<Option<Field>>, line: Option<Field>, q: nat)
    requires pos < |ts| && ts[pos].kind != Literal('}') && ParseField(ts, pos) == Ok((line, q))
    ensures ParseFields(ts, pos, acc) == ParseFields(ts, q, acc + [line])
  {
    hide ParseField;
  }

  /** The position of the closing brace after the lines `lines` laid out from `pos`. */
  function FieldLinesEnd(pos: nat, lines: seq<Option<Field>>): nat
    decreases |lines|
  {
    if |lines| == 0 then pos else FieldLinesEnd(LineEnd(pos, lines[0]), lines[1..])
  }

  /** The tokens from `pos` spell the struct body `lines` (None for a blank
      line) and the closing brace. */
  predicate FieldLinesLaidOut(ts: seq<Token>, pos: nat, lines: seq<Option<Field>>)
    decreases |lines|
  {
    if |lines| == 0 then IsAt(ts, pos, Literal('}'))
    else
      (if lines[0].None? then IsAt(ts, pos, NEWLINE) else FieldLaidOut(ts, pos, lines[0].value))
      && FieldLinesLaidOut(ts, LineEnd(pos, lines[0]), lines[1..])
  }

  /** A struct body laid out as tokens gives back its line values in order,
      after the values so far. */
  lemma {:induction false} FieldLinesRoundTrip(ts: seq<Token>, pos: nat, lines: seq<Option<Field>>, acc: seq<Option<Field>>)
    requires FieldLinesLaidOut(ts, pos, lines)
    ensures FieldLinesEnd(pos, lines) < |ts|
    ensures ParseFields(ts, pos, acc) == Ok((acc + lines, FieldLinesEnd(pos, lines) + 1))
    decreases |lines|
  {
    hide *;
    if |lines| > 0 {
      var q := LineEnd(pos, lines[0]);
      FieldLinesFirst(ts, pos, lines);
      FieldLineRoundTrip(ts, pos, lines[0]);
      FieldsStep(ts, pos, acc, lines[0], q);
      FieldLinesRoundTrip(ts, q, lines[1..], acc + [lines[0]]);
      assert acc + [lines[0]] + lines[1..] == acc + lines;
    } else {
      FieldLinesClose(ts, pos, lines, acc);
      assert acc + lines == acc;
    }
  }

  /** The first line of a laid-out struct body and the rest of it. */
  lemma FieldLinesFirst(ts: seq<Token>, pos: nat, lines: seq<Option<Field>>)
    requires |lines| > 0 && FieldLinesLaidOut(ts, pos, lines)
    ensures if lines[0].None? then IsAt(ts, pos, NEWLINE) else FieldLaidOut(ts, pos, lines[0].value)
    ensures FieldLinesLaidOut(ts, LineEnd(pos, lines[0]), lines[1..])
    ensures FieldLinesEnd(pos, lines) == FieldLinesEnd(LineEnd(pos, lines[0]), lines[1..])
  {
    hide FieldLaidOut, LineEnd;
  }

  /** An empty struct body ends at its closing brace. */
  lemma FieldLinesClose(ts: seq<Token>, pos: nat, lines: seq<Option<Field>>, acc: seq<Option<Field>>)
    requires |lines| == 0 && FieldLinesLaidOut(ts, pos, lines)
    ensures FieldLinesEnd(pos, lines) == pos < |ts|
    ensures ParseFields(ts, pos, acc) == Ok((acc, pos + 1))
  {
  }

  /** `struct name { ... }` laid out as tokens is the struct of that name whose
      fields are the field lines in order, blank lines dropped. */
  lemma StructRoundTrip(ts: seq<Token>, pos: nat, name: string, lines: seq<Option<Field>>)
    requires IsAt(ts, pos, STRUCT) && TokenAt(ts, pos + 1, NAME, Text(name)) && IsAt(ts, pos + 2, Literal('{'))
    requires FieldLinesLaidOut(ts, pos + 3, lines)
    ensures ParseModuleItem(ts, pos) == Ok((Some(StructDecl(name, Present(lines))), FieldLinesEnd(pos + 3, lines) + 1))
  {
    hide *;
    NameToken(ts, pos + 1, name);
    FieldLinesRoundTrip(ts, pos + 3, lines, []);
    assert [] + lines == lines;
    StructDeclaration(ts, pos);
  }

  // ---------------------------------------------------------------------------
  // Enum members
  // ---------------------------------------------------------------------------

  /** The tokens from `pos` spell the enum body `lines` (a name, or None for a
      blank line), one token each, and the closing brace. */
  predicate EnumLinesLaidOut(ts: seq<Token>, pos: nat, lines: seq<Option<string>>)
    decreases |lines|
  {
    if |lines| == 0 then IsAt(ts, pos, Literal('}'))
    else
      (if lines[0].None? then IsAt(ts, pos, NEWLINE) else TokenAt(ts, pos, NAME, Text(lines[0].value)))
      && EnumLinesLaidOut(ts, pos + 1, lines[1..])
  }

  /** An enum body laid out as tokens gives back its names and blank lines in
      order, after the values so far. */
  lemma {:induction false} EnumLinesRoundTrip(ts: seq<Token>, pos: nat, lines: seq<Option<string>>, acc: seq<Option<string>>)
    requires EnumLinesLaidOut(ts, pos, lines)
    ensures pos + |lines| < |ts|
    ensures ParseEnumItems(ts, pos, acc) == Ok((acc + lines, pos + |lines| + 1))
    decreases |lines|
  {
    if |lines| > 0 {
      EnumLinesRoundTrip(ts, pos + 1, lines[1..], acc + [lines[0]]);
      assert acc + [lines[0]] + lines[1..] == acc + lines;
    } else {
      assert acc + lines == acc;
    }
  }

  /** A laid-out enum body starts at its closing brace exactly when it is empty. */
  lemma EnumLinesFirst(ts: seq<Token>, pos: nat, lines: seq<Option<string>>)
    requires EnumLinesLaidOut(ts, pos, lines)
    ensures IsAt(ts, pos, Literal('}')) <==> |lines| == 0
  {
  }

  /** `enum name { ... }` laid out as tokens is the enum of that name whose
      members are the names in order, blank lines dropped; with nothing between
      the braces it is the nameless empty enum. */
  lemma EnumRoundTrip(ts: seq<Token>, pos: nat, name: string, lines: seq<Option<string>>)
    requires IsAt(ts, pos, ENUM) && TokenAt(ts, pos + 1, NAME, Text(name)) && IsAt(ts, pos + 2, Literal('{'))
    requires EnumLinesLaidOut(ts, pos + 3, lines)
    ensures ParseModuleItem(ts, pos) ==
      Ok((Some(if |lines| == 0 then NamelessEnumDecl([]) else EnumDecl(name, Present(lines))), pos + |lines| + 4))
  {
    hide *;
    NameToken(ts, pos + 1, name);
    EnumLinesFirst(ts, pos + 3, lines);
    EnumLinesRoundTrip(ts, pos + 3, lines, []);
    assert [] + lines == lines;
    EnumDeclaration(ts, pos);
  }

  // ---------------------------------------------------------------------------
  // Return entries
  // ---------------------------------------------------------------------------

  /** The return entries of the types `tys`. */
  function RetTypes(tys: seq<TypeDecl>): (r: seq<RetItem>)
    ensures |r| == |tys| && forall i | 0 <= i < |r| :: r[i] == RetType(tys[i])
  {
    if |tys| == 0 then [] else [RetType(tys[0])] + RetTypes(tys[1..])
  }

  /** The position after the `,` type entries `tys` laid out from `pos`. */
  function TypeTailEnd(pos: nat, tys: seq<TypeDecl>): nat
    decreases |tys|
  {
    if |tys| == 0 then pos else TypeTailEnd(TypeEnd(pos + 1, tys[0]), tys[1..])
  }

  /** The tokens from `pos` spell `,` and a type for each of `tys`, and no
      further `,` follows. */
  predicate TypeTailLaidOut(ts: seq<Token>, pos: nat, tys: seq<TypeDecl>)
    decreases |tys|
  {
    if |tys| == 0 then !IsAt(ts, pos, Literal(','))
    else IsAt(ts, pos, Literal(',')) && TypeLaidOut(ts, pos + 1, tys[0]) && TypeTailLaidOut(ts, TypeEnd(pos + 1, tys[0]), tys[1..])
  }

  /** `fn_ret_list "," type_decl` appends the types in order. */
  lemma {:induction false} RetTailRoundTrip(ts: seq<Token>, pos: nat, acc: seq<RetItem>, tys: seq<TypeDecl>)
    requires pos <= |ts| && TypeTailLaidOut(ts, pos, tys)
    ensures TypeTailEnd(pos, tys) <= |ts|
    ensures ParseRetListTail(ts, acc, pos) == Ok((acc + RetTypes(tys), TypeTailEnd(pos, tys)))
    decreases |tys|
  {
    if |tys| > 0 {
      TypeRoundTrip(ts, pos + 1, tys[0]);
      RetTailRoundTrip(ts, TypeEnd(pos + 1, tys[0]), acc + [RetType(tys[0])], tys[1..]);
      assert acc + [RetType(tys[0])] + RetTypes(tys[1..]) == acc + RetTypes(tys);
    } else {
      assert acc + RetTypes(tys) == acc;
    }
  }

  /** `( name , type ... )` is the name followed by the types, in order. */
  lemma RetListRoundTrip(ts: seq<Token>, pos: nat, name: string, tys: seq<TypeDecl>)
    requires IsAt(ts, pos, Literal('(')) && TokenAt(ts, pos + 1, NAME, Text(name))
    requires TypeTailLaidOut(ts, pos + 2, tys) && IsAt(ts, TypeTailEnd(pos + 2, tys), Literal(')'))
    ensures ParseFnRet(ts, pos) == Ok(([RetName(name)] + RetTypes(tys), TypeTailEnd(pos + 2, tys) + 1))
  {
    hide *;
    NameToken(ts, pos + 1, name);
    RetTailRoundTrip(ts, pos + 2, [RetName(name)], tys);
    RetListStep(ts, pos, [RetName(name)] + RetTypes(tys), TypeTailEnd(pos + 2, tys));
  }

  /** `( name` and the tail, then `)`, for whatever the tail parses to. */
  lemma RetListStep(ts: seq<Token>, pos: nat, items: seq<RetItem>, q: nat)
    requires IsAt(ts, pos, Literal('(')) && IsAt(ts, pos + 1, NAME)
    requires ParseRetListTail(ts, [RetName(TextOf(ts[pos + 1]))], pos + 2) == Ok((items, q)) && IsAt(ts, q, Literal(')'))
    ensures ParseFnRet(ts, pos) == Ok((items, q + 1))
  {
    hide ParseRetListTail, ParseType;
  }

  /** A lone type is a one-entry return list holding that type. */
  lemma RetTypeRoundTrip(ts: seq<Token>, pos: nat, t: TypeDecl)
    requires TypeLaidOut(ts, pos, t)
    ensures ParseFnRet(ts, pos) == Ok(([RetType(t)], TypeEnd(pos, t)))
  {
    hide ParseType;
    TypeRoundTrip(ts, pos, t);
  }

  /** Neither `(` nor a type: the empty return list, nothing consumed. */
  lemma RetEmpty(ts: seq<Token>, pos: nat)
    requires pos <= |ts| && !IsAt(ts, pos, Literal('('))
    requires pos == |ts| || !StartsType(ts[pos].kind)
    ensures ParseFnRet(ts, pos) == Ok(([], pos))
  {
  }

  // ---------------------------------------------------------------------------
  // Parameters
  // ---------------------------------------------------------------------------

  /** The position of the type of later parameter `p` laid out from `pos`. */
  function ParamTypeAt(pos: nat, p: Param): nat {
    match p
    case FirstParam(_, _) => pos + 1
    case LaterParam(_, mutable, optional, _) => pos + 2 + (if mutable then 1 else 0) + (if optional then 1 else 0)
  }

  /** The tokens from `pos` spell `,` name [`mut`] [`?`] type for `p`. */
  predicate LaterParamLaidOut(ts: seq<Token>, pos: nat, p: Param) {
    p.LaterParam? && IsAt(ts, pos, Literal(',')) && TokenAt(ts, pos + 1, NAME, Text(p.name))
    && (p.mutable ==> IsAt(ts, pos + 2, MUT))
    && (p.optional ==> IsAt(ts, if p.mutable then pos + 3 else pos + 2, Literal('?')))
    && TypeLaidOut(ts, ParamTypeAt(pos, p), p.ty)
  }

  /** The position after the later parameters `ps` laid out from `pos`. */
  function ParamsEnd(pos: nat, ps: seq<Param>): nat
    decreases |ps|
  {
    if |ps| == 0 then pos else ParamsEnd(TypeEnd(ParamTypeAt(pos, ps[0]), ps[0].ty), ps[1..])
  }

  /** The tokens from `pos` spell each of the later parameters `ps`, and no
      further `,` follows. */
  predicate ParamsLaidOut(ts: seq<Token>, pos: nat, ps: seq<Param>)
    decreases |ps|
  {
    if |ps| == 0 then !IsAt(ts, pos, Literal(','))
    else LaterParamLaidOut(ts, pos, ps[0]) && ParamsLaidOut(ts, TypeEnd(ParamTypeAt(pos, ps[0]), ps[0].ty), ps[1..])
  }

  /** Laid-out later parameters are all of the later form. */
  lemma {:induction false} ParamsLater(ts: seq<Token>, pos: nat, ps: seq<Param>)
    requires ParamsLaidOut(ts, pos, ps)
    ensures forall i | 0 <= i < |ps| :: ps[i].LaterParam?
    decreases |ps|
  {
    if |ps| > 0 {
      ParamsLater(ts, TypeEnd(ParamTypeAt(pos, ps[0]), ps[0].ty), ps[1..]);
      assert forall i | 1 <= i < |ps| :: ps[i] == ps[1..][i - 1];
    }
  }

  /** The first of the laid-out later parameters and the rest of them. */
  lemma ParamsFirst(ts: seq<Token>, pos: nat, ps: seq<Param>)
    requires |ps| > 0 && ParamsLaidOut(ts, pos, ps)
    ensures LaterParamLaidOut(ts, pos, ps[0])
    ensures ParamsLaidOut(ts, TypeEnd(ParamTypeAt(pos, ps[0]), ps[0].ty), ps[1..])
    ensures ParamsEnd(pos, ps) == ParamsEnd(TypeEnd(ParamTypeAt(pos, ps[0]), ps[0].ty), ps[1..])
  {
    hide LaterParamLaidOut, TypeEnd, ParamTypeAt;
  }

  /** One later parameter: its name, whether `mut` and `?` were written, and
      its type. */
  lemma LaterParamRoundTrip(ts: seq<Token>, pos: nat, acc: seq<Param>, p: Param)
    requires LaterParamLaidOut(ts, pos, p)
    ensures TypeEnd(ParamTypeAt(pos, p), p.ty) <= |ts|
    ensures ParseFnArgsTail(ts, acc, pos) == ParseFnArgsTail(ts, acc + [p], TypeEnd(ParamTypeAt(pos, p), p.ty))
  {
    hide ParseType, TypeLaidOut, ParseFnArgsTail;
    TypeStart(ts, ParamTypeAt(pos, p), p.ty);
    TypeRoundTrip(ts, ParamTypeAt(pos, p), p.ty);
    LaterParamStep(ts, pos, acc, p.mutable, p.optional, p.ty, TypeEnd(ParamTypeAt(pos, p), p.ty));
  }

  /** `,` name, `maybe_mut`, `maybe_opt` and a type append one later parameter,
      for whatever the type parses to. */
  lemma LaterParamStep(ts: seq<Token>, pos: nat, acc: seq<Param>, mutable: bool, optional: bool, ty: TypeDecl, q: nat)
    requires IsAt(ts, pos, Literal(',')) && IsAt(ts, pos + 1, NAME) && mutable == IsAt(ts, pos + 2, MUT)
    requires optional == IsAt(ts, if mutable then pos + 3 else pos + 2, Literal('?'))
    requires ParseType(ts, pos + 2 + (if mutable then 1 else 0) + (if optional then 1 else 0)) == Ok((ty, q))
    ensures ParseFnArgsTail(ts, acc, pos) == ParseFnArgsTail(ts, acc + [LaterParam(TextOf(ts[pos + 1]), mutable, optional, ty)], q)
  {
    hide ParseType;
  }

  /** `fn_args "," NAME maybe_mut maybe_opt type_decl` appends the parameters in
      order. */
  lemma {:induction false} ArgsTailRoundTrip(ts: seq<Token>, pos: nat, acc: seq<Param>, ps: seq<Param>)
    requires pos <= |ts| && ParamsLaidOut(ts, pos, ps)
    ensures ParamsEnd(pos, ps) <= |ts|
    ensures ParseFnArgsTail(ts, acc, pos) == Ok((acc + ps, ParamsEnd(pos, ps)))
    decreases |ps|
  {
    hide *;
    if |ps| > 0 {
      var q := TypeEnd(ParamTypeAt(pos, ps[0]), ps[0].ty);
      ParamsFirst(ts, pos, ps);
      LaterParamRoundTrip(ts, pos, acc, ps[0]);
      ArgsTailRoundTrip(ts, q, acc + [ps[0]], ps[1..]);
      assert acc + [ps[0]] + ps[1..] == acc + ps;
    } else {
      ArgsTailEnd(ts, pos, acc, ps);
      assert acc + ps == acc;
    }
  }

  /** Without a further `,` the parameter tail adds nothing. */
  lemma ArgsTailEnd(ts: seq<Token>, pos: nat, acc: seq<Param>, ps: seq<Param>)
    requires pos <= |ts| && |ps| == 0 && ParamsLaidOut(ts, pos, ps)
    ensures ParamsEnd(pos, ps) == pos
    ensures ParseFnArgsTail(ts, acc, pos) == Ok((acc, pos))
  {
  }

  /** `NAME type_decl` and then the later parameters: the first parameter in
      its two-field form, followed by the later ones in order. */
  lemma ArgsRoundTrip(ts: seq<Token>, pos: nat, name: string, ty: TypeDecl, ps: seq<Param>)
    requires TokenAt(ts, pos, NAME, Text(name)) && TypeLaidOut(ts, pos + 1, ty)
    requires ParamsLaidOut(ts, TypeEnd(pos + 1, ty), ps)
    ensures forall i | 0 <= i < |ps| :: ps[i].LaterParam?
    ensures ParseFnArgs(ts, pos) == Ok(([FirstParam(name, ty)] + ps, ParamsEnd(TypeEnd(pos + 1, ty), ps)))
  {
    hide ParseFnArgsTail;
    TypeRoundTrip(ts, pos + 1, ty);
    ParamsLater(ts, TypeEnd(pos + 1, ty), ps);
    ArgsTailRoundTrip(ts, TypeEnd(pos + 1, ty), [FirstParam(name, ty)], ps);
  }

  /** Without a leading name, only later parameters follow (the empty rule and
      then `,` entries). */
  lemma LaterArgsRoundTrip(ts: seq<Token>, pos: nat, ps: seq<Param>)
    requires pos <= |ts| && !IsAt(ts, pos, NAME) && ParamsLaidOut(ts, pos, ps)
    ensures forall i | 0 <= i < |ps| :: ps[i].LaterParam?
    ensures ParseFnArgs(ts, pos) == Ok((ps, ParamsEnd(pos, ps)))
  {
    hide ParseFnArgsTail;
    ParamsLater(ts, pos, ps);
    ArgsTailRoundTrip(ts, pos, [], ps);
    assert [] + ps == ps;
  }

  // ---------------------------------------------------------------------------
  // Blocks and modules, one item after another
  // ---------------------------------------------------------------------------

  /** Statement `i` is parsed from `ps[i]` and ends at `ps[i + 1]`, and none of
      them starts at a closing brace. */
  predicate StmtChain(ts: seq<Token>, ps: seq<nat>, ss: seq<Option<Stmt>>) {
    |ps| == |ss| + 1 &&
    forall i | 0 <= i < |ss| :: ps[i] <= |ts| && !IsAt(ts, ps[i], Literal('}')) && ParseStmt(ts, ps[i]) == Ok((ss[i], ps[i + 1]))
  }

  /** The statement values up to the closing brace are the values of the
      statements parsed one after another, in order. */
  lemma {:induction false} StmtsChain(ts: seq<Token>, ps: seq<nat>, ss: seq<Option<Stmt>>, acc: seq<Option<Stmt>>)
    requires StmtChain(ts, ps, ss) && IsAt(ts, ps[|ss|], Literal('}'))
    ensures ps[0] < |ts|
    ensures ParseStmts(ts, ps[0], acc) == Ok((acc + ss, ps[|ss|] + 1))
    decreases |ss|
  {
    hide ParseStmt;
    if |ss| > 0 {
      assert StmtChain(ts, ps[1..], ss[1..]) by {
        forall i | 0 <= i < |ss| - 1
          ensures ps[1..][i] <= |ts| && !IsAt(ts, ps[1..][i], Literal('}'))
          ensures ParseStmt(ts, ps[1..][i]) == Ok((ss[1..][i], ps[1..][i + 1]))
        {
          assert ss[1..][i] == ss[i + 1];
        }
      }
      StmtsChain(ts, ps[1..], ss[1..], acc + [ss[0]]);
      assert acc + [ss[0]] + ss[1..] == acc + ss;
    } else {
      assert acc + ss == acc;
    }
  }

  /** A block is the values of its statements parsed one after another, in
      order, blank lines dropped. */
  lemma BlockChain(ts: seq<Token>, pos: nat, ps: seq<nat>, ss: seq<Option<Stmt>>)
    requires IsAt(ts, pos, Literal('{')) && StmtChain(ts, ps, ss) && ps[0] == pos + 1
    requires IsAt(ts, ps[|ss|], Literal('}'))
    ensures ParseStmtBlock(ts, pos) == Ok((Present(ss), ps[|ss|] + 1))
  {
    hide ParseStmts, ParseStmt;
    StmtsChain(ts, ps, ss, []);
    assert [] + ss == ss;
    BlockIsPresent(ts, pos);
  }

  /** Module item `i` is parsed from `ps[i]` and ends at `ps[i + 1]`. */
  predicate ItemChain(ts: seq<Token>, ps: seq<nat>, items: seq<Option<ModuleItem>>) {
    |ps| == |items| + 1 &&
    forall i | 0 <= i < |items| :: ps[i] <= |ts| && ParseModuleItem(ts, ps[i]) == Ok((items[i], ps[i + 1]))
  }

  /** The module item values to the end of the tokens are the values of the
      items parsed one after another, in order. */
  lemma {:induction false} ModuleItemsChain(ts: seq<Token>, ps: seq<nat>, items: seq<Option<ModuleItem>>, acc: seq<Option<ModuleItem>>)
    requires ItemChain(ts, ps, items) && ps[|items|] == |ts| && ps[0] <= |ts|
    ensures ParseModuleItems(ts, ps[0], acc) == Ok(acc + items)
    decreases |items|
  {
    hide ParseModuleItem;
    if |items| > 0 {
      assert ItemChain(ts, ps[1..], items[1..]) by {
        forall i | 0 <= i < |items| - 1
          ensures ps[1..][i] <= |ts|
          ensures ParseModuleItem(ts, ps[1..][i]) == Ok((items[1..][i], ps[1..][i + 1]))
        {
          assert items[1..][i] == items[i + 1];
        }
      }
      assert ps[1] <= |ts|;
      ModuleItemsChain(ts, ps[1..], items[1..], acc + [items[0]]);
      assert acc + [items[0]] + items[1..] == acc + items;
    } else {
      assert acc + items == acc;
    }
  }

  /** A non-empty token list whose module items parse one after another to
      its end is the module of those items, in order, blank lines dropped. */
  lemma ModuleChain(ts: seq<Token>, ps: seq<nat>, items: seq<Option<ModuleItem>>)
    requires |ts| > 0 && ItemChain(ts, ps, items) && ps[0] == 0 && ps[|items|] == |ts|
    ensures Parse(ts) == Ok(Present(items))
  {
    hide ParseModuleItems, ParseModuleItem;
    ModuleItemsChain(ts, ps, items, []);
    assert [] + items == items;
    ModuleIsPresent(ts);
  }
}
