# Vork front end in Dafny

This project models the front end of Vork, a small compiler for a V-like
language, and proves properties of the model. The model has four parts:

- **Tokenizer** (`VLexer` in `main.py`). The keyword, operator and action
  rules are tried in class-body order. The first rule that matches wins,
  and a literal character is the fallback. The actions convert numbers, drop
  string quotes, drop comments and count line feeds.
  - `Lexer` holds the rule table, the master pattern (`FirstMatch`), one turn
    of the tokenizer (`StepAt`) and the token stream (`Lex`).
  - `Lexer.VLexer` is the tokenizer object. Its fields are the line counter
    and the position. `Tokenize` is a loop over `Advance`, proved to return
    exactly `Lex(text)`.
  - `LexerProps`, `LexerWords` and `LexerStream` prove what each rule produces
    and what holds of the whole stream.
- **Grammar actions** (`VParser` in `main.py`). `Grammar` models the actions
  as pure functions: the blank-tolerant list rules, the operator
  dictionaries, the compound-assignment desugaring and the precedence table.
- **Parser.** `Parser` has one function per nonterminal, built from those
  actions, and parses binary and postfix operators by precedence climbing
  over the table. `ParserProps`, `ParserItems`, `ParserStmts` and
  `ParserDecls` prove:
  - a type declaration, or an expression written out fully parenthesised as
    tokens, parses back to the same tree;
  - two binary operators group by the precedence table, and binary operators
    of the same level associate to the left;
  - each statement rule, and each function, struct, enum, module and import
    rule, builds the tuple its action builds from its parts;
  - struct fields, enum members, parameters and return entries written out
    as tokens parse back to the values their rules build, in order;
  - a block or a module is the values of its statements or items parsed one
    after another, in order, with the blank lines dropped.
- **Type resolution** (`vexpr.py`). `VExpr` resolves the types of integer,
  boolean and identifier literals and of binary expressions against the
  `POSSIBLE_TYPES` table. `VTypes` holds the types the resolver uses.

Some behaviour of the code differs from the language's documentation. The
model follows the code in each case, and the lemmas named below prove each
difference:

- **Rule order decides, not match length.**
  - `<<` and `>>` come before `<<=` and `>>=`, so the two compound shift
    assignments are never produced. `<<=` fails at its `=`
    (`ShiftAssignNeverMatched`, `ShiftAssignFails`).
  - A keyword rule also takes the character after the keyword, even a line
    feed, so `break` followed by a line break is one BREAK token
    (`BreakTakesNewline`).
- **`!=` does not lex.** The NOT_EQUALS pattern is the plain string `r!=`,
  so `!=` fails at the `!` (`BangFails`). The token `r!=` does lex, but its
  text is not a key of the operator dictionary, so the comparison's action
  fails (`NotEqualsFails`).
- **Double-quoted strings mostly fail.** The double-quote alternative of the
  STRING pattern is compiled without the verbose flag, so its blanks are
  literal spaces. An ordinary double-quoted string does not lex
  (`DoubleQuotedWordFails`); a single-quoted one does (`StringRoundTrip`).
- **The CHAR action fails.** It slices the token object itself, which fails
  at run time. The model reports this as `CharActionFailure`.
- **`enum name {}` loses its name.** It builds `('enum_decl', [])`, modelled
  as `NamelessEnumDecl`.
- **Integer literal widths.** The `bits < 32` branch returns VI16, the
  same type as the `bits < 16` branch, so every literal below 2^31 gets VI8
  or VI16. Literals of 128 bits or more get no type at all.

## Model

Lemmas that unfold one step of a parsing function, or that list the tokens
of one tree form, are proof steps toward the lemmas below and have no row.

| member | source | states |
|---|---|---|
| Lexer.Keywords | main.py:27-50 | The keyword rules come first, 24 of them, in class-body order |
| Lexer.Operators | main.py:52-71 | The operator rules follow, 19 of them, in class-body order |
| Lexer.Rules | main.py:27-98 | The rule table is the keyword rules, then the operator rules, then the six rules with actions: 49 rules in all |
| Lexer.FirstMatch | main.py:27-98 | The master pattern's match lies in the input; a STRING match spans at least the two quotes; a NUMBER match is all digits |
| Lexer.StepAt | main.py:22-98 | One turn: an ignored character is skipped; an emitted token carries its start position and the current line, and its kind is a literal or the kind of the rule that matched; a step that does not fail advances |
| Lexer.RuleStep | main.py:73-98 | A rule's action emits a token of the rule's kind at the match start, or drops the match, and continues after the match |
| Lexer.LexFrom | main.py:5-98 | A successful run from a position yields no more tokens than there are characters left, since every token takes at least one |
| Lexer.Lex | main.py:5-98 | A text yields no more tokens than it has characters |
| Lexer.VLexer.constructor | main.py:5-22 | A new tokenizer starts at line 1, position 0 |
| Lexer.VLexer.NewlineAction | main.py:95-98 | The NEWLINE action returns the token unchanged and advances the line counter by the line feeds of its text |
| Lexer.VLexer.RunAction | main.py:73-98 | Running the matched rule's action updates the position and line counter exactly as RuleStep says, and returns its token or error |
| Lexer.VLexer.Advance | main.py:22-98 | One turn of the tokenizer loop changes the object's state exactly as StepAt says |
| Lexer.VLexer.Tokenize | main.py:5-98 | The tokenizer loop returns exactly the stream Lex defines, or its first error; after a successful run the position is the end of the text and the line counter is the one the rule actions leave (`LineAfter`) |
| LexerProps.FirstMatchIndex | main.py:27-98 | The rule the master pattern picks is a rule that matches, and no rule before it in the class body matches |
| LexerProps.FirstMatchAtMost | main.py:27-98 | If a rule matches, the master pattern picks that rule or an earlier one |
| LexerProps.FirstMatchInTable | main.py:27-98 | The picked rule is a rule of the table, and its pattern matches where the master pattern says |
| LexerProps.KeywordShape | main.py:27-50 | The first 24 rules are the keywords, each a word of two or more letters |
| LexerProps.OperatorShape | main.py:52-71 | Rules 24-42 are the operators, each of two or more characters, and NOT_EQUALS is the text `r!=` |
| LexerProps.ActionsAt | main.py:73-98 | The last six rules are NAME, STRING, CHAR, NUMBER, COMMENT and NEWLINE, in that order |
| LexerProps.RuleIndexByKind | main.py:27-98 | Only one rule produces each of NOT_EQUALS, the two compound shift assignments and NEWLINE, and each sits at one position |
| LexerProps.PrefixOperatorMatches | main.py:52-71 | Where an operator matches, every operator whose text is a prefix of it matches too |
| LexerProps.ShiftAssignNeverMatched | main.py:52-53 | The master pattern never picks `<<=` or `>>=`, because `<<` and `>>` come first |
| LexerProps.NoWordOrOperator | main.py:27-71 | At a character that starts no word and no operator, no keyword or operator rule matches |
| LexerProps.ActionsOnly | main.py:27-98 | At such a character, the master pattern goes straight to the rules with actions |
| LexerProps.NoRuleAt | main.py:27-98 | Outside words, operators, quotes, digits, line breaks and `//`, no rule matches |
| LexerProps.LiteralStep | main.py:24 | Where no rule matches, a literal character is a token of its own and anything else is an illegal character at its line and position |
| LexerProps.OperatorsFirst | main.py:27-50 | Outside words, the keyword rules are passed over |
| LexerProps.NumberMatch | main.py:86 | At a digit the NUMBER rule matches the whole digit run |
| LexerProps.NumberAction | main.py:87-89 | The NUMBER action's value is the decimal value of the digits |
| LexerProps.NumberStep | main.py:86-89 | At a digit the tokenizer emits one NUMBER token for the whole digit run, holding its value |
| LexerProps.DecimalRoundTrip | main.py:88 | Reading back the decimal digits of n gives n |
| LexerProps.NumberRoundTrip | main.py:86-89 | The digits of any number lex to exactly one NUMBER token holding that number |
| LexerProps.NewlineMatch | main.py:95 | At a line break only the NEWLINE rule matches, and it takes the whole run of line breaks |
| LexerProps.NewlineAction | main.py:96-98 | The NEWLINE action emits the run and advances the line counter by its line feeds |
| LexerProps.NewlineStep | main.py:95-98 | A maximal run of line breaks is one NEWLINE token, and the line counter grows by its line feeds |
| LexerProps.CommentMatch | main.py:91 | At `//` the COMMENT rule matches up to the next line feed |
| LexerProps.CommentAction | main.py:92-93 | The COMMENT action produces no token |
| LexerProps.CommentExtent | main.py:91 | A comment contains no line feed and stops at the next one, which is left for NEWLINE |
| LexerProps.CommentStep | main.py:91-93 | A comment is skipped without a token |
| LexerProps.BlankStep | main.py:22 | Spaces and tabs produce no token and leave the rest of the stream unchanged |
| LexerProps.QuoteMatch | main.py:75 | At a quote only the STRING rule can match |
| LexerProps.StringAction | main.py:76-80 | The STRING action's value is the matched text without its first and last character |
| LexerProps.SingleQuotedMatch | main.py:75 | At a single quote the STRING rule matches exactly when the quoted text is closed |
| LexerProps.SingleQuotedStep | main.py:75-80 | A closed single-quoted string is one STRING token holding the text between the quotes; an unclosed one is an illegal character |
| LexerProps.DoubleQuotedMatch | main.py:75 | At a double quote the STRING rule matches exactly where the pattern, read without the verbose flag, does |
| LexerProps.DoubleQuotedStep | main.py:75-80 | A double quote starts a STRING token exactly where that pattern matches, and is an illegal character otherwise |
| LexerProps.StringRoundTrip | main.py:75-80 | Any single-quoted body, escapes included, lexes to one STRING token holding the body unchanged |
| LexerProps.DoubleQuotedWordFails | main.py:75 | `"ab"` does not lex: the double quote is an illegal character |
| LexerProps.DoubleQuotedWithSpaces | main.py:75-80 | `"a  "` lexes to a STRING token holding `a  ` |
| LexerStream.ActionRuleAt | main.py:73-98 | Only the last six rules have patterns, and the NEWLINE pattern belongs to the NEWLINE rule |
| LexerStream.EmittedByRule | main.py:27-98 | A token that is not a literal comes from the rule the master pattern picked |
| LexerStream.EmittedKind | main.py:52-71 | No emitted token is a compound shift assignment, and a NOT_EQUALS token holds the text `r!=` |
| LexerStream.RuleStepLine | main.py:73-98 | The action of any rule but NEWLINE leaves the line counter unchanged |
| LexerStream.LiteralLine | main.py:24 | A literal token leaves the line counter unchanged |
| LexerStream.EmittedLine | main.py:95-98 | After a step, the line counter has grown by the line feeds of a NEWLINE token, and by nothing for any other token |
| LexerStream.TokensInOrder | main.py:5-98 | Tokens come in input order: their positions strictly increase and lie in the input |
| LexerStream.TokenKinds | main.py:52-71 | No token of a stream is a compound shift assignment, and every NOT_EQUALS token holds `r!=` |
| LexerStream.TokenLines | main.py:95-98 | Each token's line is the starting line plus the line feeds of the NEWLINE tokens before it |
| LexerStream.FinalLine | main.py:95-98 | The line counter after a successful run is the starting line plus the line feeds of the NEWLINE tokens produced |
| LexerStream.LexProperties | main.py:5-98 | For a whole text lexed from line 1: tokens are in order and in the input, there are no compound shift tokens, NOT_EQUALS holds `r!=`, each line number counts the line feeds before the token, and the final line counter counts all of them |
| LexerWords.KeywordIsWord | main.py:27-50 | A keyword matched at a position is the whole word there |
| LexerWords.WordIsKeyword | main.py:27-50 | A word followed by another character is matched by the keyword it spells |
| LexerWords.KeywordRunMatch | main.py:27-50 | A keyword rule matches at a word start exactly when the whole word is that keyword and a character follows it |
| LexerWords.ShortWordIsNoKeyword | main.py:27-50 | No word shorter than two letters is a keyword |
| LexerWords.KeywordScan | main.py:27-50 | Over the keyword rules, the master pattern finds the keyword the word spells, if any |
| LexerWords.OperatorScan | main.py:52-73 | After the keywords, a word start can only meet NOT_EQUALS (`r!=`) or NAME |
| LexerWords.WordMatch | main.py:27-73 | At a word start, the master pattern picks the keyword the word spells when a character follows it, and NAME otherwise, unless the word starts `r!=` |
| LexerWords.PlainAction | main.py:27-71 | A keyword or operator token holds its matched text unchanged |
| LexerWords.NameAction | main.py:73 | A NAME token holds its matched text unchanged |
| LexerWords.KeywordStep | main.py:27-50 | A word that spells a keyword, with a character after it, is that keyword's token, holding the word and that character |
| LexerWords.NotEqualsStep | main.py:55 | `r!=` is one NOT_EQUALS token |
| LexerWords.NameStep | main.py:73 | Any other word is one NAME token holding the word |
| LexerExamples.GotoIsNotGo | main.py:35-36 | `goto` is GOTO and `go` is GO, although GO comes first |
| LexerExamples.BreakTakesNewline | main.py:27 | `break` followed by a line feed is one BREAK token holding both characters |
| LexerExamples.LongerWordIsName | main.py:34 | `format` is a NAME, not FOR |
| LexerExamples.BangFails | main.py:55 | `!=` does not lex: `!` is an illegal character |
| LexerExamples.ShiftAssignFails | main.py:52 | `<<=` lexes `<<` and then fails at `=` |
| Grammar.ListStart | main.py:144-148 | The start rule of a list gives the empty list for a blank item and the one-item list of its value otherwise |
| Grammar.ListAppend | main.py:138-142 | The append rule of a list keeps the list so far and appends the new item unless it is blank |
| Grammar.ItemList | main.py:138-148 | A list built by the start and append rules has no more entries than items |
| Grammar.ComStmt | main.py:308-316 | A braced statement group has no more statements than statement lines |
| Grammar.PresentSnoc | main.py:138-148 | Appending an item value appends its item, if there is one |
| Grammar.PresentConcat | main.py:138-148 | The present items of two joined lists are the present items of each, joined |
| Grammar.ItemListIsPresent | main.py:138-148 | A list built by the start and append rules holds the items in source order with exactly the blank ones dropped |
| Grammar.ComStmtIsPresent | main.py:308-316 | The same holds for the statements of a braced group |
| Grammar.PresentMembers | main.py:138-148 | A value is in the list exactly when some item holds it |
| Grammar.BlankItemDropped | main.py:150-152 | Blank lines anywhere among the items leave the list unchanged |
| Grammar.ExprName | main.py:503-522 | An operator text the dictionary names is the reverse lookup of that name |
| Grammar.ExprNameInverse | main.py:503-522 | The operator dictionary is one-to-one: a name is an operator text's entry exactly when that text is the name's reverse lookup |
| Grammar.NotEqualsTextUnknown | main.py:503-523 | `r!=` is not a key of the operator dictionary, while `!=` is |
| Grammar.CompoundName | main.py:408-419 | Every key of the compound dictionary ends in `=` after at least one operator character |
| Grammar.CompoundMatchesBinary | main.py:408-419 | Every compound operator is a binary operator followed by `=`, with the binary operator's node name |
| Grammar.BinaryAction | main.py:484-523 | The binary action succeeds exactly for a dictionary key, building the node named by its entry from the two operands, and otherwise fails with that key |
| Grammar.CompoundAssign | main.py:396-430 | The compound action succeeds exactly for a key of the compound dictionary, and otherwise fails with a key error on the operator's text |
| Grammar.CompoundRoundTrip | main.py:396-430 | Desugaring succeeds exactly for a compound operator, and the left side, the node name and the right side are recovered from the two statements |
| Grammar.ResugarInverse | main.py:396-430 | Every statement Resugar accepts is the desugaring of what it returns |
| Grammar.Precedence | main.py:104-129 | The precedence table has eleven levels |
| Grammar.Level | main.py:104-129 | No token's level is above the eleventh, the postfix level |
| Grammar.LevelIsTableRow | main.py:104-129 | A token's level is one more than the index of its row in the precedence table; a token with a level is in that row, and a token in a row has that row's level |
| Grammar.BinaryLevels | main.py:104-125 | Every binary operator is on one of the ten binary levels, below the postfix level |
| Parser.Expect | main.py:138-613 | Expecting a token kind succeeds exactly when the next token has that kind, and moves past it |
| Parser.ExpectName | main.py:158-277 | Expecting a name succeeds exactly when the next token is a NAME, and gives its text |
| Parser.ParseType | main.py:582-596 | A type declaration takes at least one token and stays in the list |
| Parser.ParsePrimary | main.py:554-576 | An operand takes at least one token and stays in the list |
| Parser.ParseExpr | main.py:484-576 | An expression takes at least one token and stays in the list |
| Parser.ParseClimb | main.py:484-543 | Extending an operand by operators stays in the list |
| Parser.Reduce | main.py:484-543 | An infix action builds a member access, a membership test, or a binary node of the two operands whose name is the operator text's dictionary entry; otherwise it fails with a key error on the operator's text |
| Parser.ParseExprList | main.py:468-478 | An expression list stays in the list |
| Parser.ParseExprListTail | main.py:468-470 | The comma-separated later entries stay in the list |
| Parser.ParseStmt | main.py:318-457 | A statement takes at least one token and stays in the list |
| Parser.ParseIf | main.py:366-372 | A conditional takes at least one token after `if` and stays in the list |
| Parser.ParseFor | main.py:380-390 | A loop takes at least one token after `for` and stays in the list |
| Parser.ParseForIn | main.py:384-390 | The rest of a loop after its names takes at least one token and stays in the list |
| Parser.ParseExprStmt | main.py:358-360 | The rest of an expression statement takes at least one token and stays in the list |
| Parser.ParseStmts | main.py:296-320 | The statements up to a closing brace take at least one token and stay in the list |
| Parser.ParseStmtBlock | main.py:288-294 | A block takes at least one token and stays in the list |
| Parser.ParseFnArgs | main.py:162-174 | A parameter list stays in the list |
| Parser.ParseFnArgsTail | main.py:168-170 | The comma-separated later parameters stay in the list |
| Parser.ParseFnRet | main.py:176-194 | A return list stays in the list |
| Parser.ParseRetListTail | main.py:188-190 | The comma-separated later return entries stay in the list |
| Parser.ParseField | main.py:224-234 | A struct field line takes at least one token and stays in the list |
| Parser.ParseFields | main.py:204-234 | The struct fields up to the closing brace take at least one token and stay in the list |
| Parser.ParseEnumItems | main.py:240-266 | The enum items up to the closing brace take at least one token and stay in the list |
| Parser.ParseFnDecl | main.py:158-160 | The rest of a function declaration after `fn` takes at least one token and stays in the list |
| Parser.ParseModuleItem | main.py:150-277 | A module item takes at least one token and stays in the list |
| Parser.ParseModuleItems | main.py:138-152 | The module item values extend the items so far, by at most one per remaining token |
| Parser.Parse | main.py:138-152 | An empty token list is a syntax error, and a module has no more items than tokens |
| ParserProps.TypeRoundTrip | main.py:582-596 | Every type declaration written out as tokens parses back to the same declaration, ending where its tokens end |
| ParserProps.ArrayTypeRoundTrip | main.py:586-588 | An array type parses back from its tokens |
| ParserProps.RefTypeRoundTrip | main.py:590-592 | A reference type parses back from its tokens |
| ParserProps.MapTypeRoundTrip | main.py:594-596 | A map type parses back from its tokens |
| ParserProps.ParenStep | main.py:554-556 | A parenthesised expression's value is the inner expression's |
| ParserProps.ArrStep | main.py:558-560 | `[` list `]` is an array literal |
| ParserProps.ClimbInfix | main.py:484-543 | An infix operator of the current level or above reduces the tree so far with the operand after it, which takes only higher levels |
| ParserProps.ClimbIndex | main.py:529-531 | `[` expression `]` after an operand is an index access |
| ParserProps.ClimbCall | main.py:533-535 | `(` list `)` after an operand is a call |
| ParserProps.ReduceOperator | main.py:484-523 | A binary operator token reduces to the node named after its text, and has a binary level |
| ParserProps.InfixClimb | main.py:484-543 | An operand, one infix operator and its operand, followed by the end of an expression, parse to the reduced node |
| ParserProps.BinaryForm | main.py:484-523 | `( l op r )` parses to the binary node named after the operator's text |
| ParserProps.MemberForm | main.py:537-539 | `( t . m )` parses to a member access |
| ParserProps.InForm | main.py:541-543 | `( a in b )` parses to a membership test |
| ParserProps.IndexForm | main.py:529-531 | `( t [ i ] )` parses to an index access |
| ParserProps.CallForm | main.py:533-535 | `( f ( args ) )` parses to a call |
| ParserProps.PrimaryRoundTrip | main.py:554-576 | Any expression written out as tokens parses back as an operand to the same tree, whatever follows it |
| ParserProps.AtomRoundTrip | main.py:562-576 | A name, number, string or character is its one token |
| ParserProps.ArrRoundTrip | main.py:558-560 | An array literal parses back from its tokens |
| ParserProps.BinaryRoundTrip | main.py:484-523 | A binary node parses back from its tokens |
| ParserProps.MemberRoundTrip | main.py:537-539 | A member access parses back from its tokens |
| ParserProps.InRoundTrip | main.py:541-543 | A membership test parses back from its tokens |
| ParserProps.IndexRoundTrip | main.py:529-531 | An index access parses back from its tokens |
| ParserProps.CallRoundTrip | main.py:533-535 | A call parses back from its tokens |
| ParserProps.ExprRoundTrip | main.py:484-576 | An expression written out as tokens and followed by a token below the current level parses back to the same tree |
| ParserProps.ListRoundTrip | main.py:468-478 | A comma-separated list followed by a closing bracket parses back to the same expressions |
| ParserProps.RestRoundTrip | main.py:468-470 | The comma-separated later entries are appended, in order, to the entries so far |
| ParserProps.LeftGrouping | main.py:104-129 | When op1's level is at least op2's, `a op1 b op2 c` groups as `(a op1 b) op2 c`; operators of one level associate to the left |
| ParserProps.RightGrouping | main.py:104-129 | When op2's level is higher, `a op1 b op2 c` groups as `a op1 (b op2 c)` |
| ParserProps.Grouping | main.py:104-129 | `a op1 b op2 c` groups as `(a op1 b) op2 c` exactly when op1's level is at least op2's, and as `a op1 (b op2 c)` otherwise |
| ParserProps.NotEqualsToken | main.py:55 | The NOT_EQUALS token is an infix operator whose action fails on its text |
| ParserProps.NotEqualsFails | main.py:486 | `a r!= b` fails at the operator with a key error on `r!=` |
| ParserItems.CompoundStatement | main.py:396-430 | `lhs op= rhs` and a line break parse to the two desugared statements exactly when the operator is in the compound dictionary, and fail with a key error otherwise |
| ParserItems.BlockIsPresent | main.py:288-306 | A block holds the statements between its braces in order, with the blank lines dropped; an empty block is the empty list |
| ParserItems.GroupIsPresent | main.py:308-320 | A braced statement group is one statement holding the group's statements in order, with the blank lines dropped |
| ParserItems.EnumItemsExtend | main.py:248-266 | The enum items extend the items so far, and add nothing exactly when the closing brace comes first |
| ParserItems.EnumDeclaration | main.py:240-266 | `enum name { ... }` keeps its name and holds the enum item values between the braces in order, blank lines dropped; an empty body gives the declaration without its name |
| ParserItems.StructDeclaration | main.py:204-234 | `struct name { ... }` keeps its name and holds the struct item values between the braces in order, blank lines dropped |
| ParserItems.BareNameField | main.py:228-230 | A name alone on a field line is an unnamed field of that base type |
| ParserItems.ArgsTailLater | main.py:168-170 | The comma-separated parameters extend the parameters so far with later-form parameters only |
| ParserItems.ArgsShape | main.py:162-174 | A parameter has the two-field first form exactly when it is the first one and the list starts with a name |
| ParserItems.RetTailTypes | main.py:188-190 | The comma-separated return entries extend the entries so far with types only |
| ParserItems.RetShape | main.py:176-194 | A return entry is a bare name exactly when it is the first entry of a parenthesised list; without parentheses there is at most one entry |
| ParserItems.ModuleItemsExtend | main.py:138-152 | The module items extend the items so far, and add nothing exactly at the end of the tokens |
| ParserItems.ModuleIsPresent | main.py:138-152 | A module is its items in order with the blank lines dropped; an empty token list is a syntax error |
| ParserStmts.BlankStatement | main.py:456-458 | A blank line is the blank statement |
| ParserStmts.ReturnStatement | main.py:326-328 | `return`, a list and a line break are a return of the listed values |
| ParserStmts.MutDeclaration | main.py:346-348 | `mut name := value` and a line break declare a mutable variable of that name and value |
| ParserStmts.VarDeclaration | main.py:350-352 | `name := value` and a line break declare an immutable variable of that name and value |
| ParserStmts.IfStatement | main.py:366-368 | `if`, a condition, a block and a line break are a conditional without `else` |
| ParserStmts.IfElseStatement | main.py:370-372 | `if`, a condition, a block, `else`, a block and a line break are a conditional with both branches |
| ParserStmts.ForEverStatement | main.py:380-382 | `for`, a block and a line break are a loop without a condition |
| ParserStmts.ForEachStatement | main.py:384-386 | `for name in` a collection, a block and a line break loop over the values under that name |
| ParserStmts.ForEachKeyStatement | main.py:388-390 | `for key , name in` a collection, a block and a line break loop over keys and values under those names |
| ParserStmts.DeferStatement | main.py:436-438 | `defer`, an expression and a line break defer that expression |
| ParserStmts.AssertStatement | main.py:448-450 | `assert`, an expression and a line break assert that expression |
| ParserStmts.BreakStatement | main.py:440-442 | `break` and a line break are a break |
| ParserStmts.ContinueStatement | main.py:444-446 | `continue` and a line break are a continue |
| ParserStmts.ExprStatement | main.py:358-360 | An expression and a line break are an expression statement |
| ParserStmts.AssignStatement | main.py:452-454 | An expression, `=`, an expression and a line break assign the right side to the left |
| ParserStmts.BlankModuleItem | main.py:150-152 | A blank line is the blank module item |
| ParserStmts.FnDeclaration | main.py:158-160 | `fn name ( params ) rets block` declares a function of that name, parameters, return entries and body |
| ParserStmts.ModuleDeclaration | main.py:272-274 | `module name` declares the module |
| ParserStmts.ImportDeclaration | main.py:276-278 | `import name` imports the module |
| ParserDecls.FieldRoundTrip | main.py:224-230 | A field line written out as tokens parses back to that field: a name and a type give the named field, a type alone gives the field with the empty name |
| ParserDecls.NamedFieldStep | main.py:224-226 | A name, a type and a line break give the field of that name and type |
| ParserDecls.UnnamedFieldStep | main.py:228-230 | A type that is not a name followed by a type, then a line break, gives the field with the empty name and that type |
| ParserDecls.FieldLinesRoundTrip | main.py:212-234 | A struct body of field lines and blank lines parses back to its line values in order, up to the closing brace |
| ParserDecls.StructRoundTrip | main.py:204-234 | `struct name { ... }` written out as tokens is the struct of that name whose fields are the field lines in order, blank lines dropped |
| ParserDecls.EnumLinesRoundTrip | main.py:248-266 | An enum body of names and blank lines parses back to each name and a blank for each blank line, in order |
| ParserDecls.EnumRoundTrip | main.py:240-266 | `enum name { ... }` written out as tokens is the enum of that name whose members are the names in order, blank lines dropped; nothing between the braces gives the nameless empty enum |
| ParserDecls.RetTailRoundTrip | main.py:188-190 | Each `, type` entry appends that type to the return list, in order |
| ParserDecls.RetListRoundTrip | main.py:184-194 | `( name , type ... )` is the bare name followed by the types, in order |
| ParserDecls.RetTypeRoundTrip | main.py:176-178 | A lone type is the one-entry return list of that type |
| ParserDecls.RetEmpty | main.py:180-182 | Neither `(` nor the start of a type gives the empty return list and consumes nothing |
| ParserDecls.LaterParamStep | main.py:168-170 | `,` name [`mut`] [`?`] type appends the parameter of that name and type, mutable exactly when `mut` is written and optional exactly when `?` is, as `maybe_mut` and `maybe_opt` decide |
| ParserDecls.LaterParamRoundTrip | main.py:168-170 | A later parameter written out as tokens is appended as that parameter |
| ParserDecls.ArgsTailRoundTrip | main.py:168-170 | Later parameters written out as tokens are appended in order |
| ParserDecls.ArgsRoundTrip | main.py:168-174 | `name type` and later parameters give the first parameter followed by the later ones, in order |
| ParserDecls.LaterArgsRoundTrip | main.py:162-170 | Without a leading name, the empty rule and the later parameters give the later ones, in order |
| ParserDecls.StmtsChain | main.py:296-320 | The statement values up to the closing brace are those of the statements parsed one after another, in order |
| ParserDecls.BlockChain | main.py:288-306 | A block is its statements parsed one after another, in order, blank lines dropped |
| ParserDecls.ModuleItemsChain | main.py:138-152 | The module item values to the end of the tokens are those of the items parsed one after another, in order |
| ParserDecls.ModuleChain | main.py:138-152 | A non-empty token list whose items parse one after another to its end is the module of those items, in order, blank lines dropped |
| VExpr.BinaryDigitCount | vexpr.py:24 | Every binary rendering has at least one digit after its two-character prefix |
| VExpr.DigitCountRange | vexpr.py:24 | The count is at most k exactly when the number lies strictly between -2^(k-1) and 2^k |
| VExpr.LiteralType | vexpr.py:24-34 | A literal has a type exactly when its binary rendering has fewer than 128 digits, and that type is a signed integer type |
| VExpr.LiteralRange | vexpr.py:24-34 | A literal has a type exactly when it lies strictly between -2^126 and 2^127 |
| VExpr.BitLengthBound | vexpr.py:24 | A number has at most k binary digits exactly when it is below 2^k |
| VExpr.LiteralTypeBands | vexpr.py:24-34 | For a non-negative literal: below 2^7 is VI8, up to 2^31 is VI16, up to 2^63 is VInt, up to 2^127 is VI128, and anything larger has no type |
| VExpr.LiteralTypeMonotone | vexpr.py:24-34 | The inferred width never shrinks as a literal grows |
| VExpr.LiteralTypeExamples | vexpr.py:24-30 | 5 is VI8, and 1000 and 100000 are both VI16 |
| VExpr.SixteenBitBranchShadowsThirtyTwo | vexpr.py:28-30 | The `bits < 32` branch returns VI16, the same type as the `bits < 16` branch, so every literal below 2^31 gets VI8 or VI16 |
| VExpr.IdentifierLookup | vexpr.py:61-63 | A name is found exactly when the scope or the module binds it |
| VExpr.IdentifierLookupIsChainLookup | vexpr.py:61-63 | The scope-then-module lookup is the first-match lookup along the chain [scope, module] |
| VExpr.ChainLookupFirstMatch | vexpr.py:61-63 | The chain lookup finds the binding in the first namespace that binds the name |
| VExpr.ChainLookupMissing | vexpr.py:61-64 | The chain lookup fails exactly when no namespace binds the name |
| VExpr.Applicable | vexpr.py:122-140 | An operand type the table accepts is present and is an integer type or the boolean type |
| VExpr.ResolveType | vexpr.py:24-142 | An integer literal resolves to its inferred width, a boolean literal to the boolean type, an identifier exactly when the scope or module binds it; a binary expression that resolves has a table operator and an integer or boolean type |
| VExpr.IdentifierResolution | vexpr.py:60-71 | An identifier resolves to the type of its scope binding, else its module binding, else fails naming the identifier |
| VExpr.OperandMismatchFirst | vexpr.py:114-120 | Operand types that differ fail with both types before the operator is looked up |
| VExpr.IntPlusBoolFails | vexpr.py:114-120 | `1 + true` fails on the unequal operand types VI8 and VBool before the operator is looked up |
| VExpr.ArithmeticRule | vexpr.py:79-94 | The arithmetic, bitwise and shift operators accept the integer family, with no override |
| VExpr.LogicalRule | vexpr.py:90-91 | `&&` and `||` accept the boolean type, with no override |
| VExpr.ComparisonRule | vexpr.py:96-101 | The comparisons accept the integer family or the boolean type, and yield the boolean type |
| VExpr.ArithmeticTyping | vexpr.py:79-142 | An arithmetic, bitwise or shift expression has type t exactly when both operands have type t and t is an integer type |
| VExpr.LogicalTyping | vexpr.py:90-142 | A logical expression has type t exactly when both operands have type t and t is the boolean type |
| VExpr.ComparisonTyping | vexpr.py:96-142 | A comparison resolves exactly when both operands have the same integer or boolean type, and its type is then the boolean type |
| VExpr.TableCoversGroups | vexpr.py:79-102 | The operator table's keys are exactly the arithmetic, logical and comparison operators |

## Left out

- The LALR machinery of the parser generator is not modelled: its tables, its error recovery and its error token. The parser here is a recursive-descent parser with precedence climbing over the same table. Where the LALR parser settles a conflict with the table, this parser builds the same tree.
- The tokenizer's `error` hook and any restart after an error are left out; the first illegal character ends the stream with an error.
- Escape sequences and interpolation inside strings are kept as written, as in the source.
- The CHAR action fails at run time in the source; the model reports this as `CharActionFailure` and does not model the exception itself.
- The parser's `env` dictionary, which nothing reads, is left out.
- The `__str__` methods and the demonstration under `__main__` (reading a sample text and printing the tree) are I/O and are left out.
- The rules `expr "=" expr` and `maybe_opt: "?"` are parsed, but their tokens never lex, because neither `=` nor `?` is a literal; the parser still accepts them from a token list.
- The `maybe_mut` and `maybe_opt` rules are modelled inside the parameter-list function rather than as separate functions.
- `check_return_type`, the `VModule`/scope objects and the type classes live outside these two files. The model compares operand types by equality, looks names up in two finite maps, and uses the datatype `VType` for the classes.
- Identifiers bound to anything other than a function or a variable (the source's final failed assertion) cannot occur, because the model's `Identifier` has only those two forms.
- Integer literals are unbounded integers. Negative literals are covered by `BinaryDigitCount`, which counts the extra character in the binary rendering of a negative number.
- Lexer.VLexer.Tokenize: returns the token list all at once rather than as a generator.
- Grammar.Precedence: its contract states only that there are eleven levels; the level of each token is stated by `Grammar.LevelIsTableRow`.
- Lexer.FirstMatch: the `\d` of the NUMBER pattern is modelled as the ASCII digits `0`-`9`. The source's pattern, compiled without the ASCII flag, also matches the other Unicode decimal digits, and `int()` converts them; in the model those characters start no token and are illegal characters.
- LexerProps.NoRuleAt: takes `\d` as the ASCII digits only, as `Lexer.FirstMatch` does, so another Unicode decimal digit counts as a character where no rule matches.
- LexerProps.NumberMatch: takes `\d` as the ASCII digits only, so a NUMBER match stops before any other Unicode decimal digit.
- LexerProps.NumberStep: takes `\d` as the ASCII digits only, so a NUMBER token never holds another Unicode decimal digit.
- Lexer.Keywords: its own contract states only that there are 24 keyword rules; each rule's word and kind are stated by `LexerProps.KeywordShape`.
- Lexer.Operators: its own contract states only that there are 19 operator rules; each rule's text and kind are stated by `LexerProps.OperatorShape`.
- Lexer.Rules: its own contract states only that there are 49 rules; the order of the three groups is stated by `LexerProps.KeywordShape`, `LexerProps.OperatorShape` and `LexerProps.ActionsAt`.
- Lexer.LexFrom: its own contract bounds only the number of tokens; the tokens themselves are stated by the `LexerStream` lemmas.
- Lexer.Lex: its own contract bounds only the number of tokens; the tokens themselves are stated by `LexerStream.LexProperties`.
- Grammar.ItemList: its own contract bounds only the length; the entries are stated by `Grammar.ItemListIsPresent`.
- Grammar.ComStmt: its own contract bounds only the length; the statements are stated by `Grammar.ComStmtIsPresent`.
- Grammar.CompoundName: its own contract states only the trailing `=`; the node name it shares with the binary operator is stated by `Grammar.CompoundMatchesBinary`.
- Grammar.CompoundAssign: its own contract states only when it succeeds and how it fails; the two statements it builds are stated by `Grammar.CompoundRoundTrip`.
- Grammar.Level: its own contract states only the upper bound; the level of every token is stated by `Grammar.LevelIsTableRow`.
- VExpr.BinaryDigitCount: its own contract states only that there is a digit; the count is tied to the number's range by `VExpr.DigitCountRange`.
- Parser.ParseType: its own contract states only where the type ends; the type it builds is stated by `ParserProps.TypeRoundTrip`.
- Parser.ParsePrimary: its own contract states only where the operand ends; the tree it builds is stated by `ParserProps.PrimaryRoundTrip`.
- Parser.ParseExpr: its own contract states only where the expression ends; the tree it builds is stated by `ParserProps.ExprRoundTrip` and `ParserProps.Grouping`.
- Parser.ParseClimb: its own contract states only where the expression ends; the grouping it builds is stated by `ParserProps.Grouping`.
- Parser.ParseExprList: its own contract states only where the list ends; its entries are stated by `ParserProps.ListRoundTrip`.
- Parser.ParseExprListTail: its own contract states only where the list ends; its entries are stated by `ParserProps.RestRoundTrip`.
- Parser.ParseStmt: its own contract states only where the statement ends; the statement each rule builds is stated by the `ParserStmts` lemmas and `ParserItems.CompoundStatement`.
- Parser.ParseIf: its own contract states only where the conditional ends; what it builds is stated by `ParserStmts.IfStatement` and `ParserStmts.IfElseStatement`.
- Parser.ParseFor: its own contract states only where the loop ends; what it builds is stated by `ParserStmts.ForEverStatement`, `ParserStmts.ForEachStatement` and `ParserStmts.ForEachKeyStatement`.
- Parser.ParseForIn: its own contract states only where the loop ends; what it builds is stated by `ParserStmts.ForEachStatement` and `ParserStmts.ForEachKeyStatement`.
- Parser.ParseExprStmt: its own contract states only where the statement ends; what it builds is stated by `ParserStmts.ExprStatement`, `ParserStmts.AssignStatement` and `ParserItems.CompoundStatement`.
- Parser.ParseStmts: its own contract states only where the statements end; `ParserDecls.StmtsChain` states them as the statements parsed one after another, in order, and `ParserItems.BlockIsPresent` and `ParserItems.GroupIsPresent` state the blank lines dropped.
- Parser.ParseStmtBlock: its own contract states only where the block ends; its statements are stated by `ParserDecls.BlockChain` and `ParserItems.BlockIsPresent`.
- Parser.ParseFnArgs: its own contract states only where the parameters end; their shapes are stated by `ParserItems.ArgsShape`, and the parameters of a list written out as tokens by `ParserDecls.ArgsRoundTrip` and `ParserDecls.LaterArgsRoundTrip`.
- Parser.ParseFnArgsTail: its own contract states only where the parameters end; their shapes are stated by `ParserItems.ArgsTailLater`, and each parameter by `ParserDecls.LaterParamStep` and `ParserDecls.ArgsTailRoundTrip`.
- Parser.ParseFnRet: its own contract states only where the return list ends; its entries are stated, form by form, by `ParserDecls.RetListRoundTrip`, `ParserDecls.RetTypeRoundTrip` and `ParserDecls.RetEmpty`, and their shapes by `ParserItems.RetShape`.
- Parser.ParseRetListTail: its own contract states only where the return list ends; the types it appends are stated by `ParserDecls.RetTailRoundTrip`.
- Parser.ParseField: its own contract states only where the field line ends; the field is stated by `ParserDecls.NamedFieldStep`, `ParserDecls.UnnamedFieldStep`, `ParserDecls.FieldRoundTrip` and `ParserItems.BareNameField`.
- Parser.ParseFields: its own contract states only where the fields end; they are stated by `ParserDecls.FieldLinesRoundTrip` and `ParserDecls.StructRoundTrip`.
- Parser.ParseEnumItems: its own contract states only where the items end; they are stated by `ParserDecls.EnumLinesRoundTrip`, `ParserDecls.EnumRoundTrip` and `ParserItems.EnumItemsExtend`.
- Parser.ParseFnDecl: its own contract states only where the declaration ends; what it builds is stated by `ParserStmts.FnDeclaration`.
- Parser.ParseModuleItem: its own contract states only where the item ends; the item each rule builds is stated by `ParserStmts.FnDeclaration`, `ParserStmts.ModuleDeclaration`, `ParserStmts.ImportDeclaration`, `ParserItems.StructDeclaration` and `ParserItems.EnumDeclaration`, and for declarations written out as tokens by `ParserDecls.StructRoundTrip` and `ParserDecls.EnumRoundTrip`.
- Parser.ParseModuleItems: its own contract states only the prefix and a bound on the count; the items are stated by `ParserDecls.ModuleItemsChain` as the items parsed one after another, and by `ParserItems.ModuleItemsExtend`.
- Parser.Parse: its own contract states only the empty case and a bound on the count; the module is stated by `ParserDecls.ModuleChain` and `ParserItems.ModuleIsPresent`.
