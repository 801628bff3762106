/** Properties of the token rules and of the tokenizer. */
module LexerProps {
  import opened Wrappers
  import opened Lexer

  // ---------------------------------------------------------------------------
  // The master pattern over any rule list
  // ---------------------------------------------------------------------------

  /** The first rule from `n` on that matches is the one the master pattern picks;
      every rule before it fails. */
  lemma {:induction false} FirstMatchIndex(rules: seq<Rule>, s: string, i: nat, n: nat) returns (m: nat)
    requires i < |s| && n <= |rules|
    requires FirstMatchFrom(rules, s, i, n).Some?
    ensures n <= m < |rules| && rules[m] == FirstMatchFrom(rules, s, i, n).value.0
    ensures RuleMatch(rules[m], s, i) == Some(FirstMatchFrom(rules, s, i, n).value.1)
    ensures forall p :: n <= p < m ==> RuleMatch(rules[p], s, i).None?
    decreases |rules| - n
  {
    if RuleMatch(rules[n], s, i).Some? {
      m := n;
    } else {
      m := FirstMatchIndex(rules, s, i, n + 1);
    }
  }

  /** If the rule at `q` matches, the master pattern picks it or an earlier rule. */
  lemma {:induction false} FirstMatchAtMost(rules: seq<Rule>, s: string, i: nat, n: nat, q: nat) returns (m: nat)
    requires i < |s| && n <= q < |rules|
    requires RuleMatch(rules[q], s, i).Some?
    ensures n <= m <= q && RuleMatch(rules[m], s, i).Some?
    ensures FirstMatchFrom(rules, s, i, n) == Some((rules[m], RuleMatch(rules[m], s, i).value))
    decreases q - n
  {
    if RuleMatch(rules[n], s, i).Some? {
      m := n;
    } else {
      m := FirstMatchAtMost(rules, s, i, n + 1, q);
    }
  }

  /** Rules that do not match are passed over. */
  lemma {:induction false} FirstMatchSkip(rules: seq<Rule>, s: string, i: nat, n: nat, q: nat)
    requires i < |s| && n <= q <= |rules|
    requires forall p :: n <= p < q ==> RuleMatch(rules[p], s, i).None?
    ensures FirstMatchFrom(rules, s, i, n) == FirstMatchFrom(rules, s, i, q)
    decreases q - n
  {
    if n < q {
      FirstMatchSkip(rules, s, i, n + 1, q);
    }
  }

  /** The master pattern picks a rule of the table. */
  lemma FirstMatchInTable(s: string, i: nat)
    requires i < |s| && FirstMatch(s, i).Some?
    ensures FirstMatch(s, i).value.0 in Rules()
    ensures RuleMatch(FirstMatch(s, i).value.0, s, i) == Some(FirstMatch(s, i).value.1)
  {
    var m := FirstMatchIndex(Rules(), s, i, 0);
  }

  // ---------------------------------------------------------------------------
  // The shape of the rule table
  // ---------------------------------------------------------------------------

  /** The first characters of the operator rules other than NOT_EQUALS. */
  predicate IsOperatorStart(c: char) {
    c == '<' || c == '>' || c == '=' || c == '&' || c == '|' || c == '+' || c == '-' || c == '*' ||
    c == '/' || c == '%' || c == '^' || c == ':'
  }

  /** Rules 0-23 are the keywords, words of two or more letters. */
  lemma KeywordShape(p: nat)
    requires p < 24
    ensures Rules()[p] == Keywords()[p]
    ensures Keywords()[p].KeywordRule? && |Keywords()[p].word| >= 2
    ensures forall k :: 0 <= k < |Keywords()[p].word| ==> IsIdentStart(Keywords()[p].word[k])
  {
  }

  /** Rules 24-42 are the operators, which start with an operator character, except
      NOT_EQUALS (`r!=`) at 27; the ones starting with `/` or `=` continue with `=`. */
  lemma OperatorShape(p: nat)
    requires 24 <= p < 43
    ensures Rules()[p] == Operators()[p - 24]
    ensures Operators()[p - 24].OperatorRule? && |Operators()[p - 24].text| >= 2
    ensures p != 27 ==> IsOperatorStart(Operators()[p - 24].text[0])
    ensures p != 27 && (Operators()[p - 24].text[0] == '/' || Operators()[p - 24].text[0] == '=') ==>
              Operators()[p - 24].text[1] == '='
    ensures p == 27 ==> Operators()[p - 24] == OperatorRule(NOT_EQUALS, "r!=")
  {
  }

  /** Rules 43-48 are NAME, STRING, CHAR, NUMBER, COMMENT and NEWLINE. */
  lemma ActionsAt()
    ensures Rules()[43] == ActionRule(NAME, NamePattern) && Rules()[44] == ActionRule(STRING, StringPattern)
    ensures Rules()[45] == ActionRule(CHAR, CharPattern) && Rules()[46] == ActionRule(NUMBER, NumberPattern)
    ensures Rules()[47] == ActionRule(COMMENT, CommentPattern) && Rules()[48] == ActionRule(NEWLINE, NewlinePattern)
  {
  }

  /** No keyword produces a kind that an operator or an action produces. */
  lemma KeywordKinds(p: nat)
    requires p < 24
    ensures Keywords()[p].kind !in {NOT_EQUALS, ASSIGN_LEFT_SHIFT, ASSIGN_RIGHT_SHIFT, NEWLINE}
  {
  }

  /** The operator kinds that occur once, and where. */
  lemma OperatorKinds(p: nat)
    requires p < 19
    ensures Operators()[p].kind == NOT_EQUALS ==> p == 3
    ensures Operators()[p].kind == ASSIGN_LEFT_SHIFT ==> p == 16
    ensures Operators()[p].kind == ASSIGN_RIGHT_SHIFT ==> p == 17
    ensures Operators()[p].kind != NEWLINE
  {
  }

  /** The kinds that only one rule produces, and where that rule is in the table. */
  lemma RuleIndexByKind(m: nat)
    requires m < 49
    ensures Rules()[m].kind == ASSIGN_LEFT_SHIFT ==> m == 40
    ensures Rules()[m].kind == ASSIGN_RIGHT_SHIFT ==> m == 41
    ensures Rules()[m].kind == NOT_EQUALS ==> m == 27
    ensures Rules()[m].kind == NEWLINE ==> m == 48
  {
    if m < 24 {
      KeywordShape(m);
      KeywordKinds(m);
    } else if m < 43 {
      OperatorShape(m);
      OperatorKinds(m - 24);
    } else {
      ActionsAt();
      assert m == 43 || m == 44 || m == 45 || m == 46 || m == 47 || m == 48;
    }
  }

  /** The operator rules the lemmas below single out. */
  lemma OperatorsAt()
    ensures Rules()[24] == OperatorRule(LEFT_SHIFT, "<<") && Rules()[25] == OperatorRule(RIGHT_SHIFT, ">>")
    ensures Rules()[27] == OperatorRule(NOT_EQUALS, "r!=")
    ensures Rules()[40] == OperatorRule(ASSIGN_LEFT_SHIFT, "<<=") && Rules()[41] == OperatorRule(ASSIGN_RIGHT_SHIFT, ">>=")
  {
  }

  // ---------------------------------------------------------------------------
  // Compound shift assignment is unreachable
  // ---------------------------------------------------------------------------

  /** A two-character operator matches wherever its three-character extension does. */
  lemma {:induction false} PrefixOperatorMatches(s: string, i: nat, short: Rule, long: Rule)
    requires i < |s| && short.OperatorRule? && long.OperatorRule?
    requires |short.text| > 0 && short.text <= long.text
    requires RuleMatch(long, s, i).Some?
    ensures RuleMatch(short, s, i).Some?
  {
    assert StartsWith(s, i, long.text);
    forall t | 0 <= t < |short.text|
      ensures i + t < |s| && s[i + t] == short.text[t]
    {
      assert short.text[t] == long.text[t];
    }
  }

  /** `<<=` and `>>=` are matched by `<<` and `>>`, which come first. */
  lemma {:induction false} ShiftAssignNeverMatched(s: string, i: nat)
    requires i < |s|
    ensures FirstMatch(s, i).Some? ==> FirstMatch(s, i).value.0.kind !in {ASSIGN_LEFT_SHIFT, ASSIGN_RIGHT_SHIFT}
  {
    if FirstMatch(s, i).Some? {
      var R := Rules();
      var m := FirstMatchIndex(R, s, i, 0);
      RuleIndexByKind(m);
      OperatorsAt();
      if m == 40 {
        assert R[24].text <= R[40].text;
        PrefixOperatorMatches(s, i, R[24], R[40]);
      } else if m == 41 {
        assert R[25].text <= R[41].text;
        PrefixOperatorMatches(s, i, R[25], R[41]);
      }
    }
  }

  // ---------------------------------------------------------------------------
  // Characters that start no keyword and no operator
  // ---------------------------------------------------------------------------

  /** The characters at which no operator rule matches: those that start none of
      them, and a `/` or `=` that is not followed by `=`. */
  predicate NoOperatorAt(s: string, i: nat)
    requires i < |s|
  {
    !IsOperatorStart(s[i]) || ((s[i] == '/' || s[i] == '=') && (i + 1 == |s| || s[i + 1] != '='))
  }

  /** Neither keywords nor operators match at a character outside both. */
  lemma {:induction false} NoWordOrOperator(s: string, i: nat, p: nat)
    requires i < |s| && p < 43 && !IsIdentStart(s[i]) && NoOperatorAt(s, i)
    ensures RuleMatch(Rules()[p], s, i).None?
  {
    if p < 24 {
      KeywordShape(p);
      var w := Keywords()[p].word;
      assert !StartsWith(s, i, w) by { assert s[i + 0] != w[0]; }
    } else {
      OperatorShape(p);
      var w := Operators()[p - 24].text;
      if s[i] != w[0] {
        assert !StartsWith(s, i, w) by { assert s[i + 0] != w[0]; }
      } else if i + 1 < |s| {
        assert !StartsWith(s, i, w) by { assert s[i + 1] != w[1]; }
      }
    }
  }

  /** At such a character the master pattern goes straight to the rules with actions. */
  lemma {:induction false} ActionsOnly(s: string, i: nat)
    requires i < |s| && !IsIdentStart(s[i]) && NoOperatorAt(s, i)
    ensures FirstMatch(s, i) == FirstMatchFrom(Rules(), s, i, 43)
  {
    forall p | 0 <= p < 43
      ensures RuleMatch(Rules()[p], s, i).None?
    {
      NoWordOrOperator(s, i, p);
    }
    FirstMatchSkip(Rules(), s, i, 0, 43);
  }

  /** Where no rule matches at all: outside words, operators, quotes, digits,
      comments and line breaks. */
  lemma {:induction false} NoRuleAt(s: string, i: nat)
    requires i < |s| && !IsIdentStart(s[i]) && NoOperatorAt(s, i)
    requires s[i] != '"' && s[i] != '\'' && s[i] != '`' && !IsDigit(s[i]) && !IsLineBreak(s[i])
    requires !(s[i] == '/' && i + 1 < |s| && s[i + 1] == '/')
    ensures FirstMatch(s, i).None?
  {
    ActionsOnly(s, i);
    ActionsAt();
    var R := Rules();
    assert FirstMatchFrom(R, s, i, 43) == FirstMatchFrom(R, s, i, 44);
    assert FirstMatchFrom(R, s, i, 44) == FirstMatchFrom(R, s, i, 45);
    assert FirstMatchFrom(R, s, i, 45) == FirstMatchFrom(R, s, i, 46);
    assert FirstMatchFrom(R, s, i, 46) == FirstMatchFrom(R, s, i, 47);
    assert !StartsWith(s, i, "//") by {
      if s[i] == '/' && i + 1 < |s| { assert s[i + 1] != "//"[1]; } else if s[i] != '/' { assert s[i + 0] != "//"[0]; }
    }
    assert FirstMatchFrom(R, s, i, 47) == FirstMatchFrom(R, s, i, 48);
    assert FirstMatchFrom(R, s, i, 48) == FirstMatchFrom(R, s, i, 49);
  }

  /** Where no rule matches, a literal character is its own token and any other
      character is an error. */
  lemma {:induction false} LiteralStep(s: string, i: nat, lineno: nat)
    requires i < |s| && !IsIgnored(s[i]) && FirstMatch(s, i).None?
    ensures StepAt(s, i, lineno) ==
      if IsLiteral(s[i]) then Emit(Token(Literal(s[i]), Text([s[i]]), lineno, i), i + 1, lineno)
      else Fail(IllegalCharacter(s[i], lineno, i))
  {
  }

  /** Outside words the keyword rules are passed over. */
  lemma {:induction false} OperatorsFirst(s: string, i: nat)
    requires i < |s| && !IsIdentStart(s[i])
    ensures FirstMatch(s, i) == FirstMatchFrom(Rules(), s, i, 24)
  {
    forall p | 0 <= p < 24
      ensures RuleMatch(Rules()[p], s, i).None?
    {
      KeywordShape(p);
      var w := Keywords()[p].word;
      assert !StartsWith(s, i, w) by { assert s[i + 0] != w[0]; }
    }
    FirstMatchSkip(Rules(), s, i, 0, 24);
  }

  /** `Span` ends at the first position from `j` on outside the class. */
  lemma {:induction false} SpanAt(s: string, j: nat, cls: CharClass, e: nat)
    requires j <= e <= |s|
    requires forall k :: j <= k < e ==> InClass(s[k], cls)
    requires e == |s| || !InClass(s[e], cls)
    ensures Span(s, j, cls) == e
    decreases e - j
  {
    if j < e {
      SpanAt(s, j + 1, cls, e);
    }
  }

  /** An emitted token goes in front of the tokens of the rest of the input. */
  lemma LexFromEmitOk(s: string, i: nat, lineno: nat, t: Token, j: nat, l: nat, rest: seq<Token>)
    requires i < |s|
    requires StepAt(s, i, lineno) == Emit(t, j, l)
    requires LexFrom(s, j, l) == Ok(rest)
    ensures LexFrom(s, i, lineno) == Ok([t] + rest)
  {
  }

  // ---------------------------------------------------------------------------
  // NUMBER
  // ---------------------------------------------------------------------------

  /** At a digit the NUMBER rule matches the digit run. */
  lemma {:induction false} NumberMatch(s: string, i: nat)
    requires i < |s| && IsDigit(s[i])
    ensures FirstMatch(s, i) == Some((ActionRule(NUMBER, NumberPattern), Span(s, i + 1, Digits)))
  {
    ActionsOnly(s, i);
    ActionsAt();
    var R := Rules();
    assert FirstMatchFrom(R, s, i, 43) == FirstMatchFrom(R, s, i, 44);
    assert FirstMatchFrom(R, s, i, 44) == FirstMatchFrom(R, s, i, 45);
    assert FirstMatchFrom(R, s, i, 45) == FirstMatchFrom(R, s, i, 46);
  }

  /** The NUMBER action: the value is the decimal value of the digits. */
  lemma NumberAction(s: string, i: nat, j: nat, lineno: nat)
    requires i < j <= |s| && forall t :: i <= t < j ==> IsDigit(s[t])
    ensures RuleStep(ActionRule(NUMBER, NumberPattern), s, i, j, lineno)
      == Emit(Token(NUMBER, Int(DecimalValue(s[i..j])), lineno, i), j, lineno)
  {
  }

  /** At a digit the tokenizer emits one NUMBER token for the whole digit run, whose
      value is the decimal value of the run. */
  lemma {:induction false} NumberStep(s: string, i: nat, lineno: nat)
    requires i < |s| && IsDigit(s[i])
    ensures var e := Span(s, i, Digits);
      i < e && (e == |s| || !IsDigit(s[e])) &&
      StepAt(s, i, lineno) == Emit(Token(NUMBER, Int(DecimalValue(s[i..e])), lineno, i), e, lineno)
  {
    NumberMatch(s, i);
    StepAtMatched(s, i, lineno);
    var e := Span(s, i + 1, Digits);
    assert Span(s, i, Digits) == e;
    NumberAction(s, i, e, lineno);
  }

  /** The decimal digits of `n`, most significant first. */
  function DecimalDigits(n: nat): (d: string)
    ensures |d| > 0 && forall k :: 0 <= k < |d| ==> IsDigit(d[k])
  {
    var last := ['0' + (n % 10) as char];
    if n < 10 then last else DecimalDigits(n / 10) + last
  }

  /** Reading back the digits of `n` gives `n`. */
  lemma {:induction false} DecimalRoundTrip(n: nat)
    ensures DecimalValue(DecimalDigits(n)) == n
  {
    var d := DecimalDigits(n);
    if n >= 10 {
      DecimalRoundTrip(n / 10);
      assert d[..|d| - 1] == DecimalDigits(n / 10);
    }
  }

  /** The digits of any `n` lex to exactly one NUMBER token whose value is `n`. */
  lemma {:induction false} NumberRoundTrip(n: nat)
    ensures Lex(DecimalDigits(n)) == Ok([Token(NUMBER, Int(n), 1, 0)])
  {
    var s := DecimalDigits(n);
    NumberStep(s, 0, 1);
    SpanAt(s, 0, Digits, |s|);
    assert s[0..|s|] == s;
    DecimalRoundTrip(n);
    var t := Token(NUMBER, Int(n), 1, 0);
    assert StepAt(s, 0, 1) == Emit(t, |s|, 1);
    assert LexFrom(s, |s|, 1) == Ok([]);
    LexFromEmitOk(s, 0, 1, t, |s|, 1, []);
    assert [t] + [] == [t];
  }

  // ---------------------------------------------------------------------------
  // NEWLINE, comments and blanks
  // ---------------------------------------------------------------------------

  /** At a line break only the NEWLINE rule matches. */
  lemma {:induction false} NewlineMatch(s: string, i: nat)
    requires i < |s| && IsLineBreak(s[i])
    ensures FirstMatch(s, i) == Some((ActionRule(NEWLINE, NewlinePattern), Span(s, i + 1, LineBreaks)))
  {
    ActionsOnly(s, i);
    ActionsAt();
    var R := Rules();
    assert FirstMatchFrom(R, s, i, 43) == FirstMatchFrom(R, s, i, 44);
    assert FirstMatchFrom(R, s, i, 44) == FirstMatchFrom(R, s, i, 45);
    assert FirstMatchFrom(R, s, i, 45) == FirstMatchFrom(R, s, i, 46);
    assert FirstMatchFrom(R, s, i, 46) == FirstMatchFrom(R, s, i, 47);
    assert !StartsWith(s, i, "//") by { assert s[i + 0] != "//"[0]; }
    assert FirstMatchFrom(R, s, i, 47) == FirstMatchFrom(R, s, i, 48);
  }

  /** The NEWLINE action emits the run and advances the line counter by its line feeds. */
  lemma NewlineAction(s: string, i: nat, j: nat, lineno: nat)
    requires i < j <= |s|
    ensures RuleStep(ActionRule(NEWLINE, NewlinePattern), s, i, j, lineno)
      == Emit(Token(NEWLINE, Text(s[i..j]), lineno, i), j, lineno + CountLineFeeds(s[i..j]))
  {
  }

  /** A maximal run of line breaks is one NEWLINE token, and the line counter
      advances by the number of line feeds in it. */
  lemma {:induction false} NewlineStep(s: string, i: nat, lineno: nat)
    requires i < |s| && IsLineBreak(s[i])
    ensures var e := Span(s, i + 1, LineBreaks);
      StepAt(s, i, lineno) == Emit(Token(NEWLINE, Text(s[i..e]), lineno, i), e, lineno + CountLineFeeds(s[i..e]))
  {
    NewlineMatch(s, i);
    StepAtMatched(s, i, lineno);
    NewlineAction(s, i, Span(s, i + 1, LineBreaks), lineno);
  }

  /** At `//` the COMMENT rule matches up to the next line feed. */
  lemma {:induction false} CommentMatch(s: string, i: nat)
    requires i + 1 < |s| && s[i] == '/' && s[i + 1] == '/'
    ensures FirstMatch(s, i) == Some((ActionRule(COMMENT, CommentPattern), Span(s, i + 2, NonLineFeeds)))
  {
    ActionsOnly(s, i);
    ActionsAt();
    var R := Rules();
    assert FirstMatchFrom(R, s, i, 43) == FirstMatchFrom(R, s, i, 44);
    assert FirstMatchFrom(R, s, i, 44) == FirstMatchFrom(R, s, i, 45);
    assert FirstMatchFrom(R, s, i, 45) == FirstMatchFrom(R, s, i, 46);
    assert FirstMatchFrom(R, s, i, 46) == FirstMatchFrom(R, s, i, 47);
    assert StartsWith(s, i, "//");
  }

  /** The COMMENT action returns nothing: the match produces no token. */
  lemma CommentAction(s: string, i: nat, j: nat, lineno: nat)
    requires i < j <= |s|
    ensures RuleStep(ActionRule(COMMENT, CommentPattern), s, i, j, lineno) == Skip(j)
  {
  }

  /** A comment runs up to the next line feed, which it leaves for NEWLINE. */
  lemma {:induction false} CommentExtent(s: string, i: nat)
    requires i + 1 < |s| && s[i] == '/' && s[i + 1] == '/'
    ensures var e := Span(s, i + 2, NonLineFeeds); e == |s| || s[e] == '\n'
    ensures var e := Span(s, i + 2, NonLineFeeds); forall k :: i <= k < e ==> s[k] != '\n'
  {
    var e := Span(s, i + 2, NonLineFeeds);
    forall k | i + 2 <= k < e
      ensures s[k] != '\n'
    {
      assert InClass(s[k], NonLineFeeds);
    }
  }

  /** A comment produces no token. */
  lemma {:induction false} CommentStep(s: string, i: nat, lineno: nat)
    requires i + 1 < |s| && s[i] == '/' && s[i + 1] == '/'
    ensures StepAt(s, i, lineno) == Skip(Span(s, i + 2, NonLineFeeds))
  {
    CommentMatch(s, i);
    StepAtMatched(s, i, lineno);
    CommentAction(s, i, Span(s, i + 2, NonLineFeeds), lineno);
  }

  /** Spaces and tabs produce no token. */
  lemma BlankStep(s: string, i: nat, lineno: nat)
    requires i < |s| && IsIgnored(s[i])
    ensures StepAt(s, i, lineno) == Skip(i + 1) && LexFrom(s, i, lineno) == LexFrom(s, i + 1, lineno)
  {
    LexFromSkip(s, i, lineno, i + 1);
  }

  // ---------------------------------------------------------------------------
  // STRING
  // ---------------------------------------------------------------------------

  /** At a quote only the STRING rule can match. */
  lemma {:induction false} QuoteMatch(s: string, i: nat)
    requires i < |s| && (s[i] == '\'' || s[i] == '"')
    ensures var r := PatternMatch(StringPattern, s, i);
      FirstMatch(s, i) == if r.Some? then Some((ActionRule(STRING, StringPattern), r.value)) else None
  {
    ActionsOnly(s, i);
    ActionsAt();
    var R := Rules();
    assert FirstMatchFrom(R, s, i, 43) == FirstMatchFrom(R, s, i, 44);
    if PatternMatch(StringPattern, s, i).None? {
      assert FirstMatchFrom(R, s, i, 44) == FirstMatchFrom(R, s, i, 45);
      assert FirstMatchFrom(R, s, i, 45) == FirstMatchFrom(R, s, i, 46);
      assert FirstMatchFrom(R, s, i, 46) == FirstMatchFrom(R, s, i, 47);
      assert !StartsWith(s, i, "//") by { assert s[i + 0] != "//"[0]; }
      assert FirstMatchFrom(R, s, i, 47) == FirstMatchFrom(R, s, i, 48);
      assert FirstMatchFrom(R, s, i, 48) == FirstMatchFrom(R, s, i, 49);
    }
  }

  /** The STRING action drops the quotes. */
  lemma StringAction(s: string, i: nat, j: nat, lineno: nat)
    requires i + 2 <= j <= |s|
    ensures RuleStep(ActionRule(STRING, StringPattern), s, i, j, lineno)
      == Emit(Token(STRING, Text(s[i + 1..j - 1]), lineno, i), j, lineno)
  {
    var text := s[i..j];
    var u := text[1..|text| - 1];
    var v := s[i + 1..j - 1];
    forall k | 0 <= k < |u|
      ensures u[k] == v[k]
    {
      assert u[k] == text[k + 1];
    }
    assert u == v;
  }

  /** At a single quote the STRING rule matches exactly when the quoted text ends. */
  lemma SingleQuotedMatch(s: string, i: nat)
    requires i < |s| && s[i] == '\''
    ensures FirstMatch(s, i) ==
      if SingleQuotedEnd(s, i + 1).Some? then Some((ActionRule(STRING, StringPattern), SingleQuotedEnd(s, i + 1).value))
      else None
  {
    QuoteMatch(s, i);
    assert PatternMatch(StringPattern, s, i) == SingleQuotedEnd(s, i + 1);
  }

  /** A single-quoted string is one STRING token whose value is the text between the
      quotes; an unterminated one is an illegal character. */
  lemma {:induction false} SingleQuotedStep(s: string, i: nat, lineno: nat)
    requires i < |s| && s[i] == '\''
    ensures match SingleQuotedEnd(s, i + 1)
      case Some(e) => StepAt(s, i, lineno) == Emit(Token(STRING, Text(s[i + 1..e - 1]), lineno, i), e, lineno)
      case None => StepAt(s, i, lineno) == Fail(IllegalCharacter('\'', lineno, i))
  {
    hide StepAt, RuleStep, FirstMatch, PatternMatch, SingleQuotedEnd;
    SingleQuotedMatch(s, i);
    match SingleQuotedEnd(s, i + 1)
    case Some(e) =>
      StepAtMatched(s, i, lineno);
      StringAction(s, i, e, lineno);
    case None =>
      StepAtUnmatched(s, i, lineno);
  }

  /** At a double quote the STRING rule matches exactly where the pattern as written does. */
  lemma DoubleQuotedMatch(s: string, i: nat)
    requires i < |s| && s[i] == '"'
    ensures FirstMatch(s, i) ==
      if DoubleQuotedEnd(s, i).Some? then Some((ActionRule(STRING, StringPattern), DoubleQuotedEnd(s, i).value))
      else None
  {
    QuoteMatch(s, i);
    assert PatternMatch(StringPattern, s, i) == DoubleQuotedEnd(s, i);
  }

  /** A double quote starts a STRING token only where the pattern as written
      matches; otherwise it is an illegal character. */
  lemma {:induction false} DoubleQuotedStep(s: string, i: nat, lineno: nat)
    requires i < |s| && s[i] == '"'
    ensures match DoubleQuotedEnd(s, i)
      case Some(e) => StepAt(s, i, lineno) == Emit(Token(STRING, Text(s[i + 1..e - 1]), lineno, i), e, lineno)
      case None => StepAt(s, i, lineno) == Fail(IllegalCharacter('"', lineno, i))
  {
    hide StepAt, RuleStep, FirstMatch, PatternMatch, DoubleQuotedEnd;
    DoubleQuotedMatch(s, i);
    match DoubleQuotedEnd(s, i)
    case Some(e) =>
      StepAtMatched(s, i, lineno);
      StringAction(s, i, e, lineno);
    case None =>
      StepAtUnmatched(s, i, lineno);
  }

  /** The text of a single-quoted string: characters other than `'` and `\`, and
      escapes of a backslash and any character but a line feed. */
  predicate SingleQuotedBody(t: string)
    decreases |t|
  {
    |t| == 0 ||
    (t[0] != '\'' && t[0] != '\\' && SingleQuotedBody(t[1..])) ||
    (|t| >= 2 && t[0] == '\\' && t[1] != '\n' && SingleQuotedBody(t[2..]))
  }

  /** The scan of a quoted body stops at the quote right after it. */
  lemma {:induction false} SingleQuotedEndAfter(s: string, j: nat, t: string)
    requires 1 <= j && j + |t| < |s| && s[j..j + |t|] == t && s[j + |t|] == '\''
    requires SingleQuotedBody(t)
    ensures SingleQuotedEnd(s, j) == Some(j + |t| + 1)
    decreases |t|
  {
    if |t| > 0 {
      assert s[j] == t[0];
      if t[0] != '\'' && t[0] != '\\' && SingleQuotedBody(t[1..]) {
        assert s[j + 1..j + 1 + |t[1..]|] == t[1..];
        SingleQuotedEndAfter(s, j + 1, t[1..]);
      } else {
        assert s[j + 1] == t[1];
        assert s[j + 2..j + 2 + |t[2..]|] == t[2..];
        SingleQuotedEndAfter(s, j + 2, t[2..]);
      }
    }
  }

  /** Quoting a body and lexing it gives back the body, escapes left as written. */
  lemma {:induction false} StringRoundTrip(t: string)
    requires SingleQuotedBody(t)
    ensures Lex("'" + t + "'") == Ok([Token(STRING, Text(t), 1, 0)])
  {
    hide StepAt, RuleStep, FirstMatch, PatternMatch, SingleQuotedEnd, SingleQuotedBody;
    var s := "'" + t + "'";
    assert s[1..1 + |t|] == t;
    SingleQuotedEndAfter(s, 1, t);
    SingleQuotedStep(s, 0, 1);
    assert s[1..|s| - 1] == t;
    var tok := Token(STRING, Text(t), 1, 0);
    assert LexFrom(s, |s|, 1) == Ok([]);
    LexFromEmitOk(s, 0, 1, tok, |s|, 1, []);
    assert [tok] + [] == [tok];
  }

  /** As the pattern is written, an ordinary double-quoted string does not lex. */
  lemma DoubleQuotedWordFails()
    ensures Lex("\"ab\"") == Err(IllegalCharacter('"', 1, 0))
  {
    DoubleQuotedStep("\"ab\"", 0, 1);
  }

  /** What the pattern does accept: one character, then spaces before the quote. */
  lemma DoubleQuotedWithSpaces()
    ensures Lex("\"a  \"") == Ok([Token(STRING, Text("a  "), 1, 0)])
  {
    var s := "\"a  \"";
    assert Span(s, 4, Spaces) == 4;
    assert Span(s, 3, Spaces) == 4;
    assert DoubleQuotedEnd(s, 0) == Some(5);
    hide StepAt, RuleStep, FirstMatch, PatternMatch, DoubleQuotedEnd, QuoteAfterSpaces, Span;
    DoubleQuotedStep(s, 0, 1);
    var tok := Token(STRING, Text("a  "), 1, 0);
    assert s[1..4] == "a  ";
    assert LexFrom(s, 5, 1) == Ok([]);
    LexFromEmitOk(s, 0, 1, tok, 5, 1, []);
    assert [tok] + [] == [tok];
  }
}
