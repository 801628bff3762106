/** Properties of the whole token stream. */
module LexerStream {
  import opened Wrappers
  import opened Lexer
  import opened LexerProps

  /** The line feeds a token adds to the line counter: those of a NEWLINE run. */
  function NewlineFeeds(t: Token): nat {
    if t.kind == NEWLINE && t.value.Text? then CountLineFeeds(t.value.text) else 0
  }

  /** The line feeds the NEWLINE tokens of `ts` add up to. */
  function LineFeedsIn(ts: seq<Token>): nat {
    if |ts| == 0 then 0 else NewlineFeeds(ts[0]) + LineFeedsIn(ts[1..])
  }

  /** Only rules with actions have a pattern; the NEWLINE pattern belongs to the
      NEWLINE rule. */
  lemma {:induction false} ActionRuleAt(m: nat)
    requires m < 49
    ensures Rules()[m].ActionRule? ==> m >= 43
    ensures Rules()[m].ActionRule? && Rules()[m].pattern == NewlinePattern ==> Rules()[m].kind == NEWLINE
  {
    if m < 24 {
      KeywordShape(m);
    } else if m < 43 {
      OperatorShape(m);
    } else {
      ActionsAt();
      assert m == 43 || m == 44 || m == 45 || m == 46 || m == 47 || m == 48;
    }
  }

  /** The rule behind an emitted token that is not a literal. */
  lemma {:induction false} EmittedByRule(s: string, i: nat, lineno: nat) returns (m: nat)
    requires i < |s| && StepAt(s, i, lineno).Emit? && FirstMatch(s, i).Some?
    ensures m < 49 && FirstMatch(s, i).value.0 == Rules()[m]
    ensures RuleMatch(Rules()[m], s, i) == Some(FirstMatch(s, i).value.1)
    ensures StepAt(s, i, lineno) == RuleStep(Rules()[m], s, i, FirstMatch(s, i).value.1, lineno)
  {
    m := FirstMatchIndex(Rules(), s, i, 0);
    StepAtMatched(s, i, lineno);
  }

  /** No token is ASSIGN_LEFT_SHIFT or ASSIGN_RIGHT_SHIFT, and a NOT_EQUALS token
      is always the text `r!=`. */
  lemma {:induction false} EmittedKind(s: string, i: nat, lineno: nat)
    requires i < |s| && StepAt(s, i, lineno).Emit?
    ensures StepAt(s, i, lineno).tok.kind !in {ASSIGN_LEFT_SHIFT, ASSIGN_RIGHT_SHIFT}
    ensures StepAt(s, i, lineno).tok.kind == NOT_EQUALS ==> StepAt(s, i, lineno).tok.value == Text("r!=")
  {
    var t := StepAt(s, i, lineno).tok;
    if FirstMatch(s, i).Some? {
      var m := EmittedByRule(s, i, lineno);
      ShiftAssignNeverMatched(s, i);
      RuleIndexByKind(m);
      if t.kind == NOT_EQUALS {
        OperatorsAt();
        assert StartsWith(s, i, "r!=");
        assert s[i..i + 3] == "r!=" by {
          assert s[i + 0] == "r!="[0] && s[i + 1] == "r!="[1] && s[i + 2] == "r!="[2];
        }
      }
    }
  }

  /** The action of any rule but NEWLINE leaves the line counter. */
  lemma RuleStepLine(rule: Rule, s: string, i: nat, j: nat, lineno: nat)
    requires i < j <= |s|
    requires rule.ActionRule? && rule.pattern == StringPattern ==> i + 2 <= j
    requires rule.ActionRule? && rule.pattern == NumberPattern ==> forall t :: i <= t < j ==> IsDigit(s[t])
    requires rule.kind == NEWLINE <==> rule.ActionRule? && rule.pattern == NewlinePattern
    ensures var st := RuleStep(rule, s, i, j, lineno); st.Emit? ==> st.lineno == lineno + NewlineFeeds(st.tok)
  {
  }

  /** Where no rule matches, a literal token leaves the line counter. */
  lemma LiteralLine(s: string, i: nat, lineno: nat)
    requires i < |s| && StepAt(s, i, lineno).Emit? && FirstMatch(s, i).None?
    ensures StepAt(s, i, lineno).tok.kind.Literal? && StepAt(s, i, lineno).lineno == lineno
  {
  }

  /** The line counter after a step: a NEWLINE token adds its line feeds, any other
      token leaves it. */
  lemma {:induction false} EmittedLine(s: string, i: nat, lineno: nat)
    requires i < |s| && StepAt(s, i, lineno).Emit?
    ensures StepAt(s, i, lineno).lineno == lineno + NewlineFeeds(StepAt(s, i, lineno).tok)
  {
    if FirstMatch(s, i).None? {
      LiteralLine(s, i, lineno);
    } else {
      var m := EmittedByRule(s, i, lineno);
      ActionRuleAt(m);
      RuleIndexByKind(m);
      ActionsAt();
      RuleStepLine(Rules()[m], s, i, FirstMatch(s, i).value.1, lineno);
    }
  }

  /** One step of the stream: a skipped character, or the first token followed by
      the tokens of the rest. */
  lemma LexFromOk(s: string, i: nat, lineno: nat, ts: seq<Token>)
    requires i < |s| && LexFrom(s, i, lineno) == Ok(ts)
    ensures match StepAt(s, i, lineno)
      case Skip(j) => LexFrom(s, j, lineno) == Ok(ts)
      case Emit(t, j, l) => |ts| > 0 && ts[0] == t && LexFrom(s, j, l) == Ok(ts[1..])
      case Fail(_) => false
  {
    match StepAt(s, i, lineno)
    case Skip(j) =>
    case Emit(t, j, l) =>
      var rest :| LexFrom(s, j, l) == Ok(rest) && ts == [t] + rest;
      assert ts[1..] == rest;
    case Fail(_) =>
  }

  /** Tokens come in input order: their positions increase and lie in the input. */
  lemma {:induction false} TokensInOrder(s: string, i: nat, lineno: nat, ts: seq<Token>)
    requires i <= |s| && LexFrom(s, i, lineno) == Ok(ts)
    ensures forall k :: 0 <= k < |ts| ==> i <= ts[k].index < |s|
    ensures forall a, b :: 0 <= a < b < |ts| ==> ts[a].index < ts[b].index
    decreases |s| - i
  {
    if i < |s| {
      LexFromOk(s, i, lineno, ts);
      match StepAt(s, i, lineno)
      case Skip(j) =>
        TokensInOrder(s, j, lineno, ts);
      case Emit(t, j, l) =>
        TokensInOrder(s, j, l, ts[1..]);
        forall k | 1 <= k < |ts|
          ensures j <= ts[k].index
        {
          assert ts[k] == ts[1..][k - 1];
        }
        forall a, b | 0 <= a < b < |ts|
          ensures ts[a].index < ts[b].index
        {
          if a > 0 {
            assert ts[a] == ts[1..][a - 1] && ts[b] == ts[1..][b - 1];
          }
        }
    }
  }

  /** No token of the stream is a compound shift assignment, and every NOT_EQUALS
      token is the text `r!=`. */
  lemma {:induction false} TokenKinds(s: string, i: nat, lineno: nat, ts: seq<Token>)
    requires i <= |s| && LexFrom(s, i, lineno) == Ok(ts)
    ensures forall k :: 0 <= k < |ts| ==> ts[k].kind !in {ASSIGN_LEFT_SHIFT, ASSIGN_RIGHT_SHIFT}
    ensures forall k :: 0 <= k < |ts| && ts[k].kind == NOT_EQUALS ==> ts[k].value == Text("r!=")
    decreases |s| - i
  {
    if i < |s| {
      LexFromOk(s, i, lineno, ts);
      match StepAt(s, i, lineno)
      case Skip(j) =>
        TokenKinds(s, j, lineno, ts);
      case Emit(t, j, l) =>
        EmittedKind(s, i, lineno);
        TokenKinds(s, j, l, ts[1..]);
        forall k | 1 <= k < |ts|
          ensures ts[k] == ts[1..][k - 1]
        {
        }
    }
  }

  /** The line number of a token is the starting line plus the line feeds of the
      NEWLINE tokens before it: comments hold none, and the line feed a keyword
      takes is not counted. */
  lemma {:induction false} TokenLines(s: string, i: nat, lineno: nat, ts: seq<Token>)
    requires i <= |s| && LexFrom(s, i, lineno) == Ok(ts)
    ensures forall k :: 0 <= k < |ts| ==> ts[k].lineno == lineno + LineFeedsIn(ts[..k])
    decreases |s| - i
  {
    if i < |s| {
      LexFromOk(s, i, lineno, ts);
      match StepAt(s, i, lineno)
      case Skip(j) =>
        TokenLines(s, j, lineno, ts);
      case Emit(t, j, l) =>
        EmittedLine(s, i, lineno);
        TokenLines(s, j, l, ts[1..]);
        forall k | 0 <= k < |ts|
          ensures ts[k].lineno == lineno + LineFeedsIn(ts[..k])
        {
          if k > 0 {
            assert ts[k] == ts[1..][k - 1];
            assert ts[..k][1..] == ts[1..][..k - 1];
          }
        }
    }
  }

  /** The line counter at the end of a successful run is the starting line plus
      the line feeds of the NEWLINE tokens produced. */
  lemma {:induction false} FinalLine(s: string, i: nat, lineno: nat, ts: seq<Token>)
    requires i <= |s| && LexFrom(s, i, lineno) == Ok(ts)
    ensures LineAfter(s, i, lineno) == lineno + LineFeedsIn(ts)
    decreases |s| - i
  {
    if i < |s| {
      LexFromOk(s, i, lineno, ts);
      match StepAt(s, i, lineno)
      case Skip(j) =>
        FinalLine(s, j, lineno, ts);
      case Emit(t, j, l) =>
        EmittedLine(s, i, lineno);
        FinalLine(s, j, l, ts[1..]);
    }
  }

  /** The stream of a whole text from line 1. */
  lemma LexProperties(s: string, ts: seq<Token>)
    requires Lex(s) == Ok(ts)
    ensures forall a, b :: 0 <= a < b < |ts| ==> ts[a].index < ts[b].index
    ensures forall k :: 0 <= k < |ts| ==> ts[k].index < |s|
    ensures forall k :: 0 <= k < |ts| ==> ts[k].kind !in {ASSIGN_LEFT_SHIFT, ASSIGN_RIGHT_SHIFT}
    ensures forall k :: 0 <= k < |ts| && ts[k].kind == NOT_EQUALS ==> ts[k].value == Text("r!=")
    ensures forall k :: 0 <= k < |ts| ==> ts[k].lineno == 1 + LineFeedsIn(ts[..k])
    ensures LineAfter(s, 0, 1) == 1 + LineFeedsIn(ts)
  {
    FinalLine(s, 0, 1, ts);
    TokensInOrder(s, 0, 1, ts);
    TokenKinds(s, 0, 1, ts);
    TokenLines(s, 0, 1, ts);
  }
}
