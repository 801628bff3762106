/** Words: keywords, NAME, and the NOT_EQUALS rule that starts with a letter. */
module LexerWords {
  import opened Wrappers
  import opened Lexer
  import opened LexerProps

  /** The kind of the first keyword rule from position `n` on whose word is `w`. */
  function KeywordFrom(w: string, n: nat): (r: Option<Kind>)
    requires n <= 24
    decreases 24 - n
  {
    if n == 24 then None
    else if Keywords()[n].word == w then Some(Keywords()[n].kind)
    else KeywordFrom(w, n + 1)
  }

  /** The keyword spelled `w`, if any. */
  function KeywordOf(w: string): Option<Kind> {
    KeywordFrom(w, 0)
  }

  /** The end of the run of identifier characters that starts at `i`. */
  function WordEnd(s: string, i: nat): (e: nat)
    requires i < |s|
    ensures i < e <= |s|
  {
    Span(s, i + 1, IdentChars)
  }

  /** A keyword found at `i` with a non-identifier character after it is the whole word. */
  lemma {:induction false} KeywordIsWord(s: string, i: nat, w: string)
    requires i < |s| && |w| >= 1 && forall k :: 0 <= k < |w| ==> IsIdentStart(w[k])
    requires StartsWith(s, i, w) && i + |w| < |s| && !IsIdentChar(s[i + |w|])
    ensures WordEnd(s, i) == i + |w| && s[i..WordEnd(s, i)] == w
  {
    forall k | i + 1 <= k < i + |w|
      ensures InClass(s[k], IdentChars)
    {
      assert s[i + (k - i)] == w[k - i];
    }
    SpanAt(s, i + 1, IdentChars, i + |w|);
    assert s[i..i + |w|] == w;
  }

  /** A word followed by a character is found by the keyword it spells. */
  lemma {:induction false} WordIsKeyword(s: string, i: nat, w: string)
    requires i < |s| && WordEnd(s, i) < |s| && s[i..WordEnd(s, i)] == w
    ensures StartsWith(s, i, w) && i + |w| < |s| && !IsIdentChar(s[i + |w|])
  {
    var e := WordEnd(s, i);
    forall k | 0 <= k < |w|
      ensures s[i + k] == w[k]
    {
      assert s[i..e][k] == s[i + k];
    }
  }

  /** A keyword rule matches at the start of a word exactly when the whole word is
      the keyword and some character follows it; the match takes that character. */
  lemma {:induction false} KeywordRunMatch(s: string, i: nat, p: nat)
    requires i < |s| && IsIdentStart(s[i]) && p < 24
    ensures var e := WordEnd(s, i);
      RuleMatch(Keywords()[p], s, i) == if e < |s| && s[i..e] == Keywords()[p].word then Some(e + 1) else None
  {
    KeywordShape(p);
    var w := Keywords()[p].word;
    var e := WordEnd(s, i);
    if StartsWith(s, i, w) && i + |w| < |s| && !IsIdentChar(s[i + |w|]) {
      KeywordIsWord(s, i, w);
    }
    if e < |s| && s[i..e] == w {
      WordIsKeyword(s, i, w);
    }
  }

  /** Every keyword has at least two letters. */
  lemma {:induction false} ShortWordIsNoKeyword(w: string, n: nat)
    requires |w| < 2 && n <= 24
    ensures KeywordFrom(w, n).None?
    decreases 24 - n
  {
    if n < 24 {
      KeywordShape(n);
      ShortWordIsNoKeyword(w, n + 1);
    }
  }

  /** Over the keyword rules, the master pattern finds the keyword the word spells. */
  lemma {:induction false} KeywordScan(s: string, i: nat, n: nat)
    requires i < |s| && IsIdentStart(s[i]) && n <= 24
    ensures var e := WordEnd(s, i); var k := KeywordFrom(s[i..e], n);
      FirstMatchFrom(Rules(), s, i, n) ==
        if e < |s| && k.Some? then Some((KeywordRule(k.value, s[i..e]), e + 1))
        else FirstMatchFrom(Rules(), s, i, 24)
    decreases 24 - n
  {
    if n < 24 {
      KeywordShape(n);
      KeywordRunMatch(s, i, n);
      KeywordScan(s, i, n + 1);
    }
  }

  /** After the keywords, a word start can only meet NOT_EQUALS (`r!=`) and NAME. */
  lemma {:induction false} OperatorScan(s: string, i: nat)
    requires i < |s| && IsIdentStart(s[i])
    ensures FirstMatchFrom(Rules(), s, i, 24) ==
      if StartsWith(s, i, "r!=") then Some((OperatorRule(NOT_EQUALS, "r!="), i + 3))
      else Some((ActionRule(NAME, NamePattern), WordEnd(s, i)))
  {
    var R := Rules();
    forall p | 24 <= p < 43 && p != 27
      ensures RuleMatch(R[p], s, i).None?
    {
      OperatorShape(p);
      var w := Operators()[p - 24].text;
      assert !StartsWith(s, i, w) by { assert s[i + 0] != w[0]; }
    }
    FirstMatchSkip(R, s, i, 24, 27);
    OperatorsAt();
    if !StartsWith(s, i, "r!=") {
      FirstMatchSkip(R, s, i, 28, 43);
      ActionsAt();
    }
  }

  /** At a letter or `_` the master pattern picks the keyword the word spells when a
      character follows it, else NOT_EQUALS where `r!=` stands, else NAME. */
  lemma {:induction false} WordMatch(s: string, i: nat)
    requires i < |s| && IsIdentStart(s[i])
    ensures var e := WordEnd(s, i); var k := KeywordOf(s[i..e]);
      FirstMatch(s, i) ==
        if e < |s| && k.Some? then Some((KeywordRule(k.value, s[i..e]), e + 1))
        else if StartsWith(s, i, "r!=") then Some((OperatorRule(NOT_EQUALS, "r!="), i + 3))
        else Some((ActionRule(NAME, NamePattern), e))
  {
    KeywordScan(s, i, 0);
    OperatorScan(s, i);
  }

  /** The action of a keyword or operator rule: the matched text, unchanged. */
  lemma PlainAction(rule: Rule, s: string, i: nat, j: nat, lineno: nat)
    requires i < j <= |s| && !rule.ActionRule?
    ensures RuleStep(rule, s, i, j, lineno) == Emit(Token(rule.kind, Text(s[i..j]), lineno, i), j, lineno)
  {
  }

  /** The NAME action: the matched text, unchanged. */
  lemma NameAction(s: string, i: nat, j: nat, lineno: nat)
    requires i < j <= |s|
    ensures RuleStep(ActionRule(NAME, NamePattern), s, i, j, lineno) == Emit(Token(NAME, Text(s[i..j]), lineno, i), j, lineno)
  {
  }

  /** A word that spells a keyword, with a character after it, is that keyword's
      token, and the token takes the character too. */
  lemma {:induction false} KeywordStep(s: string, i: nat, lineno: nat)
    requires i < |s| && IsIdentStart(s[i])
    requires WordEnd(s, i) < |s| && KeywordOf(s[i..WordEnd(s, i)]).Some?
    ensures var e := WordEnd(s, i);
      StepAt(s, i, lineno) == Emit(Token(KeywordOf(s[i..e]).value, Text(s[i..e + 1]), lineno, i), e + 1, lineno)
  {
    hide StepAt, RuleStep, FirstMatch, PatternMatch, KeywordOf;
    var e := WordEnd(s, i);
    WordMatch(s, i);
    StepAtMatched(s, i, lineno);
    PlainAction(KeywordRule(KeywordOf(s[i..e]).value, s[i..e]), s, i, e + 1, lineno);
  }

  /** `r!=` is a NOT_EQUALS token. */
  lemma {:induction false} NotEqualsStep(s: string, i: nat, lineno: nat)
    requires i < |s| && StartsWith(s, i, "r!=")
    ensures StepAt(s, i, lineno) == Emit(Token(NOT_EQUALS, Text("r!="), lineno, i), i + 3, lineno)
  {
    assert s[i] == 'r' && s[i + 1] == '!' && s[i + 2] == '=' by {
      assert s[i + 0] == "r!="[0] && s[i + 1] == "r!="[1] && s[i + 2] == "r!="[2];
    }
    assert WordEnd(s, i) == i + 1;
    ShortWordIsNoKeyword(s[i..i + 1], 0);
    WordMatch(s, i);
    StepAtMatched(s, i, lineno);
    PlainAction(OperatorRule(NOT_EQUALS, "r!="), s, i, i + 3, lineno);
    assert s[i..i + 3] == "r!=";
  }

  /** Any other word is a NAME token. */
  lemma {:induction false} NameStep(s: string, i: nat, lineno: nat)
    requires i < |s| && IsIdentStart(s[i]) && !StartsWith(s, i, "r!=")
    requires WordEnd(s, i) == |s| || KeywordOf(s[i..WordEnd(s, i)]).None?
    ensures var e := WordEnd(s, i);
      StepAt(s, i, lineno) == Emit(Token(NAME, Text(s[i..e]), lineno, i), e, lineno)
  {
    WordMatch(s, i);
    StepAtMatched(s, i, lineno);
    NameAction(s, i, WordEnd(s, i), lineno);
  }
}

/** Tokenizing small inputs: what the rules do with words and operators. */
module LexerExamples {
  import opened Wrappers
  import opened Lexer
  import opened LexerProps
  import opened LexerWords

  /** Keywords whose word differs are passed over. */
  lemma {:induction false} KeywordFromSkip(w: string, n: nat, q: nat)
    requires n <= q <= 24
    requires forall p :: n <= p < q ==> Keywords()[p].word != w
    ensures KeywordFrom(w, n) == KeywordFrom(w, q)
    decreases q - n
  {
    if n < q {
      KeywordFromSkip(w, n + 1, q);
    }
  }

  /** Whole words decide: `goto` is GOTO although `go` comes first. */
  lemma GotoIsNotGo()
    ensures KeywordOf("goto") == Some(GOTO) && KeywordOf("go") == Some(GO)
  {
    KeywordFromSkip("goto", 0, 9);
    KeywordFromSkip("go", 0, 8);
  }

  /** A keyword takes the character after it, even a line feed: the NEWLINE that
      ends a `break` line is part of the BREAK token and the line counter stays. */
  lemma BreakTakesNewline()
    ensures Lex("break\n") == Ok([Token(BREAK, Text("break\n"), 1, 0)])
  {
    var s := "break\n";
    SpanAt(s, 1, IdentChars, 5);
    assert s[0..5] == "break";
    KeywordStep(s, 0, 1);
    assert s[0..6] == s;
    var t := Token(BREAK, Text("break\n"), 1, 0);
    assert LexFrom(s, 6, 1) == Ok([]);
    LexFromEmitOk(s, 0, 1, t, 6, 1, []);
    assert [t] + [] == [t];
  }

  /** A word that only starts with a keyword is a NAME. */
  lemma LongerWordIsName()
    ensures Lex("format") == Ok([Token(NAME, Text("format"), 1, 0)])
  {
    var s := "format";
    SpanAt(s, 1, IdentChars, 6);
    assert s[0..6] == s;
    assert !StartsWith(s, 0, "r!=") by { assert s[0 + 1] != "r!="[1]; }
    NameStep(s, 0, 1);
    var t := Token(NAME, Text("format"), 1, 0);
    assert LexFrom(s, 6, 1) == Ok([]);
    LexFromEmitOk(s, 0, 1, t, 6, 1, []);
    assert [t] + [] == [t];
  }

  /** `!` is no token: `!=` as written in a source text does not lex. */
  lemma BangFails()
    ensures Lex("!=") == Err(IllegalCharacter('!', 1, 0))
  {
    var s := "!=";
    NoRuleAt(s, 0);
    LiteralStep(s, 0, 1);
  }

  /** `<<=` lexes as `<<` and then fails at the `=`, which no rule takes alone. */
  lemma ShiftAssignFails()
    ensures Lex("<<=") == Err(IllegalCharacter('=', 1, 2))
  {
    var s := "<<=";
    OperatorsFirst(s, 0);
    OperatorsAt();
    assert StartsWith(s, 0, "<<");
    assert FirstMatch(s, 0) == Some((OperatorRule(LEFT_SHIFT, "<<"), 2));
    StepAtMatched(s, 0, 1);
    PlainAction(OperatorRule(LEFT_SHIFT, "<<"), s, 0, 2, 1);
    NoRuleAt(s, 2);
    LiteralStep(s, 2, 1);
    assert LexFrom(s, 2, 1) == Err(IllegalCharacter('=', 1, 2));
  }
}
