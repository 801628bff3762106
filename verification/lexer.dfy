/** The token rules of the language and the tokenizer that applies them. */
module Lexer {
  import opened Wrappers

  /** Token kinds: the keyword and operator rules, the rules with actions, and
      the single-character literal tokens. */
  datatype Kind =
    | BREAK | CONST | CONTINUE | DEFER | ELSE | ENUM | FN | FOR | GO | GOTO | IF | IMPORT
    | IN | INTERFACE | MATCH | MODULE | MUT | OR | PUB | RETURN | STRUCT | TYPE | MAP | ASSERT
    | LEFT_SHIFT | RIGHT_SHIFT | EQUALS | NOT_EQUALS | LESS_EQUALS | GREATER_EQUALS
    | LOGICAL_AND | LOGICAL_OR
    | ASSIGN_ADD | ASSIGN_SUB | ASSIGN_MUL | ASSIGN_DIV | ASSIGN_MOD | ASSIGN_AND | ASSIGN_OR
    | ASSIGN_XOR | ASSIGN_LEFT_SHIFT | ASSIGN_RIGHT_SHIFT | ASSIGN_DECLARE
    | NAME | STRING | CHAR | NUMBER | COMMENT | NEWLINE
    | Literal(c: char)

  /** A token value: the matched text (after any action) or the number of a NUMBER. */
  datatype Value = Text(text: string) | Int(n: nat)

  datatype Token = Token(kind: Kind, value: Value, lineno: nat, index: nat)

  datatype LexError =
    | IllegalCharacter(c: char, lineno: nat, index: nat)
    /** The CHAR action slices the token object itself, which fails at run time. */
    | CharActionFailure(lineno: nat, index: nat)

  /** The patterns of the rules with actions. */
  datatype Pattern = NamePattern | StringPattern | CharPattern | NumberPattern | CommentPattern | NewlinePattern

  /** A rule of the class body: a keyword (its word, then one character outside
      `[a-zA-Z0-9_]` that the match takes too), an operator (its exact text) or a
      rule whose pattern is one of the patterns above. */
  datatype Rule =
    | KeywordRule(kind: Kind, word: string)
    | OperatorRule(kind: Kind, text: string)
    | ActionRule(kind: Kind, pattern: Pattern)

  /** The keyword rules, first in the class body. */
  function Keywords(): (r: seq<Rule>)
    ensures |r| == 24
  {
    [KeywordRule(BREAK, "break"), KeywordRule(CONST, "const"), KeywordRule(CONTINUE, "continue"),
     KeywordRule(DEFER, "defer"), KeywordRule(ELSE, "else"), KeywordRule(ENUM, "enum"),
     KeywordRule(FN, "fn"), KeywordRule(FOR, "for"), KeywordRule(GO, "go"), KeywordRule(GOTO, "goto"),
     KeywordRule(IF, "if"), KeywordRule(IMPORT, "import"), KeywordRule(IN, "in"),
     KeywordRule(INTERFACE, "interface"), KeywordRule(MATCH, "match"), KeywordRule(MODULE, "module"),
     KeywordRule(MUT, "mut"), KeywordRule(OR, "or"), KeywordRule(PUB, "pub"),
     KeywordRule(RETURN, "return"), KeywordRule(STRUCT, "struct"), KeywordRule(TYPE, "type"),
     KeywordRule(MAP, "map"), KeywordRule(ASSERT, "assert")]
  }

  /** The operator rules, after the keywords. NOT_EQUALS is the three characters
      `r!=`, as its pattern is written. */
  function Operators(): (r: seq<Rule>)
    ensures |r| == 19
  {
    [OperatorRule(LEFT_SHIFT, "<<"), OperatorRule(RIGHT_SHIFT, ">>"), OperatorRule(EQUALS, "=="),
     OperatorRule(NOT_EQUALS, "r!="), OperatorRule(LESS_EQUALS, "<="), OperatorRule(GREATER_EQUALS, ">="),
     OperatorRule(LOGICAL_AND, "&&"), OperatorRule(LOGICAL_OR, "||"), OperatorRule(ASSIGN_ADD, "+="),
     OperatorRule(ASSIGN_SUB, "-="), OperatorRule(ASSIGN_MUL, "*="), OperatorRule(ASSIGN_DIV, "/="),
     OperatorRule(ASSIGN_MOD, "%="), OperatorRule(ASSIGN_AND, "&="), OperatorRule(ASSIGN_OR, "|="),
     OperatorRule(ASSIGN_XOR, "^="), OperatorRule(ASSIGN_LEFT_SHIFT, "<<="),
     OperatorRule(ASSIGN_RIGHT_SHIFT, ">>="), OperatorRule(ASSIGN_DECLARE, ":=")]
  }

  /** The rules with actions, last in the class body. */
  function Actions(): (r: seq<Rule>)
    ensures |r| == 6
  {
    [ActionRule(NAME, NamePattern), ActionRule(STRING, StringPattern), ActionRule(CHAR, CharPattern),
     ActionRule(NUMBER, NumberPattern), ActionRule(COMMENT, CommentPattern),
     ActionRule(NEWLINE, NewlinePattern)]
  }

  /** The rules in the order of the class body: the master pattern tries them in
      this order and the first that matches wins, not the longest. */
  function Rules(): (r: seq<Rule>)
    ensures |r| == 49
  {
    Keywords() + Operators() + Actions()
  }

  /** The ignored characters, space and tab, skipped at the start of a token. */
  predicate IsIgnored(c: char) {
    c == ' ' || c == '\t'
  }

  /** The literal characters, each its own token when no rule matches. */
  predicate IsLiteral(c: char) {
    c == '*' || c == '/' || c == '%' || c == '&' || c == '+' || c == '-' || c == '|' || c == '^' ||
    c == '{' || c == '}' || c == '(' || c == ')' || c == '[' || c == ']' || c == ',' || c == '.' ||
    c == '>' || c == '<' || c == ';'
  }

  predicate IsIdentStart(c: char) {
    ('a' <= c <= 'z') || ('A' <= c <= 'Z') || c == '_'
  }

  /** The class `[a-zA-Z0-9_]`. */
  predicate IsIdentChar(c: char) {
    IsIdentStart(c) || ('0' <= c <= '9')
  }

  /** `\d`, taken as the ASCII digits only. */
  predicate IsDigit(c: char) {
    '0' <= c <= '9'
  }

  predicate IsLineBreak(c: char) {
    c == '\r' || c == '\n'
  }

  /** `w` occurs in `s` at position `i`. */
  predicate StartsWith(s: string, i: nat, w: string) {
    i + |w| <= |s| && forall k :: 0 <= k < |w| ==> s[i + k] == w[k]
  }

  /** The character classes the patterns repeat: `[a-zA-Z0-9_]`, `\d`, a space,
      `.` (anything but a line feed) and `[\r\n]`. */
  datatype CharClass = IdentChars | Digits | Spaces | NonLineFeeds | LineBreaks

  predicate InClass(c: char, cls: CharClass) {
    match cls
    case IdentChars => IsIdentChar(c)
    case Digits => IsDigit(c)
    case Spaces => c == ' '
    case NonLineFeeds => c != '\n'
    case LineBreaks => IsLineBreak(c)
  }

  /** The end of the longest run of characters of class `cls` that starts at `j`. */
  function Span(s: string, j: nat, cls: CharClass): (e: nat)
    requires j <= |s|
    ensures j <= e <= |s|
    ensures forall k :: j <= k < e ==> InClass(s[k], cls)
    ensures e == |s| || !InClass(s[e], cls)
    decreases |s| - j
  {
    if j == |s| || !InClass(s[j], cls) then j else Span(s, j + 1, cls)
  }

  /** After the group of the double-quote alternative: one or more spaces, then `"`. */
  function QuoteAfterSpaces(s: string, j: nat): (r: Option<nat>)
    requires j <= |s|
    ensures r.Some? ==> j + 2 <= r.value <= |s| && s[r.value - 1] == '"'
  {
    var e := Span(s, j, Spaces);
    if e > j && e < |s| && s[e] == '"' then Some(e + 1) else None
  }

  /** The double-quote alternative as its pattern is written, without the verbose
      flag: the blanks in it are literal spaces, so the group takes one character and
      a space (or a space and an escape), and the closing quote needs a space before it. */
  function DoubleQuotedEnd(s: string, i: nat): (r: Option<nat>)
    requires i < |s| && s[i] == '"'
    ensures r.Some? ==> i + 2 <= r.value <= |s|
  {
    var first :=
      if i + 2 < |s| && s[i + 1] != '"' && s[i + 1] != '\\' && s[i + 2] == ' '
      then QuoteAfterSpaces(s, i + 3) else None;
    if first.Some? then first
    else if i + 3 < |s| && s[i + 1] == ' ' && s[i + 2] == '\\' && s[i + 3] != '\n'
    then QuoteAfterSpaces(s, i + 4)
    else None
  }

  /** The single-quote alternative: any characters but `'` and `\`, or `\` and one
      character other than a line feed, up to the closing `'`. */
  function SingleQuotedEnd(s: string, j: nat): (r: Option<nat>)
    requires 1 <= j <= |s|
    ensures r.Some? ==> j + 1 <= r.value <= |s| && s[r.value - 1] == '\''
    decreases |s| - j
  {
    if j == |s| then None
    else if s[j] == '\'' then Some(j + 1)
    else if s[j] == '\\' then
      (if j + 1 < |s| && s[j + 1] != '\n' then SingleQuotedEnd(s, j + 2) else None)
    else SingleQuotedEnd(s, j + 1)
  }

  /** Where the pattern of `rule` ends when it matches at `i`, if it does. */
  function RuleMatch(rule: Rule, s: string, i: nat): (r: Option<nat>)
    requires i < |s|
    ensures r.Some? ==> i < r.value <= |s|
    ensures r.Some? && rule.ActionRule? && rule.pattern == StringPattern ==> i + 2 <= r.value
    ensures r.Some? && rule.ActionRule? && rule.pattern == NumberPattern ==>
              forall t :: i <= t < r.value ==> IsDigit(s[t])
  {
    match rule
    case KeywordRule(_, w) =>
      if |w| > 0 && StartsWith(s, i, w) && i + |w| < |s| && !IsIdentChar(s[i + |w|])
      then Some(i + |w| + 1) else None
    case OperatorRule(_, w) =>
      if |w| > 0 && StartsWith(s, i, w) then Some(i + |w|) else None
    case ActionRule(_, p) => PatternMatch(p, s, i)
  }

  function PatternMatch(p: Pattern, s: string, i: nat): (r: Option<nat>)
    requires i < |s|
    ensures r.Some? ==> i < r.value <= |s|
    ensures r.Some? && p == StringPattern ==> i + 2 <= r.value
    ensures r.Some? && p == NumberPattern ==> forall t :: i <= t < r.value ==> IsDigit(s[t])
  {
    match p
    case NamePattern => if IsIdentStart(s[i]) then Some(Span(s, i + 1, IdentChars)) else None
    case StringPattern =>
      if s[i] == '"' then DoubleQuotedEnd(s, i)
      else if s[i] == '\'' then SingleQuotedEnd(s, i + 1)
      else None
    case CharPattern =>
      if s[i] == '`' && i + 2 < |s| && s[i + 1] != '\n' && s[i + 2] == '`' then Some(i + 3) else None
    case NumberPattern => if IsDigit(s[i]) then Some(Span(s, i + 1, Digits)) else None
    case CommentPattern => if StartsWith(s, i, "//") then Some(Span(s, i + 2, NonLineFeeds)) else None
    case NewlinePattern => if IsLineBreak(s[i]) then Some(Span(s, i + 1, LineBreaks)) else None
  }

  /** The master pattern: the first rule of `rules[n..]` that matches at `i`. */
  function FirstMatchFrom(rules: seq<Rule>, s: string, i: nat, n: nat): (r: Option<(Rule, nat)>)
    requires i < |s| && n <= |rules|
    ensures r.Some? ==> i < r.value.1 <= |s|
    ensures r.Some? && r.value.0.ActionRule? && r.value.0.pattern == StringPattern ==> i + 2 <= r.value.1
    ensures r.Some? && r.value.0.ActionRule? && r.value.0.pattern == NumberPattern ==>
              forall t :: i <= t < r.value.1 ==> IsDigit(s[t])
    decreases |rules| - n
  {
    if n == |rules| then None
    else match RuleMatch(rules[n], s, i)
      case Some(j) => Some((rules[n], j))
      case None => FirstMatchFrom(rules, s, i, n + 1)
  }

  function FirstMatch(s: string, i: nat): (r: Option<(Rule, nat)>)
    requires i < |s|
    ensures r.Some? ==> i < r.value.1 <= |s|
    ensures r.Some? && r.value.0.ActionRule? && r.value.0.pattern == StringPattern ==> i + 2 <= r.value.1
    ensures r.Some? && r.value.0.ActionRule? && r.value.0.pattern == NumberPattern ==>
              forall t :: i <= t < r.value.1 ==> IsDigit(s[t])
  {
    FirstMatchFrom(Rules(), s, i, 0)
  }

  function DigitValue(c: char): nat
    requires IsDigit(c)
  {
    (c as int - '0' as int) as nat
  }

  /** The decimal value of a run of digits. */
  function DecimalValue(d: string): nat
    requires forall k :: 0 <= k < |d| ==> IsDigit(d[k])
  {
    if |d| == 0 then 0 else 10 * DecimalValue(d[..|d| - 1]) + DigitValue(d[|d| - 1])
  }

  function CountLineFeeds(t: string): nat {
    if |t| == 0 then 0 else CountLineFeeds(t[..|t| - 1]) + (if t[|t| - 1] == '\n' then 1 else 0)
  }

  /** What one turn of the tokenizer loop does at position `i`. */
  datatype Step = Skip(next: nat) | Emit(tok: Token, next: nat, lineno: nat) | Fail(err: LexError)

  function StepAt(s: string, i: nat, lineno: nat): (st: Step)
    requires i < |s|
    ensures !st.Fail? ==> i < st.next <= |s|
    ensures st.Emit? ==> st.tok.index == i && st.tok.lineno == lineno
    ensures st.Emit? ==> st.tok.kind.Literal? || (FirstMatch(s, i).Some? && st.tok.kind == FirstMatch(s, i).value.0.kind)
  {
    if IsIgnored(s[i]) then Skip(i + 1)
    else match FirstMatch(s, i)
      case None =>
        if IsLiteral(s[i]) then Emit(Token(Literal(s[i]), Text([s[i]]), lineno, i), i + 1, lineno)
        else Fail(IllegalCharacter(s[i], lineno, i))
      case Some((rule, j)) => RuleStep(rule, s, i, j, lineno)
  }

  /** Past the ignored characters, a step is the action of the rule that matched. */
  lemma StepAtMatched(s: string, i: nat, lineno: nat)
    requires i < |s| && !IsIgnored(s[i]) && FirstMatch(s, i).Some?
    ensures StepAt(s, i, lineno) == RuleStep(FirstMatch(s, i).value.0, s, i, FirstMatch(s, i).value.1, lineno)
  {
  }

  lemma StepAtUnmatched(s: string, i: nat, lineno: nat)
    requires i < |s| && !IsIgnored(s[i]) && FirstMatch(s, i).None?
    ensures StepAt(s, i, lineno) ==
      if IsLiteral(s[i]) then Emit(Token(Literal(s[i]), Text([s[i]]), lineno, i), i + 1, lineno)
      else Fail(IllegalCharacter(s[i], lineno, i))
  {
  }

  /** The action of `rule`, which matched `s[i..j]`. */
  function RuleStep(rule: Rule, s: string, i: nat, j: nat, lineno: nat): (st: Step)
    requires i < j <= |s|
    requires rule.ActionRule? && rule.pattern == StringPattern ==> i + 2 <= j
    requires rule.ActionRule? && rule.pattern == NumberPattern ==> forall t :: i <= t < j ==> IsDigit(s[t])
    ensures !st.Fail? ==> st.next == j
    ensures st.Emit? ==> st.tok.index == i && st.tok.lineno == lineno && st.tok.kind == rule.kind
  {
    var text := s[i..j];
    if !rule.ActionRule? then Emit(Token(rule.kind, Text(text), lineno, i), j, lineno)
    else match rule.pattern
      case CommentPattern => Skip(j)
      case CharPattern => Fail(CharActionFailure(lineno, i))
      case NewlinePattern => Emit(Token(rule.kind, Text(text), lineno, i), j, lineno + CountLineFeeds(text))
      case NumberPattern => Emit(Token(rule.kind, Int(DecimalValue(text)), lineno, i), j, lineno)
      case StringPattern => Emit(Token(rule.kind, Text(text[1..|text| - 1]), lineno, i), j, lineno)
      case NamePattern => Emit(Token(rule.kind, Text(text), lineno, i), j, lineno)
  }

  /** The token stream from position `i` on, with the line counter at `lineno`. */
  function LexFrom(s: string, i: nat, lineno: nat): (r: Result<seq<Token>, LexError>)
    requires i <= |s|
    ensures r.Ok? ==> |r.value| <= |s| - i
    decreases |s| - i
  {
    if i == |s| then Ok([])
    else match StepAt(s, i, lineno)
      case Skip(j) => LexFrom(s, j, lineno)
      case Emit(t, j, l) =>
        var rest :- LexFrom(s, j, l);
        Ok([t] + rest)
      case Fail(e) => Err(e)
  }

  /** Every token takes at least one character, so a text never yields more
      tokens than it has characters. */
  function Lex(s: string): (r: Result<seq<Token>, LexError>)
    ensures r.Ok? ==> |r.value| <= |s|
  {
    LexFrom(s, 0, 1)
  }

  /** The line counter once the tokenizer has gone from `i` to the end of `s`,
      or to the character no rule takes. */
  function LineAfter(s: string, i: nat, lineno: nat): nat
    requires i <= |s|
    decreases |s| - i
  {
    if i == |s| then lineno
    else match StepAt(s, i, lineno)
      case Skip(j) => LineAfter(s, j, lineno)
      case Emit(_, j, l) => LineAfter(s, j, l)
      case Fail(_) => lineno
  }

  /** The tokens produced so far, followed by the outcome of the rest of the input. */
  function Prepend(done: seq<Token>, rest: Result<seq<Token>, LexError>): Result<seq<Token>, LexError> {
    match rest
    case Ok(ts) => Ok(done + ts)
    case Err(e) => Err(e)
  }

  /** The tokenizer object: its line counter and position are the state the rule
      actions update. */
  class VLexer {
    var lineno: nat
    var index: nat

    constructor ()
      ensures lineno == 1 && index == 0
    {
      lineno := 1;
      index := 0;
    }

    /** The NEWLINE action: the line counter advances by the line feeds in the run. */
    method NewlineAction(t: Token) returns (t': Token)
      requires t.value.Text?
      modifies this`lineno
      ensures t' == t
      ensures lineno == old(lineno) + CountLineFeeds(t.value.text)
    {
      lineno := lineno + CountLineFeeds(t.value.text);
      t' := t;
    }

    /** One turn of the tokenizer loop at the current position: skip an ignored
        character, or match the rules (the literals as fallback) and run the
        matched rule's action. */
    method Advance(text: string) returns (emitted: Option<Token>, err: Option<LexError>)
      requires index < |text|
      modifies this`index, this`lineno
      ensures var st := StepAt(text, old(index), old(lineno));
        match st
        case Skip(j) => emitted.None? && err.None? && index == j && lineno == old(lineno)
        case Emit(t, j, l) => emitted == Some(t) && err.None? && index == j && lineno == l
        case Fail(e) => err == Some(e)
    {
      var c := text[index];
      emitted, err := None, None;
      if IsIgnored(c) {
        index := index + 1;
        return;
      }
      var m := FirstMatch(text, index);
      if m.None? {
        if IsLiteral(c) {
          emitted := Some(Token(Literal(c), Text([c]), lineno, index));
          index := index + 1;
        } else {
          err := Some(IllegalCharacter(c, lineno, index));
        }
        return;
      }
      StepAtMatched(text, index, lineno);
      emitted, err := RunAction(text, m.value.0, m.value.1);
    }

    /** The action of `rule`, which matched the text from the current position to `j`. */
    method RunAction(text: string, rule: Rule, j: nat) returns (emitted: Option<Token>, err: Option<LexError>)
      requires index < j <= |text|
      requires rule.ActionRule? && rule.pattern == StringPattern ==> index + 2 <= j
      requires rule.ActionRule? && rule.pattern == NumberPattern ==> forall t :: index <= t < j ==> IsDigit(text[t])
      modifies this`index, this`lineno
      ensures var st := RuleStep(rule, text, old(index), j, old(lineno));
        match st
        case Skip(j) => emitted.None? && err.None? && index == j && lineno == old(lineno)
        case Emit(t, j, l) => emitted == Some(t) && err.None? && index == j && lineno == l
        case Fail(e) => err == Some(e)
    {
      emitted, err := None, None;
      var t := Token(rule.kind, Text(text[index..j]), lineno, index);
      index := j;
      if rule.ActionRule? {
        match rule.pattern {
          case CommentPattern =>
            // the action returns nothing: no token
            return;
          case CharPattern =>
            err := Some(CharActionFailure(t.lineno, t.index));
            return;
          case NewlinePattern =>
            t := NewlineAction(t);
          case NumberPattern =>
            t := t.(value := Int(DecimalValue(t.value.text)));
          case StringPattern =>
            t := t.(value := Text(t.value.text[1..|t.value.text| - 1]));
          case NamePattern =>
        }
      }
      emitted := Some(t);
    }

    /** Tokenizes the whole text from its start at line 1. */
    method Tokenize(text: string) returns (r: Result<seq<Token>, LexError>)
      modifies this
      ensures r == Lex(text)
      ensures r.Ok? ==> index == |text| && lineno == LineAfter(text, 0, 1)
    {
      index, lineno := 0, 1;
      var toks: seq<Token> := [];
      match Lex(text) {
        case Ok(ts) => assert [] + ts == ts;
        case Err(_) =>
      }
      while index < |text|
        invariant index <= |text|
        invariant Lex(text) == Prepend(toks, LexFrom(text, index, lineno))
        invariant LineAfter(text, 0, 1) == LineAfter(text, index, lineno)
        decreases |text| - index
      {
        ghost var i, l := index, lineno;
        var emitted, err := Advance(text);
        if err.Some? {
          return Err(err.value);
        }
        if emitted.Some? {
          LexFromEmit(text, i, l, toks, emitted.value, index, lineno);
          toks := toks + [emitted.value];
        } else {
          LexFromSkip(text, i, l, index);
        }
      }
      assert toks + [] == toks;
      return Ok(toks);
    }
  }

  /** A skipped character or comment leaves the outcome unchanged. */
  lemma LexFromSkip(s: string, i: nat, lineno: nat, j: nat)
    requires i < |s|
    requires StepAt(s, i, lineno) == Skip(j)
    ensures LexFrom(s, i, lineno) == LexFrom(s, j, lineno)
  {
  }

  /** One emitted token moves from the outcome of the rest to the produced tokens. */
  lemma LexFromEmit(s: string, i: nat, lineno: nat, done: seq<Token>, t: Token, j: nat, l: nat)
    requires i < |s|
    requires StepAt(s, i, lineno) == Emit(t, j, l)
    ensures Prepend(done, LexFrom(s, i, lineno)) == Prepend(done + [t], LexFrom(s, j, l))
  {
    match LexFrom(s, j, l)
    case Ok(ts) => assert done + ([t] + ts) == (done + [t]) + ts;
    case Err(_) =>
  }
}
