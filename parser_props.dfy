/**
 * Properties of the shift-reduce parser: `find` returns the first matching production,
 * how single windows reduce, the operator precedence table against an independent
 * ranking of operator levels, and bounds on the residual stack.
 */
module ParserProperties {
  import opened Values
  import opened Parser

  // ---------------------------------------------------------------------------------------
  // `find` returns the first matching production in table order

  lemma {:induction false} FirstTrueIsFirst(v: seq<bool>, from: nat, k: nat)
    requires from <= k < |v|
    ensures FirstTrue(v, from) == Some(k) <==> v[k] && forall i :: from <= i < k ==> !v[i]
    decreases k - from
  {
    if from < k {
      FirstTrueIsFirst(v, from + 1, k);
    }
  }

  lemma {:induction false} FirstTrueNone(v: seq<bool>, from: nat)
    requires from <= |v|
    ensures FirstTrue(v, from).None? <==> forall i :: from <= i < |v| ==> !v[i]
    decreases |v| - from
  {
    if from < |v| {
      FirstTrueNone(v, from + 1);
    }
  }

  /** `find` picks rank k exactly when production k matches and no production ranked before it does. */
  lemma FirstMatchIsFirst(w: seq<Sym>, p: Option<TokenKind>, k: nat)
    requires k < GrammarSize
    ensures FirstMatch(w, p) == Some(k)
        <==> Matches(Grammar(k), w, p) && forall i :: 0 <= i < k ==> !Matches(Grammar(i), w, p)
  {
    FirstTrueIsFirst(MatchVector(w, p), 0, k);
  }

  /** `find` comes back empty exactly when no production matches. */
  lemma FirstMatchNone(w: seq<Sym>, p: Option<TokenKind>)
    ensures FirstMatch(w, p).None? <==> forall i :: 0 <= i < GrammarSize ==> !Matches(Grammar(i), w, p)
  {
    FirstTrueNone(MatchVector(w, p), 0);
  }

  // ---------------------------------------------------------------------------------------
  // Single windows

  /** The terminal production for each token kind: operators and literal kinds have one. */
  function TerminalRank(k: TokenKind): Option<nat> {
    match k
    case Plus => Some(0)
    case Times => Some(1)
    case Divide => Some(2)
    case Minus => Some(3)
    case Modulo => Some(4)
    case Power => Some(5)
    case Less => Some(6)
    case Greater => Some(7)
    case GreaterEqual => Some(8)
    case LessEqual => Some(9)
    case Equal => Some(10)
    case NotEqual => Some(11)
    case And => Some(12)
    case Or => Some(13)
    case Bang => Some(14)
    case IdentifierToken => Some(15)
    case BooleanToken => Some(16)
    case StringToken => Some(17)
    case NumberToken => Some(18)
    case _ => None
  }

  /** In a three-entry window with a binary operator node in the middle only rank 19 can match. */
  lemma OperatorMiddleFitsOnlyBinary(w: seq<Sym>, p: Option<TokenKind>, i: nat)
    requires |w| == 3 && w[1].BinaryOperator? && i < GrammarSize && i != 19
    ensures !Matches(Grammar(i), w, p)
  {
  }

  /** In a three-entry window with `=` in the middle only rank 26 can match. */
  lemma AssignMiddleFitsOnlyDeclaration(w: seq<Sym>, p: Option<TokenKind>, i: nat)
    requires |w| == 3 && w[1].Tok? && w[1].token.kind == Assign && i < GrammarSize && i != 26
    ensures !Matches(Grammar(i), w, p)
  {
  }

  /** In a three-entry window `Identifier => _` only rank 24 can match. */
  lemma ArrowMiddleFitsOnlyArrow(w: seq<Sym>, p: Option<TokenKind>, i: nat)
    requires |w| == 3 && w[0].IdentifierExpression? && w[1].Tok? && w[1].token.kind == FatArrow
    requires i < GrammarSize && i != 24
    ensures !Matches(Grammar(i), w, p)
  {
  }

  /** In a two-entry window topped by a file only rank 36 can match. */
  lemma FileTopFitsOnlyFileCons(w: seq<Sym>, p: Option<TokenKind>, i: nat)
    requires |w| == 2 && w[1].File? && i < GrammarSize && i != 36
    ensures !Matches(Grammar(i), w, p)
  {
  }

  /** In a two-entry window topped by the end marker only rank 35 can match. */
  lemma EndTopFitsOnlyFileEnd(w: seq<Sym>, p: Option<TokenKind>, i: nat)
    requires |w| == 2 && w[1] == Tok(EndToken) && i < GrammarSize && i != 35
    ensures !Matches(Grammar(i), w, p)
  {
  }

  /** A case under a default case or a pattern-matching expression fits only ranks 33 and 34. */
  lemma CaseFirstFitsOnlyCaseRules(w: seq<Sym>, p: Option<TokenKind>, i: nat)
    requires |w| == 2 && w[0].PatternMatchingCase?
    requires w[1].PatternMatchingDefault? || w[1].PatternMatchingExpression?
    requires i < GrammarSize && i != 33 && i != 34
    ensures !Matches(Grammar(i), w, p)
  {
  }

  /** A lone token fits only the terminal production of its own kind. */
  lemma TokenFitsOnlyItsTerminal(t: Token, p: Option<TokenKind>, i: nat)
    requires i < GrammarSize && TerminalRank(t.kind) != Some(i)
    ensures !Matches(Grammar(i), [Tok(t)], p)
  {
  }

  /** A lone node fits no production. */
  lemma NodeFitsNothingAlone(s: Sym, p: Option<TokenKind>, i: nat)
    requires !s.Tok? && i < GrammarSize
    ensures !Matches(Grammar(i), [s], p)
  {
  }

  /** `Expression BinaryOperator Expression` fits; its guard is op's precedence list. */
  lemma BinaryRuleMatches(left: Sym, op: TokenKind, right: Sym, p: Option<TokenKind>)
    requires IsExpression(left) && IsExpression(right)
    ensures Matches(Grammar(19), [left, BinaryOperator(op), right], p) <==> NotIn(p, Precedence(op))
  {
  }

  /** `Identifier = Expression` fits; its guard refuses operators and `=>`. */
  lemma DeclarationRuleMatches(name: string, assign: Literal, value: Sym, p: Option<TokenKind>)
    requires IsExpression(value)
    ensures Matches(Grammar(26), [IdentifierExpression(name), Tok(Token(Assign, assign)), value], p)
        <==> NotIn(p, Operators) && p != Some(FatArrow)
  {
  }

  /** `Identifier => Expression` fits; its guard refuses operators. */
  lemma ArrowRuleMatches(name: string, arrow: Literal, body: Sym, p: Option<TokenKind>)
    requires IsExpression(body)
    ensures Matches(Grammar(24), [IdentifierExpression(name), Tok(Token(FatArrow, arrow)), body], p)
        <==> NotIn(p, Operators)
  {
  }

  /**
   * A token alone on top of the stack is rewritten at once by its terminal production,
   * whatever the lookahead; punctuation tokens have none and wait for a longer window.
   */
  lemma TokenWindow(t: Token, p: Option<TokenKind>)
    ensures FirstMatch([Tok(t)], p) == TerminalRank(t.kind)
  {
    forall i | 0 <= i < GrammarSize && TerminalRank(t.kind) != Some(i)
      ensures !Matches(Grammar(i), [Tok(t)], p)
    {
      TokenFitsOnlyItsTerminal(t, p, i);
    }
    match TerminalRank(t.kind)
    case Some(k) =>
      FirstMatchIsFirst([Tok(t)], p, k);
    case None =>
      FirstMatchNone([Tok(t)], p);
  }

  /** A single node never reduces on its own: every production of length one is a terminal. */
  lemma NodeWindowIrreducible(s: Sym, p: Option<TokenKind>)
    requires !s.Tok?
    ensures FirstMatch([s], p).None?
  {
    forall i | 0 <= i < GrammarSize ensures !Matches(Grammar(i), [s], p) {
      NodeFitsNothingAlone(s, p, i);
    }
    FirstMatchNone([s], p);
  }

  /** A stack entry built by a production: neither a raw token nor a list. */
  predicate IsNode(s: Sym) {
    !s.Tok? && !s.ListOf?
  }

  predicate IsExpression(s: Sym) {
    KindOf(s).Nonterminal? && IsExpressionKind(KindOf(s).n)
  }

  /**
   * `left op right` is reduced to a binary expression exactly when the lookahead does not
   * appear in op's precedence list; otherwise nothing reduces the window.
   */
  lemma BinaryWindow(left: Sym, op: TokenKind, right: Sym, p: Option<TokenKind>)
    requires IsExpression(left) && IsExpression(right)
    ensures FirstMatch([left, BinaryOperator(op), right], p)
         == if NotIn(p, Precedence(op)) then Some(19) else None
  {
    var w := [left, BinaryOperator(op), right];
    BinaryRuleMatches(left, op, right, p);
    forall i | 0 <= i < GrammarSize && i != 19 ensures !Matches(Grammar(i), w, p) {
      OperatorMiddleFitsOnlyBinary(w, p, i);
    }
    if NotIn(p, Precedence(op)) {
      FirstMatchIsFirst(w, p, 19);
    } else {
      FirstMatchNone(w, p);
    }
  }

  /** `name = value` becomes a declaration unless an operator or `=>` follows. */
  lemma DeclarationWindow(name: string, assign: Literal, value: Sym, p: Option<TokenKind>)
    requires IsExpression(value)
    ensures FirstMatch([IdentifierExpression(name), Tok(Token(Assign, assign)), value], p)
         == if NotIn(p, Operators) && p != Some(FatArrow) then Some(26) else None
  {
    var w := [IdentifierExpression(name), Tok(Token(Assign, assign)), value];
    DeclarationRuleMatches(name, assign, value, p);
    forall i | 0 <= i < GrammarSize && i != 26 ensures !Matches(Grammar(i), w, p) {
      AssignMiddleFitsOnlyDeclaration(w, p, i);
    }
    if NotIn(p, Operators) && p != Some(FatArrow) {
      FirstMatchIsFirst(w, p, 26);
    } else {
      FirstMatchNone(w, p);
    }
  }

  /** `name => body` becomes a one-parameter function unless an operator follows. */
  lemma ArrowWindow(name: string, arrow: Literal, body: Sym, p: Option<TokenKind>)
    requires IsExpression(body)
    ensures FirstMatch([IdentifierExpression(name), Tok(Token(FatArrow, arrow)), body], p)
         == if NotIn(p, Operators) then Some(24) else None
  {
    var w := [IdentifierExpression(name), Tok(Token(FatArrow, arrow)), body];
    ArrowRuleMatches(name, arrow, body, p);
    forall i | 0 <= i < GrammarSize && i != 24 ensures !Matches(Grammar(i), w, p) {
      ArrowMiddleFitsOnlyArrow(w, p, i);
    }
    if NotIn(p, Operators) {
      FirstMatchIsFirst(w, p, 24);
    } else {
      FirstMatchNone(w, p);
    }
  }

  // ---------------------------------------------------------------------------------------
  // Operator precedence

  /**
   * Binding strength of the binary operators, tightest first: `**`, then `*` `/` `%`, then
   * `+` `-`, then comparisons and the logical operators.
   */
  function Level(op: TokenKind): nat {
    if op == Power then 1
    else if op in [Times, Divide, Modulo] then 2
    else if op in [Plus, Minus] then 3
    else 4
  }

  /**
   * A binary operator's reduction is blocked exactly by `!`, `(`, `.` and the binary
   * operators of a strictly tighter level.
   */
  lemma PrecedenceFollowsLevels(op: TokenKind, t: TokenKind)
    requires op in BinaryOperators
    ensures t in Precedence(op) <==> t in [Bang, LParen, Dot] || (t in BinaryOperators && Level(t) < Level(op))
  {
    if op == Power {
      assert t in Precedence(op) <==> t in [Bang, LParen, Dot];
      TighterOperators(t);
    } else if op in [Times, Divide, Modulo] {
      ProductPrecedence(op, t);
    } else if op in [Plus, Minus] {
      SumPrecedence(op, t);
    } else {
      ComparisonPrecedence(op, t);
    }
  }

  /** The binary operators strictly tighter than each of the looser levels. */
  lemma TighterOperators(t: TokenKind)
    ensures (t in BinaryOperators && Level(t) < 2) <==> t == Power
    ensures (t in BinaryOperators && Level(t) < 3) <==> t in [Power, Times, Modulo, Divide]
    ensures (t in BinaryOperators && Level(t) < 4) <==> t in [Power, Times, Modulo, Divide, Plus, Minus]
  {
  }

  lemma ProductPrecedence(op: TokenKind, t: TokenKind)
    requires op in [Times, Divide, Modulo]
    ensures t in Precedence(op) <==> t in [Bang, LParen, Dot] || (t in BinaryOperators && Level(t) < Level(op))
  {
    assert t in Precedence(op) <==> t in [Bang, LParen, Dot, Power];
    assert Level(op) == 2;
    TighterOperators(t);
  }

  lemma SumPrecedence(op: TokenKind, t: TokenKind)
    requires op in [Plus, Minus]
    ensures t in Precedence(op) <==> t in [Bang, LParen, Dot] || (t in BinaryOperators && Level(t) < Level(op))
  {
    assert t in Precedence(op) <==> t in [Bang, LParen, Dot, Power, Times, Modulo, Divide];
    assert Level(op) == 3;
    TighterOperators(t);
  }

  lemma ComparisonPrecedence(op: TokenKind, t: TokenKind)
    requires op in BinaryOperators && op !in [Power, Times, Divide, Modulo, Plus, Minus]
    ensures t in Precedence(op) <==> t in [Bang, LParen, Dot] || (t in BinaryOperators && Level(t) < Level(op))
  {
    ComparisonOperators(op);
    ComparisonBlockers(op, t);
    TighterOperators(t);
  }

  /** The binary operators outside the three tight levels are the comparisons and `&&`, `||`. */
  lemma ComparisonOperators(op: TokenKind)
    requires op in BinaryOperators && op !in [Power, Times, Divide, Modulo, Plus, Minus]
    ensures op in [Less, Greater, GreaterEqual, LessEqual, Equal, NotEqual, And, Or]
    ensures Level(op) == 4
  {
  }

  /** Every comparison and logical operator waits for the same lookahead kinds. */
  lemma ComparisonBlockers(op: TokenKind, t: TokenKind)
    requires op in [Less, Greater, GreaterEqual, LessEqual, Equal, NotEqual, And, Or]
    ensures t in Precedence(op) <==> t in [Bang, LParen, Dot, Power, Times, Modulo, Divide, Plus, Minus]
  {
    if op in [Less, Greater, GreaterEqual, LessEqual] {
      OrderingBlockers(op, t);
    } else {
      EqualityBlockers(op, t);
    }
  }

  lemma OrderingBlockers(op: TokenKind, t: TokenKind)
    requires op in [Less, Greater, GreaterEqual, LessEqual]
    ensures t in Precedence(op) <==> t in [Bang, LParen, Dot, Power, Times, Modulo, Divide, Plus, Minus]
  {
  }

  lemma EqualityBlockers(op: TokenKind, t: TokenKind)
    requires op in [Equal, NotEqual, And, Or]
    ensures t in Precedence(op) <==> t in [Bang, LParen, Dot, Power, Times, Modulo, Divide, Plus, Minus]
  {
  }

  /**
   * Operators of one level are left associative: in `a op1 b op2 c` with op1 and op2 of the
   * same level, `a op1 b` reduces before op2 is shifted.
   */
  lemma SameLevelReducesLeftFirst(op1: TokenKind, op2: TokenKind, left: Sym, right: Sym)
    requires op1 in BinaryOperators && op2 in BinaryOperators && Level(op1) == Level(op2)
    requires IsExpression(left) && IsExpression(right)
    ensures FirstMatch([left, BinaryOperator(op1), right], Some(op2)) == Some(19)
  {
    PrecedenceFollowsLevels(op1, op2);
    BinaryWindow(left, op1, right, Some(op2));
  }

  /** A tighter operator after the right operand makes the looser one wait. */
  lemma TighterLevelWaits(op1: TokenKind, op2: TokenKind, left: Sym, right: Sym)
    requires op1 in BinaryOperators && op2 in BinaryOperators && Level(op2) < Level(op1)
    requires IsExpression(left) && IsExpression(right)
    ensures FirstMatch([left, BinaryOperator(op1), right], Some(op2)) == None
  {
    PrecedenceFollowsLevels(op1, op2);
    BinaryWindow(left, op1, right, Some(op2));
  }

  // ---------------------------------------------------------------------------------------
  // The stack

  lemma {:induction false} ScanNeverGrows(s: seq<Sym>, p: Option<TokenKind>, j: nat)
    requires 1 <= j
    ensures |Scan(s, p, j)| <= |s|
    decreases Weight(s), 6 - j
  {
    if j <= Min(5, |s|) {
      var window := s[|s| - j..];
      var found := FirstMatch(window, p);
      if found.Some? {
        ScanReduces(s, p, j, found.value);
        var r := Grammar(found.value);
        BuildSize(r, window);
        ScanNeverGrows(Reduce(s, j, r), p, 1);
      } else {
        ScanSkips(s, p, j);
        ScanNeverGrows(s, p, j + 1);
      }
    }
  }

  /** No window of the top 1..5 entries matches any production. */
  predicate Irreducible(s: seq<Sym>, p: Option<TokenKind>) {
    forall k :: 1 <= k <= Min(5, |s|) ==> FirstMatch(Top(s, k), p).None?
  }

  /** The top k entries of the stack. */
  function Top(s: seq<Sym>, k: nat): seq<Sym>
    requires k <= |s|
  {
    s[|s| - k..]
  }

  /** Windows 1..j-1 and then window j found nothing: windows 1..j found nothing. */
  lemma OneMoreWindowSkipped(s: seq<Sym>, p: Option<TokenKind>, j: nat)
    requires 1 <= j <= |s|
    requires forall k :: 1 <= k < j && k <= |s| ==> FirstMatch(Top(s, k), p).None?
    requires FirstMatch(Top(s, j), p).None?
    ensures forall k :: 1 <= k < j + 1 && k <= |s| ==> FirstMatch(Top(s, k), p).None?
  {
  }

  /** The cascade only stops once no window on top of the stack can be reduced. */
  lemma {:induction false} ScanEndsIrreducible(s: seq<Sym>, p: Option<TokenKind>, j: nat)
    requires 1 <= j
    requires forall k :: 1 <= k < j && k <= |s| ==> FirstMatch(Top(s, k), p).None?
    ensures Irreducible(Scan(s, p, j), p)
    decreases Weight(s), 6 - j, 1
  {
    if j <= Min(5, |s|) {
      var found := FirstMatch(Top(s, j), p);
      if found.Some? {
        ReducedIrreducible(s, p, j, found.value);
      } else {
        SkippedIrreducible(s, p, j);
      }
    } else {
      ScanStops(s, p, j);
      StopIsIrreducible(s, p, j);
    }
  }

  /** A window that reduces restarts the cascade on a lighter stack. */
  lemma {:induction false} ReducedIrreducible(s: seq<Sym>, p: Option<TokenKind>, j: nat, i: nat)
    requires 1 <= j <= Min(5, |s|) && FirstMatch(Top(s, j), p) == Some(i)
    ensures Irreducible(Scan(s, p, j), p)
    decreases Weight(s), 6 - j, 0
  {
    ScanReduces(s, p, j, i);
    var next := Reduce(s, j, Grammar(i));
    ScanEndsIrreducible(next, p, 1);
    IrreducibleCarries(Scan(next, p, 1), Scan(s, p, j), p);
  }

  /** A window that does not reduce passes the cascade on to the next longer one. */
  lemma {:induction false} SkippedIrreducible(s: seq<Sym>, p: Option<TokenKind>, j: nat)
    requires 1 <= j <= Min(5, |s|) && FirstMatch(Top(s, j), p).None?
    requires forall k :: 1 <= k < j && k <= |s| ==> FirstMatch(Top(s, k), p).None?
    ensures Irreducible(Scan(s, p, j), p)
    decreases Weight(s), 6 - j, 0
  {
    ScanSkips(s, p, j);
    OneMoreWindowSkipped(s, p, j);
    ScanEndsIrreducible(s, p, j + 1);
    IrreducibleCarries(Scan(s, p, j + 1), Scan(s, p, j), p);
  }

  lemma IrreducibleCarries(a: seq<Sym>, b: seq<Sym>, p: Option<TokenKind>)
    requires a == b && Irreducible(a, p)
    ensures Irreducible(b, p)
  {
  }

  /** Once every window up to min(5, |s|) was passed over, the stack is irreducible. */
  lemma StopIsIrreducible(s: seq<Sym>, p: Option<TokenKind>, j: nat)
    requires 1 <= j && Min(5, |s|) < j
    requires forall k :: 1 <= k < j && k <= |s| ==> FirstMatch(Top(s, k), p).None?
    ensures Irreducible(s, p)
  {
  }

  lemma {:induction false} ShiftFromBound(tokens: seq<Token>, i: nat, stack: seq<Sym>)
    requires i <= |tokens|
    ensures |ShiftFrom(tokens, i, stack)| <= |stack| + |tokens| - i
    decreases |tokens| - i
  {
    if i < |tokens| {
      var pushed := stack + [Tok(tokens[i])];
      ScanNeverGrows(pushed, PeekAt(tokens, i), 1);
      ShiftFromBound(tokens, i + 1, Scan(pushed, PeekAt(tokens, i), 1));
    }
  }

  /** The residual stack holds at most one entry per token plus one for the end marker. */
  lemma ParseResultBound(tokens: seq<Token>)
    ensures |ParseResult(tokens)| <= |tokens| + 1
  {
    ShiftFromBound(tokens + [EndToken], 0, []);
  }

  lemma {:induction false} ShiftFromEndsIrreducible(tokens: seq<Token>, i: nat, stack: seq<Sym>)
    requires i < |tokens|
    ensures Irreducible(ShiftFrom(tokens, i, stack), None)
    decreases |tokens| - i
  {
    var pushed := stack + [Tok(tokens[i])];
    if i + 1 < |tokens| {
      ShiftFromEndsIrreducible(tokens, i + 1, Scan(pushed, PeekAt(tokens, i), 1));
    } else {
      ScanEndsIrreducible(pushed, PeekAt(tokens, i), 1);
    }
  }

  /** After the end marker no window of the residual stack matches any production. */
  lemma ParseResultIrreducible(tokens: seq<Token>)
    ensures Irreducible(ParseResult(tokens), None)
  {
    ShiftFromEndsIrreducible(tokens + [EndToken], 0, []);
  }
}
