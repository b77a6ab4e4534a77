/**
 * How the parser groups `x o1 y o2 z` for number literals x, y, z and binary operators
 * o1, o2: the right operation nests when o2 binds tighter than o1, the left one otherwise.
 * Each `Shift...` lemma follows the reduction cascade run after one pushed token, from the
 * stack the previous tokens left; in order they cover the whole input `x o1 y o2 z $`.
 */
module ParserPrecedence {
  import opened Values
  import opened Parser
  import opened ParserProperties

  function NumberTok(n: int): Token {
    Token(NumberToken, NumberLiteral(n))
  }

  /** A token that carries no value: an operator or a punctuation mark. */
  function PlainTok(o: TokenKind): Token {
    Token(o, NoLiteral)
  }

  lemma NumberIsExpression(n: int)
    ensures IsExpression(NumberExpression(n))
  {
  }

  lemma BinaryIsExpression(l: Sym, r: Sym, o: Sym)
    ensures IsExpression(BinaryExpression(l, r, o))
  {
  }

  /** The positions of five tokens followed by `$`. */
  lemma SpellsFive(ts: seq<Token>, t0: Token, t1: Token, t2: Token, t3: Token, t4: Token)
    requires ts == [t0, t1, t2, t3, t4] + [EndToken]
    ensures |ts| == 6 && ts[0] == t0 && ts[1] == t1 && ts[2] == t2 && ts[3] == t3 && ts[4] == t4
    ensures ts[5] == EndToken
  {
  }

  /** The positions of seven tokens followed by `$`. */
  lemma SpellsSeven(ts: seq<Token>, t0: Token, t1: Token, t2: Token, t3: Token, t4: Token, t5: Token, t6: Token)
    requires ts == [t0, t1, t2, t3, t4, t5, t6] + [EndToken]
    ensures |ts| == 8 && ts[0] == t0 && ts[1] == t1 && ts[2] == t2 && ts[3] == t3
    ensures ts[4] == t4 && ts[5] == t5 && ts[6] == t6 && ts[7] == EndToken
  {
  }

  // ---------------------------------------------------------------------------------------
  // Windows that no production matches

  lemma ExpressionThenOperator(e: Sym, o: TokenKind, p: Option<TokenKind>)
    requires IsExpression(e)
    ensures FirstMatch([e, BinaryOperator(o)], p).None?
  {
    FirstMatchNone([e, BinaryOperator(o)], p);
  }

  lemma OperatorThenExpression(o: TokenKind, e: Sym, p: Option<TokenKind>)
    requires IsExpression(e)
    ensures FirstMatch([BinaryOperator(o), e], p).None?
  {
    FirstMatchNone([BinaryOperator(o), e], p);
  }

  lemma OperatorExpressionOperator(o1: TokenKind, e: Sym, o2: TokenKind, p: Option<TokenKind>)
    requires IsExpression(e)
    ensures FirstMatch([BinaryOperator(o1), e, BinaryOperator(o2)], p).None?
  {
    FirstMatchNone([BinaryOperator(o1), e, BinaryOperator(o2)], p);
  }

  lemma TwoOperands(a: Sym, o1: TokenKind, b: Sym, o2: TokenKind, p: Option<TokenKind>)
    requires IsExpression(a) && IsExpression(b)
    ensures FirstMatch([a, BinaryOperator(o1), b, BinaryOperator(o2)], p).None?
  {
    FirstMatchNone([a, BinaryOperator(o1), b, BinaryOperator(o2)], p);
  }

  /** The end marker alone matches no production. */
  lemma EndAlone(p: Option<TokenKind>)
    ensures FirstMatch([Tok(EndToken)], p).None?
  {
    TokenWindow(EndToken, p);
  }

  /** Rank 35 fits a node over the end marker and makes a one-node file. */
  lemma FileEndFits(n: Sym, p: Option<TokenKind>)
    requires IsNode(n)
    ensures Matches(Grammar(35), [n, Tok(EndToken)], p)
    ensures Build(Grammar(35), [n, Tok(EndToken)]) == [File([n])]
  {
    assert Grammar(35) == FileEnd;
  }

  /** Any node followed by the end marker becomes a one-statement file. */
  lemma NodeThenEnd(n: Sym, p: Option<TokenKind>)
    requires IsNode(n)
    ensures FirstMatch([n, Tok(EndToken)], p) == Some(35)
    ensures Build(Grammar(35), [n, Tok(EndToken)]) == [File([n])]
  {
    forall i | 0 <= i < 35 ensures !Matches(Grammar(i), [n, Tok(EndToken)], p) {
      EndTopFitsOnlyFileEnd([n, Tok(EndToken)], p, i);
    }
    FileEndFits(n, p);
    FirstMatchIsFirst([n, Tok(EndToken)], p, 35);
  }

  // ---------------------------------------------------------------------------------------
  // Cascade steps

  /** No production matches the top j entries: the scan moves on to j + 1. */
  lemma PassOver(s: seq<Sym>, p: Option<TokenKind>, j: nat, w: seq<Sym>)
    requires 1 <= j <= Min(5, |s|) && s[|s| - j..] == w && FirstMatch(w, p).None?
    ensures Scan(s, p, j) == Scan(s, p, j + 1)
  {
    ScanSkips(s, p, j);
  }

  /** Production k matches the top j entries, which are replaced by `built`. */
  lemma ReduceTop(s: seq<Sym>, p: Option<TokenKind>, j: nat, w: seq<Sym>, k: nat, built: seq<Sym>)
    requires 1 <= j <= Min(5, |s|) && s[|s| - j..] == w && FirstMatch(w, p) == Some(k)
    requires k < GrammarSize && FitsShape(Grammar(k), w) && Build(Grammar(k), w) == built
    ensures Scan(s, p, j) == Scan(s[..|s| - j] + built, p, 1)
  {
    ScanReduces(s, p, j, k);
  }

  lemma NumberRewrites(n: int, p: Option<TokenKind>)
    ensures FirstMatch([Tok(NumberTok(n))], p) == Some(18)
    ensures Build(Grammar(18), [Tok(NumberTok(n))]) == [NumberExpression(n)]
  {
    TokenWindow(NumberTok(n), p);
  }

  lemma OperatorRewrites(o: TokenKind, p: Option<TokenKind>)
    requires o in BinaryOperators
    ensures TerminalRank(o).Some? && TerminalRank(o).value < |BinaryOperators|
    ensures FirstMatch([Tok(PlainTok(o))], p) == TerminalRank(o)
    ensures Build(Grammar(TerminalRank(o).value), [Tok(PlainTok(o))]) == [BinaryOperator(o)]
  {
    TokenWindow(PlainTok(o), p);
  }

  /** A lone node on the stack stays as it is. */
  lemma SettledSingle(n: Sym, p: Option<TokenKind>)
    requires !n.Tok?
    ensures Scan([n], p, 1) == [n]
  {
    NodeWindowIrreducible(n, p);
    PassOver([n], p, 1, [n]);
    ScanStops([n], p, 2);
  }

  /** A pushed number token is rewritten at once to a number node. */
  lemma PushNumber(s: seq<Sym>, n: int, p: Option<TokenKind>, pushed: seq<Sym>, rewritten: seq<Sym>)
    requires pushed == s + [Tok(NumberTok(n))] && rewritten == s + [NumberExpression(n)]
    ensures Scan(pushed, p, 1) == Scan(rewritten, p, 1)
  {
    NumberRewrites(n, p);
    ReduceTop(pushed, p, 1, [Tok(NumberTok(n))], 18, [NumberExpression(n)]);
    assert pushed[..|pushed| - 1] == s;
  }

  /** A pushed binary operator token is rewritten at once to an operator node. */
  lemma PushOperator(s: seq<Sym>, o: TokenKind, p: Option<TokenKind>, pushed: seq<Sym>, rewritten: seq<Sym>)
    requires o in BinaryOperators
    requires pushed == s + [Tok(PlainTok(o))] && rewritten == s + [BinaryOperator(o)]
    ensures Scan(pushed, p, 1) == Scan(rewritten, p, 1)
  {
    OperatorRewrites(o, p);
    ReduceTop(pushed, p, 1, [Tok(PlainTok(o))], TerminalRank(o).value, [BinaryOperator(o)]);
    assert pushed[..|pushed| - 1] == s;
  }

  /** `a o b` on top of the stack reduces under a lookahead that does not block o. */
  lemma ReduceBinary(below: seq<Sym>, a: Sym, o: TokenKind, b: Sym, p: Option<TokenKind>, s: seq<Sym>, reduced: seq<Sym>)
    requires IsExpression(a) && IsExpression(b) && NotIn(p, Precedence(o))
    requires s == below + [a, BinaryOperator(o), b] && reduced == below + [BinaryExpression(a, b, BinaryOperator(o))]
    ensures Scan(s, p, 3) == Scan(reduced, p, 1)
  {
    BinaryWindow(a, o, b, p);
    assert s[|s| - 3..] == [a, BinaryOperator(o), b];
    ReduceTop(s, p, 3, [a, BinaryOperator(o), b], 19, [BinaryExpression(a, b, BinaryOperator(o))]);
    assert s[..|s| - 3] == below;
  }

  lemma ShiftFirstOperand(x: int, p: Option<TokenKind>)
    ensures Scan([Tok(NumberTok(x))], p, 1) == [NumberExpression(x)]
  {
    calc {
      Scan([Tok(NumberTok(x))], p, 1);
      { PushNumber([], x, p, [Tok(NumberTok(x))], [NumberExpression(x)]); }
      Scan([NumberExpression(x)], p, 1);
      { SettledSingle(NumberExpression(x), p); }
      [NumberExpression(x)];
    }
  }

  lemma ShiftOperator(e: Sym, o: TokenKind, p: Option<TokenKind>)
    requires IsExpression(e) && o in BinaryOperators
    ensures Scan([e, Tok(PlainTok(o))], p, 1) == [e, BinaryOperator(o)]
  {
    var s := [e, BinaryOperator(o)];
    calc {
      Scan([e, Tok(PlainTok(o))], p, 1);
      { PushOperator([e], o, p, [e, Tok(PlainTok(o))], s); }
      Scan(s, p, 1);
      { NodeWindowIrreducible(BinaryOperator(o), p); PassOver(s, p, 1, [BinaryOperator(o)]); }
      Scan(s, p, 2);
      { ExpressionThenOperator(e, o, p); PassOver(s, p, 2, s); }
      Scan(s, p, 3);
      { ScanStops(s, p, 3); }
      s;
    }
  }

  /** The second operand arrives; the left operation reduces unless the lookahead binds tighter. */
  lemma ShiftSecondOperand(a: Sym, o1: TokenKind, y: int, o2: TokenKind)
    requires IsExpression(a)
    ensures Scan([a, BinaryOperator(o1), Tok(NumberTok(y))], Some(o2), 1)
         == if o2 in Precedence(o1) then [a, BinaryOperator(o1), NumberExpression(y)]
            else [BinaryExpression(a, NumberExpression(y), BinaryOperator(o1))]
  {
    var p := Some(o2);
    var s := [a, BinaryOperator(o1), NumberExpression(y)];
    calc {
      Scan([a, BinaryOperator(o1), Tok(NumberTok(y))], p, 1);
      { PushNumber([a, BinaryOperator(o1)], y, p, [a, BinaryOperator(o1), Tok(NumberTok(y))], s); }
      Scan(s, p, 1);
      { NodeWindowIrreducible(NumberExpression(y), p); PassOver(s, p, 1, [NumberExpression(y)]); }
      Scan(s, p, 2);
      { OperatorThenExpression(o1, NumberExpression(y), p); PassOver(s, p, 2, s[1..]); }
      Scan(s, p, 3);
    }
    if o2 in Precedence(o1) {
      BinaryWindow(a, o1, NumberExpression(y), p);
      PassOver(s, p, 3, s);
      ScanStops(s, p, 4);
    } else {
      var e := BinaryExpression(a, NumberExpression(y), BinaryOperator(o1));
      calc {
        Scan(s, p, 3);
        { ReduceBinary([], a, o1, NumberExpression(y), p, s, [e]); }
        Scan([e], p, 1);
        { SettledSingle(e, p); }
        [e];
      }
    }
  }

  /** The second operator is pushed behind an unreduced `a o1 y`. */
  lemma ShiftSecondOperator(a: Sym, o1: TokenKind, y: int, o2: TokenKind)
    requires IsExpression(a) && o2 in BinaryOperators
    ensures Scan([a, BinaryOperator(o1), NumberExpression(y), Tok(PlainTok(o2))], Some(NumberToken), 1)
         == [a, BinaryOperator(o1), NumberExpression(y), BinaryOperator(o2)]
  {
    var p := Some(NumberToken);
    var s := [a, BinaryOperator(o1), NumberExpression(y), BinaryOperator(o2)];
    calc {
      Scan([a, BinaryOperator(o1), NumberExpression(y), Tok(PlainTok(o2))], p, 1);
      { PushOperator([a, BinaryOperator(o1), NumberExpression(y)], o2, p, [a, BinaryOperator(o1), NumberExpression(y), Tok(PlainTok(o2))], s); }
      Scan(s, p, 1);
      { NodeWindowIrreducible(BinaryOperator(o2), p); PassOver(s, p, 1, [BinaryOperator(o2)]); }
      Scan(s, p, 2);
      { ExpressionThenOperator(NumberExpression(y), o2, p); PassOver(s, p, 2, s[2..]); }
      Scan(s, p, 3);
      { OperatorExpressionOperator(o1, NumberExpression(y), o2, p); PassOver(s, p, 3, s[1..]); }
      Scan(s, p, 4);
      { TwoOperands(a, o1, NumberExpression(y), o2, p); PassOver(s, p, 4, s); }
      Scan(s, p, 5);
      { ScanStops(s, p, 5); }
      s;
    }
  }

  /** The last operand completes `a o z` and the whole expression reduces. */
  lemma ShiftLastOperand(a: Sym, o: TokenKind, z: int)
    requires IsExpression(a)
    ensures Scan([a, BinaryOperator(o), Tok(NumberTok(z))], Some(End), 1)
         == [BinaryExpression(a, NumberExpression(z), BinaryOperator(o))]
  {
    var p := Some(End);
    var s := [a, BinaryOperator(o), NumberExpression(z)];
    var e := BinaryExpression(a, NumberExpression(z), BinaryOperator(o));
    calc {
      Scan([a, BinaryOperator(o), Tok(NumberTok(z))], p, 1);
      { PushNumber([a, BinaryOperator(o)], z, p, [a, BinaryOperator(o), Tok(NumberTok(z))], s); }
      Scan(s, p, 1);
      { NodeWindowIrreducible(NumberExpression(z), p); PassOver(s, p, 1, [NumberExpression(z)]); }
      Scan(s, p, 2);
      { OperatorThenExpression(o, NumberExpression(z), p); PassOver(s, p, 2, s[1..]); }
      Scan(s, p, 3);
      { ReduceBinary([], a, o, NumberExpression(z), p, s, [e]); }
      Scan([e], p, 1);
      { SettledSingle(e, p); }
      [e];
    }
  }

  /** The last operand of `a o1 y o2 z` when o2 binds tighter: the right operation reduces first. */
  lemma ShiftLastOperandNested(a: Sym, o1: TokenKind, y: int, o2: TokenKind, z: int)
    requires IsExpression(a)
    ensures Scan([a, BinaryOperator(o1), NumberExpression(y), BinaryOperator(o2), Tok(NumberTok(z))], Some(End), 1)
         == [BinaryExpression(a,
                              BinaryExpression(NumberExpression(y), NumberExpression(z), BinaryOperator(o2)),
                              BinaryOperator(o1))]
  {
    var p := Some(End);
    var front := [a, BinaryOperator(o1)];
    var s := [a, BinaryOperator(o1), NumberExpression(y), BinaryOperator(o2), NumberExpression(z)];
    var inner := BinaryExpression(NumberExpression(y), NumberExpression(z), BinaryOperator(o2));
    var s' := [a, BinaryOperator(o1), inner];
    calc {
      Scan([a, BinaryOperator(o1), NumberExpression(y), BinaryOperator(o2), Tok(NumberTok(z))], p, 1);
      { PushNumber([a, BinaryOperator(o1), NumberExpression(y), BinaryOperator(o2)], z, p, [a, BinaryOperator(o1), NumberExpression(y), BinaryOperator(o2), Tok(NumberTok(z))], s); }
      Scan(s, p, 1);
      { NodeWindowIrreducible(NumberExpression(z), p); PassOver(s, p, 1, [NumberExpression(z)]); }
      Scan(s, p, 2);
      { OperatorThenExpression(o2, NumberExpression(z), p); PassOver(s, p, 2, s[3..]); }
      Scan(s, p, 3);
      { ReduceBinary(front, NumberExpression(y), o2, NumberExpression(z), p, s, s'); }
      Scan(s', p, 1);
      { NodeWindowIrreducible(inner, p); PassOver(s', p, 1, [inner]); }
      Scan(s', p, 2);
      { OperatorThenExpression(o1, inner, p); PassOver(s', p, 2, s'[1..]); }
      Scan(s', p, 3);
      { ShiftLastOperandTail(a, o1, inner); }
      [BinaryExpression(a, inner, BinaryOperator(o1))];
    }
  }

  lemma ShiftLastOperandTail(a: Sym, o1: TokenKind, inner: Sym)
    requires IsExpression(a) && IsExpression(inner)
    ensures Scan([a, BinaryOperator(o1), inner], Some(End), 3)
         == [BinaryExpression(a, inner, BinaryOperator(o1))]
  {
    var e := BinaryExpression(a, inner, BinaryOperator(o1));
    calc {
      Scan([a, BinaryOperator(o1), inner], Some(End), 3);
      { ReduceBinary([], a, o1, inner, Some(End), [a, BinaryOperator(o1), inner], [e]); }
      Scan([e], Some(End), 1);
      { SettledSingle(e, Some(End)); }
      [e];
    }
  }

  lemma EndMakesFile(e: Sym)
    requires IsNode(e)
    ensures Scan([e, Tok(EndToken)], None, 2) == Scan([File([e])], None, 1)
  {
    var pushed := [e, Tok(EndToken)];
    NodeThenEnd(e, None);
    ReduceTop(pushed, None, 2, pushed, 35, [File([e])]);
    assert pushed[..0] + [File([e])] == [File([e])];
  }

  /** The end marker turns the finished statement or expression into a file. */
  lemma ShiftEnd(e: Sym)
    requires IsNode(e)
    ensures Scan([e, Tok(EndToken)], None, 1) == [File([e])]
  {
    var pushed := [e, Tok(EndToken)];
    calc {
      Scan(pushed, None, 1);
      { EndAlone(None); PassOver(pushed, None, 1, [Tok(EndToken)]); }
      Scan(pushed, None, 2);
      { EndMakesFile(e); }
      Scan([File([e])], None, 1);
      { SettledSingle(File([e]), None); }
      [File([e])];
    }
  }

  // ---------------------------------------------------------------------------------------
  // Whole inputs

  /**
   * One iteration of `parse`'s outer loop: token i, here `t` with lookahead `p`, is pushed
   * onto `s` and the cascade leaves `next`.
   */
  lemma {:induction false} Shifted(ts: seq<Token>, i: nat, s: seq<Sym>, t: Token, p: Option<TokenKind>, next: seq<Sym>)
    requires i < |ts| && ts[i] == t && PeekAt(ts, i) == p
    requires Scan(s + [Tok(t)], p, 1) == next
    ensures ShiftFrom(ts, i, s) == ShiftFrom(ts, i + 1, next)
  {
  }

  // Each `Step...` lemma is one iteration of `parse`'s outer loop, stated on the input `ts`.

  lemma {:induction false} StepFirstOperand(ts: seq<Token>, x: int, p: Option<TokenKind>)
    requires 0 < |ts| && ts[0] == NumberTok(x) && PeekAt(ts, 0) == p
    ensures ShiftFrom(ts, 0, []) == ShiftFrom(ts, 1, [NumberExpression(x)])
  {
    ShiftFirstOperand(x, p);
    assert [] + [Tok(NumberTok(x))] == [Tok(NumberTok(x))];
    Shifted(ts, 0, [], NumberTok(x), p, [NumberExpression(x)]);
  }

  lemma {:induction false} StepOperator(ts: seq<Token>, i: nat, e: Sym, o: TokenKind)
    requires i < |ts| && ts[i] == PlainTok(o) && PeekAt(ts, i) == Some(NumberToken)
    requires IsExpression(e) && o in BinaryOperators
    ensures ShiftFrom(ts, i, [e]) == ShiftFrom(ts, i + 1, [e, BinaryOperator(o)])
  {
    ShiftOperator(e, o, Some(NumberToken));
    assert [e] + [Tok(PlainTok(o))] == [e, Tok(PlainTok(o))];
    Shifted(ts, i, [e], PlainTok(o), Some(NumberToken), [e, BinaryOperator(o)]);
  }

  lemma {:induction false} StepSecondOperand(ts: seq<Token>, i: nat, a: Sym, o1: TokenKind, y: int, o2: TokenKind)
    requires i < |ts| && ts[i] == NumberTok(y) && PeekAt(ts, i) == Some(o2) && IsExpression(a)
    ensures ShiftFrom(ts, i, [a, BinaryOperator(o1)])
         == ShiftFrom(ts, i + 1, if o2 in Precedence(o1) then [a, BinaryOperator(o1), NumberExpression(y)]
                                 else [BinaryExpression(a, NumberExpression(y), BinaryOperator(o1))])
  {
    ShiftSecondOperand(a, o1, y, o2);
    assert [a, BinaryOperator(o1)] + [Tok(NumberTok(y))] == [a, BinaryOperator(o1), Tok(NumberTok(y))];
    Shifted(ts, i, [a, BinaryOperator(o1)], NumberTok(y), Some(o2),
            if o2 in Precedence(o1) then [a, BinaryOperator(o1), NumberExpression(y)]
            else [BinaryExpression(a, NumberExpression(y), BinaryOperator(o1))]);
  }

  lemma {:induction false} StepSecondOperator(ts: seq<Token>, i: nat, a: Sym, o1: TokenKind, y: int, o2: TokenKind)
    requires i < |ts| && ts[i] == PlainTok(o2) && PeekAt(ts, i) == Some(NumberToken)
    requires IsExpression(a) && o2 in BinaryOperators
    ensures ShiftFrom(ts, i, [a, BinaryOperator(o1), NumberExpression(y)])
         == ShiftFrom(ts, i + 1, [a, BinaryOperator(o1), NumberExpression(y), BinaryOperator(o2)])
  {
    var s := [a, BinaryOperator(o1), NumberExpression(y)];
    ShiftSecondOperator(a, o1, y, o2);
    assert s + [Tok(PlainTok(o2))] == [a, BinaryOperator(o1), NumberExpression(y), Tok(PlainTok(o2))];
    Shifted(ts, i, s, PlainTok(o2), Some(NumberToken), s + [BinaryOperator(o2)]);
  }

  lemma {:induction false} StepLastOperand(ts: seq<Token>, i: nat, a: Sym, o: TokenKind, z: int)
    requires i < |ts| && ts[i] == NumberTok(z) && PeekAt(ts, i) == Some(End) && IsExpression(a)
    ensures ShiftFrom(ts, i, [a, BinaryOperator(o)])
         == ShiftFrom(ts, i + 1, [BinaryExpression(a, NumberExpression(z), BinaryOperator(o))])
  {
    ShiftLastOperand(a, o, z);
    assert [a, BinaryOperator(o)] + [Tok(NumberTok(z))] == [a, BinaryOperator(o), Tok(NumberTok(z))];
    Shifted(ts, i, [a, BinaryOperator(o)], NumberTok(z), Some(End),
            [BinaryExpression(a, NumberExpression(z), BinaryOperator(o))]);
  }

  lemma {:induction false} StepLastOperandNested(ts: seq<Token>, i: nat, a: Sym, o1: TokenKind, y: int, o2: TokenKind, z: int)
    requires i < |ts| && ts[i] == NumberTok(z) && PeekAt(ts, i) == Some(End) && IsExpression(a)
    ensures ShiftFrom(ts, i, [a, BinaryOperator(o1), NumberExpression(y), BinaryOperator(o2)])
         == ShiftFrom(ts, i + 1, [BinaryExpression(a, BinaryExpression(NumberExpression(y), NumberExpression(z), BinaryOperator(o2)),
                                                   BinaryOperator(o1))])
  {
    var s := [a, BinaryOperator(o1), NumberExpression(y), BinaryOperator(o2)];
    ShiftLastOperandNested(a, o1, y, o2, z);
    assert s + [Tok(NumberTok(z))] == [a, BinaryOperator(o1), NumberExpression(y), BinaryOperator(o2), Tok(NumberTok(z))];
    Shifted(ts, i, s, NumberTok(z), Some(End),
            [BinaryExpression(a, BinaryExpression(NumberExpression(y), NumberExpression(z), BinaryOperator(o2)),
                              BinaryOperator(o1))]);
  }

  /** The end marker, last of the input, closes the statement or expression into a file. */
  lemma {:induction false} StepEnd(ts: seq<Token>, e: Sym)
    requires 0 < |ts| && ts[|ts| - 1] == EndToken && IsNode(e)
    ensures ShiftFrom(ts, |ts| - 1, [e]) == [File([e])]
  {
    ShiftEnd(e);
    assert [e] + [Tok(EndToken)] == [e, Tok(EndToken)];
    Shifted(ts, |ts| - 1, [e], EndToken, None, [File([e])]);
  }

  // Phrases: runs of steps that recur in the inputs below, each from a stack holding one
  // expression `a`.

  /** `o y` followed by an operator `o2` that does not bind tighter than `o`: `a o y` reduces. */
  lemma {:induction false} OperandPair(ts: seq<Token>, i: nat, a: Sym, o: TokenKind, y: int, o2: TokenKind)
    requires i + 2 < |ts| && ts[i] == PlainTok(o) && ts[i + 1] == NumberTok(y) && ts[i + 2].kind == o2
    requires o in BinaryOperators && o2 !in Precedence(o) && IsExpression(a)
    ensures ShiftFrom(ts, i, [a]) == ShiftFrom(ts, i + 2, [BinaryExpression(a, NumberExpression(y), BinaryOperator(o))])
  {
    StepOperator(ts, i, a, o);
    StepSecondOperand(ts, i + 1, a, o, y, o2);
  }

  /** `o z $` at the end of the input: `a o z` reduces and the file closes. */
  lemma {:induction false} Closing(ts: seq<Token>, i: nat, a: Sym, o: TokenKind, z: int)
    requires |ts| == i + 3 && ts[i] == PlainTok(o) && ts[i + 1] == NumberTok(z) && ts[i + 2] == EndToken
    requires o in BinaryOperators && IsExpression(a)
    ensures ShiftFrom(ts, i, [a]) == [File([BinaryExpression(a, NumberExpression(z), BinaryOperator(o))])]
  {
    var e := BinaryExpression(a, NumberExpression(z), BinaryOperator(o));
    BinaryIsExpression(a, NumberExpression(z), BinaryOperator(o));
    StepOperator(ts, i, a, o);
    StepLastOperand(ts, i + 1, a, o, z);
    StepEnd(ts, e);
  }

  /** `o2 z $` after `a o1 y`, with o2 binding tighter than o1: `y o2 z` nests under `o1`. */
  lemma {:induction false} NestedClosing(ts: seq<Token>, i: nat, a: Sym, o1: TokenKind, y: int, o2: TokenKind, z: int)
    requires |ts| == i + 3 && ts[i] == PlainTok(o2) && ts[i + 1] == NumberTok(z) && ts[i + 2] == EndToken
    requires o2 in BinaryOperators && IsExpression(a)
    ensures ShiftFrom(ts, i, [a, BinaryOperator(o1), NumberExpression(y)])
         == [File([BinaryExpression(a, BinaryExpression(NumberExpression(y), NumberExpression(z), BinaryOperator(o2)),
                                    BinaryOperator(o1))])]
  {
    var e := BinaryExpression(a, BinaryExpression(NumberExpression(y), NumberExpression(z), BinaryOperator(o2)),
                              BinaryOperator(o1));
    BinaryIsExpression(a, BinaryExpression(NumberExpression(y), NumberExpression(z), BinaryOperator(o2)), BinaryOperator(o1));
    StepSecondOperator(ts, i, a, o1, y, o2);
    StepLastOperandNested(ts, i + 1, a, o1, y, o2, z);
    StepEnd(ts, e);
  }

  /** `o1 y o2 z $` with o2 binding tighter than o1: the whole tail nests on the right of `a`. */
  lemma {:induction false} TighterClosing(ts: seq<Token>, i: nat, a: Sym, o1: TokenKind, y: int, o2: TokenKind, z: int)
    requires |ts| == i + 5 && ts[i] == PlainTok(o1) && ts[i + 1] == NumberTok(y)
    requires ts[i + 2] == PlainTok(o2) && ts[i + 3] == NumberTok(z) && ts[i + 4] == EndToken
    requires o1 in BinaryOperators && o2 in BinaryOperators && o2 in Precedence(o1) && IsExpression(a)
    ensures ShiftFrom(ts, i, [a])
         == [File([BinaryExpression(a, BinaryExpression(NumberExpression(y), NumberExpression(z), BinaryOperator(o2)),
                                    BinaryOperator(o1))])]
  {
    StepOperator(ts, i, a, o1);
    StepSecondOperand(ts, i + 1, a, o1, y, o2);
    NestedClosing(ts, i + 2, a, o1, y, o2, z);
  }

  /** `x o1 y` followed by an operator o2 that does not bind tighter reduces to `x o1 y` at once. */
  lemma {:induction false} LeadingPair(ts: seq<Token>, x: int, o1: TokenKind, y: int, o2: TokenKind)
    requires 3 < |ts| && ts[0] == NumberTok(x) && ts[1] == PlainTok(o1) && ts[2] == NumberTok(y) && ts[3].kind == o2
    requires o1 in BinaryOperators && o2 !in Precedence(o1)
    ensures ShiftFrom(ts, 0, [])
         == ShiftFrom(ts, 3, [BinaryExpression(NumberExpression(x), NumberExpression(y), BinaryOperator(o1))])
  {
    var nx := NumberExpression(x);
    calc {
      ShiftFrom(ts, 0, []);
    == { assert PeekAt(ts, 0) == Some(o1); StepFirstOperand(ts, x, Some(o1)); }
      ShiftFrom(ts, 1, [nx]);
    == { NumberIsExpression(x); OperandPair(ts, 1, nx, o1, y, o2); }
      ShiftFrom(ts, 3, [BinaryExpression(nx, NumberExpression(y), BinaryOperator(o1))]);
    }
  }

  /** The shifts of `x o1 y o2 z $`: one reduction order or the other, by precedence. */
  lemma {:induction false} ShiftThreeOperands(ts: seq<Token>, x: int, o1: TokenKind, y: int, o2: TokenKind, z: int)
    requires |ts| == 6 && ts[0] == NumberTok(x) && ts[1] == PlainTok(o1) && ts[2] == NumberTok(y)
    requires ts[3] == PlainTok(o2) && ts[4] == NumberTok(z) && ts[5] == EndToken
    requires o1 in BinaryOperators && o2 in BinaryOperators
    ensures ShiftFrom(ts, 0, [])
         == [File([if o2 in Precedence(o1)
                   then BinaryExpression(NumberExpression(x),
                                         BinaryExpression(NumberExpression(y), NumberExpression(z), BinaryOperator(o2)),
                                         BinaryOperator(o1))
                   else BinaryExpression(BinaryExpression(NumberExpression(x), NumberExpression(y), BinaryOperator(o1)),
                                         NumberExpression(z),
                                         BinaryOperator(o2))])]
  {
    var nx := NumberExpression(x);
    if o2 in Precedence(o1) {
      calc {
        ShiftFrom(ts, 0, []);
      == { assert PeekAt(ts, 0) == Some(o1); StepFirstOperand(ts, x, Some(o1)); }
        ShiftFrom(ts, 1, [nx]);
      == { NumberIsExpression(x); TighterClosing(ts, 1, nx, o1, y, o2, z); }
        [File([BinaryExpression(nx, BinaryExpression(NumberExpression(y), NumberExpression(z), BinaryOperator(o2)),
                                BinaryOperator(o1))])];
      }
    } else {
      var l := BinaryExpression(nx, NumberExpression(y), BinaryOperator(o1));
      calc {
        ShiftFrom(ts, 0, []);
      == { LeadingPair(ts, x, o1, y, o2); }
        ShiftFrom(ts, 3, [l]);
      == { BinaryIsExpression(nx, NumberExpression(y), BinaryOperator(o1)); Closing(ts, 3, l, o2, z); }
        [File([BinaryExpression(l, NumberExpression(z), BinaryOperator(o2))])];
      }
    }
  }

  /**
   * `x o1 y o2 z` parses to a file holding `x o1 (y o2 z)` when o2 appears in o1's
   * precedence list (binds tighter), and `(x o1 y) o2 z` otherwise.
   */
  lemma ParseThreeOperands(x: int, o1: TokenKind, y: int, o2: TokenKind, z: int)
    requires o1 in BinaryOperators && o2 in BinaryOperators
    ensures ParseResult([NumberTok(x), PlainTok(o1), NumberTok(y), PlainTok(o2), NumberTok(z)])
         == [File([if o2 in Precedence(o1)
                   then BinaryExpression(NumberExpression(x),
                                         BinaryExpression(NumberExpression(y), NumberExpression(z), BinaryOperator(o2)),
                                         BinaryOperator(o1))
                   else BinaryExpression(BinaryExpression(NumberExpression(x), NumberExpression(y), BinaryOperator(o1)),
                                         NumberExpression(z),
                                         BinaryOperator(o2))])]
  {
    var ts := [NumberTok(x), PlainTok(o1), NumberTok(y), PlainTok(o2), NumberTok(z)] + [EndToken];
    SpellsFive(ts, NumberTok(x), PlainTok(o1), NumberTok(y), PlainTok(o2), NumberTok(z));
    ShiftThreeOperands(ts, x, o1, y, o2, z);
  }

  /** The shifts of `w o1 x o2 y o3 z $` with o2 looser than o1 and o3 tighter than o2. */
  lemma {:induction false} ShiftTwoTightOperations(ts: seq<Token>, w: int, o1: TokenKind, x: int, o2: TokenKind,
                                                   y: int, o3: TokenKind, z: int)
    requires |ts| == 8 && ts[0] == NumberTok(w) && ts[1] == PlainTok(o1) && ts[2] == NumberTok(x)
    requires ts[3] == PlainTok(o2) && ts[4] == NumberTok(y) && ts[5] == PlainTok(o3)
    requires ts[6] == NumberTok(z) && ts[7] == EndToken
    requires o1 in BinaryOperators && o2 in BinaryOperators && o3 in BinaryOperators
    requires o2 !in Precedence(o1) && o3 in Precedence(o2)
    ensures ShiftFrom(ts, 0, [])
         == [File([BinaryExpression(BinaryExpression(NumberExpression(w), NumberExpression(x), BinaryOperator(o1)),
                                    BinaryExpression(NumberExpression(y), NumberExpression(z), BinaryOperator(o3)),
                                    BinaryOperator(o2))])]
  {
    var l := BinaryExpression(NumberExpression(w), NumberExpression(x), BinaryOperator(o1));
    calc {
      ShiftFrom(ts, 0, []);
    == { LeadingPair(ts, w, o1, x, o2); }
      ShiftFrom(ts, 3, [l]);
    == { BinaryIsExpression(NumberExpression(w), NumberExpression(x), BinaryOperator(o1));
         TighterClosing(ts, 3, l, o2, y, o3, z); }
      [File([BinaryExpression(l, BinaryExpression(NumberExpression(y), NumberExpression(z), BinaryOperator(o3)),
                              BinaryOperator(o2))])];
    }
  }

  /**
   * `w o1 x o2 y o3 z` with o2 not in o1's precedence list and o3 in o2's parses to a file
   * holding `(w o1 x) o2 (y o3 z)`.
   */
  lemma ParseTwoTightOperations(w: int, o1: TokenKind, x: int, o2: TokenKind, y: int, o3: TokenKind, z: int)
    requires o1 in BinaryOperators && o2 in BinaryOperators && o3 in BinaryOperators
    requires o2 !in Precedence(o1) && o3 in Precedence(o2)
    ensures ParseResult([NumberTok(w), PlainTok(o1), NumberTok(x), PlainTok(o2),
                         NumberTok(y), PlainTok(o3), NumberTok(z)])
         == [File([BinaryExpression(BinaryExpression(NumberExpression(w), NumberExpression(x), BinaryOperator(o1)),
                                    BinaryExpression(NumberExpression(y), NumberExpression(z), BinaryOperator(o3)),
                                    BinaryOperator(o2))])]
  {
    var ts := [NumberTok(w), PlainTok(o1), NumberTok(x), PlainTok(o2),
               NumberTok(y), PlainTok(o3), NumberTok(z)] + [EndToken];
    SpellsSeven(ts, NumberTok(w), PlainTok(o1), NumberTok(x), PlainTok(o2), NumberTok(y), PlainTok(o3), NumberTok(z));
    ShiftTwoTightOperations(ts, w, o1, x, o2, y, o3, z);
  }

  /** `a * b + c * d` (for instance `1 * 2 + 3 * 4`) parses as `(a * b) + (c * d)`. */
  lemma ProductsBindTighterThanSum(a: int, b: int, c: int, d: int)
    ensures ParseResult([NumberTok(a), PlainTok(Times), NumberTok(b), PlainTok(Plus),
                         NumberTok(c), PlainTok(Times), NumberTok(d)])
         == [File([BinaryExpression(BinaryExpression(NumberExpression(a), NumberExpression(b), BinaryOperator(Times)),
                                    BinaryExpression(NumberExpression(c), NumberExpression(d), BinaryOperator(Times)),
                                    BinaryOperator(Plus))])]
  {
    assert Plus !in Precedence(Times) && Times in Precedence(Plus);
    ParseTwoTightOperations(a, Times, b, Plus, c, Times, d);
  }

  /** `a ** b * c ** d` (for instance `1 ** 2 * 3 ** 4`) parses as `(a ** b) * (c ** d)`. */
  lemma PowersBindTighterThanProduct(a: int, b: int, c: int, d: int)
    ensures ParseResult([NumberTok(a), PlainTok(Power), NumberTok(b), PlainTok(Times),
                         NumberTok(c), PlainTok(Power), NumberTok(d)])
         == [File([BinaryExpression(BinaryExpression(NumberExpression(a), NumberExpression(b), BinaryOperator(Power)),
                                    BinaryExpression(NumberExpression(c), NumberExpression(d), BinaryOperator(Power)),
                                    BinaryOperator(Times))])]
  {
    assert Times !in Precedence(Power) && Power in Precedence(Times);
    ParseTwoTightOperations(a, Power, b, Times, c, Power, d);
  }

  /** `a - b - c` groups to the left, as `(a - b) - c`. */
  lemma SubtractionGroupsLeft(a: int, b: int, c: int)
    ensures ParseResult([NumberTok(a), PlainTok(Minus), NumberTok(b), PlainTok(Minus), NumberTok(c)])
         == [File([BinaryExpression(BinaryExpression(NumberExpression(a), NumberExpression(b), BinaryOperator(Minus)),
                                    NumberExpression(c), BinaryOperator(Minus))])]
  {
    assert Minus !in Precedence(Minus);
    ParseThreeOperands(a, Minus, b, Minus, c);
  }

  /** `**` is not in its own precedence list, so `a ** b ** c` groups to the left too. */
  lemma PowerGroupsLeft(a: int, b: int, c: int)
    ensures ParseResult([NumberTok(a), PlainTok(Power), NumberTok(b), PlainTok(Power), NumberTok(c)])
         == [File([BinaryExpression(BinaryExpression(NumberExpression(a), NumberExpression(b), BinaryOperator(Power)),
                                    NumberExpression(c), BinaryOperator(Power))])]
  {
    assert Power !in Precedence(Power);
    ParseThreeOperands(a, Power, b, Power, c);
  }

  /** `a + b * c` nests the product on the right: `a + (b * c)`. */
  lemma ProductNestsUnderSum(a: int, b: int, c: int)
    ensures ParseResult([NumberTok(a), PlainTok(Plus), NumberTok(b), PlainTok(Times), NumberTok(c)])
         == [File([BinaryExpression(NumberExpression(a),
                                    BinaryExpression(NumberExpression(b), NumberExpression(c), BinaryOperator(Times)),
                                    BinaryOperator(Plus))])]
  {
    assert Times in Precedence(Plus);
    ParseThreeOperands(a, Plus, b, Times, c);
  }
}
