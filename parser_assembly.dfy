/**
 * How the parser assembles the nodes of a file and the cases of a pattern-matching
 * expression, and how the lookahead guards on declarations and arrow functions make
 * `f = x => y` declare f as the whole function.
 */
module ParserAssembly {
  import opened Values
  import opened Parser
  import opened ParserProperties
  import opened ParserPrecedence

  // ---------------------------------------------------------------------------------------
  // Files and pattern-matching expressions

  /** Moving the last entry of `xs` to the front of `tail` keeps the concatenation. */
  lemma LastMovesAcross<T>(xs: seq<T>, tail: seq<T>)
    requires 0 < |xs|
    ensures xs[..|xs| - 1] + ([xs[|xs| - 1]] + tail) == xs + tail
  {
    assert xs == xs[..|xs| - 1] + [xs[|xs| - 1]];
  }

  /** The file production fits a node over a file, accepts every lookahead and prepends the node. */
  lemma FileConsFits(n: Sym, nodes: seq<Sym>, p: Option<TokenKind>)
    requires IsNode(n)
    ensures Matches(Grammar(36), [n, File(nodes)], p)
    ensures Build(Grammar(36), [n, File(nodes)]) == [File([n] + nodes)]
  {
    assert Grammar(36) == FileCons;
  }

  /** A node followed by a file is prepended to the file's nodes, whatever the lookahead. */
  lemma NodeThenFile(n: Sym, nodes: seq<Sym>, p: Option<TokenKind>)
    requires IsNode(n)
    ensures FirstMatch([n, File(nodes)], p) == Some(36)
    ensures Build(Grammar(36), [n, File(nodes)]) == [File([n] + nodes)]
  {
    forall i | 0 <= i < 36 ensures !Matches(Grammar(i), [n, File(nodes)], p) {
      FileTopFitsOnlyFileCons([n, File(nodes)], p, i);
    }
    FileConsFits(n, nodes, p);
    FirstMatchIsFirst([n, File(nodes)], p, 36);
  }

  /** Rank 33 fits a case over the default case and starts a one-case expression. */
  lemma CaseThenDefaultFits(c: Sym, d: Sym, p: Option<TokenKind>)
    requires c.PatternMatchingCase? && d.PatternMatchingDefault?
    ensures Matches(Grammar(33), [c, d], p)
    ensures Build(Grammar(33), [c, d]) == [PatternMatchingExpression([c], d)]
  {
    assert Grammar(33) == CaseThenDefault;
  }

  /** A case followed by the default case starts a pattern-matching expression. */
  lemma CaseThenDefaultWindow(c: Sym, d: Sym, p: Option<TokenKind>)
    requires c.PatternMatchingCase? && d.PatternMatchingDefault?
    ensures FirstMatch([c, d], p) == Some(33)
    ensures Build(Grammar(33), [c, d]) == [PatternMatchingExpression([c], d)]
  {
    forall i | 0 <= i < 33 ensures !Matches(Grammar(i), [c, d], p) {
      CaseFirstFitsOnlyCaseRules([c, d], p, i);
    }
    CaseThenDefaultFits(c, d, p);
    FirstMatchIsFirst([c, d], p, 33);
  }

  /** Rank 34 fits a case over a pattern-matching expression and prepends the case. */
  lemma CaseThenCasesFits(c: Sym, cases: seq<Sym>, d: Sym, p: Option<TokenKind>)
    requires c.PatternMatchingCase?
    ensures Matches(Grammar(34), [c, PatternMatchingExpression(cases, d)], p)
    ensures Build(Grammar(34), [c, PatternMatchingExpression(cases, d)])
         == [PatternMatchingExpression([c] + cases, d)]
  {
    assert Grammar(34) == CaseThenCases;
  }

  /** A case followed by a pattern-matching expression is prepended to its cases. */
  lemma CaseThenCasesWindow(c: Sym, cases: seq<Sym>, d: Sym, p: Option<TokenKind>)
    requires c.PatternMatchingCase?
    ensures FirstMatch([c, PatternMatchingExpression(cases, d)], p) == Some(34)
    ensures Build(Grammar(34), [c, PatternMatchingExpression(cases, d)])
         == [PatternMatchingExpression([c] + cases, d)]
  {
    var w := [c, PatternMatchingExpression(cases, d)];
    forall i | 0 <= i < 34 ensures !Matches(Grammar(i), w, p) {
      if i != 33 {
        CaseFirstFitsOnlyCaseRules(w, p, i);
      }
    }
    CaseThenCasesFits(c, cases, d, p);
    FirstMatchIsFirst(w, p, 34);
  }

  /**
   * The top entry alone matches nothing and production k rewrites the top two entries to
   * `built`: the cascade restarts on the stack with the pair replaced.
   */
  lemma ReducePair(rest: seq<Sym>, a: Sym, b: Sym, p: Option<TokenKind>, k: nat, built: Sym)
    requires FirstMatch([b], p).None? && FirstMatch([a, b], p) == Some(k)
    requires Build(Grammar(k), [a, b]) == [built]
    ensures Scan(rest + [a, b], p, 1) == Scan(rest + [built], p, 1)
  {
    var s := rest + [a, b];
    assert s[|s| - 1..] == [b];
    PassOver(s, p, 1, [b]);
    assert s[|s| - 2..] == [a, b];
    ReduceTop(s, p, 2, [a, b], k, [built]);
    assert s[..|s| - 2] == rest;
  }

  /** Splitting off the last entry of a non-empty `xs` on a stack. */
  lemma SplitLast(below: seq<Sym>, xs: seq<Sym>, top: Sym)
    requires 0 < |xs|
    ensures xs[..|xs| - 1] + [xs[|xs| - 1]] == xs
    ensures below + xs + [top] == below + xs[..|xs| - 1] + [xs[|xs| - 1], top]
  {
    assert xs == xs[..|xs| - 1] + [xs[|xs| - 1]];
  }

  /** The end marker over a node makes it a one-node file. */
  lemma EndClosesNode(rest: seq<Sym>, n: Sym, p: Option<TokenKind>)
    requires IsNode(n)
    ensures Scan(rest + [n, Tok(EndToken)], p, 1) == Scan(rest + [File([n])], p, 1)
  {
    EndAlone(p);
    NodeThenEnd(n, p);
    ReducePair(rest, n, Tok(EndToken), p, 35, File([n]));
  }

  /**
   * Nodes left on the stack below a file are prepended to it one at a time, the nearest
   * first, so the file keeps them in source order.
   */
  lemma {:induction false} FilePrepends(below: seq<Sym>, ns: seq<Sym>, tail: seq<Sym>, p: Option<TokenKind>)
    requires forall i :: 0 <= i < |ns| ==> IsNode(ns[i])
    ensures Scan(below + ns + [File(tail)], p, 1) == Scan(below + [File(ns + tail)], p, 1)
    decreases |ns|
  {
    if ns == [] {
      assert ns + tail == tail && below + ns == below;
    } else {
      var n, init := ns[|ns| - 1], ns[..|ns| - 1];
      SplitLast(below, ns, File(tail));
      NodeWindowIrreducible(File(tail), p);
      NodeThenFile(n, tail, p);
      ReducePair(below + init, n, File(tail), p, 36, File([n] + tail));
      FilePrepends(below, init, [n] + tail, p);
      LastMovesAcross(ns, tail);
    }
  }

  /**
   * The end marker closes the nodes on top of the stack into one file, in source order:
   * the last node becomes a one-node file and the others are prepended to it.
   */
  lemma FileCloses(below: seq<Sym>, ns: seq<Sym>, p: Option<TokenKind>)
    requires 0 < |ns| && forall i :: 0 <= i < |ns| ==> IsNode(ns[i])
    ensures Scan(below + ns + [Tok(EndToken)], p, 1) == Scan(below + [File(ns)], p, 1)
  {
    var n, init := ns[|ns| - 1], ns[..|ns| - 1];
    SplitLast(below, ns, Tok(EndToken));
    calc {
      Scan(below + ns + [Tok(EndToken)], p, 1);
      Scan(below + init + [n, Tok(EndToken)], p, 1);
      { EndClosesNode(below + init, n, p); }
      Scan(below + init + [File([n])], p, 1);
      { FilePrepends(below, init, [n], p); }
      Scan(below + [File(init + [n])], p, 1);
    }
  }

  /** The statements a whole input leaves on the stack become one file, in source order. */
  lemma StatementsFormFile(ns: seq<Sym>)
    requires 0 < |ns| && forall i :: 0 <= i < |ns| ==> IsNode(ns[i])
    ensures Scan(ns + [Tok(EndToken)], None, 1) == [File(ns)]
  {
    FileCloses([], ns, None);
    assert [] + ns == ns && [] + [File(ns)] == [File(ns)];
    SettledSingle(File(ns), None);
  }

  /** Cases below a pattern-matching expression are prepended to it, nearest first. */
  lemma {:induction false} CasesPrepend(below: seq<Sym>, cs: seq<Sym>, tail: seq<Sym>, d: Sym, p: Option<TokenKind>)
    requires forall i :: 0 <= i < |cs| ==> cs[i].PatternMatchingCase?
    ensures Scan(below + cs + [PatternMatchingExpression(tail, d)], p, 1)
         == Scan(below + [PatternMatchingExpression(cs + tail, d)], p, 1)
    decreases |cs|
  {
    if cs == [] {
      assert cs + tail == tail && below + cs == below;
    } else {
      var c, init := cs[|cs| - 1], cs[..|cs| - 1];
      var top := PatternMatchingExpression(tail, d);
      SplitLast(below, cs, top);
      NodeWindowIrreducible(top, p);
      CaseThenCasesWindow(c, tail, d, p);
      ReducePair(below + init, c, top, p, 34, PatternMatchingExpression([c] + tail, d));
      CasesPrepend(below, init, [c] + tail, d, p);
      LastMovesAcross(cs, tail);
    }
  }

  /**
   * Cases followed by the default case become one pattern-matching expression: its cases
   * in source order and the default case kept apart, last.
   */
  lemma CasesAssemble(below: seq<Sym>, cs: seq<Sym>, d: Sym, p: Option<TokenKind>)
    requires 0 < |cs| && forall i :: 0 <= i < |cs| ==> cs[i].PatternMatchingCase?
    requires d.PatternMatchingDefault?
    ensures Scan(below + cs + [d], p, 1) == Scan(below + [PatternMatchingExpression(cs, d)], p, 1)
  {
    var c, init := cs[|cs| - 1], cs[..|cs| - 1];
    SplitLast(below, cs, d);
    NodeWindowIrreducible(d, p);
    CaseThenDefaultWindow(c, d, p);
    ReducePair(below + init, c, d, p, 33, PatternMatchingExpression([c], d));
    CasesPrepend(below, init, [c], d, p);
  }

  // ---------------------------------------------------------------------------------------
  // `f = x => y`

  function IdentTok(name: string): Token {
    Token(IdentifierToken, TextLiteral(name))
  }

  lemma IdentifierRewrites(name: string, p: Option<TokenKind>)
    ensures FirstMatch([Tok(IdentTok(name))], p) == Some(15)
    ensures Build(Grammar(15), [Tok(IdentTok(name))]) == [IdentifierExpression(name)]
  {
    TokenWindow(IdentTok(name), p);
  }

  /** A pushed identifier token is rewritten at once to an identifier node. */
  lemma PushIdentifier(s: seq<Sym>, name: string, p: Option<TokenKind>, pushed: seq<Sym>, rewritten: seq<Sym>)
    requires pushed == s + [Tok(IdentTok(name))] && rewritten == s + [IdentifierExpression(name)]
    ensures Scan(pushed, p, 1) == Scan(rewritten, p, 1)
  {
    IdentifierRewrites(name, p);
    ReduceTop(pushed, p, 1, [Tok(IdentTok(name))], 15, [IdentifierExpression(name)]);
    assert pushed[..|pushed| - 1] == s;
  }

  /** `=` and `=>` alone match no production. */
  lemma MarkAlone(k: TokenKind, p: Option<TokenKind>)
    requires k == Assign || k == FatArrow
    ensures FirstMatch([Tok(PlainTok(k))], p).None?
  {
    TokenWindow(PlainTok(k), p);
  }

  lemma NameThenMark(name: string, k: TokenKind, p: Option<TokenKind>)
    requires k == Assign || k == FatArrow
    ensures FirstMatch([IdentifierExpression(name), Tok(PlainTok(k))], p).None?
  {
    forall i | 0 <= i < GrammarSize ensures !Matches(Grammar(i), [IdentifierExpression(name), Tok(PlainTok(k))], p) {
    }
    FirstMatchNone([IdentifierExpression(name), Tok(PlainTok(k))], p);
  }

  lemma MarkThenExpression(k: TokenKind, e: Sym, p: Option<TokenKind>)
    requires (k == Assign || k == FatArrow) && IsExpression(e)
    ensures FirstMatch([Tok(PlainTok(k)), e], p).None?
  {
    forall i | 0 <= i < GrammarSize ensures !Matches(Grammar(i), [Tok(PlainTok(k)), e], p) {
    }
    FirstMatchNone([Tok(PlainTok(k)), e], p);
  }

  lemma AssignNameArrow(x: string, p: Option<TokenKind>)
    ensures FirstMatch([Tok(PlainTok(Assign)), IdentifierExpression(x), Tok(PlainTok(FatArrow))], p).None?
  {
    var w := [Tok(PlainTok(Assign)), IdentifierExpression(x), Tok(PlainTok(FatArrow))];
    forall i | 0 <= i < GrammarSize ensures !Matches(Grammar(i), w, p) {
    }
    FirstMatchNone(w, p);
  }

  lemma DeclarationHeadArrow(f: string, x: string, p: Option<TokenKind>)
    ensures FirstMatch([IdentifierExpression(f), Tok(PlainTok(Assign)), IdentifierExpression(x), Tok(PlainTok(FatArrow))], p).None?
  {
    var w := [IdentifierExpression(f), Tok(PlainTok(Assign)), IdentifierExpression(x), Tok(PlainTok(FatArrow))];
    forall i | 0 <= i < GrammarSize ensures !Matches(Grammar(i), w, p) {
    }
    FirstMatchNone(w, p);
  }

  /** `f`, before `=`, becomes an identifier node. */
  lemma ShiftDeclaredName(f: string)
    ensures Scan([Tok(IdentTok(f))], Some(Assign), 1) == [IdentifierExpression(f)]
  {
    PushIdentifier([], f, Some(Assign), [Tok(IdentTok(f))], [IdentifierExpression(f)]);
    SettledSingle(IdentifierExpression(f), Some(Assign));
  }

  /** `=` waits on the stack. */
  lemma ShiftAssign(f: string)
    ensures Scan([IdentifierExpression(f), Tok(PlainTok(Assign))], Some(IdentifierToken), 1)
         == [IdentifierExpression(f), Tok(PlainTok(Assign))]
  {
    var p := Some(IdentifierToken);
    var s := [IdentifierExpression(f), Tok(PlainTok(Assign))];
    MarkAlone(Assign, p);
    PassOver(s, p, 1, [Tok(PlainTok(Assign))]);
    NameThenMark(f, Assign, p);
    PassOver(s, p, 2, s);
    ScanStops(s, p, 3);
  }

  /**
   * `f = x` is followed by `=>`: the declaration's guard holds it back, so x stays an
   * identifier for the arrow function to take.
   */
  lemma ShiftParameter(f: string, x: string)
    ensures Scan([IdentifierExpression(f), Tok(PlainTok(Assign)), Tok(IdentTok(x))], Some(FatArrow), 1)
         == [IdentifierExpression(f), Tok(PlainTok(Assign)), IdentifierExpression(x)]
  {
    var p := Some(FatArrow);
    var s := [IdentifierExpression(f), Tok(PlainTok(Assign)), IdentifierExpression(x)];
    calc {
      Scan([IdentifierExpression(f), Tok(PlainTok(Assign)), Tok(IdentTok(x))], p, 1);
      { PushIdentifier([IdentifierExpression(f), Tok(PlainTok(Assign))], x, p,
                       [IdentifierExpression(f), Tok(PlainTok(Assign)), Tok(IdentTok(x))], s); }
      Scan(s, p, 1);
      { NodeWindowIrreducible(IdentifierExpression(x), p); PassOver(s, p, 1, [IdentifierExpression(x)]); }
      Scan(s, p, 2);
      { MarkThenExpression(Assign, IdentifierExpression(x), p); PassOver(s, p, 2, s[1..]); }
      Scan(s, p, 3);
      { DeclarationWindow(f, NoLiteral, IdentifierExpression(x), p); PassOver(s, p, 3, s); }
      Scan(s, p, 4);
      { ScanStops(s, p, 4); }
      s;
    }
  }

  /** Below `f = x =>`, neither `=>` alone nor `x =>` matches a production. */
  lemma ArrowPassesLower(f: string, x: string, p: Option<TokenKind>)
    ensures Scan([IdentifierExpression(f), Tok(PlainTok(Assign)), IdentifierExpression(x), Tok(PlainTok(FatArrow))], p, 1)
         == Scan([IdentifierExpression(f), Tok(PlainTok(Assign)), IdentifierExpression(x), Tok(PlainTok(FatArrow))], p, 3)
  {
    var s := [IdentifierExpression(f), Tok(PlainTok(Assign)), IdentifierExpression(x), Tok(PlainTok(FatArrow))];
    MarkAlone(FatArrow, p);
    PassOver(s, p, 1, [Tok(PlainTok(FatArrow))]);
    NameThenMark(x, FatArrow, p);
    PassOver(s, p, 2, s[2..]);
  }

  /** Nor do the wider windows `= x =>` and `f = x =>`, so `f = x =>` stays as it is. */
  lemma ArrowPassesUpper(f: string, x: string, p: Option<TokenKind>)
    ensures Scan([IdentifierExpression(f), Tok(PlainTok(Assign)), IdentifierExpression(x), Tok(PlainTok(FatArrow))], p, 3)
         == [IdentifierExpression(f), Tok(PlainTok(Assign)), IdentifierExpression(x), Tok(PlainTok(FatArrow))]
  {
    var s := [IdentifierExpression(f), Tok(PlainTok(Assign)), IdentifierExpression(x), Tok(PlainTok(FatArrow))];
    AssignNameArrow(x, p);
    PassOver(s, p, 3, s[1..]);
    DeclarationHeadArrow(f, x, p);
    PassOver(s, p, 4, s);
    ScanStops(s, p, 5);
  }

  /** `=>` waits on the stack. */
  lemma ShiftArrow(f: string, x: string)
    ensures Scan([IdentifierExpression(f), Tok(PlainTok(Assign)), IdentifierExpression(x), Tok(PlainTok(FatArrow))],
                 Some(IdentifierToken), 1)
         == [IdentifierExpression(f), Tok(PlainTok(Assign)), IdentifierExpression(x), Tok(PlainTok(FatArrow))]
  {
    ArrowPassesLower(f, x, Some(IdentifierToken));
    ArrowPassesUpper(f, x, Some(IdentifierToken));
  }

  /** `f = x => y` before the end: the function reduces, then the declaration around it. */
  lemma ShiftBody(f: string, x: string, y: string)
    ensures Scan([IdentifierExpression(f), Tok(PlainTok(Assign)), IdentifierExpression(x), Tok(PlainTok(FatArrow)),
                  Tok(IdentTok(y))], Some(End), 1)
         == [Declaration(f, FunctionExpression([x], IdentifierExpression(y)))]
  {
    var p := Some(End);
    var body := IdentifierExpression(y);
    var fn := FunctionExpression([x], body);
    var s := [IdentifierExpression(f), Tok(PlainTok(Assign)), IdentifierExpression(x), Tok(PlainTok(FatArrow)), body];
    calc {
      Scan([IdentifierExpression(f), Tok(PlainTok(Assign)), IdentifierExpression(x), Tok(PlainTok(FatArrow)),
            Tok(IdentTok(y))], p, 1);
      { PushIdentifier([IdentifierExpression(f), Tok(PlainTok(Assign)), IdentifierExpression(x), Tok(PlainTok(FatArrow))],
                       y, p,
                       [IdentifierExpression(f), Tok(PlainTok(Assign)), IdentifierExpression(x), Tok(PlainTok(FatArrow)),
                        Tok(IdentTok(y))], s); }
      Scan(s, p, 1);
      { NodeWindowIrreducible(body, p); PassOver(s, p, 1, [body]); }
      Scan(s, p, 2);
      { MarkThenExpression(FatArrow, body, p); PassOver(s, p, 2, s[3..]); }
      Scan(s, p, 3);
      { ArrowWindow(x, NoLiteral, body, p); ArrowBuilds(x, body); ReduceTop(s, p, 3, s[2..], 24, [fn]); assert s[..2] + [fn] == [IdentifierExpression(f), Tok(PlainTok(Assign)), fn]; }
      Scan([IdentifierExpression(f), Tok(PlainTok(Assign)), fn], p, 1);
      { ShiftDeclaration(f, fn, p); }
      [Declaration(f, fn)];
    }
  }

  /** Below `f = e`, neither `e` alone nor `= e` matches a production. */
  lemma DeclarationPasses(f: string, e: Sym, p: Option<TokenKind>)
    requires IsExpression(e)
    ensures Scan([IdentifierExpression(f), Tok(PlainTok(Assign)), e], p, 1)
         == Scan([IdentifierExpression(f), Tok(PlainTok(Assign)), e], p, 3)
  {
    var s := [IdentifierExpression(f), Tok(PlainTok(Assign)), e];
    NodeWindowIrreducible(e, p);
    PassOver(s, p, 1, [e]);
    MarkThenExpression(Assign, e, p);
    PassOver(s, p, 2, s[1..]);
  }

  /** The declaration production fits `f = e` and builds the declaration of f as e. */
  lemma DeclarationBuilds(f: string, e: Sym)
    requires IsExpression(e)
    ensures FitsShape(Grammar(26), [IdentifierExpression(f), Tok(PlainTok(Assign)), e])
    ensures Build(Grammar(26), [IdentifierExpression(f), Tok(PlainTok(Assign)), e]) == [Declaration(f, e)]
  {
  }

  /** The arrow production fits `x => body` and builds the one-parameter function. */
  lemma ArrowBuilds(x: string, body: Sym)
    requires IsExpression(body)
    ensures FitsShape(Grammar(24), [IdentifierExpression(x), Tok(PlainTok(FatArrow)), body])
    ensures Build(Grammar(24), [IdentifierExpression(x), Tok(PlainTok(FatArrow)), body]) == [FunctionExpression([x], body)]
  {
  }

  /** The window `f = e`, with no operator or `=>` ahead, reduces to a declaration. */
  lemma DeclarationReduces(f: string, e: Sym, p: Option<TokenKind>)
    requires IsExpression(e) && NotIn(p, Operators) && p != Some(FatArrow)
    ensures Scan([IdentifierExpression(f), Tok(PlainTok(Assign)), e], p, 3) == Scan([Declaration(f, e)], p, 1)
  {
    var s := [IdentifierExpression(f), Tok(PlainTok(Assign)), e];
    DeclarationWindow(f, NoLiteral, e, p);
    DeclarationBuilds(f, e);
    ReduceTop(s, p, 3, s, 26, [Declaration(f, e)]);
    assert s[..0] + [Declaration(f, e)] == [Declaration(f, e)];
  }

  /** `f = e` with a complete expression e and no operator or `=>` after it reduces to a declaration. */
  lemma ShiftDeclaration(f: string, e: Sym, p: Option<TokenKind>)
    requires IsExpression(e) && NotIn(p, Operators) && p != Some(FatArrow)
    ensures Scan([IdentifierExpression(f), Tok(PlainTok(Assign)), e], p, 1) == [Declaration(f, e)]
  {
    DeclarationPasses(f, e, p);
    DeclarationReduces(f, e, p);
    SettledSingle(Declaration(f, e), p);
  }

  lemma {:induction false} StepDeclaredName(ts: seq<Token>, f: string)
    requires 1 < |ts| && ts[0] == IdentTok(f) && ts[1].kind == Assign
    ensures ShiftFrom(ts, 0, []) == ShiftFrom(ts, 1, [IdentifierExpression(f)])
  {
    ShiftDeclaredName(f);
    assert [] + [Tok(IdentTok(f))] == [Tok(IdentTok(f))];
    Shifted(ts, 0, [], IdentTok(f), Some(Assign), [IdentifierExpression(f)]);
  }

  lemma {:induction false} StepAssign(ts: seq<Token>, i: nat, f: string)
    requires i + 1 < |ts| && ts[i] == PlainTok(Assign) && ts[i + 1].kind == IdentifierToken
    ensures ShiftFrom(ts, i, [IdentifierExpression(f)])
         == ShiftFrom(ts, i + 1, [IdentifierExpression(f), Tok(PlainTok(Assign))])
  {
    ShiftAssign(f);
    assert [IdentifierExpression(f)] + [Tok(PlainTok(Assign))] == [IdentifierExpression(f), Tok(PlainTok(Assign))];
    Shifted(ts, i, [IdentifierExpression(f)], PlainTok(Assign), Some(IdentifierToken),
            [IdentifierExpression(f), Tok(PlainTok(Assign))]);
  }

  lemma {:induction false} StepParameter(ts: seq<Token>, i: nat, f: string, x: string)
    requires i + 1 < |ts| && ts[i] == IdentTok(x) && ts[i + 1].kind == FatArrow
    ensures ShiftFrom(ts, i, [IdentifierExpression(f), Tok(PlainTok(Assign))])
         == ShiftFrom(ts, i + 1, [IdentifierExpression(f), Tok(PlainTok(Assign)), IdentifierExpression(x)])
  {
    var s := [IdentifierExpression(f), Tok(PlainTok(Assign))];
    ShiftParameter(f, x);
    assert s + [Tok(IdentTok(x))] == [IdentifierExpression(f), Tok(PlainTok(Assign)), Tok(IdentTok(x))];
    Shifted(ts, i, s, IdentTok(x), Some(FatArrow), s + [IdentifierExpression(x)]);
  }

  lemma {:induction false} StepArrow(ts: seq<Token>, i: nat, f: string, x: string)
    requires i + 1 < |ts| && ts[i] == PlainTok(FatArrow) && ts[i + 1].kind == IdentifierToken
    ensures ShiftFrom(ts, i, [IdentifierExpression(f), Tok(PlainTok(Assign)), IdentifierExpression(x)])
         == ShiftFrom(ts, i + 1, [IdentifierExpression(f), Tok(PlainTok(Assign)), IdentifierExpression(x), Tok(PlainTok(FatArrow))])
  {
    var s := [IdentifierExpression(f), Tok(PlainTok(Assign)), IdentifierExpression(x)];
    ShiftArrow(f, x);
    assert s + [Tok(PlainTok(FatArrow))]
        == [IdentifierExpression(f), Tok(PlainTok(Assign)), IdentifierExpression(x), Tok(PlainTok(FatArrow))];
    Shifted(ts, i, s, PlainTok(FatArrow), Some(IdentifierToken), s + [Tok(PlainTok(FatArrow))]);
  }

  lemma {:induction false} StepBody(ts: seq<Token>, i: nat, f: string, x: string, y: string)
    requires i + 1 < |ts| && ts[i] == IdentTok(y) && ts[i + 1].kind == End
    ensures ShiftFrom(ts, i, [IdentifierExpression(f), Tok(PlainTok(Assign)), IdentifierExpression(x), Tok(PlainTok(FatArrow))])
         == ShiftFrom(ts, i + 1, [Declaration(f, FunctionExpression([x], IdentifierExpression(y)))])
  {
    var s := [IdentifierExpression(f), Tok(PlainTok(Assign)), IdentifierExpression(x), Tok(PlainTok(FatArrow))];
    ShiftBody(f, x, y);
    assert s + [Tok(IdentTok(y))]
        == [IdentifierExpression(f), Tok(PlainTok(Assign)), IdentifierExpression(x), Tok(PlainTok(FatArrow)), Tok(IdentTok(y))];
    Shifted(ts, i, s, IdentTok(y), Some(End), [Declaration(f, FunctionExpression([x], IdentifierExpression(y)))]);
  }

  /** The whole input `f = x => y $`, stated on any token sequence that spells it. */
  lemma {:induction false} ShiftArrowDeclaration(ts: seq<Token>, f: string, x: string, y: string)
    requires |ts| == 6 && ts[0] == IdentTok(f) && ts[1] == PlainTok(Assign) && ts[2] == IdentTok(x)
    requires ts[3] == PlainTok(FatArrow) && ts[4] == IdentTok(y) && ts[5] == EndToken
    ensures ShiftFrom(ts, 0, []) == [File([Declaration(f, FunctionExpression([x], IdentifierExpression(y)))])]
  {
    var decl := Declaration(f, FunctionExpression([x], IdentifierExpression(y)));
    assert IsNode(decl);
    StepDeclaredName(ts, f);
    StepAssign(ts, 1, f);
    StepParameter(ts, 2, f, x);
    StepArrow(ts, 3, f, x);
    StepBody(ts, 4, f, x, y);
    StepEnd(ts, decl);
  }

  /**
   * `f = x => y` declares f as the function `x => y`: the declaration waits on `=>` and
   * takes the whole function as its value once the input ends.
   */
  lemma ParseArrowDeclaration(f: string, x: string, y: string)
    ensures ParseResult([IdentTok(f), PlainTok(Assign), IdentTok(x), PlainTok(FatArrow), IdentTok(y)])
         == [File([Declaration(f, FunctionExpression([x], IdentifierExpression(y)))])]
  {
    var ts := [IdentTok(f), PlainTok(Assign), IdentTok(x), PlainTok(FatArrow), IdentTok(y)] + [EndToken];
    SpellsFive(ts, IdentTok(f), PlainTok(Assign), IdentTok(x), PlainTok(FatArrow), IdentTok(y));
    ShiftArrowDeclaration(ts, f, x, y);
  }
}
