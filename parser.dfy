/**
 * The table-driven shift-reduce parser of parser/parser.js: tokens are pushed onto a stack
 * one by one and, after each push, windows of the top 1..5 entries are reduced by the first
 * production of `Grammar` whose shape and lookahead guard accept them, restarting from the
 * shortest window after every reduction.
 *
 * Token and node kinds are enumerations. `Production.matches` (parser/Production.js) and the
 * node classes (parser/nodes.js) are not part of this model: a window matches a production
 * when it has the production's length, each entry's kind equals the shape's entry or is a
 * subkind of it (`Fits`), and the guard, if any, accepts the lookahead kind.
 */
module Parser {
  import opened Values

  // ---------------------------------------------------------------------------------------
  // Tokens

  /** Token kinds (the `type` of a token), including the end marker `$`. */
  datatype TokenKind =
    | NumberToken | StringToken | BooleanToken | IdentifierToken
    | Bang          // !
    | Plus          // +
    | Times         // *
    | Divide        // /
    | Minus         // -
    | Modulo        // %
    | Power         // **
    | Less          // <
    | Greater       // >
    | GreaterEqual  // >=
    | LessEqual     // <=
    | Equal         // ==
    | NotEqual      // !=
    | And           // &&
    | Or            // ||
    | Dot           // .
    | LParen        // (
    | RParen        // )
    | Comma         // ,
    | Colon         // :
    | Assign        // =
    | FatArrow      // =>
    | ThinArrow     // ->
    | Pipe          // |
    | Underscore    // _
    | End           // $
    | OtherToken(text: string)   // any other kind the tokenizer emits ('[', '{', ...)

  /** The literal a Number, String, Boolean or Identifier token carries in its `value`. */
  datatype Literal = NoLiteral | NumberLiteral(n: int) | TextLiteral(s: string) | BooleanLiteral(b: bool)

  datatype Token = Token(kind: TokenKind, value: Literal)

  /** The token `parse` appends to its input. */
  const EndToken := Token(End, NoLiteral)

  const UnaryOperators: seq<TokenKind> := [Bang]

  const BinaryOperators: seq<TokenKind> :=
    [Plus, Times, Divide, Minus, Modulo, Power, Less, Greater, GreaterEqual, LessEqual, Equal, NotEqual, And, Or]

  /** The lookahead kinds that make a function, declaration, parameter or case wait. */
  const Operators: seq<TokenKind> := UnaryOperators + BinaryOperators + [Dot, LParen]

  /**
   * For each operator, the lookahead kinds that block its reduction: the kinds that bind
   * tighter and must be reduced first.
   */
  function Precedence(op: TokenKind): seq<TokenKind> {
    match op
    case Bang => [LParen, Dot]
    case Power => [Bang, LParen, Dot]
    case Times => [Bang, LParen, Dot, Power]
    case Divide => [Bang, LParen, Dot, Power]
    case Modulo => [Bang, LParen, Dot, Power]
    case Plus => [Bang, LParen, Dot, Power, Times, Modulo, Divide]
    case Minus => [Bang, LParen, Dot, Power, Times, Modulo, Divide]
    case Less => [Bang, LParen, Dot, Power, Times, Modulo, Divide, Plus, Minus]
    case Greater => [Bang, LParen, Dot, Power, Times, Modulo, Divide, Plus, Minus]
    case GreaterEqual => [Bang, LParen, Dot, Power, Times, Modulo, Divide, Plus, Minus]
    case LessEqual => [Bang, LParen, Dot, Power, Times, Modulo, Divide, Plus, Minus]
    case Equal => [Bang, LParen, Dot, Power, Times, Modulo, Divide, Plus, Minus]
    case NotEqual => [Bang, LParen, Dot, Power, Times, Modulo, Divide, Plus, Minus]
    case And => [Bang, LParen, Dot, Power, Times, Modulo, Divide, Plus, Minus]
    case Or => [Bang, LParen, Dot, Power, Times, Modulo, Divide, Plus, Minus]
    case _ => []
  }

  // ---------------------------------------------------------------------------------------
  // Stack symbols

  /** Node kinds, with the abstract kinds Node, Expression and Statement that shapes may name. */
  datatype NodeKind =
    | NodeK | ExpressionK | StatementK
    | IdentifierExpressionK | BooleanExpressionK | StringExpressionK | NumberExpressionK
    | BinaryOperatorK | UnaryOperatorK | BinaryExpressionK | UnaryExpressionK
    | FunctionExpressionK | DeclarationK | ParameterK | CallExpressionK
    | PatternMatchingCaseK | PatternMatchingDefaultK | PatternMatchingExpressionK | FileK

  /** The `type` of a stack entry: a token kind, a node kind, or a bracketed list kind `[K]`. */
  datatype Kind = Terminal(t: TokenKind) | Nonterminal(n: NodeKind) | ListKind(element: NodeKind)

  /** An entry of the parse stack: a raw token, a node built by a production, or a list from `arrayOf`. */
  datatype Sym =
    | Tok(token: Token)
    | IdentifierExpression(name: string)
    | BooleanExpression(bval: bool)
    | StringExpression(sval: string)
    | NumberExpression(nval: int)
    | BinaryOperator(binaryOp: TokenKind)
    | UnaryOperator(unaryOp: TokenKind)
    | BinaryExpression(left: Sym, right: Sym, operator: Sym)
    | UnaryExpression(unaryOperator: Sym, operand: Sym)
    | FunctionExpression(parameters: seq<string>, body: Sym)
    | Declaration(declName: string, declValue: Sym)
    | Parameter(paramName: string, paramValue: Sym)
    | CallExpression(callee: string, arguments: seq<Sym>)
    | PatternMatchingCase(pattern: Sym, result: Sym)
    | PatternMatchingDefault(defaultResult: Sym)
    | PatternMatchingExpression(casePatterns: seq<Sym>, defaultPattern: Sym)
    | File(nodes: seq<Sym>)
    | ListOf(elementKind: NodeKind, values: seq<Sym>)

  function KindOf(s: Sym): (k: Kind)
    ensures k.Terminal? <==> s.Tok?
    ensures k.ListKind? <==> s.ListOf?
  {
    match s
    case Tok(t) => Terminal(t.kind)
    case IdentifierExpression(_) => Nonterminal(IdentifierExpressionK)
    case BooleanExpression(_) => Nonterminal(BooleanExpressionK)
    case StringExpression(_) => Nonterminal(StringExpressionK)
    case NumberExpression(_) => Nonterminal(NumberExpressionK)
    case BinaryOperator(_) => Nonterminal(BinaryOperatorK)
    case UnaryOperator(_) => Nonterminal(UnaryOperatorK)
    case BinaryExpression(_, _, _) => Nonterminal(BinaryExpressionK)
    case UnaryExpression(_, _) => Nonterminal(UnaryExpressionK)
    case FunctionExpression(_, _) => Nonterminal(FunctionExpressionK)
    case Declaration(_, _) => Nonterminal(DeclarationK)
    case Parameter(_, _) => Nonterminal(ParameterK)
    case CallExpression(_, _) => Nonterminal(CallExpressionK)
    case PatternMatchingCase(_, _) => Nonterminal(PatternMatchingCaseK)
    case PatternMatchingDefault(_) => Nonterminal(PatternMatchingDefaultK)
    case PatternMatchingExpression(_, _) => Nonterminal(PatternMatchingExpressionK)
    case File(_) => Nonterminal(FileK)
    case ListOf(k, _) => ListKind(k)
  }

  /** `arrayOf(type, values)`: a list entry whose kind is the bracketed element kind. */
  function ArrayOf(element: NodeKind, values: seq<Sym>): (r: Sym)
    ensures KindOf(r) == ListKind(element) && r.values == values
  {
    ListOf(element, values)
  }

  predicate IsExpressionKind(k: NodeKind) {
    k in {IdentifierExpressionK, BooleanExpressionK, StringExpressionK, NumberExpressionK,
          BinaryExpressionK, UnaryExpressionK, FunctionExpressionK, CallExpressionK,
          PatternMatchingExpressionK}
  }

  /** The node class hierarchy: concrete kinds under Expression or Statement, all under Node. */
  predicate SubKind(k: NodeKind, of: NodeKind) {
    k == of
    || (of == NodeK && k != ExpressionK && k != StatementK)
    || (of == ExpressionK && IsExpressionKind(k))
    || (of == StatementK && k == DeclarationK)
  }

  /** A stack entry fits a shape entry: same kind, or a node whose kind is a subkind. */
  predicate Fits(s: Sym, entry: Kind) {
    KindOf(s) == entry
    || (KindOf(s).Nonterminal? && entry.Nonterminal? && SubKind(KindOf(s).n, entry.n))
  }

  // ---------------------------------------------------------------------------------------
  // Productions

  /** The productions of the grammar, one constructor per `new Production(...)`. */
  datatype Rule =
    | BinaryOperatorTerminal(op: TokenKind)  // [o]                                   -> BinaryOperator
    | UnaryOperatorTerminal(uop: TokenKind)  // ['!']                                 -> UnaryOperator
    | IdentifierTerminal                     // ['Identifier']                        -> IdentifierExpression
    | BooleanTerminal                        // ['Boolean']                           -> BooleanExpression
    | StringTerminal                         // ['String']                            -> StringExpression
    | NumberTerminal                         // ['Number']                            -> NumberExpression
    | BinaryRule                             // [Expression, BinaryOperator, Expression]
    | UnaryRule                              // [UnaryOperator, Expression]
    | ParenIdentifier                        // ['(', IdentifierExpression]           -> '(' [IdentifierExpression]
    | IdentifierListCons                     // [[IdentifierExpression], ',', IdentifierExpression]
    | ParenFunction                          // ['(', [IdentifierExpression], ')', '=>', Expression]
    | ArrowFunction                          // [IdentifierExpression, '=>', Expression]
    | WildcardFunction                       // ['_', '=>', Expression]
    | DeclarationRule                        // [IdentifierExpression, '=', Expression]
    | ListParameter                          // [[IdentifierExpression], ':', Expression]
    | ParameterRule                          // [IdentifierExpression, ':', Expression]
    | ParameterListCons                      // [[Parameter], ',', Parameter]
    | CallRule                               // [IdentifierExpression, '(', [Parameter], ')']
    | DefaultCase                            // ['|', '_', '->', Expression]
    | CaseRule                               // ['|', Expression, '->', Expression]
    | CaseThenDefault                        // [PatternMatchingCase, PatternMatchingDefault]
    | CaseThenCases                          // [PatternMatchingCase, PatternMatchingExpression]
    | FileEnd                                // [Node, '$']
    | FileCons                               // [Node, File]

  /** The number of productions in the table. */
  const GrammarSize := 37

  /**
   * The production table, by priority rank: `find` tries rank 0 first. Ranks 0..13 are the
   * binary operator terminals in the order of `BinaryOperators`.
   */
  function Grammar(rank: nat): Rule
    requires rank < GrammarSize
  {
    if rank < |BinaryOperators| then BinaryOperatorTerminal(BinaryOperators[rank])
    else match rank
    case 14 => UnaryOperatorTerminal(Bang)
    case 15 => IdentifierTerminal
    case 16 => BooleanTerminal
    case 17 => StringTerminal
    case 18 => NumberTerminal
    case 19 => BinaryRule
    case 20 => UnaryRule
    case 21 => ParenIdentifier
    case 22 => IdentifierListCons
    case 23 => ParenFunction
    case 24 => ArrowFunction
    case 25 => WildcardFunction
    case 26 => DeclarationRule
    case 27 => ListParameter
    case 28 => ParameterRule
    case 29 => ParameterListCons
    case 30 => CallRule
    case 31 => DefaultCase
    case 32 => CaseRule
    case 33 => CaseThenDefault
    case 34 => CaseThenCases
    case 35 => FileEnd
    case _ => FileCons
  }

  function Shape(r: Rule): seq<Kind> {
    match r
    case BinaryOperatorTerminal(op) => [Terminal(op)]
    case UnaryOperatorTerminal(op) => [Terminal(op)]
    case IdentifierTerminal => [Terminal(IdentifierToken)]
    case BooleanTerminal => [Terminal(BooleanToken)]
    case StringTerminal => [Terminal(StringToken)]
    case NumberTerminal => [Terminal(NumberToken)]
    case BinaryRule => [Nonterminal(ExpressionK), Nonterminal(BinaryOperatorK), Nonterminal(ExpressionK)]
    case UnaryRule => [Nonterminal(UnaryOperatorK), Nonterminal(ExpressionK)]
    case ParenIdentifier => [Terminal(LParen), Nonterminal(IdentifierExpressionK)]
    case IdentifierListCons => [ListKind(IdentifierExpressionK), Terminal(Comma), Nonterminal(IdentifierExpressionK)]
    case ParenFunction =>
      [Terminal(LParen), ListKind(IdentifierExpressionK), Terminal(RParen), Terminal(FatArrow), Nonterminal(ExpressionK)]
    case ArrowFunction => [Nonterminal(IdentifierExpressionK), Terminal(FatArrow), Nonterminal(ExpressionK)]
    case WildcardFunction => [Terminal(Underscore), Terminal(FatArrow), Nonterminal(ExpressionK)]
    case DeclarationRule => [Nonterminal(IdentifierExpressionK), Terminal(Assign), Nonterminal(ExpressionK)]
    case ListParameter => [ListKind(IdentifierExpressionK), Terminal(Colon), Nonterminal(ExpressionK)]
    case ParameterRule => [Nonterminal(IdentifierExpressionK), Terminal(Colon), Nonterminal(ExpressionK)]
    case ParameterListCons => [ListKind(ParameterK), Terminal(Comma), Nonterminal(ParameterK)]
    case CallRule =>
      [Nonterminal(IdentifierExpressionK), Terminal(LParen), ListKind(ParameterK), Terminal(RParen)]
    case DefaultCase => [Terminal(Pipe), Terminal(Underscore), Terminal(ThinArrow), Nonterminal(ExpressionK)]
    case CaseRule => [Terminal(Pipe), Nonterminal(ExpressionK), Terminal(ThinArrow), Nonterminal(ExpressionK)]
    case CaseThenDefault => [Nonterminal(PatternMatchingCaseK), Nonterminal(PatternMatchingDefaultK)]
    case CaseThenCases => [Nonterminal(PatternMatchingCaseK), Nonterminal(PatternMatchingExpressionK)]
    case FileEnd => [Nonterminal(NodeK), Terminal(End)]
    case FileCons => [Nonterminal(NodeK), Nonterminal(FileK)]
  }

  /** The lookahead is not one of `kinds` (an absent lookahead, JavaScript `undefined`, is in none). */
  predicate NotIn(peek: Option<TokenKind>, kinds: seq<TokenKind>) {
    peek.None? || peek.value !in kinds
  }

  /** Entry i of the window, if there is one, fits entry i of the shape. */
  predicate FitsAt(window: seq<Sym>, shape: seq<Kind>, i: nat)
    requires |window| == |shape|
  {
    i < |window| ==> Fits(window[i], shape[i])
  }

  /**
   * The window has the production's length and each entry fits; every shape has at most
   * five entries, the longest window `parse` tries.
   */
  predicate FitsShape(r: Rule, window: seq<Sym>) {
    var shape := Shape(r);
    |window| == |shape| && |shape| <= 5
    && FitsAt(window, shape, 0) && FitsAt(window, shape, 1) && FitsAt(window, shape, 2)
    && FitsAt(window, shape, 3) && FitsAt(window, shape, 4)
  }

  /** The production's lookahead guard; productions without one accept every lookahead. */
  predicate Guard(r: Rule, window: seq<Sym>, peek: Option<TokenKind>)
    requires FitsShape(r, window)
  {
    match r
    case BinaryRule => NotIn(peek, Precedence(window[1].binaryOp))
    case UnaryRule => NotIn(peek, Precedence(window[0].unaryOp))
    case ParenFunction => NotIn(peek, Operators)
    case ArrowFunction => NotIn(peek, Operators)
    case WildcardFunction => NotIn(peek, Operators)
    case DeclarationRule => NotIn(peek, Operators) && peek != Some(FatArrow)
    case ListParameter => NotIn(peek, Operators)
    case ParameterRule => NotIn(peek, Operators)
    case DefaultCase => NotIn(peek, Operators)
    case CaseRule => NotIn(peek, Operators)
    case _ => true
  }

  /** `production.matches(nodes, peek)`. */
  predicate Matches(r: Rule, window: seq<Sym>, peek: Option<TokenKind>) {
    FitsShape(r, window) && Guard(r, window, peek)
  }

  function TextOf(l: Literal): string {
    if l.TextLiteral? then l.s else ""
  }

  /** The `name` of an identifier node (the lists built by the grammar hold only those). */
  function NameOf(s: Sym): string {
    if s.IdentifierExpression? then s.name else ""
  }

  function NamesOf(ss: seq<Sym>): (names: seq<string>)
    ensures |names| == |ss| && forall i :: 0 <= i < |ss| ==> names[i] == NameOf(ss[i])
  {
    if ss == [] then [] else [NameOf(ss[0])] + NamesOf(ss[1..])
  }

  /** The production's builder; its result is pushed as the list `[].concat(node)`. */
  function Build(r: Rule, w: seq<Sym>): seq<Sym>
    requires FitsShape(r, w)
  {
    match r
    case BinaryOperatorTerminal(op) => [BinaryOperator(op)]
    case UnaryOperatorTerminal(op) => [UnaryOperator(op)]
    case IdentifierTerminal => [IdentifierExpression(TextOf(w[0].token.value))]
    case BooleanTerminal => [BooleanExpression(w[0].token.value.BooleanLiteral? && w[0].token.value.b)]
    case StringTerminal => [StringExpression(TextOf(w[0].token.value))]
    case NumberTerminal => [NumberExpression(if w[0].token.value.NumberLiteral? then w[0].token.value.n else 0)]
    case BinaryRule => [BinaryExpression(w[0], w[2], w[1])]
    case UnaryRule => [UnaryExpression(w[0], w[1])]
    case ParenIdentifier => [Tok(Token(LParen, NoLiteral)), ArrayOf(IdentifierExpressionK, [w[1]])]
    case IdentifierListCons => [ArrayOf(IdentifierExpressionK, w[0].values + [w[2]])]
    case ParenFunction => [FunctionExpression(NamesOf(w[1].values), w[4])]
    case ArrowFunction => [FunctionExpression([w[0].name], w[2])]
    case WildcardFunction => [FunctionExpression([], w[2])]
    case DeclarationRule => [Declaration(w[0].name, w[2])]
    case ListParameter =>
      [ArrayOf(ParameterK, [Parameter(if w[0].values == [] then "" else NameOf(w[0].values[0]), w[2])])]
    case ParameterRule => [Parameter(w[0].name, w[2])]
    case ParameterListCons => [ArrayOf(ParameterK, w[0].values + [w[2]])]
    case CallRule => [CallExpression(w[0].name, w[2].values)]
    case DefaultCase => [PatternMatchingDefault(w[3])]
    case CaseRule => [PatternMatchingCase(w[1], w[3])]
    case CaseThenDefault => [PatternMatchingExpression([w[0]], w[1])]
    case CaseThenCases => [PatternMatchingExpression([w[0]] + w[1].casePatterns, w[1].defaultPattern)]
    case FileEnd => [File([w[0]])]
    case FileCons => [File([w[0]] + w[1].nodes)]
  }

  /** For each rank, whether that production matches the window under the lookahead. */
  function MatchVector(window: seq<Sym>, peek: Option<TokenKind>): (v: seq<bool>)
    ensures |v| == GrammarSize
    ensures forall i :: 0 <= i < GrammarSize ==> v[i] == Matches(Grammar(i), window, peek)
  {
    seq(GrammarSize, i requires 0 <= i < GrammarSize => Matches(Grammar(i), window, peek))
  }

  /** The first position at or after `from` holding true, if any. */
  function FirstTrue(v: seq<bool>, from: nat): (r: Option<nat>)
    requires from <= |v|
    ensures r.Some? ==> from <= r.value < |v| && v[r.value]
    decreases |v| - from
  {
    if from == |v| then None
    else if v[from] then Some(from)
    else FirstTrue(v, from + 1)
  }

  /**
   * `grammar.find(r => r.matches(nodes, peek))`, as a rank of `Grammar`: the first
   * production in table order that matches, if any.
   */
  function FirstMatch(window: seq<Sym>, peek: Option<TokenKind>): (r: Option<nat>)
    ensures r.Some? ==> r.value < GrammarSize && Matches(Grammar(r.value), window, peek)
  {
    FirstTrue(MatchVector(window, peek), 0)
  }

  // ---------------------------------------------------------------------------------------
  // The reduction cascade

  /** Cost of a stack entry: every reduction lowers the total cost of the stack. */
  function Cost(s: Sym): nat {
    if s.Tok? then 2 else if s.ListOf? then 0 else 1
  }

  function Weight(stack: seq<Sym>): nat {
    if stack == [] then 0 else Weight(stack[..|stack| - 1]) + Cost(stack[|stack| - 1])
  }

  function Min(a: int, b: int): int {
    if a <= b then a else b
  }

  /**
   * A reduction: the top j entries are replaced by the builder's result and the entries
   * below the window are kept. Every reduction lowers the weight of the stack, which is why
   * the cascade terminates.
   */
  function Reduce(stack: seq<Sym>, j: nat, r: Rule): (s: seq<Sym>)
    requires j <= |stack| && FitsShape(r, stack[|stack| - j..])
    ensures Weight(s) < Weight(stack)
  {
    var k := |stack| - j;
    BuildLowersWeight(r, stack[k..]);
    ReplaceLowersWeight(stack, k, Build(r, stack[k..]));
    stack[..k] + Build(r, stack[k..])
  }

  /** A reduction keeps the entries below the window and puts the builder's result in its place. */
  lemma ReduceSplices(stack: seq<Sym>, j: nat, r: Rule)
    requires j <= |stack| && FitsShape(r, stack[|stack| - j..])
    ensures var s := Reduce(stack, j, r);
            && |s| == |stack| - j + |Build(r, stack[|stack| - j..])|
            && s[..|stack| - j] == stack[..|stack| - j]
            && s[|stack| - j..] == Build(r, stack[|stack| - j..])
  {
  }

  /**
   * The inner `for` loop from window length j on: try windows j, j+1, ... up to
   * min(5, |stack|); on the first that some production matches, reduce and start again
   * from window length 1; when no window matches, the stack is final for this token.
   */
  function Scan(stack: seq<Sym>, peek: Option<TokenKind>, j: nat): seq<Sym>
    requires 1 <= j
    decreases Weight(stack), 6 - j
  {
    if j > Min(5, |stack|) then stack
    else
      var window := stack[|stack| - j..];
      match FirstMatch(window, peek)
      case Some(i) =>
        Scan(Reduce(stack, j, Grammar(i)), peek, 1)
      case None => Scan(stack, peek, j + 1)
  }

  /** The kind of the token after position i of the (already extended) input; none after the last. */
  function PeekAt(tokens: seq<Token>, i: nat): Option<TokenKind> {
    if i + 1 < |tokens| then Some(tokens[i + 1].kind) else None
  }

  /** One step of the cascade: a matching window is reduced and the scan restarts at length 1. */
  lemma ScanReduces(s: seq<Sym>, p: Option<TokenKind>, j: nat, i: nat)
    requires 1 <= j <= Min(5, |s|) && FirstMatch(s[|s| - j..], p) == Some(i)
    ensures i < GrammarSize && FitsShape(Grammar(i), s[|s| - j..])
    ensures Scan(s, p, j) == Scan(Reduce(s, j, Grammar(i)), p, 1)
  {
  }

  /** One step of the cascade: a window no production matches is passed over. */
  lemma ScanSkips(s: seq<Sym>, p: Option<TokenKind>, j: nat)
    requires 1 <= j <= Min(5, |s|) && FirstMatch(s[|s| - j..], p).None?
    ensures Scan(s, p, j) == Scan(s, p, j + 1)
  {
  }

  /** The cascade ends once the window length passes min(5, |s|). */
  lemma ScanStops(s: seq<Sym>, p: Option<TokenKind>, j: nat)
    requires 1 <= j && Min(5, |s|) < j
    ensures Scan(s, p, j) == s
  {
  }

  /** Pushes tokens[i..] one by one onto `stack`, running the cascade after each push. */
  function ShiftFrom(tokens: seq<Token>, i: nat, stack: seq<Sym>): seq<Sym>
    requires i <= |tokens|
    decreases |tokens| - i
  {
    if i == |tokens| then stack
    else ShiftFrom(tokens, i + 1, Scan(stack + [Tok(tokens[i])], PeekAt(tokens, i), 1))
  }

  /** What `parse(tokens)` returns: the stack left after every token and the end marker. */
  function ParseResult(tokens: seq<Token>): seq<Sym> {
    ShiftFrom(tokens + [EndToken], 0, [])
  }

  // ---------------------------------------------------------------------------------------
  // Weight: the cascade terminates

  lemma {:induction false} WeightAppend(a: seq<Sym>, b: seq<Sym>)
    ensures Weight(a + b) == Weight(a) + Weight(b)
    decreases |b|
  {
    if b != [] {
      var b' := b[..|b| - 1];
      assert (a + b)[..|a + b| - 1] == a + b';
      WeightAppend(a, b');
    } else {
      assert a + b == a;
    }
  }

  /** The cost any entry fitting a shape entry of this kind has. */
  function KindCost(k: Kind): nat {
    match k
    case Terminal(_) => 2
    case Nonterminal(_) => 1
    case ListKind(_) => 0
  }

  function ShapeWeight(shape: seq<Kind>): nat {
    if shape == [] then 0 else ShapeWeight(shape[..|shape| - 1]) + KindCost(shape[|shape| - 1])
  }

  lemma FitsShapeEntrywise(r: Rule, w: seq<Sym>)
    requires FitsShape(r, w)
    ensures forall i :: 0 <= i < |w| ==> Fits(w[i], Shape(r)[i])
  {
    forall i | 0 <= i < |w| ensures Fits(w[i], Shape(r)[i]) {
      assert FitsAt(w, Shape(r), i);
    }
  }

  lemma {:induction false} WeightOfFittingWindow(w: seq<Sym>, shape: seq<Kind>)
    requires |w| == |shape| && forall i :: 0 <= i < |w| ==> Fits(w[i], shape[i])
    ensures Weight(w) == ShapeWeight(shape)
    decreases |w|
  {
    if w != [] {
      var n := |w| - 1;
      assert Fits(w[n], shape[n]);
      WeightOfFittingWindow(w[..n], shape[..n]);
    }
  }

  lemma BuildLowersWeight(r: Rule, w: seq<Sym>)
    requires FitsShape(r, w)
    ensures Weight(Build(r, w)) < Weight(w)
  {
    FitsShapeEntrywise(r, w);
    WeightOfFittingWindow(w, Shape(r));
    BuiltWeight(r, w);
    ShapeWeightBound(r);
  }

  /** The builders return one non-token entry, or `(` and a list for `( Identifier`. */
  lemma BuiltWeight(r: Rule, w: seq<Sym>)
    requires FitsShape(r, w)
    ensures Weight(Build(r, w)) <= if r == ParenIdentifier then 2 else 1
  {
    var b := Build(r, w);
    BuildSize(r, w);
    if r == ParenIdentifier {
      assert b == [b[0], b[1]];
      WeightOfPair(b[0], b[1]);
    } else {
      assert b == [b[0]];
      WeightOfSingle(b[0]);
    }
  }

  /** Every builder returns one entry that is not a token, except `( Identifier`, which returns `(` and a list. */
  lemma BuildSize(r: Rule, w: seq<Sym>)
    requires FitsShape(r, w)
    ensures |Build(r, w)| == if r == ParenIdentifier then 2 else 1
    ensures |Build(r, w)| <= |w|
    ensures r != ParenIdentifier ==> !Build(r, w)[0].Tok?
    ensures r == ParenIdentifier ==> Build(r, w)[1].ListOf?
  {
  }

  lemma WeightOfSingle(x: Sym)
    ensures Weight([x]) == Cost(x)
  {
    assert [x][..0] == [];
  }

  lemma WeightOfPair(x: Sym, y: Sym)
    ensures Weight([x, y]) == Cost(x) + Cost(y)
  {
    assert [x, y][..1] == [x];
    WeightOfSingle(x);
  }

  /** Every production consumes at least two units of weight, `( Identifier` three. */
  lemma ShapeWeightBound(r: Rule)
    ensures ShapeWeight(Shape(r)) >= if r == ParenIdentifier then 3 else 2
  {
  }

  lemma SplitAt(s: seq<Sym>, k: nat)
    requires k <= |s|
    ensures s == s[..k] + s[k..]
  {
  }

  /** Replacing the entries from k on by lighter ones lowers the weight of the stack. */
  lemma ReplaceLowersWeight(stack: seq<Sym>, k: nat, built: seq<Sym>)
    requires k <= |stack| && Weight(built) < Weight(stack[k..])
    ensures Weight(stack[..k] + built) < Weight(stack)
  {
    WeightAppend(stack[..k], built);
    WeightSplit(stack, k);
  }

  /** The weight of a stack is the weight below position k plus the weight from k on. */
  lemma WeightSplit(s: seq<Sym>, k: nat)
    requires k <= |s|
    ensures Weight(s) == Weight(s[..k]) + Weight(s[k..])
  {
    SplitAt(s, k);
    WeightAppend(s[..k], s[k..]);
  }

  // ---------------------------------------------------------------------------------------
  // The parser

  /** The caller's token array, which `parse` extends with the end marker. */
  class TokenArray {
    var tokens: seq<Token>

    constructor (tokens: seq<Token>)
      ensures this.tokens == tokens
    {
      this.tokens := tokens;
    }
  }

  /**
   * `parse(tokens)`: appends the end marker to the caller's array, then pushes every token
   * and runs the reduction cascade after each; returns the residual stack.
   */
  method Parse(input: TokenArray) returns (stack: seq<Sym>)
    modifies input
    ensures input.tokens == old(input.tokens) + [EndToken]
    ensures stack == ParseResult(old(input.tokens))
  {
    input.tokens := input.tokens + [EndToken];
    var tokens := input.tokens;
    stack := [];
    var i := 0;
    while i < |tokens|
      invariant i <= |tokens| && input.tokens == tokens
      invariant ShiftFrom(tokens, i, stack) == ParseResult(old(input.tokens))
    {
      var token := tokens[i];
      var peek := if i < |tokens| - 1 then Some(tokens[i + 1].kind) else None;
      stack := stack + [Tok(token)];
      stack := ReduceAll(stack, peek);
      i := i + 1;
    }
  }

  /**
   * The inner loop of `parse`: tries windows of length 1 to min(5, |stack|) and, after each
   * reduction, starts again from length 1 (`j = 0` followed by the loop's `j++`).
   */
  method ReduceAll(pushed: seq<Sym>, peek: Option<TokenKind>) returns (stack: seq<Sym>)
    ensures stack == Scan(pushed, peek, 1)
  {
    stack := pushed;
    var j := 1;
    while j <= Min(5, |stack|)
      invariant 1 <= j
      invariant Scan(stack, peek, j) == Scan(pushed, peek, 1)
      decreases Weight(stack), 6 - j
    {
      stack, j := TryWindow(stack, peek, j);
    }
    ScanStops(stack, peek, j);
  }

  /**
   * One pass of the inner loop's body: window j is reduced by the first production that
   * matches it, and the loop restarts at length 1 (`j = 0` followed by `j++`), or it is
   * passed over and the loop goes on with length j + 1.
   */
  method TryWindow(stack: seq<Sym>, peek: Option<TokenKind>, j: nat) returns (next: seq<Sym>, k: nat)
    requires 1 <= j <= Min(5, |stack|)
    ensures 1 <= k && Scan(next, peek, k) == Scan(stack, peek, j)
    ensures FirstMatch(stack[|stack| - j..], peek).Some? ==> Weight(next) < Weight(stack) && k == 1
    ensures FirstMatch(stack[|stack| - j..], peek).None? ==> next == stack && k == j + 1
  {
    var window := stack[|stack| - j..];
    var production := FirstMatch(window, peek);
    next, k := stack, j;
    if production.Some? {
      ScanReduces(stack, peek, j, production.value);
      var rule := Grammar(production.value);
      // splice the window off and push the builder's result
      next := Reduce(stack, j, rule);
      k := 0;
    } else {
      ScanSkips(stack, peek, j);
    }
    k := k + 1;
  }
}
