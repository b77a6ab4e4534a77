# miniscript front end and evaluator, modelled in Dafny

This project models the core of miniscript, a small dynamically typed functional scripting
language. It has three parts.

- **The structural pattern matcher** (`match`, interpreter/patternMatching.js). It decides
  whether a pattern node matches a runtime value and writes the bindings into a scope object.
  Patterns are the wildcard, boolean and number literals, identifiers, and array patterns with
  a rest element. The model is imperative where the source is: `PatternMatching.Scope` is the
  mutable scope, and `PatternMatching.Match` / `MatchArray` run the source's `while` loop over
  `patternIndex`, `expressionIndex` and `restElement`. Both are proved equal to the functional
  specification `MatchSpec` / `ArrayLoop`, about which the properties are proved
  (`pattern_matching.dfy`, `pattern_matching_props.dfy`).
- **The table-driven shift-reduce parser** (`parse`, `grammar`, `precedence`, `operators`,
  `arrayOf`, parser/parser.js). Tokens are pushed one by one. After each push, windows of the
  top 1..5 stack entries are tried, shortest first. The first production in table order whose
  shape and lookahead guard accept the window is reduced, and the scan restarts from length 1.
  - `Parser.Parse` is the imperative `parse`: it extends the caller's token array with `$`
    and runs the two nested loops.
  - It is proved equal to the functional `ParseResult` / `ShiftFrom` / `Scan`.
  - Properties proved: the stack bounds; that the returned stack is irreducible; the
    precedence levels; left grouping at equal levels; whole-input parses of operator chains;
    the order in which files and pattern-matching expressions are assembled; and the guard
    that makes `f = x => y` declare `f` as the function.

  Files: `parser.dfy`, `parser_props.dfy`, `parser_precedence.dfy`, `parser_assembly.dfy`.
- **The evaluator's visitor table** (src/interpreter/visitorsFactory.js). There is one visitor
  per node type, and each evaluates a node in a scope chain, outermost scope first. `Eval` is
  the functional specification over a chain of binding maps. `Evaluator.Evaluate` and its
  siblings are the imperative visitors over scope objects, which keep the source's loops and
  its writes into the innermost scope, and each is proved equal to `Eval`. The injected
  helpers `get`, `operations`, `createFunction` and `func.call` are the fields of a `Host`
  parameter. `aval` is the evaluator itself and `match` is the matcher above
  (`evaluator.dfy`, `evaluator_props.dfy`).

Runtime values (`values.dfy`) are JavaScript values as the interpreter holds them:
- the tagged `{ value, type }` objects the literal visitors build, and the
  `{ type, name, value }` object of a NamedParameter, whose `value` is whatever its argument
  evaluated to;
- the function values `createFunction` builds;
- `undefined`;
- the untagged payloads found under `.value` or produced by some visitors: booleans, numbers,
  strings, arrays and plain objects.

Four JavaScript operations are defined over all of them, for the keys the language can spell:
- property reads, `Values.Prop`;
- `Object.keys` with the reads it lists, `Values.OwnEntries`;
- spread iteration, `Values.Iterate`;
- the walk by `length` and index, `Values.ArrayLike`.

So a NamedParameter, or an Array's `length`, behaves as it does in the interpreter. Failures are
values: a `Result` carries either the value or the exception raised. Exceptions are the
interpreter's own `throw`s, and the JavaScript `TypeError`s that the code runs into, such as
reading `.value` of `undefined`.

Where the code and the language's usual description differ, the model follows the code:
- `not e` applies JavaScript `!` to the tagged wrapper object, so on any tagged value it yields
  `false`; it does not negate the boolean (`EvaluatorProperties.NotOfTaggedValueIsFalse`).
- `o.name` reads `name` of the payload, so `[1, 2].length` is the bare number 2
  (`EvaluatorProperties.LengthOfArrayLiteral`).
- `File` and `Declaration` write into the innermost scope (`scopes[scopes.length - 1]`). That
  is the outermost scope only when the chain has a single scope.
- The rest element of an array pattern pushes into the object already bound to its name. An
  existing Array binding is extended rather than replaced (`PatternMatching.Absorb`). The model
  extends the binding, not an object shared with other bindings (see "Left out").
- `**` is not in its own precedence list, so `2 ** 3 ** 2` groups to the left
  (`ParserPrecedence.PowerGroupsLeft`).

## Model

| member | source | states |
|---|---|---|
| Values.Chars | interpreter/patternMatching.js:16-21 | walking a String through `.value.length` and indexing yields one one-character string per character, in order |
| Values.Prop | src/interpreter/visitorsFactory.js:84-87 | a property read raises exactly on `undefined`; a tagged value has its `value` and `type`; a string or an array has its `length` and its indices, and no other key; a bare boolean or number has no property |
| Values.OwnEntries | src/interpreter/visitorsFactory.js:67-69 | `Object.keys` raises exactly on `undefined`; it lists a tagged value's fields, a plain object's or function's own entries, and nothing for a bare boolean or number |
| Values.OwnEntriesAreReads | src/interpreter/visitorsFactory.js:67-69 | every key `Object.keys` lists is copied with the value that reading that key gives |
| Values.IndexedHoldsElements | src/interpreter/visitorsFactory.js:67-69 | the keys of a string or an array include each index, holding that element |
| Values.Iterate | src/interpreter/visitorsFactory.js:55-56 | spreading succeeds exactly on a bare array (its elements) or a string (its characters), and otherwise raises not-iterable |
| Values.ArrayLike | interpreter/patternMatching.js:16-21 | the walk visits an array's elements or a string's characters, and nothing of a tagged value, a primitive or `undefined` |
| Values.ArrayLikeReadsByIndex | interpreter/patternMatching.js:16-21 | the walk exists exactly when `p.length` is a non-negative number n; it then has n elements, element i being what `p[i]` reads |
| PatternMatching.Scope.constructor | src/interpreter/visitorsFactory.js:133 | a fresh match scope holds no bindings |
| PatternMatching.Push | interpreter/patternMatching.js:33 | pushing onto an Array appends the element; a Boolean, Number, String or Object has no `push` and raises |
| PatternMatching.PushAppendsToValue | interpreter/patternMatching.js:33 | `t.value.push(e)` succeeds exactly when `t.value` is an array, appending e to it; otherwise it raises, reading `push` of `undefined` or calling a missing `push` |
| PatternMatching.PushKeepsOtherProperties | interpreter/patternMatching.js:33 | a push changes no property of the object other than `value` |
| PatternMatching.Absorb | interpreter/patternMatching.js:29-33 | a rest element adds only its own name and keeps every other binding; an absent or falsy entry becomes a one-element Array; an Array entry is extended; a truthy non-Array entry raises a TypeError, and only then |
| PatternMatching.Walked | interpreter/patternMatching.js:16-21 | the array case walks `v.value` by `length` and index; it raises exactly when v or `v.value` is `undefined`; an Array gives its elements, a String its characters, a Boolean or Number nothing to walk |
| PatternMatching.Same | interpreter/patternMatching.js:4-7 | a literal compares with the subject's `value`, raising exactly on `undefined`; on a tagged value it compares the payload |
| PatternMatching.PushRest | interpreter/patternMatching.js:29-33 | the scope object is updated to what `Absorb` computes, or is left unchanged when the push raises |
| PatternMatching.Match | interpreter/patternMatching.js:1-54 | the imperative matcher returns what `MatchSpec` returns and leaves in the scope the bindings `MatchSpec` computes from the old scope |
| PatternMatching.MatchArray | interpreter/patternMatching.js:11-49 | the array case returns and binds exactly what `ArrayLoop` specifies |
| PatternMatching.MatchElements | interpreter/patternMatching.js:12-49 | the `while` loop over `patternIndex`, `expressionIndex` and `restElement` returns and binds exactly what `ArrayLoop` specifies from the old scope |
| PatternMatchingProperties.NoPatternMatchesAll | interpreter/patternMatching.js:2-3 | the wildcard matches every value and binds nothing |
| PatternMatchingProperties.BooleanPattern | interpreter/patternMatching.js:4-5 | a Boolean literal never binds; it matches exactly the equal tagged Boolean, a NamedParameter of the equal bare boolean, or an object whose `value` is it; a bare primitive or array never matches; only `undefined` raises |
| PatternMatchingProperties.NumberPattern | interpreter/patternMatching.js:6-7 | the same for a Number literal and numbers |
| PatternMatchingProperties.ArrayPatternSubjects | interpreter/patternMatching.js:16-21 | an array pattern raises when the subject or its `value` is `undefined`; a Boolean, a Number or a NamedParameter of a tagged value never matches; a NamedParameter of a bare array or string matches as that Array or String would |
| PatternMatchingProperties.IdentifierBindsWholeValue | interpreter/patternMatching.js:8-10 | an identifier always matches and sets its name to the whole value, overwriting any earlier entry |
| PatternMatchingProperties.UnhandledPatternsFail | interpreter/patternMatching.js:52-53 | string, object, function and bare rest patterns match nothing and bind nothing |
| PatternMatchingProperties.ArrayLoopPrefix | interpreter/patternMatching.js:16-43 | over a rest-free prefix, the loop matches element by element left to right and stops at the first failure |
| PatternMatchingProperties.ArrayWithoutRest | interpreter/patternMatching.js:11-49 | a rest-free array pattern matches iff the lengths agree and every element matches its counterpart, in order |
| PatternMatchingProperties.RestElementCapturesTail | interpreter/patternMatching.js:23-49 | after k matching fixed patterns, a trailing `...name` over n > k elements binds name to the Array of elements k..n-1, in order |
| PatternMatchingProperties.RestAbsorbsToEnd | interpreter/patternMatching.js:23-35 | once the last pattern is a rest element, the loop absorbs every remaining element into it and succeeds |
| PatternMatchingProperties.RestStepExtends | interpreter/patternMatching.js:29-35 | at a trailing rest element holding elements k..j-1, the next step extends that Array by element j |
| PatternMatchingProperties.EmptyRestFails | interpreter/patternMatching.js:14-49 | a rest element left with no element to absorb makes the match fail |
| PatternMatchingProperties.RestTargetMustBeIdentifier | interpreter/patternMatching.js:24-27 | a rest target that is not an identifier raises, but only when it is reached with an element left; otherwise the match just fails |
| PatternMatchingProperties.PatternAfterRestNeverMatches | interpreter/patternMatching.js:23-49 | any pattern placed after a rest element makes the array pattern fail for every value |
| PatternMatchingProperties.LoopStopsAtRest | interpreter/patternMatching.js:23-49 | the loop never moves past a rest element that is not last, so it cannot succeed |
| PatternMatchingProperties.MatchBindings | interpreter/patternMatching.js:1-54 | a match only adds names the pattern mentions, keeps every other binding, and on success binds all of them |
| PatternMatchingProperties.ArrayLoopBindings | interpreter/patternMatching.js:16-44 | the same binding discipline holds for the array loop from any reachable state |
| PatternMatchingProperties.ElementStepBindings | interpreter/patternMatching.js:36-43 | a step at an element pattern keeps the binding discipline |
| PatternMatchingProperties.RestStepBindings | interpreter/patternMatching.js:23-35 | a step at a rest element keeps the binding discipline |
| PatternMatchingProperties.EmptyPatternMatchesOnlyEmpty | interpreter/patternMatching.js:46-49 | `[]` matches exactly the empty Array |
| PatternMatchingProperties.RestNeedsAnElement | interpreter/patternMatching.js:14-49 | `[x, ...xs]` rejects `[1]` (x stays bound) and `[...xs]` rejects `[]` |
| PatternMatchingProperties.HeadAndTail | interpreter/patternMatching.js:11-49 | `[x, ...xs]` on `[1, 2, 3]` binds x to 1 and xs to `[2, 3]` |
| PatternMatchingProperties.FailureKeepsEarlierBindings | interpreter/patternMatching.js:37-38 | a failed match leaves the bindings written for earlier elements |
| PatternMatchingProperties.ArrayPatternOverString | interpreter/patternMatching.js:16-21 | an array pattern walks a String's characters, binding one-character strings |
| Parser.KindOf | parser/parser.js:208-209 | a stack entry's type is a token kind exactly for tokens and a bracketed list kind exactly for lists |
| Parser.ArrayOf | parser/parser.js:70-76 | `arrayOf` gives an entry of the bracketed element kind carrying the values unchanged |
| Parser.NamesOf | parser/parser.js:127 | the parameter names are the identifiers' names, one per identifier, in order |
| Parser.MatchVector | parser/parser.js:225 | entry i says whether production i accepts the window under the lookahead |
| Parser.FirstTrue | parser/parser.js:225 | `find` returns a position holding true, at or after where it started |
| Parser.FirstMatch | parser/parser.js:225 | the production `find` returns accepts the window and lookahead |
| Parser.Reduce | parser/parser.js:228-230 | every reduction lowers the stack's weight, which is why the cascade ends |
| Parser.ReduceSplices | parser/parser.js:228-230 | a reduction keeps the entries below the window and puts the builder's result in place of the top j entries |
| Parser.BuildSize | parser/parser.js:115-118 | every builder yields one entry, except `(` IdentifierExpression, which yields the `(` token and a list |
| Parser.ScanReduces | parser/parser.js:225-231 | when window j matches, the cascade reduces it and restarts from length 1 |
| Parser.ScanSkips | parser/parser.js:222-226 | when window j matches nothing, the cascade goes on with length j + 1 |
| Parser.ScanStops | parser/parser.js:222 | the cascade ends once the length passes min(5, stack size) |
| Parser.TokenArray.constructor | parser/parser.js:211-213 | the caller's token array holds the given tokens |
| Parser.Parse | parser/parser.js:211-237 | `parse` appends `$` to the caller's array and returns the stack `ParseResult` specifies, with no error path |
| Parser.ReduceAll | parser/parser.js:222-233 | the inner loop with its `j = 0` restart computes exactly the cascade `Scan` |
| Parser.TryWindow | parser/parser.js:223-232 | one pass of the loop body leaves the rest of the cascade unchanged; a matching window lowers the stack's weight and restarts at length 1, a window nothing matches is passed over |
| ParserProperties.FirstTrueIsFirst | parser/parser.js:225 | `find` returns k iff position k holds and no earlier one does |
| ParserProperties.FirstTrueNone | parser/parser.js:225 | `find` returns nothing iff no position holds |
| ParserProperties.FirstMatchIsFirst | parser/parser.js:225 | production k is chosen iff it matches and no production earlier in the table does |
| ParserProperties.FirstMatchNone | parser/parser.js:225 | no production is chosen iff none matches |
| ParserProperties.OperatorMiddleFitsOnlyBinary | parser/parser.js:78-206 | a three-entry window with a binary operator node in the middle fits only the binary production |
| ParserProperties.AssignMiddleFitsOnlyDeclaration | parser/parser.js:144-148 | a three-entry window with `=` in the middle fits only the declaration production |
| ParserProperties.ArrowMiddleFitsOnlyArrow | parser/parser.js:130-135 | `Identifier => _` fits only the one-parameter function production |
| ParserProperties.FileTopFitsOnlyFileCons | parser/parser.js:78-206 | a two-entry window topped by a File fits only the production that prepends to a File |
| ParserProperties.EndTopFitsOnlyFileEnd | parser/parser.js:78-206 | a two-entry window topped by `$` fits only the production that opens a File |
| ParserProperties.CaseFirstFitsOnlyCaseRules | parser/parser.js:78-206 | a case under the default case or a PatternMatchingExpression fits only the two case-assembling productions |
| ParserProperties.TokenFitsOnlyItsTerminal | parser/parser.js:80-97 | a lone token fits only the terminal production of its own kind |
| ParserProperties.NodeFitsNothingAlone | parser/parser.js:78-206 | a lone node fits no production |
| ParserProperties.BinaryRuleMatches | parser/parser.js:100-106 | `Expression BinaryOperator Expression` reduces iff the lookahead is not in the operator's precedence list |
| ParserProperties.DeclarationRuleMatches | parser/parser.js:144-148 | `name = Expression` reduces iff the lookahead is neither an operator nor `=>` |
| ParserProperties.ArrowRuleMatches | parser/parser.js:130-135 | `name => Expression` reduces iff the lookahead is not an operator |
| ParserProperties.TokenWindow | parser/parser.js:80-97 | a token alone on top is rewritten by its terminal production at once; punctuation has none |
| ParserProperties.NodeWindowIrreducible | parser/parser.js:78-206 | a single node on top never reduces alone |
| ParserProperties.BinaryWindow | parser/parser.js:100-106 | the binary production is chosen for `a op b` exactly when the lookahead does not block op, and otherwise nothing is |
| ParserProperties.DeclarationWindow | parser/parser.js:144-148 | a declaration is chosen exactly when no operator and no `=>` follows, and otherwise nothing is |
| ParserProperties.ArrowWindow | parser/parser.js:130-135 | a one-parameter function is chosen exactly when no operator follows, and otherwise nothing is |
| ParserProperties.PrecedenceFollowsLevels | parser/parser.js:52-68 | t blocks binary operator op iff t is `!`, `(` or `.`, or a binary operator of a strictly tighter level |
| ParserProperties.TighterOperators | parser/parser.js:52-68 | the levels are `**`, then `* / %`, then `+ -`, then comparisons, `&&` and `||` |
| ParserProperties.ProductPrecedence | parser/parser.js:55-57 | the lists of `*`, `/` and `%` follow the levels |
| ParserProperties.SumPrecedence | parser/parser.js:58-59 | the lists of `+` and `-` follow the levels |
| ParserProperties.ComparisonPrecedence | parser/parser.js:60-67 | the lists of the comparisons, `&&` and `||` follow the levels |
| ParserProperties.ComparisonOperators | parser/parser.js:60-67 | the comparisons, `&&` and `||` all share the loosest level |
| ParserProperties.ComparisonBlockers | parser/parser.js:60-67 | a comparison, `&&` or `||` waits exactly for `! ( . ** * % / + -` |
| ParserProperties.OrderingBlockers | parser/parser.js:60-63 | `<`, `>`, `>=`, `<=` wait exactly for `! ( . ** * % / + -` |
| ParserProperties.EqualityBlockers | parser/parser.js:64-67 | `==`, `!=`, `&&`, `||` wait exactly for `! ( . ** * % / + -` |
| ParserProperties.SameLevelReducesLeftFirst | parser/parser.js:52-106 | with an operator of the same level ahead, `a op b` reduces at once, so equal-level chains group to the left |
| ParserProperties.TighterLevelWaits | parser/parser.js:52-106 | with a tighter operator ahead, `a op b` waits |
| ParserProperties.ScanNeverGrows | parser/parser.js:222-233 | the cascade never makes the stack longer |
| ParserProperties.ScanEndsIrreducible | parser/parser.js:222-233 | when the cascade ends, no window of length 1..min(5, size) matches |
| ParserProperties.ReducedIrreducible | parser/parser.js:227-231 | a cascade that reduces also ends irreducible |
| ParserProperties.SkippedIrreducible | parser/parser.js:222-226 | a cascade that passes over a window also ends irreducible |
| ParserProperties.StopIsIrreducible | parser/parser.js:222 | a stack where every window was passed over is irreducible |
| ParserProperties.ShiftFromBound | parser/parser.js:217-234 | the stack never holds more entries than it had plus the tokens pushed so far |
| ParserProperties.ParseResultBound | parser/parser.js:214-236 | the returned stack has at most one entry per token plus one for `$` |
| ParserProperties.ShiftFromEndsIrreducible | parser/parser.js:217-236 | after the last token no window of the stack matches under the absent lookahead |
| ParserProperties.ParseResultIrreducible | parser/parser.js:214-236 | the returned stack cannot be reduced any further |
| ParserPrecedence.EndAlone | parser/parser.js:80-97 | `$` alone on top has no terminal production |
| ParserPrecedence.FileEndFits | parser/parser.js:201 | `Node $` matches under every lookahead and builds a one-node File |
| ParserPrecedence.NodeThenEnd | parser/parser.js:201 | a node followed by `$` becomes a one-node File |
| ParserPrecedence.SettledSingle | parser/parser.js:222-233 | a lone node on the stack stays as it is |
| ParserPrecedence.ReduceBinary | parser/parser.js:100-106 | `a o b` on top reduces to a BinaryExpression when the lookahead does not block o, keeping the entries below |
| ParserPrecedence.ShiftSecondOperand | parser/parser.js:100-106 | after `a o1 y`, the left operation reduces unless the next operator is in o1's list |
| ParserPrecedence.ShiftLastOperandNested | parser/parser.js:100-106 | with `$` ahead, `a o1 y o2 z` reduces the right operation first, so it nests as the right operand |
| ParserPrecedence.ShiftEnd | parser/parser.js:201 | the `$` pushed at the end closes a finished statement or expression into a File |
| ParserPrecedence.ShiftThreeOperands | parser/parser.js:217-234 | on any token sequence `x o1 y o2 z $`, parsing yields `x o1 (y o2 z)` when o2 is in o1's list and `(x o1 y) o2 z` otherwise |
| ParserPrecedence.ParseThreeOperands | parser/parser.js:211-237 | `x o1 y o2 z` parses to a File holding `x o1 (y o2 z)` when o2 binds tighter than o1, and `(x o1 y) o2 z` otherwise |
| ParserPrecedence.ShiftTwoTightOperations | parser/parser.js:217-234 | on `w o1 x o2 y o3 z $` with o2 looser than o1 and o3 tighter than o2, parsing yields `(w o1 x) o2 (y o3 z)` |
| ParserPrecedence.ParseTwoTightOperations | parser/parser.js:211-237 | the same, for `parse` of the tokens without `$` |
| ParserPrecedence.ProductsBindTighterThanSum | parser/test.js:108-128 | for any numbers, `a * b + c * d` parses as `(a * b) + (c * d)` |
| ParserPrecedence.PowersBindTighterThanProduct | parser/test.js:130-150 | for any numbers, `a ** b * c ** d` parses as `(a ** b) * (c ** d)` |
| ParserPrecedence.SubtractionGroupsLeft | parser/parser.js:58-59 | for any numbers, `a - b - c` parses as `(a - b) - c` |
| ParserPrecedence.PowerGroupsLeft | parser/parser.js:54 | for any numbers, `a ** b ** c` parses as `(a ** b) ** c` |
| ParserPrecedence.ProductNestsUnderSum | parser/parser.js:58 | for any numbers, `a + b * c` parses as `a + (b * c)` |
| ParserAssembly.FileConsFits | parser/parser.js:202-205 | `Node File` matches under every lookahead and prepends the node to the File |
| ParserAssembly.CaseThenDefaultFits | parser/parser.js:186-190 | a case over the default case matches and builds a one-case PatternMatchingExpression |
| ParserAssembly.CaseThenCasesFits | parser/parser.js:191-198 | a case over a PatternMatchingExpression matches and is prepended to its cases |
| ParserAssembly.NodeThenFile | parser/parser.js:202-205 | a node followed by a File is prepended to its nodes, whatever the lookahead |
| ParserAssembly.CaseThenDefaultWindow | parser/parser.js:186-190 | a case followed by the default case starts a PatternMatchingExpression with that one case |
| ParserAssembly.CaseThenCasesWindow | parser/parser.js:191-198 | a case followed by a PatternMatchingExpression is prepended to its cases, and the default is kept |
| ParserAssembly.EndClosesNode | parser/parser.js:201 | `$` over a node turns it into a one-node File, keeping the entries below |
| ParserAssembly.FilePrepends | parser/parser.js:202-205 | the nodes below a File are folded into it, nearest first, so it keeps them in source order |
| ParserAssembly.FileCloses | parser/parser.js:201-205 | `$` turns the nodes on top of the stack into one File holding them in source order |
| ParserAssembly.StatementsFormFile | parser/parser.js:201-205 | the statements a whole input leaves become exactly one File, in source order |
| ParserAssembly.CasesPrepend | parser/parser.js:191-198 | the cases below a PatternMatchingExpression are folded into it in source order |
| ParserAssembly.CasesAssemble | parser/parser.js:186-198 | cases followed by the default case become one PatternMatchingExpression: the cases in source order, the default last |
| ParserAssembly.ShiftParameter | parser/parser.js:144-148 | in `f = x =>`, the declaration waits on `=>`, so x stays free for the function |
| ParserAssembly.MarkAlone | parser/parser.js:80-97 | `=` and `=>` alone on top have no terminal production |
| ParserAssembly.DeclarationBuilds | parser/parser.js:144-148 | the declaration production fits `f = e` and declares f as e |
| ParserAssembly.ArrowBuilds | parser/parser.js:130-135 | the one-parameter function production fits `x => e` and builds the function of x returning e |
| ParserAssembly.DeclarationPasses | parser/parser.js:222-226 | below `f = e`, neither `e` nor `= e` reduces, so the scan reaches the whole declaration |
| ParserAssembly.DeclarationReduces | parser/parser.js:144-148 | the window `f = e` reduces to a Declaration when no operator and no `=>` follows |
| ParserAssembly.ArrowPassesLower | parser/parser.js:124-135 | in `f = x =>`, neither `=>` nor `x =>` reduces |
| ParserAssembly.ArrowPassesUpper | parser/parser.js:124-148 | nor do `= x =>` and `f = x =>`, so the stack stays as it is until the body arrives |
| ParserAssembly.ShiftArrow | parser/parser.js:124-148 | with an identifier ahead, `f = x =>` waits on the stack unchanged |
| ParserAssembly.ShiftDeclaration | parser/parser.js:144-148 | `f = e` with no operator or `=>` ahead becomes a Declaration |
| ParserAssembly.ShiftBody | parser/parser.js:130-148 | at the end of `f = x => y` the function reduces first and the declaration then takes it whole |
| ParserAssembly.ShiftArrowDeclaration | parser/parser.js:124-148 | on any token sequence `f = x => y $`, parsing yields a File declaring f as the function `x => y` |
| ParserAssembly.ParseArrowDeclaration | parser/parser.js:211-237 | `f = x => y` declares f as the whole function |
| Evaluator.ModuleOf | src/interpreter/visitorsFactory.js:17 | the value a File returns is the innermost scope's `module` entry, or `undefined` |
| Evaluator.UnaryResult | src/interpreter/visitorsFactory.js:96-105 | `not` gives JavaScript `!` of the operand; `type` reads the operand's `type`: a tagged value's tag, a plain object's entry, `undefined` for a bare boolean or number; it raises only on `type` of `undefined`; any other operator gives `undefined` |
| Evaluator.Access | src/interpreter/visitorsFactory.js:84-87 | `o.name` reads `name` of `o.value`: an Object's entry or `undefined`, an Array's or String's `length` as a bare number, a NamedParameter argument's property, `undefined` for a Boolean or Number; it raises exactly when o or `o.value` is `undefined` |
| Evaluator.Spread | src/interpreter/visitorsFactory.js:54-56 | `...e` in an array literal succeeds exactly when `e.value` is an array or a string: an Array's elements, a String's characters, what a NamedParameter's argument iterates to; `undefined` raises a read error and a Boolean, Number or Object raises not-iterable |
| Evaluator.CallValue | src/interpreter/visitorsFactory.js:112 | `func.call(args)` calls the host exactly for a function value; `undefined` raises a read error and any other value raises not-a-function |
| Evaluator.Eval | src/interpreter/visitorsFactory.js:12-147 | evaluating any node changes at most the innermost scope of the chain |
| Evaluator.FileLoop | src/interpreter/visitorsFactory.js:12-18 | a File's nodes change at most the innermost scope |
| Evaluator.ElementsLoop | src/interpreter/visitorsFactory.js:52-63 | an array literal yields an Array |
| Evaluator.PropertiesLoop | src/interpreter/visitorsFactory.js:64-73 | an object literal yields an Object |
| Evaluator.ArgumentsLoop | src/interpreter/visitorsFactory.js:111 | a call yields one argument value per argument node |
| Evaluator.LetLoop | src/interpreter/visitorsFactory.js:123-126 | a let's declarations and body change at most the let's own innermost scope |
| Evaluator.CasesLoop | src/interpreter/visitorsFactory.js:131-141 | trying the cases changes at most the innermost scope |
| Evaluator.Evaluate | src/interpreter/visitorsFactory.js:12-147 | the imperative evaluator returns what `Eval` returns and leaves the scope objects holding `Eval`'s chain |
| Evaluator.EvaluateOperand | src/interpreter/visitorsFactory.js:84-120 | property access, unary expressions and named parameters agree with `Eval` |
| Evaluator.EvaluateFile | src/interpreter/visitorsFactory.js:12-18 | the `forEach` over a File's nodes agrees with `Eval` |
| Evaluator.EvaluateArray | src/interpreter/visitorsFactory.js:52-63 | the array literal's accumulator loop agrees with `Eval` |
| Evaluator.EvaluateObject | src/interpreter/visitorsFactory.js:64-73 | the object literal's key-assignment loop agrees with `Eval` |
| Evaluator.EvaluateProperty | src/interpreter/visitorsFactory.js:74-83 | an object property agrees with `Eval`: `{ k: v }` for `k: e`, `{ x: get(x) }` for `x`, the `value` of e for `...e`, and `undefined` otherwise |
| Evaluator.EvaluateBinary | src/interpreter/visitorsFactory.js:88-95 | a binary expression agrees with `Eval` |
| Evaluator.EvaluateCall | src/interpreter/visitorsFactory.js:109-113 | a call, with its `map` over the arguments, agrees with `Eval` |
| Evaluator.EvaluateLet | src/interpreter/visitorsFactory.js:121-127 | a let expression agrees with `Eval` and leaves the caller's scopes as `Eval` says |
| Evaluator.EvaluateLetIn | src/interpreter/visitorsFactory.js:122-126 | the let's declarations and body, run in the extended chain, agree with `LetLoop` |
| Evaluator.EvaluatePattern | src/interpreter/visitorsFactory.js:128-142 | the loop over the cases agrees with `Eval` |
| Evaluator.EvaluateWith | src/interpreter/visitorsFactory.js:137 | a case's result, evaluated with the fresh match scope layered innermost, agrees with `Eval` and leaves the caller's scopes unchanged |
| Evaluator.EvaluateDeclaration | src/interpreter/visitorsFactory.js:143-147 | a declaration agrees with `Eval`, writing only the innermost scope object |
| EvaluatorProperties.LiteralsAreTagged | src/interpreter/visitorsFactory.js:43-51 | boolean, number and string literals evaluate to their value tagged with the matching type, and change no scope |
| EvaluatorProperties.ElementsKeepOrder | src/interpreter/visitorsFactory.js:52-63 | the elements already gathered stay, in order, at the front of the resulting Array |
| EvaluatorProperties.ArrayWithoutRestIsArgumentList | src/interpreter/visitorsFactory.js:52-63 | a rest-free array literal evaluates its elements exactly as a call evaluates its arguments, left to right |
| EvaluatorProperties.ArrayWithoutRestLength | src/interpreter/visitorsFactory.js:52-63 | a rest-free array literal yields one element per element node |
| EvaluatorProperties.RestSpreadsItems | src/interpreter/visitorsFactory.js:54-56 | `[...e]` yields e's Array, the characters of e's String, or the bare array or string characters of a NamedParameter, and raises what `Spread` raises for any other value |
| EvaluatorProperties.AppendElement | src/interpreter/visitorsFactory.js:53-61 | the last element extends the elements before it, by exactly one value when it is not a rest element |
| EvaluatorProperties.LastElementAppendedLast | src/interpreter/visitorsFactory.js:52-63 | an array literal is its earlier elements, evaluated first and left to right, followed by what the last element adds in the chain they leave |
| EvaluatorProperties.RestBetweenElements | src/interpreter/visitorsFactory.js:52-63 | `[x, ...ys, z]` is x's value, then the items ys spreads, then z's value, each evaluated in the chain the one before leaves |
| EvaluatorProperties.MixedLiteralLength | src/interpreter/visitorsFactory.js:52-63 | `[x, ...ys, z]` has two elements more than ys spreads |
| EvaluatorProperties.ElementStep | src/interpreter/visitorsFactory.js:57-59 | a plain element pushes its value and goes on in the chain it leaves |
| EvaluatorProperties.RestElementStep | src/interpreter/visitorsFactory.js:54-56 | a rest element pushes the items it spreads and goes on in the chain it leaves |
| EvaluatorProperties.FrontOfMixedLiteral | src/interpreter/visitorsFactory.js:53-60 | the first two steps of `[x, ...ys, z]` gather x's value and then the items ys spreads |
| EvaluatorProperties.LengthOfArrayLiteral | src/interpreter/visitorsFactory.js:84-87 | `[...].length` is the number of elements, as a bare number |
| EvaluatorProperties.PropertiesKeepKeys | src/interpreter/visitorsFactory.js:64-73 | merging properties never drops a key already gathered |
| EvaluatorProperties.MergeEntries | src/interpreter/visitorsFactory.js:65-70 | merging a property's value keeps every key gathered so far, and merges a plain object's entries over them |
| EvaluatorProperties.LastPropertyMergedLast | src/interpreter/visitorsFactory.js:64-73 | an object literal is its earlier properties' mapping, evaluated first, with the own entries of the last property's value merged over it |
| EvaluatorProperties.LastPropertyWins | src/interpreter/visitorsFactory.js:64-77 | when the last property is `k: e`, the object's k is e's value, whatever came before |
| EvaluatorProperties.NamedPropertyEntries | src/interpreter/visitorsFactory.js:76-77 | the property `k: e` evaluates to the plain object mapping k to the value of e |
| EvaluatorProperties.ShorthandUsesGet | src/interpreter/visitorsFactory.js:78-79 | `{ x }` looks x up with `get` and raises what `get` raises |
| EvaluatorProperties.NoShortCircuit | src/interpreter/visitorsFactory.js:88-95 | the right operand is always evaluated after the left, for every operator, before `operations[op]` is applied |
| EvaluatorProperties.NotOfTaggedValueIsFalse | src/interpreter/visitorsFactory.js:100-101 | `not e` is `false` for every tagged value of e, `true` and `false` included, and for every other object: a function value, a bare array or a plain object |
| EvaluatorProperties.ArgumentsKeepOrder | src/interpreter/visitorsFactory.js:111 | the arguments already evaluated stay, in order, at the front of the argument list |
| EvaluatorProperties.CallPassesAllArguments | src/interpreter/visitorsFactory.js:109-113 | after the callee, all arguments are evaluated and passed to `call`; a callee that is not a function value raises |
| EvaluatorProperties.LetRestoresChain | src/interpreter/visitorsFactory.js:121-127 | a let expression leaves the caller's scope list exactly as it was |
| EvaluatorProperties.LetSingleDeclaration | src/interpreter/visitorsFactory.js:121-127 | a let with one successful declaration evaluates its body on the chain that declaration left |
| EvaluatorProperties.LetBindsInFreshScope | src/interpreter/visitorsFactory.js:121-127 | `let x = e in body` evaluates body with x bound in one new innermost scope |
| EvaluatorProperties.FirstMatchingCaseWins | src/interpreter/visitorsFactory.js:131-138 | the first case whose pattern matches in a fresh scope is taken, with those bindings layered innermost |
| EvaluatorProperties.NoCaseMatches | src/interpreter/visitorsFactory.js:131-141 | when no case matches, "PatternExpression did not match" is thrown and no scope changes |
| EvaluatorProperties.PatternExpressionTakesFirstMatch | src/interpreter/visitorsFactory.js:128-142 | the subject is evaluated once and the first matching case's result is the expression's value |
| EvaluatorProperties.DeclarationBindsInnermost | src/interpreter/visitorsFactory.js:143-147 | `x = e` binds x to e's value in the innermost scope only, and yields `undefined` |
| EvaluatorProperties.FailedDeclarationIsSilent | src/interpreter/visitorsFactory.js:143-147 | a declarator that does not match raises no error |
| EvaluatorProperties.FileReturnsModule | src/interpreter/visitorsFactory.js:12-18 | a File yields the innermost scope's `module` entry after its nodes |
| EvaluatorProperties.ModuleDeclarationExports | src/interpreter/visitorsFactory.js:12-18 | a File declaring `module = e` yields e's value |

## Left out

- The ImportDeclaration visitor (src/interpreter/visitorsFactory.js:19-39) is not modelled. It
  reads files, resolves paths and re-runs the interpreter. The module resolvers in
  src/ast/transforms are not part of this model either.
- The tokenizer is not part of this model: token sequences are the parser's input.
- `Production` (its `matches` and `generator`) and the node classes in parser/nodes.js are not
  part of this model. They are modelled by `Parser.Matches` and `Parser.Build`, which assume
  the following:
  - a window matches when its length equals the shape's;
  - each entry's type equals its shape entry or is a subtype (every concrete node is a Node;
    expressions are Expressions; a Declaration is a Statement);
  - the guard, when there is one, accepts the lookahead's type.
- The parser/test.js suite exercises a different parser entry point and node set. Only its two
  precedence examples are used, as worked examples.
- The helpers `get`, `operations`, `createFunction` and `func.call` are uninterpreted fields of
  `Host`. A function value is `Closure(id, own)`, and what it does when called is the host's
  `call`. `createFunction` receives the chain as a value, so a closure does not see scope
  updates made after it was created, such as a recursive function declared later in the same
  scope.
- Evaluator.CallValue: an object whose own `call` entry holds a function is treated as not
  callable. Calling through such an entry is not modelled.
- Numbers are unbounded integers, compared only for equality. JavaScript doubles, with their
  rounding, are not modelled.
- The `console.error` call on an unhandled pattern kind (interpreter/patternMatching.js:52) is
  output only and is left out.
- The tokens of the parse that follow `$`: `parse` never sees any, and the model's peek for `$`
  is the absent lookahead.
- Whole-input parses are proved for operator chains of numbers and for `f = x => y`. Calls,
  parameter lists, unary operators and pattern-matching input are covered production by
  production, not as whole-input examples.
- Evaluator.FileLoop, Evaluator.LetLoop and Evaluator.CasesLoop: their own contracts only
  bound the scope changes. What they compute is stated by `Evaluate` and by the
  lemmas about `Eval`.
- PatternMatching.Absorb: values are immutable and bindings hold values, not references. In
  interpreter/patternMatching.js:9 an identifier binds the element object itself, and lines
  29-33 push into whatever object the rest name is bound to, in place. Every other holder of
  that object sees the push: another binding, the subject array, an outer scope. The model
  extends only the rest name's binding. For `[[1], 2]` matched against `[xs, ...xs, 0] -> 0`
  and then `[[a, b], c] -> 1`, the first case pushes 2 into the subject's first element, so
  the second case matches and the result is 1. In the model the subject is unchanged, no case
  matches and "PatternExpression did not match" is raised.
- PatternMatching.PushRest and PatternMatching.Match: the same gap. They agree with `Absorb`
  and `MatchSpec` on the scope's bindings, not on objects shared with other bindings.
- PatternMatching.MatchElements: `expression.value.length` is re-read on every iteration. The
  model walks the elements as they are when the loop starts, so it does not capture a push,
  through a shared reference, that lengthens the subject while it is walked.
- Evaluator.Eval: "changes at most the innermost scope" is about the bindings of each scope. An
  object reachable from an outer scope can still be changed in place by a rest pattern in a
  case or a declaration, and this model does not capture that.
- EvaluatorProperties.LetRestoresChain: the caller's scope list is restored as bindings. Objects
  shared with bindings made inside the let can have been changed in place, which is not
  captured (see PatternMatching.Absorb).
- Values.Chars: a string is a sequence of Unicode code points. JavaScript's `length`, indexing
  and `Object.keys` count UTF-16 code units, so for strings with characters outside the Basic
  Multilingual Plane the model's lengths and indices differ. Spread iterates code points in
  JavaScript too, so `Values.Iterate` agrees.
- Values.ArrayLike and Values.OwnEntries: the same UTF-16 difference for strings.
- Values.ArrayLike: a `length` that is not a number is converted with `ToNumber` by the loop's
  `<` in JavaScript. The model treats it as no elements.
- Values.Prop: inherited properties, such as the methods on `Array.prototype`, `toString` or
  `__proto__`, are not modelled. Reading them gives `undefined` in the model.
