/**
 * The evaluator's visitor table (src/interpreter/visitorsFactory.js): one visitor per node
 * kind, each evaluating a node in a scope chain (outermost scope first, innermost last).
 * `Eval` is the functional specification, over the chain as a sequence of binding maps;
 * `Evaluate` is the imperative evaluator over scope objects, with the visitors' loops, proved
 * to agree with it. The helpers the table is built with are parameters (`Host`), except
 * `aval`, which is the evaluator itself, and `match`, which is the pattern matcher.
 */
module Evaluator {
  import opened Values
  import opened Ast
  import opened PatternMatching

  /**
   * The injected collaborators this model does not interpret: the lookup of a name in the
   * chain, the table of binary operations by operator, the closure constructor, and the
   * `call` of a function value.
   */
  datatype Host = Host(
    get: (string, seq<Bindings>) -> Result<Value>,
    operations: map<string, (Value, Value) -> Result<Value>>,
    createFunction: (seq<Node>, Node, seq<Bindings>) -> FunctionValue,
    call: (Value, seq<Value>) -> Result<Value>)

  /** What `createFunction` builds: a function value, the only kind of value that can be called. */
  type FunctionValue = v: Value | v.Closure? witness Closure(0, map[])

  /** What a visitor produced (a result or an exception) and the scope chain it leaves. */
  datatype Outcome<+T> = Outcome(result: Result<T>, chain: seq<Bindings>)

  const NoMatchMessage := "PatternExpression did not match"

  /** No visitor exists for the node's type. */
  const NoVisitor := TypeError("no visitor for this node type")

  /** Calling something that is not a function. */
  const NotAFunction := TypeError("not a function")

  /** The chain `after` differs from `before` at most in its innermost scope. */
  predicate InnermostOnly(before: seq<Bindings>, after: seq<Bindings>) {
    |before| == |after| && |before| > 0 && after[..|before| - 1] == before[..|before| - 1]
  }

  /** The `module` entry of the innermost scope, `undefined` when it has none. */
  function ModuleOf(c: seq<Bindings>): (v: Value)
    requires |c| > 0
    ensures "module" in c[|c| - 1] ==> v == c[|c| - 1]["module"]
    ensures "module" !in c[|c| - 1] ==> v == Undefined
  {
    var innermost := c[|c| - 1];
    if "module" in innermost then innermost["module"] else Undefined
  }

  /** `!v` for a `not`, `v.type` for a `type`, `undefined` for any other unary operator. */
  function UnaryResult(op: string, v: Value): (r: Result<Value>)
    ensures op == "not" ==> r == Ok(RawBool(!Truthy(v)))
    ensures op == "type" && Tagged(v) ==> r == Ok(RawStr(TypeTag(v)))
    ensures op == "type" && v.RawObj? ==> r == Ok(Lookup(v.entries, "type"))
    ensures op == "type" && (v.RawBool? || v.RawNum?) ==> r == Ok(Undefined)
    ensures op != "not" && op != "type" ==> r == Ok(Undefined)
    ensures r.Err? <==> op == "type" && v.Undefined?
  {
    if op == "not" then Ok(RawBool(!Truthy(v)))
    else if op == "type" then Prop(v, "type")
    else Ok(Undefined)
  }

  /**
   * `v.value[name]`: an Object's property, the `length` of an Array or a String, the
   * properties of a NamedParameter's argument; reading `.value` of `undefined`, or any
   * property of an absent `.value`, throws.
   */
  function Access(v: Value, name: string): (r: Result<Value>)
    ensures r.Err? <==> v.Undefined? || Prop(v, "value") == Ok(Undefined)
    ensures v.Obj? ==> r == Ok(Lookup(v.props, name))
    ensures v.Arr? && name == "length" ==> r == Ok(RawNum(|v.elems|))
    ensures v.Str? && name == "length" ==> r == Ok(RawNum(|v.s|))
    ensures v.Bool? || v.Num? ==> r == Ok(Undefined)
    ensures v.Named? ==> r == Prop(v.arg, name)
  {
    match Prop(v, "value")
    case Err(f) => Err(f)
    case Ok(p) => Prop(p, name)
  }

  /**
   * The elements `...v.value` spreads into an array literal: an Array's elements, a String's
   * characters, what a NamedParameter's argument iterates to; anything else throws.
   */
  function Spread(v: Value): (r: Result<seq<Value>>)
    ensures r.Ok? <==> Prop(v, "value").Ok? && (Prop(v, "value").value.RawArr? || Prop(v, "value").value.RawStr?)
    ensures v.Arr? ==> r == Ok(v.elems)
    ensures v.Str? ==> r == Ok(Chars(v.s))
    ensures v.Named? ==> r == Iterate(v.arg)
    ensures v.Undefined? ==> r == Err(ReadOfUndefined)
    ensures v.Bool? || v.Num? || v.Obj? ==> r == Err(NotIterable)
  {
    match Prop(v, "value")
    case Err(f) => Err(f)
    case Ok(p) => Iterate(p)
  }

  /** `operations[op](l, r)`. */
  function Operate(h: Host, op: string, l: Value, r: Value): Result<Value> {
    if op in h.operations then h.operations[op](l, r) else Err(NotAFunction)
  }

  /** `f.call(args)`: a function value calls the host; reading `call` of `undefined` throws, and any other value has no function to call. */
  function CallValue(h: Host, f: Value, args: seq<Value>): (r: Result<Value>)
    ensures f.Closure? ==> r == h.call(f, args)
    ensures f.Undefined? ==> r == Err(ReadOfUndefined)
    ensures !f.Closure? && !f.Undefined? ==> r == Err(NotAFunction)
  {
    match f
    case Closure(_, _) => h.call(f, args)
    case Undefined => Err(ReadOfUndefined)
    case _ => Err(NotAFunction)
  }

  /** The outcome of evaluating node `n` in chain `c`: the visitor for `n`'s type. */
  function Eval(h: Host, n: Node, c: seq<Bindings>): (o: Outcome<Value>)
    requires |c| > 0
    ensures InnermostOnly(c, o.chain)
    decreases n, 2
  {
    match n
    case File(_) => FileLoop(h, n, 0, c)
    case IdentifierExpression(name) => Outcome(h.get(name, c), c)
    case BooleanExpression(b) => Outcome(Ok(Bool(b)), c)
    case NumberExpression(x) => Outcome(Ok(Num(x)), c)
    case StringExpression(s) => Outcome(Ok(Str(s)), c)
    case ArrayExpression(_) => ElementsLoop(h, n, 0, [], c)
    case ObjectExpression(_) => PropertiesLoop(h, n, 0, map[], c)
    case ObjectProperty(property) =>
      (match property
       case NamedParameter(name, e) =>
         var o := Eval(h, e, c);
         if o.result.Err? then o else Outcome(Ok(RawObj(map[name := o.result.value])), o.chain)
       case IdentifierExpression(name) =>
         (match h.get(name, c)
          case Ok(v) => Outcome(Ok(RawObj(map[name := v])), c)
          case Err(f) => Outcome(Err(f), c))
       case RestElement(e) =>
         var o := Eval(h, e, c);
         if o.result.Err? then o else Outcome(Prop(o.result.value, "value"), o.chain)
       case _ => Outcome(Ok(Undefined), c))
    case ObjectAccessExpression(e, name) =>
      var o := Eval(h, e, c);
      if o.result.Err? then o else Outcome(Access(o.result.value, name), o.chain)
    case BinaryExpression(l, op, r) =>
      var left := Eval(h, l, c);
      if left.result.Err? then left
      else
        var right := Eval(h, r, left.chain);
        if right.result.Err? then right
        else Outcome(Operate(h, op, left.result.value, right.result.value), right.chain)
    case UnaryExpression(op, e) =>
      var o := Eval(h, e, c);
      if o.result.Err? then o else Outcome(UnaryResult(op, o.result.value), o.chain)
    case FunctionExpression(ps, body) => Outcome(Ok(h.createFunction(ps, body, c)), c)
    case CallExpression(callee, _) =>
      var f := Eval(h, callee, c);
      if f.result.Err? then f
      else
        var args := ArgumentsLoop(h, n, 0, [], f.chain);
        if args.result.Err? then Outcome(Err(args.result.error), args.chain)
        else Outcome(CallValue(h, f.result.value, args.result.value), args.chain)
    case NamedParameter(name, e) =>
      var o := Eval(h, e, c);
      if o.result.Err? then o else Outcome(Ok(Named(name, o.result.value)), o.chain)
    case LetExpression(_, _) =>
      var o := LetLoop(h, n, 0, c + [map[]]);
      Outcome(o.result, o.chain[..|c|])
    case PatternExpression(subject, _) =>
      var o := Eval(h, subject, c);
      if o.result.Err? then o else CasesLoop(h, n, 0, o.result.value, o.chain)
    case Declaration(declarator, value) =>
      var o := Eval(h, value, c);
      if o.result.Err? then o
      else
        var m := MatchSpec(declarator, o.result.value, o.chain[|o.chain| - 1]);
        Outcome(if m.result.Err? then Err(m.result.error) else Ok(Undefined),
                o.chain[|o.chain| - 1 := m.bindings])
    case RestElement(_) => Outcome(Err(NoVisitor), c)
    case PatternCase(_, _) => Outcome(Err(NoVisitor), c)
    case NoPattern => Outcome(Err(NoVisitor), c)
  }

  /** File's `forEach` from node `i` on: stops at the first exception, then reads `module`. */
  function FileLoop(h: Host, n: Node, i: nat, c: seq<Bindings>): (o: Outcome<Value>)
    requires n.File? && i <= |n.nodes| && |c| > 0
    ensures InnermostOnly(c, o.chain)
    decreases n, 1, |n.nodes| - i
  {
    if i == |n.nodes| then Outcome(Ok(ModuleOf(c)), c)
    else
      var o := Eval(h, n.nodes[i], c);
      if o.result.Err? then o else FileLoop(h, n, i + 1, o.chain)
  }

  /** ArrayExpression's `reduce` from element `i` on, with the elements `acc` pushed so far. */
  function ElementsLoop(h: Host, n: Node, i: nat, acc: seq<Value>, c: seq<Bindings>): (o: Outcome<Value>)
    requires n.ArrayExpression? && i <= |n.values| && |c| > 0
    ensures InnermostOnly(c, o.chain)
    ensures o.result.Ok? ==> o.result.value.Arr?
    decreases n, 1, |n.values| - i
  {
    if i == |n.values| then Outcome(Ok(Arr(acc)), c)
    else
      var e := n.values[i];
      if e.RestElement? then
        var o := Eval(h, e.value, c);
        if o.result.Err? then o
        else match Spread(o.result.value)
          case Err(f) => Outcome(Err(f), o.chain)
          case Ok(items) => ElementsLoop(h, n, i + 1, acc + items, o.chain)
      else
        var o := Eval(h, e, c);
        if o.result.Err? then o else ElementsLoop(h, n, i + 1, acc + [o.result.value], o.chain)
  }

  /**
   * ObjectExpression's `reduce` from property `i` on, over the entries `acc` merged so far:
   * each property's value is evaluated and its own entries are copied in.
   */
  function PropertiesLoop(h: Host, n: Node, i: nat, acc: map<string, Value>, c: seq<Bindings>): (o: Outcome<Value>)
    requires n.ObjectExpression? && i <= |n.properties| && |c| > 0
    ensures InnermostOnly(c, o.chain)
    ensures o.result.Ok? ==> o.result.value.Obj?
    decreases n, 1, |n.properties| - i
  {
    if i == |n.properties| then Outcome(Ok(Obj(acc)), c)
    else
      var o := Eval(h, n.properties[i], c);
      if o.result.Err? then o
      else match OwnEntries(o.result.value)
        case Err(f) => Outcome(Err(f), o.chain)
        case Ok(entries) => PropertiesLoop(h, n, i + 1, acc + entries, o.chain)
  }

  /** CallExpression's `map` over the arguments from `i` on, with the values `acc` so far. */
  function ArgumentsLoop(h: Host, n: Node, i: nat, acc: seq<Value>, c: seq<Bindings>): (o: Outcome<seq<Value>>)
    requires n.CallExpression? && i <= |n.arguments| && |c| > 0
    ensures InnermostOnly(c, o.chain)
    ensures o.result.Ok? ==> |o.result.value| == |acc| + |n.arguments| - i
    decreases n, 1, |n.arguments| - i
  {
    if i == |n.arguments| then Outcome(Ok(acc), c)
    else
      var o := Eval(h, n.arguments[i], c);
      if o.result.Err? then Outcome(Err(o.result.error), o.chain)
      else ArgumentsLoop(h, n, i + 1, acc + [o.result.value], o.chain)
  }

  /** LetExpression's declarations from `i` on, then its body, all in the chain `c`. */
  function LetLoop(h: Host, n: Node, i: nat, c: seq<Bindings>): (o: Outcome<Value>)
    requires n.LetExpression? && i <= |n.declarations| && |c| > 0
    ensures InnermostOnly(c, o.chain)
    decreases n, 1, |n.declarations| - i
  {
    if i == |n.declarations| then Eval(h, n.letBody, c)
    else
      var o := Eval(h, n.declarations[i], c);
      if o.result.Err? then o else LetLoop(h, n, i + 1, o.chain)
  }

  /**
   * PatternExpression's `for` loop from case `i` on, for the subject's value `v`: each case
   * matches into a fresh scope, and the first that matches evaluates its result with that
   * scope innermost.
   */
  function CasesLoop(h: Host, n: Node, i: nat, v: Value, c: seq<Bindings>): (o: Outcome<Value>)
    requires n.PatternExpression? && i <= |n.patternCases| && |c| > 0
    ensures InnermostOnly(c, o.chain)
    decreases n, 1, |n.patternCases| - i
  {
    if i == |n.patternCases| then Outcome(Err(Thrown(NoMatchMessage)), c)
    else
      var k := n.patternCases[i];
      if !k.PatternCase? then Outcome(Err(ReadOfUndefined), c)
      else
        var m := MatchSpec(k.pattern, v, map[]);
        match m.result
        case Err(f) => Outcome(Err(f), c)
        case Ok(matched) =>
          if matched then
            var o := Eval(h, k.result, c + [m.bindings]);
            Outcome(o.result, o.chain[..|c|])
          else CasesLoop(h, n, i + 1, v, c)
  }

  // ---------------------------------------------------------------------------------------
  // The imperative evaluator, over scope objects.

  /** The bindings the scope objects of a chain hold now. */
  function Snapshot(chain: seq<Scope>): (c: seq<Bindings>)
    reads chain
    ensures |c| == |chain|
    ensures forall i :: 0 <= i < |chain| ==> c[i] == chain[i].bindings
  {
    seq(|chain|, i reads chain requires 0 <= i < |chain| => chain[i].bindings)
  }

  /** A non-empty chain whose innermost scope object appears nowhere else in it. */
  predicate Unshared(chain: seq<Scope>) {
    |chain| > 0 && forall i :: 0 <= i < |chain| - 1 ==> chain[i] != chain[|chain| - 1]
  }

  lemma SnapshotExtend(chain: seq<Scope>, s: Scope)
    ensures Snapshot(chain + [s]) == Snapshot(chain) + [s.bindings]
    ensures Snapshot(chain + [s])[..|chain|] == Snapshot(chain)
  {
  }

  /** `aval(n, chain)`: evaluates `n`, writing only into the innermost scope object. */
  method Evaluate(h: Host, n: Node, chain: seq<Scope>) returns (r: Result<Value>)
    requires Unshared(chain)
    modifies chain[|chain| - 1]
    ensures Outcome(r, Snapshot(chain)) == Eval(h, n, old(Snapshot(chain)))
    decreases n, 2
  {
    match n {
      case File(_) => r := EvaluateFile(h, n, chain);
      case IdentifierExpression(name) => r := h.get(name, Snapshot(chain));
      case BooleanExpression(b) => r := Ok(Bool(b));
      case NumberExpression(x) => r := Ok(Num(x));
      case StringExpression(s) => r := Ok(Str(s));
      case ArrayExpression(_) => r := EvaluateArray(h, n, chain);
      case ObjectExpression(_) => r := EvaluateObject(h, n, chain);
      case ObjectProperty(_) => r := EvaluateProperty(h, n, chain);
      case ObjectAccessExpression(_, _) => r := EvaluateOperand(h, n, chain);
      case BinaryExpression(_, _, _) => r := EvaluateBinary(h, n, chain);
      case UnaryExpression(_, _) => r := EvaluateOperand(h, n, chain);
      case FunctionExpression(ps, body) => r := Ok(h.createFunction(ps, body, Snapshot(chain)));
      case CallExpression(_, _) => r := EvaluateCall(h, n, chain);
      case NamedParameter(_, _) => r := EvaluateOperand(h, n, chain);
      case LetExpression(_, _) => r := EvaluateLet(h, n, chain);
      case PatternExpression(_, _) => r := EvaluatePattern(h, n, chain);
      case Declaration(_, _) => r := EvaluateDeclaration(h, n, chain);
      case RestElement(_) => r := Err(NoVisitor);
      case PatternCase(_, _) => r := Err(NoVisitor);
      case NoPattern => r := Err(NoVisitor);
    }
  }

  /** The visitors that evaluate one sub-expression and transform its value. */
  method EvaluateOperand(h: Host, n: Node, chain: seq<Scope>) returns (r: Result<Value>)
    requires (n.ObjectAccessExpression? || n.UnaryExpression? || n.NamedParameter?) && Unshared(chain)
    modifies chain[|chain| - 1]
    ensures Outcome(r, Snapshot(chain)) == Eval(h, n, old(Snapshot(chain)))
    decreases n, 1
  {
    match n {
      case ObjectAccessExpression(e, name) =>
        r := Evaluate(h, e, chain);
        if r.Ok? {
          r := Access(r.value, name);
        }
      case UnaryExpression(op, e) =>
        r := Evaluate(h, e, chain);
        if r.Ok? {
          r := UnaryResult(op, r.value);
        }
      case NamedParameter(name, e) =>
        r := Evaluate(h, e, chain);
        if r.Ok? {
          r := Ok(Named(name, r.value));
        }
    }
  }

  method EvaluateFile(h: Host, n: Node, chain: seq<Scope>) returns (r: Result<Value>)
    requires n.File? && Unshared(chain)
    modifies chain[|chain| - 1]
    ensures Outcome(r, Snapshot(chain)) == Eval(h, n, old(Snapshot(chain)))
    decreases n, 1
  {
    var i := 0;
    while i < |n.nodes|
      invariant i <= |n.nodes|
      invariant FileLoop(h, n, i, Snapshot(chain)) == Eval(h, n, old(Snapshot(chain)))
    {
      r := Evaluate(h, n.nodes[i], chain);
      if r.Err? {
        return;
      }
      i := i + 1;
    }
    r := Ok(ModuleOf(Snapshot(chain)));
  }

  method EvaluateArray(h: Host, n: Node, chain: seq<Scope>) returns (r: Result<Value>)
    requires n.ArrayExpression? && Unshared(chain)
    modifies chain[|chain| - 1]
    ensures Outcome(r, Snapshot(chain)) == Eval(h, n, old(Snapshot(chain)))
    decreases n, 1
  {
    var acc := [];
    var i := 0;
    while i < |n.values|
      invariant i <= |n.values|
      invariant ElementsLoop(h, n, i, acc, Snapshot(chain)) == Eval(h, n, old(Snapshot(chain)))
    {
      var e := n.values[i];
      if e.RestElement? {
        r := Evaluate(h, e.value, chain);
        if r.Err? {
          return;
        }
        var items := Spread(r.value);
        if items.Err? {
          return Err(items.error);
        }
        acc := acc + items.value;
      } else {
        r := Evaluate(h, e, chain);
        if r.Err? {
          return;
        }
        acc := acc + [r.value];
      }
      i := i + 1;
    }
    r := Ok(Arr(acc));
  }

  method EvaluateObject(h: Host, n: Node, chain: seq<Scope>) returns (r: Result<Value>)
    requires n.ObjectExpression? && Unshared(chain)
    modifies chain[|chain| - 1]
    ensures Outcome(r, Snapshot(chain)) == Eval(h, n, old(Snapshot(chain)))
    decreases n, 1
  {
    var acc := map[];
    var i := 0;
    while i < |n.properties|
      invariant i <= |n.properties|
      invariant PropertiesLoop(h, n, i, acc, Snapshot(chain)) == Eval(h, n, old(Snapshot(chain)))
    {
      r := Evaluate(h, n.properties[i], chain);
      if r.Err? {
        return;
      }
      var entries := OwnEntries(r.value);
      if entries.Err? {
        return Err(entries.error);
      }
      acc := acc + entries.value;
      i := i + 1;
    }
    r := Ok(Obj(acc));
  }

  /**
   * The ObjectProperty visitor: `{ x: v }` for `x: e`, `{ x: get(x) }` for the shorthand `x`,
   * the payload of `e` for `...e`, and `undefined` for any other property.
   */
  method EvaluateProperty(h: Host, n: Node, chain: seq<Scope>) returns (r: Result<Value>)
    requires n.ObjectProperty? && Unshared(chain)
    modifies chain[|chain| - 1]
    ensures Outcome(r, Snapshot(chain)) == Eval(h, n, old(Snapshot(chain)))
    decreases n, 1
  {
    match n.property {
      case NamedParameter(name, e) =>
        r := Evaluate(h, e, chain);
        if r.Ok? {
          r := Ok(RawObj(map[name := r.value]));
        }
      case IdentifierExpression(name) =>
        r := h.get(name, Snapshot(chain));
        if r.Ok? {
          r := Ok(RawObj(map[name := r.value]));
        }
      case RestElement(e) =>
        r := Evaluate(h, e, chain);
        if r.Ok? {
          r := Prop(r.value, "value");
        }
      case _ =>
        r := Ok(Undefined);
    }
  }

  method EvaluateBinary(h: Host, n: Node, chain: seq<Scope>) returns (r: Result<Value>)
    requires n.BinaryExpression? && Unshared(chain)
    modifies chain[|chain| - 1]
    ensures Outcome(r, Snapshot(chain)) == Eval(h, n, old(Snapshot(chain)))
    decreases n, 1
  {
    var left := Evaluate(h, n.left, chain);
    if left.Err? {
      return left;
    }
    var right := Evaluate(h, n.right, chain);
    if right.Err? {
      return right;
    }
    r := Operate(h, n.operator, left.value, right.value);
  }

  method EvaluateCall(h: Host, n: Node, chain: seq<Scope>) returns (r: Result<Value>)
    requires n.CallExpression? && Unshared(chain)
    modifies chain[|chain| - 1]
    ensures Outcome(r, Snapshot(chain)) == Eval(h, n, old(Snapshot(chain)))
    decreases n, 1
  {
    var f := Evaluate(h, n.callee, chain);
    if f.Err? {
      return f;
    }
    ghost var afterCallee := Snapshot(chain);
    var args := [];
    var i := 0;
    while i < |n.arguments|
      invariant i <= |n.arguments|
      invariant ArgumentsLoop(h, n, i, args, Snapshot(chain)) == ArgumentsLoop(h, n, 0, [], afterCallee)
    {
      var v := Evaluate(h, n.arguments[i], chain);
      if v.Err? {
        return Err(v.error);
      }
      args := args + [v.value];
      i := i + 1;
    }
    r := CallValue(h, f.value, args);
  }

  method EvaluateLet(h: Host, n: Node, chain: seq<Scope>) returns (r: Result<Value>)
    requires n.LetExpression? && Unshared(chain)
    modifies chain[|chain| - 1]
    ensures Outcome(r, Snapshot(chain)) == Eval(h, n, old(Snapshot(chain)))
    decreases n, 1
  {
    var letScope := new Scope();
    SnapshotExtend(chain, letScope);
    r := EvaluateLetIn(h, n, chain + [letScope]);
    SnapshotExtend(chain, letScope);
  }

  /** The let's declarations and body, in the chain already extended by the let's scope. */
  method EvaluateLetIn(h: Host, n: Node, inner: seq<Scope>) returns (r: Result<Value>)
    requires n.LetExpression? && Unshared(inner)
    modifies inner[|inner| - 1]
    ensures Outcome(r, Snapshot(inner)) == LetLoop(h, n, 0, old(Snapshot(inner)))
    decreases n, 0
  {
    var i := 0;
    while i < |n.declarations|
      invariant i <= |n.declarations|
      invariant LetLoop(h, n, i, Snapshot(inner)) == LetLoop(h, n, 0, old(Snapshot(inner)))
    {
      r := Evaluate(h, n.declarations[i], inner);
      if r.Err? {
        return;
      }
      i := i + 1;
    }
    r := Evaluate(h, n.letBody, inner);
  }

  method EvaluatePattern(h: Host, n: Node, chain: seq<Scope>) returns (r: Result<Value>)
    requires n.PatternExpression? && Unshared(chain)
    modifies chain[|chain| - 1]
    ensures Outcome(r, Snapshot(chain)) == Eval(h, n, old(Snapshot(chain)))
    decreases n, 1
  {
    var subject := Evaluate(h, n.subject, chain);
    if subject.Err? {
      return subject;
    }
    var v := subject.value;
    var i := 0;
    while i < |n.patternCases|
      invariant i <= |n.patternCases|
      invariant CasesLoop(h, n, i, v, Snapshot(chain)) == Eval(h, n, old(Snapshot(chain)))
    {
      var k := n.patternCases[i];
      if !k.PatternCase? {
        return Err(ReadOfUndefined);
      }
      var matchedScope := new Scope();
      var matched := Match(k.pattern, v, matchedScope);
      if matched.Err? {
        return Err(matched.error);
      }
      if matched.value {
        r := EvaluateWith(h, k.result, chain, matchedScope);
        return;
      }
      i := i + 1;
    }
    r := Err(Thrown(NoMatchMessage));
  }

  /** Evaluates `body` with `scope` pushed innermost onto the chain, which itself is untouched. */
  method EvaluateWith(h: Host, body: Node, chain: seq<Scope>, scope: Scope) returns (r: Result<Value>)
    requires |chain| > 0 && scope !in chain
    modifies scope
    ensures var o := Eval(h, body, old(Snapshot(chain)) + [old(scope.bindings)]);
            r == o.result && Snapshot(chain) == old(Snapshot(chain))
    decreases body, 3
  {
    SnapshotExtend(chain, scope);
    r := Evaluate(h, body, chain + [scope]);
    SnapshotExtend(chain, scope);
  }

  method EvaluateDeclaration(h: Host, n: Node, chain: seq<Scope>) returns (r: Result<Value>)
    requires n.Declaration? && Unshared(chain)
    modifies chain[|chain| - 1]
    ensures Outcome(r, Snapshot(chain)) == Eval(h, n, old(Snapshot(chain)))
    decreases n, 1
  {
    var v := Evaluate(h, n.declValue, chain);
    if v.Err? {
      return v;
    }
    ghost var before := Snapshot(chain);
    var matched := Match(n.declarator, v.value, chain[|chain| - 1]);
    assert Snapshot(chain) == before[|before| - 1 := chain[|chain| - 1].bindings];
    r := if matched.Err? then Err(matched.error) else Ok(Undefined);
  }
}
