/**
 * What the visitors of src/interpreter/visitorsFactory.js promise, stated about the
 * specification `Eval` (which the imperative `Evaluate` is proved to follow).
 */
module EvaluatorProperties {
  import opened Values
  import opened Ast
  import opened PatternMatching
  import opened Evaluator

  /** Literals evaluate to their value, tagged with the matching type, and touch no scope. */
  lemma LiteralsAreTagged(h: Host, b: bool, x: int, s: string, c: seq<Bindings>)
    requires |c| > 0
    ensures Eval(h, BooleanExpression(b), c) == Outcome(Ok(Bool(b)), c)
    ensures Eval(h, NumberExpression(x), c) == Outcome(Ok(Num(x)), c)
    ensures Eval(h, StringExpression(s), c) == Outcome(Ok(Str(s)), c)
  {
  }

  // ---------------------------------------------------------------------------------------
  // ArrayExpression

  /** The elements pushed so far stay in front: the literal's elements come out in order. */
  lemma {:induction false} ElementsKeepOrder(h: Host, n: Node, i: nat, acc: seq<Value>, c: seq<Bindings>)
    requires n.ArrayExpression? && i <= |n.values| && |c| > 0
    ensures var o := ElementsLoop(h, n, i, acc, c);
            o.result.Ok? ==> o.result.value.Arr? && acc <= o.result.value.elems
    decreases |n.values| - i
  {
    if i < |n.values| {
      var e := n.values[i];
      if e.RestElement? {
        var o := Eval(h, e.value, c);
        if o.result.Ok? && Spread(o.result.value).Ok? {
          ElementsKeepOrder(h, n, i + 1, acc + Spread(o.result.value).value, o.chain);
        }
      } else {
        var o := Eval(h, e, c);
        if o.result.Ok? {
          ElementsKeepOrder(h, n, i + 1, acc + [o.result.value], o.chain);
        }
      }
    }
  }

  /**
   * Without rest elements an array literal evaluates exactly like an argument list with the
   * same nodes: each element once, left to right, one value per element.
   */
  lemma {:induction false} ArrayWithoutRestIsArgumentList(h: Host, values: seq<Node>, callee: Node, i: nat, acc: seq<Value>, c: seq<Bindings>)
    requires NoRest(values) && i <= |values| && |c| > 0
    ensures var arr := ElementsLoop(h, ArrayExpression(values), i, acc, c);
            var args := ArgumentsLoop(h, CallExpression(callee, values), i, acc, c);
            arr.chain == args.chain &&
            (args.result.Ok? ==> arr.result == Ok(Arr(args.result.value))) &&
            (args.result.Err? ==> arr.result == Err(args.result.error))
    decreases |values| - i
  {
    if i < |values| {
      var o := Eval(h, values[i], c);
      if o.result.Ok? {
        ArrayWithoutRestIsArgumentList(h, values, callee, i + 1, acc + [o.result.value], o.chain);
      }
    }
  }

  /** A literal without rest elements has exactly one element per node. */
  lemma ArrayWithoutRestLength(h: Host, values: seq<Node>, c: seq<Bindings>)
    requires NoRest(values) && |c| > 0
    ensures var o := Eval(h, ArrayExpression(values), c);
            o.result.Ok? ==> o.result.value.Arr? && |o.result.value.elems| == |values|
  {
    ArrayWithoutRestIsArgumentList(h, values, NoPattern, 0, [], c);
  }

  /**
   * `[...e]` copies the elements of an Array, splits a String into its characters, iterates
   * the bare array or string a NamedParameter holds, and throws for any other value.
   */
  lemma RestSpreadsItems(h: Host, e: Node, c: seq<Bindings>)
    requires |c| > 0
    ensures var inner := Eval(h, e, c);
            var o := Eval(h, ArrayExpression([RestElement(e)]), c);
            var v := if inner.result.Ok? then inner.result.value else Undefined;
            o.chain == inner.chain &&
            (inner.result.Ok? && v.Arr? ==> o.result == Ok(v)) &&
            (inner.result.Ok? && v.Str? ==> o.result == Ok(Arr(Chars(v.s)))) &&
            (inner.result.Ok? && v.Named? && v.arg.RawArr? ==> o.result == Ok(Arr(v.arg.items))) &&
            (inner.result.Ok? && v.Named? && v.arg.RawStr? ==> o.result == Ok(Arr(Chars(v.arg.rs)))) &&
            (inner.result.Ok? && Spread(v).Err? ==> o.result == Err(Spread(v).error))
  {
    var n := ArrayExpression([RestElement(e)]);
    var inner := Eval(h, e, c);
    if inner.result.Ok? {
      match Spread(inner.result.value)
      case Ok(items) =>
        assert [] + items == items;
        assert ElementsLoop(h, n, 0, [], c) == ElementsLoop(h, n, 1, items, inner.chain);
      case Err(_) =>
    }
  }

  /** What the last element of an array literal adds to the elements `xs` before it, in chain `c`. */
  function AppendElement(h: Host, e: Node, xs: seq<Value>, c: seq<Bindings>): (o: Outcome<Value>)
    requires |c| > 0
    ensures o.result.Ok? ==> o.result.value.Arr? && xs <= o.result.value.elems
    ensures o.result.Ok? && !e.RestElement? ==> |o.result.value.elems| == |xs| + 1
  {
    if e.RestElement? then
      var r := Eval(h, e.value, c);
      if r.result.Err? then r
      else match Spread(r.result.value)
        case Err(f) => Outcome(Err(f), r.chain)
        case Ok(items) => Outcome(Ok(Arr(xs + items)), r.chain)
    else
      var r := Eval(h, e, c);
      if r.result.Err? then r else Outcome(Ok(Arr(xs + [r.result.value])), r.chain)
  }

  /**
   * Pushing is a left fold: the last element of an array literal is evaluated after the
   * earlier ones, in the chain they leave, and its value (or, for a rest element, the items
   * it spreads) comes after theirs.
   */
  lemma {:induction false} LastElementAppendedLast(h: Host, values: seq<Node>, i: nat, acc: seq<Value>, c: seq<Bindings>)
    requires 0 < |values| && i < |values| && |c| > 0
    ensures var front := ElementsLoop(h, ArrayExpression(values[..|values| - 1]), i, acc, c);
            var o := ElementsLoop(h, ArrayExpression(values), i, acc, c);
            (front.result.Err? ==> o == front) &&
            (front.result.Ok? ==> o == AppendElement(h, values[|values| - 1], front.result.value.elems, front.chain))
    decreases |values| - i
  {
    var front := ArrayExpression(values[..|values| - 1]);
    var n := ArrayExpression(values);
    var e := values[i];
    if i + 1 < |values| {
      assert front.values[i] == e;
      if e.RestElement? {
        var o := Eval(h, e.value, c);
        if o.result.Ok? && Spread(o.result.value).Ok? {
          LastElementAppendedLast(h, values, i + 1, acc + Spread(o.result.value).value, o.chain);
        }
      } else {
        var o := Eval(h, e, c);
        if o.result.Ok? {
          LastElementAppendedLast(h, values, i + 1, acc + [o.result.value], o.chain);
        }
      }
    }
  }

  /**
   * A rest element between two plain elements: `[x, ...ys, z]` has the value of `x`, then
   * the items `ys` spreads, then the value of `z`.
   */
  lemma RestBetweenElements(h: Host, x: Node, ys: Node, z: Node, c: seq<Bindings>)
    requires !x.RestElement? && !z.RestElement? && |c| > 0
    ensures var ox := Eval(h, x, c);
            var oy := Eval(h, ys, ox.chain);
            var oz := Eval(h, z, oy.chain);
            var o := Eval(h, ArrayExpression([x, RestElement(ys), z]), c);
            ox.result.Ok? && oy.result.Ok? && Spread(oy.result.value).Ok? && oz.result.Ok? ==>
              o == Outcome(Ok(Arr([ox.result.value] + Spread(oy.result.value).value + [oz.result.value])), oz.chain)
  {
    var n := ArrayExpression([x, RestElement(ys), z]);
    var ox := Eval(h, x, c);
    var oy := Eval(h, ys, ox.chain);
    FrontOfMixedLiteral(h, n, c);
    if ox.result.Ok? && oy.result.Ok? && Spread(oy.result.value).Ok? {
      ElementStep(h, n, 2, [ox.result.value] + Spread(oy.result.value).value, oy.chain);
    }
  }

  /** So `[x, ...ys, z]` has two elements more than `ys` spreads. */
  lemma MixedLiteralLength(h: Host, x: Node, ys: Node, z: Node, c: seq<Bindings>)
    requires !x.RestElement? && !z.RestElement? && |c| > 0
    ensures var ox := Eval(h, x, c);
            var oy := Eval(h, ys, ox.chain);
            var oz := Eval(h, z, oy.chain);
            var o := Eval(h, ArrayExpression([x, RestElement(ys), z]), c);
            ox.result.Ok? && oy.result.Ok? && Spread(oy.result.value).Ok? && oz.result.Ok? ==>
              o.result.Ok? && |o.result.value.elems| == |Spread(oy.result.value).value| + 2
  {
    RestBetweenElements(h, x, ys, z, c);
  }


  /** The first two steps of `[x, ...ys, z]`: the value of `x`, then the items `ys` spreads. */
  lemma FrontOfMixedLiteral(h: Host, n: Node, c: seq<Bindings>)
    requires n.ArrayExpression? && |n.values| == 3 && !n.values[0].RestElement? && n.values[1].RestElement? && |c| > 0
    ensures var ox := Eval(h, n.values[0], c);
            var oy := Eval(h, n.values[1].value, ox.chain);
            ox.result.Ok? && oy.result.Ok? && Spread(oy.result.value).Ok? ==>
              ElementsLoop(h, n, 0, [], c) == ElementsLoop(h, n, 2, [ox.result.value] + Spread(oy.result.value).value, oy.chain)
  {
    var ox := Eval(h, n.values[0], c);
    if ox.result.Ok? {
      ElementStep(h, n, 0, [], c);
      assert [] + [ox.result.value] == [ox.result.value];
      RestElementStep(h, n, 1, [ox.result.value], ox.chain);
    }
  }


  /** One step of the array literal's fold at a plain element. */
  lemma ElementStep(h: Host, n: Node, i: nat, acc: seq<Value>, c: seq<Bindings>)
    requires n.ArrayExpression? && i < |n.values| && !n.values[i].RestElement? && |c| > 0
    ensures var o := Eval(h, n.values[i], c);
            o.result.Ok? ==> ElementsLoop(h, n, i, acc, c) == ElementsLoop(h, n, i + 1, acc + [o.result.value], o.chain)
  {
  }

  /** One step of the array literal's fold at a rest element that spreads. */
  lemma RestElementStep(h: Host, n: Node, i: nat, acc: seq<Value>, c: seq<Bindings>)
    requires n.ArrayExpression? && i < |n.values| && n.values[i].RestElement? && |c| > 0
    ensures var o := Eval(h, n.values[i].value, c);
            o.result.Ok? && Spread(o.result.value).Ok? ==>
              ElementsLoop(h, n, i, acc, c) == ElementsLoop(h, n, i + 1, acc + Spread(o.result.value).value, o.chain)
  {
  }



  /** `xs.length` on an array literal reads its number of elements, as an untagged number. */
  lemma LengthOfArrayLiteral(h: Host, values: seq<Node>, c: seq<Bindings>)
    requires |c| > 0
    ensures var arr := Eval(h, ArrayExpression(values), c);
            arr.result.Ok? ==>
              Eval(h, ObjectAccessExpression(ArrayExpression(values), "length"), c)
              == Outcome(Ok(RawNum(|arr.result.value.elems|)), arr.chain)
  {
  }

  // ---------------------------------------------------------------------------------------
  // ObjectExpression

  /** Keys merged so far are never dropped by later properties. */
  lemma {:induction false} PropertiesKeepKeys(h: Host, n: Node, i: nat, acc: map<string, Value>, c: seq<Bindings>)
    requires n.ObjectExpression? && i <= |n.properties| && |c| > 0
    ensures var o := PropertiesLoop(h, n, i, acc, c);
            o.result.Ok? ==> o.result.value.Obj? && acc.Keys <= o.result.value.props.Keys
    decreases |n.properties| - i
  {
    if i < |n.properties| {
      var o := Eval(h, n.properties[i], c);
      if o.result.Ok? && OwnEntries(o.result.value).Ok? {
        PropertiesKeepKeys(h, n, i + 1, acc + OwnEntries(o.result.value).value, o.chain);
      }
    }
  }

  /** What the last property of an object literal merges into the entries `acc` before it, given its value `last`. */
  function MergeEntries(acc: map<string, Value>, last: Outcome<Value>): (o: Outcome<Value>)
    ensures o.chain == last.chain
    ensures o.result.Ok? ==> o.result.value.Obj? && acc.Keys <= o.result.value.props.Keys
    ensures last.result.Ok? && last.result.value.RawObj? ==> o.result == Ok(Obj(acc + last.result.value.entries))
  {
    if last.result.Err? then last
    else match OwnEntries(last.result.value)
      case Err(f) => Outcome(Err(f), last.chain)
      case Ok(entries) => Outcome(Ok(Obj(acc + entries)), last.chain)
  }

  /**
   * Merging is a left fold: the last property is evaluated after the earlier ones, in the
   * chain they leave, and its own entries are merged over the object they build.
   */
  lemma {:induction false} LastPropertyMergedLast(h: Host, props: seq<Node>, i: nat, acc: map<string, Value>, c: seq<Bindings>)
    requires 0 < |props| && i < |props| && |c| > 0
    ensures var front := PropertiesLoop(h, ObjectExpression(props[..|props| - 1]), i, acc, c);
            var o := PropertiesLoop(h, ObjectExpression(props), i, acc, c);
            (front.result.Err? ==> o == front) &&
            (front.result.Ok? ==> o == MergeEntries(front.result.value.props, Eval(h, props[|props| - 1], front.chain)))
    decreases |props| - i
  {
    var front := ObjectExpression(props[..|props| - 1]);
    var n := ObjectExpression(props);
    var o := Eval(h, n.properties[i], c);
    if i + 1 < |props| {
      assert front.properties[i] == n.properties[i];
      if o.result.Ok? && OwnEntries(o.result.value).Ok? {
        LastPropertyMergedLast(h, props, i + 1, acc + OwnEntries(o.result.value).value, o.chain);
      }
    } else if o.result.Ok? && OwnEntries(o.result.value).Ok? {
      var m := OwnEntries(o.result.value).value;
      assert PropertiesLoop(h, n, i + 1, acc + m, o.chain) == Outcome(Ok(Obj(acc + m)), o.chain);
    }
  }

  /**
   * A key given by the last property overrides every earlier one: `{ ..., k: e }` maps `k`
   * to the value `e` has after the earlier properties are evaluated.
   */
  lemma LastPropertyWins(h: Host, props: seq<Node>, k: string, e: Node, c: seq<Bindings>)
    requires 0 < |props| && props[|props| - 1] == ObjectProperty(NamedParameter(k, e)) && |c| > 0
    ensures var front := Eval(h, ObjectExpression(props[..|props| - 1]), c);
            var o := Eval(h, ObjectExpression(props), c);
            front.result.Ok? && o.result.Ok? ==>
              o.result.value.Obj? && k in o.result.value.props &&
              Ok(o.result.value.props[k]) == Eval(h, e, front.chain).result
  {
    LastPropertyMergedLast(h, props, 0, map[], c);
    var front := Eval(h, ObjectExpression(props[..|props| - 1]), c);
    if front.result.Ok? {
      NamedPropertyEntries(h, k, e, front.chain);
    }
  }

  /** The property `k: e` evaluates to a one-entry object mapping `k` to the value of `e`. */
  lemma NamedPropertyEntries(h: Host, k: string, e: Node, c: seq<Bindings>)
    requires |c| > 0
    ensures var v := Eval(h, e, c);
            Eval(h, ObjectProperty(NamedParameter(k, e)), c)
            == if v.result.Err? then v else Outcome(Ok(RawObj(map[k := v.result.value])), v.chain)
  {
  }


  /** The shorthand `{ x }` takes `x` from `get`, and touches no scope. */
  lemma ShorthandUsesGet(h: Host, x: string, c: seq<Bindings>)
    requires |c| > 0
    ensures var o := Eval(h, ObjectExpression([ObjectProperty(IdentifierExpression(x))]), c);
            o.chain == c &&
            (h.get(x, c).Ok? ==> o.result == Ok(Obj(map[x := h.get(x, c).value]))) &&
            (h.get(x, c).Err? ==> o.result == Err(h.get(x, c).error))
  {
    var n := ObjectExpression([ObjectProperty(IdentifierExpression(x))]);
    var property := Eval(h, n.properties[0], c);
    if h.get(x, c).Ok? {
      var m := map[x := h.get(x, c).value];
      assert property == Outcome(Ok(RawObj(m)), c);
      assert map[] + m == m;
      assert PropertiesLoop(h, n, 0, map[], c) == PropertiesLoop(h, n, 1, m, c);
    } else {
      assert property == Outcome(Err(h.get(x, c).error), c);
    }
  }

  // ---------------------------------------------------------------------------------------
  // BinaryExpression, UnaryExpression, CallExpression

  /**
   * Both operands are always evaluated, left first: an exception in the right operand
   * surfaces whatever the left value and the operator, so `&&` and `||` do not short-circuit.
   */
  lemma NoShortCircuit(h: Host, l: Node, op: string, r: Node, c: seq<Bindings>, lv: Value, afterLeft: seq<Bindings>)
    requires |c| > 0 && Eval(h, l, c) == Outcome(Ok(lv), afterLeft)
    ensures var right := Eval(h, r, afterLeft);
            var o := Eval(h, BinaryExpression(l, op, r), c);
            o.chain == right.chain &&
            (right.result.Err? ==> o.result == right.result) &&
            (right.result.Ok? ==> o.result == Operate(h, op, lv, right.result.value))
  {
  }

  /**
   * `not e` applies JavaScript `!` to the wrapper object of `e`'s value, so it is false for
   * every tagged value, `true` and `false` included, and for every other object.
   */
  lemma NotOfTaggedValueIsFalse(h: Host, e: Node, c: seq<Bindings>)
    requires |c| > 0
    ensures var inner := Eval(h, e, c);
            var v := if inner.result.Ok? then inner.result.value else Undefined;
            inner.result.Ok? && (Tagged(v) || v.Closure? || v.RawArr? || v.RawObj?) ==>
              Eval(h, UnaryExpression("not", e), c).result == Ok(RawBool(false))
  {
  }

  /** The arguments' values come out in order, after those already collected. */
  lemma {:induction false} ArgumentsKeepOrder(h: Host, n: Node, i: nat, acc: seq<Value>, c: seq<Bindings>)
    requires n.CallExpression? && i <= |n.arguments| && |c| > 0
    ensures var o := ArgumentsLoop(h, n, i, acc, c);
            o.result.Ok? ==> acc <= o.result.value
    decreases |n.arguments| - i
  {
    if i < |n.arguments| {
      var o := Eval(h, n.arguments[i], c);
      if o.result.Ok? {
        ArgumentsKeepOrder(h, n, i + 1, acc + [o.result.value], o.chain);
      }
    }
  }

  /** A call passes one value per argument node to `call`; a callee that is not a function value throws. */
  lemma CallPassesAllArguments(h: Host, callee: Node, arguments: seq<Node>, c: seq<Bindings>)
    requires |c| > 0
    ensures var f := Eval(h, callee, c);
            var args := ArgumentsLoop(h, CallExpression(callee, arguments), 0, [], f.chain);
            var o := Eval(h, CallExpression(callee, arguments), c);
            f.result.Ok? && args.result.Ok? ==>
              |args.result.value| == |arguments| &&
              (f.result.value.Closure? ==> o.result == h.call(f.result.value, args.result.value)) &&
              (!f.result.value.Closure? ==> o.result.Err?)
  {
  }

  // ---------------------------------------------------------------------------------------
  // LetExpression

  /** A let leaves the caller's chain exactly as it found it, innermost scope included. */
  lemma LetRestoresChain(h: Host, n: Node, c: seq<Bindings>)
    requires n.LetExpression? && |c| > 0
    ensures Eval(h, n, c).chain == c
  {
    var o := LetLoop(h, n, 0, c + [map[]]);
    assert o.chain[..|c|] == (c + [map[]])[..|c|];
  }

  /** A let with one declaration that succeeds evaluates its body on the chain the declaration left. */
  lemma LetSingleDeclaration(h: Host, d: Node, body: Node, c: seq<Bindings>)
    requires |c| > 0
    ensures var o := Eval(h, d, c + [map[]]);
            o.result.Ok? ==> Eval(h, LetExpression([d], body), c).result == Eval(h, body, o.chain).result
  {
    var n := LetExpression([d], body);
    var o := Eval(h, d, c + [map[]]);
    if o.result.Ok? {
      assert LetLoop(h, n, 0, c + [map[]]) == LetLoop(h, n, 1, o.chain);
    }
  }

  /**
   * `let x = e in body`: `e` is evaluated with a fresh empty scope innermost, `x` is bound in
   * that scope, and the body sees it there.
   */
  lemma LetBindsInFreshScope(h: Host, x: string, e: Node, body: Node, c: seq<Bindings>)
    requires |c| > 0
    ensures var inner := Eval(h, e, c + [map[]]);
            var scope := inner.chain[|c|];
            inner.result.Ok? ==>
              Eval(h, LetExpression([Declaration(IdentifierExpression(x), e)], body), c).result ==
              Eval(h, body, inner.chain[|c| := scope[x := inner.result.value]]).result
  {
    var inner := Eval(h, e, c + [map[]]);
    if inner.result.Ok? {
      assert |inner.chain| - 1 == |c|;
      DeclarationBindsInnermost(h, x, e, c + [map[]]);
      LetSingleDeclaration(h, Declaration(IdentifierExpression(x), e), body, c);
    }
  }

  // ---------------------------------------------------------------------------------------
  // PatternExpression

  /** Case `j` is a PatternCase whose pattern matches `v` in a fresh scope. */
  predicate CaseMatches(n: Node, j: nat, v: Value)
    requires n.PatternExpression? && j < |n.patternCases|
  {
    var k := n.patternCases[j];
    k.PatternCase? && MatchSpec(k.pattern, v, map[]).result == Ok(true)
  }

  /** Case `j` is a PatternCase whose pattern cleanly fails to match `v`. */
  predicate CaseFails(n: Node, j: nat, v: Value)
    requires n.PatternExpression? && j < |n.patternCases|
  {
    var k := n.patternCases[j];
    k.PatternCase? && MatchSpec(k.pattern, v, map[]).result == Ok(false)
  }

  /**
   * The first matching case decides: its result is evaluated with that case's own bindings
   * (from an empty scope, whatever earlier cases bound) layered innermost.
   */
  lemma {:induction false} FirstMatchingCaseWins(h: Host, n: Node, i: nat, j: nat, v: Value, c: seq<Bindings>)
    requires n.PatternExpression? && i <= j < |n.patternCases| && |c| > 0
    requires forall k :: i <= k < j ==> CaseFails(n, k, v)
    requires CaseMatches(n, j, v)
    ensures var k := n.patternCases[j];
            var o := Eval(h, k.result, c + [MatchSpec(k.pattern, v, map[]).bindings]);
            CasesLoop(h, n, i, v, c) == Outcome(o.result, c)
    decreases j - i
  {
    var k := n.patternCases[j];
    var o := Eval(h, k.result, c + [MatchSpec(k.pattern, v, map[]).bindings]);
    assert o.chain[..|c|] == (c + [MatchSpec(k.pattern, v, map[]).bindings])[..|c|];
    if i < j {
      assert CaseFails(n, i, v);
      FirstMatchingCaseWins(h, n, i + 1, j, v, c);
    }
  }

  /** When every case cleanly fails, the expression throws "PatternExpression did not match". */
  lemma {:induction false} NoCaseMatches(h: Host, n: Node, i: nat, v: Value, c: seq<Bindings>)
    requires n.PatternExpression? && i <= |n.patternCases| && |c| > 0
    requires forall k :: i <= k < |n.patternCases| ==> CaseFails(n, k, v)
    ensures CasesLoop(h, n, i, v, c) == Outcome(Err(Thrown(NoMatchMessage)), c)
    decreases |n.patternCases| - i
  {
    if i < |n.patternCases| {
      assert CaseFails(n, i, v);
      NoCaseMatches(h, n, i + 1, v, c);
    }
  }

  /** The subject is evaluated once, before any case, and the first matching case decides. */
  lemma PatternExpressionTakesFirstMatch(h: Host, n: Node, j: nat, c: seq<Bindings>)
    requires n.PatternExpression? && j < |n.patternCases| && |c| > 0
    ensures var s := Eval(h, n.subject, c);
            s.result.Ok? && CaseMatches(n, j, s.result.value) &&
            (forall k :: 0 <= k < j ==> CaseFails(n, k, s.result.value)) ==>
              var k := n.patternCases[j];
              Eval(h, n, c) ==
              Outcome(Eval(h, k.result, s.chain + [MatchSpec(k.pattern, s.result.value, map[]).bindings]).result, s.chain)
  {
    var s := Eval(h, n.subject, c);
    if s.result.Ok? && CaseMatches(n, j, s.result.value) && (forall k :: 0 <= k < j ==> CaseFails(n, k, s.result.value)) {
      FirstMatchingCaseWins(h, n, 0, j, s.result.value, s.chain);
    }
  }

  // ---------------------------------------------------------------------------------------
  // Declaration and File

  /** `x = e` binds `x` to `e`'s value in the innermost scope and yields `undefined`. */
  lemma DeclarationBindsInnermost(h: Host, x: string, e: Node, c: seq<Bindings>)
    requires |c| > 0
    ensures var inner := Eval(h, e, c);
            var last := |inner.chain| - 1;
            inner.result.Ok? ==>
              Eval(h, Declaration(IdentifierExpression(x), e), c) ==
              Outcome(Ok(Undefined), inner.chain[last := inner.chain[last][x := inner.result.value]])
  {
  }

  /** A declarator that does not match is not an error: the declaration still yields `undefined`. */
  lemma FailedDeclarationIsSilent(h: Host, d: Node, e: Node, c: seq<Bindings>)
    requires |c| > 0
    ensures var inner := Eval(h, e, c);
            inner.result.Ok? &&
            MatchSpec(d, inner.result.value, inner.chain[|inner.chain| - 1]).result == Ok(false) ==>
              Eval(h, Declaration(d, e), c).result == Ok(Undefined)
  {
    var inner := Eval(h, e, c);
    if inner.result.Ok? {
      var m := MatchSpec(d, inner.result.value, inner.chain[|inner.chain| - 1]);
      assert Eval(h, Declaration(d, e), c).result == if m.result.Err? then Err(m.result.error) else Ok(Undefined);
    }
  }

  /** A File that completes returns the `module` entry its nodes left in the innermost scope. */
  lemma {:induction false} FileReturnsModule(h: Host, n: Node, i: nat, c: seq<Bindings>)
    requires n.File? && i <= |n.nodes| && |c| > 0
    ensures var o := FileLoop(h, n, i, c);
            o.result.Ok? ==> o.result.value == ModuleOf(o.chain)
    decreases |n.nodes| - i
  {
    if i < |n.nodes| {
      var o := Eval(h, n.nodes[i], c);
      if o.result.Ok? {
        FileReturnsModule(h, n, i + 1, o.chain);
      }
    }
  }

  /** A File whose only node declares `module = e` returns the value of `e`. */
  lemma ModuleDeclarationExports(h: Host, e: Node, c: seq<Bindings>)
    requires |c| > 0
    ensures var inner := Eval(h, e, c);
            inner.result.Ok? ==>
              Eval(h, File([Declaration(IdentifierExpression("module"), e)]), c).result == Ok(inner.result.value)
  {
    var n := File([Declaration(IdentifierExpression("module"), e)]);
    var inner := Eval(h, e, c);
    if inner.result.Ok? {
      var d := Eval(h, n.nodes[0], c);
      assert FileLoop(h, n, 0, c) == FileLoop(h, n, 1, d.chain);
    }
  }
}
