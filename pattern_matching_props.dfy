/**
 * What the matcher of interpreter/patternMatching.js promises, stated about its
 * specification `MatchSpec` (which the imperative `Match` is proved to follow).
 */
module PatternMatchingProperties {
  import opened Ast
  import opened Values
  import opened PatternMatching

  /** The names a pattern can bind: its identifiers, and the targets of its rest elements. */
  function Names(p: Node): set<string>
    decreases p, 0
  {
    match p
    case IdentifierExpression(n) => {n}
    case ArrayExpression(ps) => set i, x | 0 <= i < |ps| && x in ElementNames(ps[i]) :: x
    case _ => {}
  }

  /** The names an element of an array pattern can bind. */
  function ElementNames(p: Node): set<string>
    decreases p, 1
  {
    if p.RestElement? then (if p.value.IdentifierExpression? then {p.value.name} else {})
    else Names(p)
  }

  /**
   * Reference semantics of an array pattern without rest element against a value array of
   * the same length: match the elements pairwise, left to right, threading the bindings,
   * and stop at the first element that does not match.
   */
  function MatchAll(ps: seq<Node>, es: seq<Value>, b: Bindings): Matched
    requires |ps| == |es|
  {
    if ps == [] then Matched(Ok(true), b)
    else
      var m := MatchSpec(ps[0], es[0], b);
      if m.result != Ok(true) then m else MatchAll(ps[1..], es[1..], m.bindings)
  }

  // ---------------------------------------------------------------------------------------
  // Scalar patterns

  /** A NoPattern matches every value and adds no bindings. */
  lemma NoPatternMatchesAll(v: Value, b: Bindings)
    ensures MatchSpec(NoPattern, v, b) == Matched(Ok(true), b)
  {
  }

  /**
   * A Boolean literal pattern compares the literal with the value's `value` and binds
   * nothing: a tagged value matches when it is that Boolean, a NamedParameter when its
   * argument is the bare boolean, a plain object when its `value` entry is; a primitive has
   * no `value`, so it never matches; only `undefined` raises.
   */
  lemma BooleanPattern(x: bool, v: Value, b: Bindings)
    ensures MatchSpec(BooleanExpression(x), v, b).bindings == b
    ensures v.Bool? || v.Num? || v.Str? || v.Arr? || v.Obj? ==>
              MatchSpec(BooleanExpression(x), v, b).result == Ok(v == Bool(x))
    ensures v.Named? ==> MatchSpec(BooleanExpression(x), v, b).result == Ok(v.arg == RawBool(x))
    ensures v.RawObj? ==>
              MatchSpec(BooleanExpression(x), v, b).result == Ok(Lookup(v.entries, "value") == RawBool(x))
    ensures v.RawBool? || v.RawNum? || v.RawStr? || v.RawArr? ==>
              MatchSpec(BooleanExpression(x), v, b).result == Ok(false)
    ensures v.Undefined? ==> MatchSpec(BooleanExpression(x), v, b).result == Err(ReadOfUndefined)
  {
    assert "value"[0] == 'v';
  }

  /** A Number literal pattern compares in the same way, with the number as the literal. */
  lemma NumberPattern(n: int, v: Value, b: Bindings)
    ensures MatchSpec(NumberExpression(n), v, b).bindings == b
    ensures v.Bool? || v.Num? || v.Str? || v.Arr? || v.Obj? ==>
              MatchSpec(NumberExpression(n), v, b).result == Ok(v == Num(n))
    ensures v.Named? ==> MatchSpec(NumberExpression(n), v, b).result == Ok(v.arg == RawNum(n))
    ensures v.RawObj? ==>
              MatchSpec(NumberExpression(n), v, b).result == Ok(Lookup(v.entries, "value") == RawNum(n))
    ensures v.RawBool? || v.RawNum? || v.RawStr? || v.RawArr? ==>
              MatchSpec(NumberExpression(n), v, b).result == Ok(false)
    ensures v.Undefined? ==> MatchSpec(NumberExpression(n), v, b).result == Err(ReadOfUndefined)
  {
    assert "value"[0] == 'v';
  }

  /**
   * What an array pattern walks: reading `.value.length` of `undefined`, or of a value whose
   * `value` is absent (a NamedParameter of `undefined`, a primitive), raises; a Boolean, a
   * Number or a NamedParameter of a tagged value has no numeric `.value.length` and does not
   * match; a NamedParameter of a bare array or string is walked like an Array or a String.
   */
  lemma ArrayPatternSubjects(ps: seq<Node>, v: Value, b: Bindings)
    ensures v.Undefined? || Prop(v, "value") == Ok(Undefined) ==>
              MatchSpec(ArrayExpression(ps), v, b) == Matched(Err(ReadOfUndefined), b)
    ensures v.Bool? || v.Num? || (v.Named? && Tagged(v.arg)) ==>
              MatchSpec(ArrayExpression(ps), v, b) == Matched(Ok(false), b)
    ensures v.Named? && v.arg.RawArr? ==>
              MatchSpec(ArrayExpression(ps), v, b) == MatchSpec(ArrayExpression(ps), Arr(v.arg.items), b)
    ensures v.Named? && v.arg.RawStr? ==>
              MatchSpec(ArrayExpression(ps), v, b) == MatchSpec(ArrayExpression(ps), Str(v.arg.rs), b)
  {
  }

  /** An identifier pattern always matches and binds its name to the whole value, overwriting. */
  lemma IdentifierBindsWholeValue(name: string, v: Value, b: Bindings)
    ensures MatchSpec(IdentifierExpression(name), v, b) == Matched(Ok(true), b[name := v])
  {
  }

  /** Pattern kinds the matcher does not implement never match and bind nothing. */
  lemma UnhandledPatternsFail(p: Node, v: Value, b: Bindings)
    requires p.StringExpression? || p.ObjectExpression? || p.RestElement? || p.FunctionExpression?
    ensures MatchSpec(p, v, b) == Matched(Ok(false), b)
  {
  }

  // ---------------------------------------------------------------------------------------
  // Array patterns

  /**
   * The loop over a prefix of fixed (non-rest) patterns is pairwise matching of that prefix:
   * either it stops inside the prefix with the pairwise outcome, or it continues after the
   * prefix with the pairwise bindings.
   */
  lemma {:induction false} ArrayLoopPrefix(pattern: Node, es: seq<Value>, i: nat, k: nat, b: Bindings)
    requires pattern.ArrayExpression?
    requires i <= k <= |pattern.values| && k <= |es|
    requires NoRest(pattern.values[..k])
    ensures var m := MatchAll(pattern.values[i..k], es[i..k], b);
            ArrayLoop(pattern, es, i, i, 0, b)
            == if m.result != Ok(true) then m else ArrayLoop(pattern, es, k, k, 0, m.bindings)
    decreases k - i
  {
    var ps := pattern.values;
    if i < k {
      assert ps[i..k][0] == ps[..k][i] == ps[i];
      assert ps[i..k][1..] == ps[i + 1..k] && es[i..k][1..] == es[i + 1..k];
      var m := MatchSpec(ps[i], es[i], b);
      if m.result == Ok(true) {
        ArrayLoopPrefix(pattern, es, i + 1, k, m.bindings);
      }
    }
  }

  /**
   * Without a rest element, an array pattern matches an Array value exactly when the
   * lengths agree and the elements match pairwise, left to right; for equal lengths the
   * outcome and bindings are those of pairwise matching.
   */
  lemma ArrayWithoutRest(ps: seq<Node>, es: seq<Value>, b: Bindings)
    requires NoRest(ps)
    ensures |ps| == |es| ==> MatchSpec(ArrayExpression(ps), Arr(es), b) == MatchAll(ps, es, b)
    ensures MatchSpec(ArrayExpression(ps), Arr(es), b).result == Ok(true)
            <==> |ps| == |es| && MatchAll(ps, es, b).result == Ok(true)
  {
    var pattern := ArrayExpression(ps);
    var k := if |ps| <= |es| then |ps| else |es|;
    assert ps[0..k] == ps[..k] && es[0..k] == es[..k];
    ArrayLoopPrefix(pattern, es, 0, k, b);
    if |ps| == |es| {
      assert ps[0..k] == ps && es[0..k] == es;
    }
  }

  /**
   * A rest element in last position after k fixed patterns: once the fixed patterns have
   * matched the first k elements of n > k, and the rest name is unbound (or falsy), the match
   * succeeds and binds the rest name to an Array of elements k..n-1 in order.
   */
  lemma RestElementCapturesTail(fixed: seq<Node>, name: string, es: seq<Value>, b: Bindings, b1: Bindings)
    requires NoRest(fixed) && |fixed| < |es|
    requires MatchAll(fixed, es[..|fixed|], b) == Matched(Ok(true), b1)
    requires name !in b1 || !Truthy(b1[name])
    ensures MatchSpec(ArrayExpression(fixed + [RestElement(IdentifierExpression(name))]), Arr(es), b)
            == Matched(Ok(true), b1[name := Arr(es[|fixed|..])])
  {
    var ps := fixed + [RestElement(IdentifierExpression(name))];
    var pattern := ArrayExpression(ps);
    var k := |fixed|;
    assert ps[0..k] == ps[..k] == fixed && es[0..k] == es[..k];
    ArrayLoopPrefix(pattern, es, 0, k, b);
    assert k < |es|;
    assert |es[k..k + 1]| == 1;
    assert es[k..k + 1][0] == es[k];
    assert es[k..k + 1] == [es[k]];
    assert ArrayLoop(pattern, es, k, k + 1, 1, b1[name := Arr(es[k..k + 1])])
        == ArrayLoop(pattern, es, k, k, 0, b1);
    RestAbsorbsToEnd(pattern, es, k, k + 1, b1, name);
  }

  /** One step of the loop at a trailing rest element extends the Array bound to its name. */
  lemma RestStepExtends(pattern: Node, es: seq<Value>, k: nat, j: nat, b1: Bindings, name: string)
    requires pattern.ArrayExpression? && k + 1 == |pattern.values| && k < j < |es|
    requires pattern.values[k] == RestElement(IdentifierExpression(name))
    ensures ArrayLoop(pattern, es, k, j, 1, b1[name := Arr(es[k..j])])
            == ArrayLoop(pattern, es, k, j + 1, 1, b1[name := Arr(es[k..j + 1])])
  {
    var b := b1[name := Arr(es[k..j])];
    assert es[k..j] + [es[j]] == es[k..j + 1];
    assert Absorb(b, name, es[j]) == Ok(b[name := Arr(es[k..j + 1])]);
    assert b[name := Arr(es[k..j + 1])] == b1[name := Arr(es[k..j + 1])];
  }

  /** Once the rest element at index k holds es[k..j], it absorbs the remaining elements. */
  lemma {:induction false} RestAbsorbsToEnd(pattern: Node, es: seq<Value>, k: nat, j: nat, b1: Bindings, name: string)
    requires pattern.ArrayExpression? && k + 1 == |pattern.values| && k < j <= |es|
    requires pattern.values[k] == RestElement(IdentifierExpression(name))
    ensures ArrayLoop(pattern, es, k, j, 1, b1[name := Arr(es[k..j])])
            == Matched(Ok(true), b1[name := Arr(es[k..])])
    decreases |es| - j
  {
    if j < |es| {
      RestStepExtends(pattern, es, k, j, b1, name);
      RestAbsorbsToEnd(pattern, es, k, j + 1, b1, name);
    } else {
      assert es[k..j] == es[k..];
    }
  }

  /**
   * A rest element that would absorb no element makes the match fail: with exactly as many
   * values as fixed patterns before it, the outcome is never success (`[x, ...xs]` against
   * `[1]`, `[...xs]` against `[]`).
   */
  lemma EmptyRestFails(fixed: seq<Node>, target: Node, es: seq<Value>, b: Bindings)
    requires NoRest(fixed) && |fixed| == |es|
    ensures MatchSpec(ArrayExpression(fixed + [RestElement(target)]), Arr(es), b).result != Ok(true)
    ensures MatchAll(fixed, es, b).result == Ok(true)
            ==> MatchSpec(ArrayExpression(fixed + [RestElement(target)]), Arr(es), b)
                == Matched(Ok(false), MatchAll(fixed, es, b).bindings)
  {
    var ps := fixed + [RestElement(target)];
    var k := |fixed|;
    assert ps[0..k] == ps[..k] == fixed && es[0..k] == es;
    ArrayLoopPrefix(ArrayExpression(ps), es, 0, k, b);
  }

  /**
   * A rest element whose target is not an identifier raises an error, but only when the
   * loop reaches it with a value left; with no value left the match just fails.
   */
  lemma RestTargetMustBeIdentifier(fixed: seq<Node>, target: Node, es: seq<Value>, b: Bindings, b1: Bindings)
    requires NoRest(fixed) && |fixed| <= |es| && !target.IdentifierExpression?
    requires MatchAll(fixed, es[..|fixed|], b) == Matched(Ok(true), b1)
    ensures |fixed| < |es| ==> MatchSpec(ArrayExpression(fixed + [RestElement(target)]), Arr(es), b)
                               == Matched(Err(Thrown(RestTargetMessage)), b1)
    ensures |fixed| == |es| ==> MatchSpec(ArrayExpression(fixed + [RestElement(target)]), Arr(es), b)
                                == Matched(Ok(false), b1)
  {
    var ps := fixed + [RestElement(target)];
    var k := |fixed|;
    assert ps[0..k] == ps[..k] == fixed && es[0..k] == es[..k];
    ArrayLoopPrefix(ArrayExpression(ps), es, 0, k, b);
  }

  /**
   * The pattern index never moves past a rest element, so an array pattern with any element
   * after a rest element matches no value at all.
   */
  lemma PatternAfterRestNeverMatches(ps: seq<Node>, r: nat, v: Value, b: Bindings)
    requires r + 1 < |ps| && ps[r].RestElement?
    ensures MatchSpec(ArrayExpression(ps), v, b).result != Ok(true)
  {
    if Walked(v).Ok? && Walked(v).value.Some? {
      LoopStopsAtRest(ArrayExpression(ps), Walked(v).value.value, 0, 0, 0, b, r);
    }
  }

  lemma {:induction false} LoopStopsAtRest(pattern: Node, es: seq<Value>, pi: nat, ei: nat, rest: nat, b: Bindings, r: nat)
    requires pattern.ArrayExpression? && ei <= |es|
    requires pi <= r && r + 1 < |pattern.values| && pattern.values[r].RestElement? && rest <= 1
    ensures ArrayLoop(pattern, es, pi, ei, rest, b).result != Ok(true)
    decreases |es| - ei
  {
    var ps := pattern.values;
    if ei < |es| {
      var p := ps[pi];
      if p.RestElement? {
        if p.value.IdentifierExpression? && Absorb(b, p.value.name, es[ei]).Ok? {
          LoopStopsAtRest(pattern, es, pi, ei + 1, 1, Absorb(b, p.value.name, es[ei]).value, r);
        }
      } else {
        var m := MatchSpec(p, es[ei], b);
        if m.result == Ok(true) {
          LoopStopsAtRest(pattern, es, pi + 1, ei + 1, rest, m.bindings, r);
        }
      }
    }
  }

  // ---------------------------------------------------------------------------------------
  // Bindings

  /**
   * Whatever the outcome, the matcher only adds or overwrites bindings for names the pattern
   * can bind; every other binding is untouched. On success every such name is bound.
   */
  lemma {:induction false} MatchBindings(p: Node, v: Value, b: Bindings)
    ensures var m := MatchSpec(p, v, b);
            && b.Keys <= m.bindings.Keys <= b.Keys + Names(p)
            && (forall k :: k in b && k !in Names(p) ==> m.bindings[k] == b[k])
            && (m.result == Ok(true) ==> Names(p) <= m.bindings.Keys)
    decreases p, 1
  {
    match p
    case ArrayExpression(ps) =>
      if Walked(v).Ok? && Walked(v).value.Some? {
        ArrayLoopBindings(p, Walked(v).value.value, 0, 0, 0, b, b);
      }
    case _ =>
  }

  lemma {:induction false} ArrayLoopBindings(pattern: Node, es: seq<Value>, pi: nat, ei: nat, rest: nat, b0: Bindings, b: Bindings)
    requires pattern.ArrayExpression? && pi <= |pattern.values| && ei <= |es| && rest <= 1
    requires b0.Keys <= b.Keys <= b0.Keys + Names(pattern)
    requires forall k :: k in b0 && k !in Names(pattern) ==> b[k] == b0[k]
    requires forall i :: 0 <= i < pi ==> ElementNames(pattern.values[i]) <= b.Keys
    requires rest == 1 ==> pi < |pattern.values| && pattern.values[pi].RestElement?
    requires rest == 1 ==> ElementNames(pattern.values[pi]) <= b.Keys
    ensures var m := ArrayLoop(pattern, es, pi, ei, rest, b);
            && b.Keys <= m.bindings.Keys <= b0.Keys + Names(pattern)
            && (forall k :: k in b0 && k !in Names(pattern) ==> m.bindings[k] == b0[k])
            && (m.result == Ok(true) ==> Names(pattern) <= m.bindings.Keys)
    decreases pattern, 0, |es| - ei, 1
  {
    var ps := pattern.values;
    if pi < |ps| && ei < |es| {
      var p := ps[pi];
      assert ElementNames(p) <= Names(pattern);
      if p.RestElement? {
        if p.value.IdentifierExpression? {
          RestStepBindings(pattern, es, pi, ei, rest, b0, b);
        }
      } else {
        ElementStepBindings(pattern, es, pi, ei, b0, b);
      }
    } else {
      var m := ArrayLoop(pattern, es, pi, ei, rest, b);
      if m.result == Ok(true) {
        forall x | x in Names(pattern) ensures x in b {
          var i :| 0 <= i < |ps| && x in ElementNames(ps[i]);
        }
      }
    }
  }

  /** The binding discipline across one step at an element pattern. */
  lemma {:induction false} ElementStepBindings(pattern: Node, es: seq<Value>, pi: nat, ei: nat, b0: Bindings, b: Bindings)
    requires pattern.ArrayExpression? && pi < |pattern.values| && ei < |es|
    requires !pattern.values[pi].RestElement?
    requires b0.Keys <= b.Keys <= b0.Keys + Names(pattern)
    requires forall k :: k in b0 && k !in Names(pattern) ==> b[k] == b0[k]
    requires forall i :: 0 <= i < pi ==> ElementNames(pattern.values[i]) <= b.Keys
    ensures var m := ArrayLoop(pattern, es, pi, ei, 0, b);
            && b.Keys <= m.bindings.Keys <= b0.Keys + Names(pattern)
            && (forall k :: k in b0 && k !in Names(pattern) ==> m.bindings[k] == b0[k])
            && (m.result == Ok(true) ==> Names(pattern) <= m.bindings.Keys)
    decreases pattern, 0, |es| - ei, 0
  {
    var p := pattern.values[pi];
    assert ElementNames(p) <= Names(pattern);
    var m := MatchSpec(p, es[ei], b);
    MatchBindings(p, es[ei], b);
    if m.result == Ok(true) {
      assert ArrayLoop(pattern, es, pi, ei, 0, b) == ArrayLoop(pattern, es, pi + 1, ei + 1, 0, m.bindings);
      ArrayLoopBindings(pattern, es, pi + 1, ei + 1, 0, b0, m.bindings);
    } else {
      assert ArrayLoop(pattern, es, pi, ei, 0, b) == m;
    }
  }

  /** The binding discipline across one step at a rest element. */
  lemma {:induction false} RestStepBindings(pattern: Node, es: seq<Value>, pi: nat, ei: nat, rest: nat, b0: Bindings, b: Bindings)
    requires pattern.ArrayExpression? && pi < |pattern.values| && ei < |es| && rest <= 1
    requires pattern.values[pi].RestElement? && pattern.values[pi].value.IdentifierExpression?
    requires b0.Keys <= b.Keys <= b0.Keys + Names(pattern)
    requires forall k :: k in b0 && k !in Names(pattern) ==> b[k] == b0[k]
    requires forall i :: 0 <= i < pi ==> ElementNames(pattern.values[i]) <= b.Keys
    requires rest == 1 ==> pi < |pattern.values| && pattern.values[pi].RestElement?
    requires rest == 1 ==> ElementNames(pattern.values[pi]) <= b.Keys
    ensures var m := ArrayLoop(pattern, es, pi, ei, rest, b);
            && b.Keys <= m.bindings.Keys <= b0.Keys + Names(pattern)
            && (forall k :: k in b0 && k !in Names(pattern) ==> m.bindings[k] == b0[k])
            && (m.result == Ok(true) ==> Names(pattern) <= m.bindings.Keys)
    decreases pattern, 0, |es| - ei, 0
  {
    var p := pattern.values[pi];
    assert ElementNames(p) <= Names(pattern);
    var a := Absorb(b, p.value.name, es[ei]);
    if a.Ok? {
      assert ArrayLoop(pattern, es, pi, ei, rest, b) == ArrayLoop(pattern, es, pi, ei + 1, 1, a.value);
      ArrayLoopBindings(pattern, es, pi, ei + 1, 1, b0, a.value);
    } else {
      assert ArrayLoop(pattern, es, pi, ei, rest, b) == Matched(Err(a.error), b);
    }
  }

  // ---------------------------------------------------------------------------------------
  // Worked examples

  /** `[]` matches an Array value exactly when it is empty. */
  lemma EmptyPatternMatchesOnlyEmpty(es: seq<Value>, b: Bindings)
    ensures MatchSpec(ArrayExpression([]), Arr(es), b) == Matched(Ok(es == []), b)
  {
  }

  /** `[x, ...xs]` rejects `[1]` but leaves `x` bound; `[...xs]` rejects `[]`. */
  lemma RestNeedsAnElement(b: Bindings)
    ensures MatchSpec(ArrayExpression([IdentifierExpression("x"), RestElement(IdentifierExpression("xs"))]),
                      Arr([Num(1)]), b)
            == Matched(Ok(false), b["x" := Num(1)])
    ensures MatchSpec(ArrayExpression([RestElement(IdentifierExpression("xs"))]), Arr([]), b)
            == Matched(Ok(false), b)
  {
    var fixed := [IdentifierExpression("x")];
    assert [IdentifierExpression("x"), RestElement(IdentifierExpression("xs"))]
        == fixed + [RestElement(IdentifierExpression("xs"))];
    assert MatchAll(fixed, [Num(1)], b) == Matched(Ok(true), b["x" := Num(1)]);
    EmptyRestFails(fixed, IdentifierExpression("xs"), [Num(1)], b);
    EmptyRestFails([], IdentifierExpression("xs"), [], b);
  }

  /** `[x, ...xs]` against `[1, 2, 3]` in a fresh scope binds x = 1 and xs = [2, 3]. */
  lemma HeadAndTail()
    ensures MatchSpec(ArrayExpression([IdentifierExpression("x"), RestElement(IdentifierExpression("xs"))]),
                      Arr([Num(1), Num(2), Num(3)]), map[])
            == Matched(Ok(true), map["x" := Num(1), "xs" := Arr([Num(2), Num(3)])])
  {
    var fixed := [IdentifierExpression("x")];
    var es := [Num(1), Num(2), Num(3)];
    assert [IdentifierExpression("x"), RestElement(IdentifierExpression("xs"))]
        == fixed + [RestElement(IdentifierExpression("xs"))];
    assert es[..1] == [Num(1)] && es[1..] == [Num(2), Num(3)];
    assert MatchAll(fixed, [Num(1)], map[]) == Matched(Ok(true), map["x" := Num(1)]);
    RestElementCapturesTail(fixed, "xs", es, map[], map["x" := Num(1)]);
  }

  /** A failed match keeps the bindings written before the failing element: `[x, 2]` against `[1, 3]`. */
  lemma FailureKeepsEarlierBindings(b: Bindings)
    ensures MatchSpec(ArrayExpression([IdentifierExpression("x"), NumberExpression(2)]), Arr([Num(1), Num(3)]), b)
            == Matched(Ok(false), b["x" := Num(1)])
  {
    var ps := [IdentifierExpression("x"), NumberExpression(2)];
    ArrayWithoutRest(ps, [Num(1), Num(3)], b);
    assert ps[1..] == [NumberExpression(2)];
  }

  /** An array pattern walks a String value's characters: `[a, b]` against 'hi'. */
  lemma ArrayPatternOverString(b: Bindings)
    ensures MatchSpec(ArrayExpression([IdentifierExpression("a"), IdentifierExpression("b")]), Str("hi"), b)
            == Matched(Ok(true), b["a" := RawStr("h")]["b" := RawStr("i")])
    ensures MatchSpec(ArrayExpression([]), Str(""), b) == Matched(Ok(true), b)
  {
    var cs := Chars("hi");
    assert cs == [RawStr("h"), RawStr("i")];
  }
}
