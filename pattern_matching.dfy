/**
 * Structural pattern matching (interpreter/patternMatching.js): decides whether a pattern
 * node matches a runtime value and, while doing so, writes bindings into the caller's scope
 * object. `MatchSpec` is the functional specification; `Match` is the imperative matcher,
 * with the loop over the two indices of the array case, proved to agree with it.
 */
module PatternMatching {
  import opened Ast
  import opened Values

  /** A mutable scope object, as the `matchScope` argument the matcher writes into. */
  class Scope {
    var bindings: Bindings

    constructor ()
      ensures bindings == map[]
    {
      bindings := map[];
    }
  }

  /** Outcome of a match: true/false or the exception raised, and the bindings as left behind. */
  datatype Matched = Matched(result: Result<bool>, bindings: Bindings)

  const RestTargetMessage := "RestElement inside array has to be an identifier"

  /** Calling `.push` on a payload that is not an array. */
  const PushOnNonArray := TypeError(".value.push is not a function")

  /** The failure of `a.push(e)` on a payload `a` that is not an array. */
  function PushFailure(a: Value): (f: Failure)
    ensures a.Undefined? <==> f == ReadOfUndefined
  {
    if a.Undefined? then ReadOfUndefined else PushOnNonArray
  }

  /**
   * `t.value.push(e)`: the object `t` with `e` appended to the array under its `value`; it
   * throws when that `value` is not an array.
   */
  function Push(t: Value, e: Value): (r: Result<Value>)
    requires !t.Undefined?
    ensures t.Arr? ==> r == Ok(Arr(t.elems + [e]))
    ensures t.Bool? || t.Num? || t.Str? || t.Obj? ==> r == Err(PushOnNonArray)
  {
    match t
    case Arr(items) => Ok(Arr(items + [e]))
    case Named(n, a) =>
      if a.RawArr? then Ok(Named(n, RawArr(a.items + [e]))) else Err(PushFailure(a))
    case RawObj(m) =>
      var a := Lookup(m, "value");
      if a.RawArr? then Ok(RawObj(m["value" := RawArr(a.items + [e])])) else Err(PushFailure(a))
    case Closure(id, own) =>
      var a := Lookup(own, "value");
      if a.RawArr? then Ok(Closure(id, own["value" := RawArr(a.items + [e])])) else Err(PushFailure(a))
    case Bool(_) | Num(_) | Str(_) | Obj(_) => Err(PushOnNonArray)
    case RawBool(_) | RawNum(_) | RawStr(_) | RawArr(_) => Err(ReadOfUndefined)
  }

  /**
   * A push succeeds exactly when the object's `value` is an array, and appends `e` to that
   * array; otherwise it throws, reading `push` of an absent `value` or calling an absent
   * `push`.
   */
  lemma PushAppendsToValue(t: Value, e: Value)
    requires !t.Undefined?
    ensures Push(t, e).Ok? <==> Prop(t, "value").value.RawArr?
    ensures Push(t, e).Ok? ==>
              Prop(Push(t, e).value, "value") == Ok(RawArr(Prop(t, "value").value.items + [e]))
    ensures Push(t, e).Err? ==> Push(t, e).error == PushFailure(Prop(t, "value").value)
  {
    assert "value"[0] == 'v';
  }

  /** A push changes nothing else that can be read from the object. */
  lemma PushKeepsOtherProperties(t: Value, e: Value, k: string)
    requires !t.Undefined? && Push(t, e).Ok? && k != "value"
    ensures Prop(Push(t, e).value, k) == Prop(t, k)
  {
  }

  /**
   * The rest element's step: the binding for `name` becomes its current value if that is
   * truthy, a fresh empty Array otherwise, and `e` is pushed onto its `value`.
   */
  function Absorb(b: Bindings, name: string, e: Value): (r: Result<Bindings>)
    ensures r.Ok? ==> r.value.Keys == b.Keys + {name}
    ensures r.Ok? ==> forall k :: k in b && k != name ==> r.value[k] == b[k]
    ensures !Truthy(Lookup(b, name)) ==> r == Ok(b[name := Arr([e])])
    ensures Lookup(b, name).Arr? ==> r == Ok(b[name := Arr(Lookup(b, name).elems + [e])])
    ensures r.Err? ==> Truthy(Lookup(b, name))
  {
    var current := Lookup(b, name);
    var target := if Truthy(current) then current else Arr([]);
    assert [] + [e] == [e];
    match Push(target, e)
    case Ok(t) => Ok(b[name := t])
    case Err(f) => Err(f)
  }

  /**
   * What the array case walks: the elements of `v.value`, read by `.length` and index.
   * Reading `.value` of `undefined`, or `.length` of an absent `.value`, throws; None when
   * `.value.length` is not a non-negative number.
   */
  function Walked(v: Value): (r: Result<Option<seq<Value>>>)
    ensures r.Err? <==> v.Undefined? || Prop(v, "value") == Ok(Undefined)
    ensures r.Err? ==> r.error == ReadOfUndefined
    ensures v.Arr? ==> r == Ok(Some(v.elems))
    ensures v.Str? ==> r == Ok(Some(Chars(v.s)))
    ensures v.Bool? || v.Num? || (v.Named? && Tagged(v.arg)) ==> r == Ok(None)
  {
    match Prop(v, "value")
    case Err(f) => Err(f)
    case Ok(p) => if p.Undefined? then Err(ReadOfUndefined) else Ok(ArrayLike(p))
  }

  /** `pattern.value === v.value` for a literal pattern whose payload is `x`. */
  function Same(v: Value, x: Value): (r: Result<bool>)
    requires x.RawBool? || x.RawNum?
    ensures r.Err? <==> v.Undefined?
    ensures Tagged(v) ==> r == Ok(Content(v) == x)
  {
    match Prop(v, "value")
    case Err(f) => Err(f)
    case Ok(p) => Ok(p == x)
  }

  /** What `match(pattern, v, scope)` returns and leaves in a scope holding `b`. */
  function MatchSpec(pattern: Node, v: Value, b: Bindings): Matched
    decreases pattern, 1
  {
    match pattern
    case NoPattern => Matched(Ok(true), b)
    case BooleanExpression(x) => Matched(Same(v, RawBool(x)), b)
    case NumberExpression(x) => Matched(Same(v, RawNum(x)), b)
    case IdentifierExpression(name) => Matched(Ok(true), b[name := v])
    case ArrayExpression(ps) =>
      (match Walked(v)
       case Err(f) => Matched(Err(f), b)
       case Ok(None) => Matched(Ok(false), b)
       case Ok(Some(es)) => ArrayLoop(pattern, es, 0, 0, 0, b))
    case _ => Matched(Ok(false), b)
  }

  /**
   * The array case's loop from the state (patternIndex, expressionIndex, restElement) =
   * (pi, ei, rest) with bindings `b`, run to its end.
   */
  function ArrayLoop(pattern: Node, es: seq<Value>, pi: nat, ei: nat, rest: nat, b: Bindings): Matched
    requires pattern.ArrayExpression? && pi <= |pattern.values| && ei <= |es|
    decreases pattern, 0, |es| - ei
  {
    var ps := pattern.values;
    if pi < |ps| && ei < |es| then
      var p := ps[pi];
      if p.RestElement? then
        if !p.value.IdentifierExpression? then Matched(Err(Thrown(RestTargetMessage)), b)
        else
          match Absorb(b, p.value.name, es[ei])
          case Ok(b') => ArrayLoop(pattern, es, pi, ei + 1, 1, b')
          case Err(f) => Matched(Err(f), b)
      else
        var m := MatchSpec(p, es[ei], b);
        if m.result != Ok(true) then m
        else ArrayLoop(pattern, es, pi + 1, ei + 1, rest, m.bindings)
    else
      Matched(Ok(ei == |es| && pi + rest == |ps|), b)
  }

  /**
   * The matcher: returns whether `pattern` matches `v` (or the exception it raises) and
   * writes the bindings into `scope`, exactly as `MatchSpec` describes.
   */
  method Match(pattern: Node, v: Value, scope: Scope) returns (r: Result<bool>)
    modifies scope
    ensures Matched(r, scope.bindings) == MatchSpec(pattern, v, old(scope.bindings))
    decreases pattern, 2
  {
    match pattern {
      case NoPattern =>
        r := Ok(true);
      case BooleanExpression(x) =>
        r := Same(v, RawBool(x));
      case NumberExpression(x) =>
        r := Same(v, RawNum(x));
      case IdentifierExpression(name) =>
        scope.bindings := scope.bindings[name := v];
        r := Ok(true);
      case ArrayExpression(_) =>
        r := MatchArray(pattern, v, scope);
      case _ =>
        r := Ok(false);
    }
  }

  /** The array case: reads the elements of `v.value`, then walks them. */
  method MatchArray(pattern: Node, v: Value, scope: Scope) returns (r: Result<bool>)
    requires pattern.ArrayExpression?
    modifies scope
    ensures Matched(r, scope.bindings) == MatchSpec(pattern, v, old(scope.bindings))
    decreases pattern, 1
  {
    var walked := Walked(v);
    if walked.Err? {
      return Err(walked.error);
    }
    if walked.value.None? {
      return Ok(false);
    }
    r := MatchElements(pattern, walked.value.value, scope);
  }

  /** The array case's `while` loop over the pattern's and the value's elements, with two indices. */
  method MatchElements(pattern: Node, es: seq<Value>, scope: Scope) returns (r: Result<bool>)
    requires pattern.ArrayExpression?
    modifies scope
    ensures Matched(r, scope.bindings) == ArrayLoop(pattern, es, 0, 0, 0, old(scope.bindings))
    decreases pattern, 0
  {
    var ps := pattern.values;
    var patternIndex, expressionIndex, restElement := 0, 0, 0;
    while patternIndex < |ps| && expressionIndex < |es|
      invariant patternIndex <= |ps| && expressionIndex <= |es|
      invariant ArrayLoop(pattern, es, patternIndex, expressionIndex, restElement, scope.bindings)
             == ArrayLoop(pattern, es, 0, 0, 0, old(scope.bindings))
      decreases |es| - expressionIndex
    {
      var p := ps[patternIndex];
      var e := es[expressionIndex];
      if p.RestElement? {
        if !p.value.IdentifierExpression? {
          return Err(Thrown(RestTargetMessage));
        }
        var pushed := PushRest(scope, p.value.name, e);
        if pushed.Err? {
          return Err(pushed.error);
        }
        restElement := 1;
        expressionIndex := expressionIndex + 1;
      } else {
        var matched := Match(p, e, scope);
        if matched.Err? || !matched.value {
          return matched;
        }
        patternIndex := patternIndex + 1;
        expressionIndex := expressionIndex + 1;
      }
    }
    r := Ok(expressionIndex == |es| && patternIndex + restElement == |ps|);
  }

  /**
   * The rest element's two statements on the scope object: an absent or falsy entry becomes
   * a fresh empty Array, then `e` is pushed onto the entry's `value`, as `Absorb` describes
   * it; on the exception the scope is as it was.
   */
  method PushRest(scope: Scope, name: string, e: Value) returns (r: Result<()>)
    modifies scope
    ensures match Absorb(old(scope.bindings), name, e)
            case Ok(b) => r == Ok(()) && scope.bindings == b
            case Err(f) => r == Err(f) && scope.bindings == old(scope.bindings)
  {
    var current := Lookup(scope.bindings, name);
    if !Truthy(current) {
      current := Arr([]);
      scope.bindings := scope.bindings[name := current];
    }
    var pushed := Push(current, e);
    assert pushed.Err? ==> scope.bindings == old(scope.bindings);
    if pushed.Err? {
      return Err(pushed.error);
    }
    scope.bindings := scope.bindings[name := pushed.value];
    assert scope.bindings == old(scope.bindings)[name := pushed.value];
    r := Ok(());
  }
}
