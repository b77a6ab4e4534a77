/**
 * Runtime values as the interpreter holds them in JavaScript: the `{ value, type }` objects
 * the literal visitors build, and the untagged JavaScript values other visitors produce or
 * expose (`undefined`, the payloads under `.value`, the results of `!e` and `e.type`, the
 * entries object of an object property). Property reads, own keys and iteration follow
 * JavaScript for the string keys the language can spell.
 */
module Values {

  /** What a step of the interpreter produced: a value, or the exception it raised. */
  datatype Result<+T> = Ok(value: T) | Err(error: Failure)

  /** An exception: one the interpreter throws itself, or a `TypeError` raised by the JavaScript runtime. */
  datatype Failure =
    | Thrown(message: string)
    | TypeError(reason: string)

  /** Reading a property of `undefined`. */
  const ReadOfUndefined := TypeError("cannot read properties of undefined")

  /** Spreading into an array something that is not iterable. */
  const NotIterable := TypeError("spread argument is not iterable")

  /** `Object.keys` of `undefined`. */
  const KeysOfUndefined := TypeError("cannot convert undefined to object")

  datatype Value =
    | Bool(b: bool)                        // { type: 'Boolean', value: b }
    | Num(n: int)                          // { type: 'Number', value: n }
    | Str(s: string)                       // { type: 'String', value: s }
    | Arr(elems: seq<Value>)               // { type: 'Array', value: [...] }
    | Obj(props: map<string, Value>)       // { type: 'Object', value: {...} }
    | Named(name: string, arg: Value)      // { type: 'NamedParameter', name, value: arg }
    | Closure(id: nat, own: map<string, Value>)  // a function value: the host's function `id`, with its own properties
    | Undefined                            // JavaScript `undefined`
    | RawBool(rb: bool)                    // an untagged JavaScript boolean
    | RawNum(rn: int)                      // an untagged JavaScript number
    | RawStr(rs: string)                   // an untagged JavaScript string
    | RawArr(items: seq<Value>)            // an untagged JavaScript array
    | RawObj(entries: map<string, Value>)  // an untagged plain JavaScript object

  /** A scope: the bindings of one JavaScript scope object, by name. */
  type Bindings = map<string, Value>

  /** The `{ value, type }` objects built by the literal and NamedParameter visitors. */
  predicate Tagged(v: Value) {
    v.Bool? || v.Num? || v.Str? || v.Arr? || v.Obj? || v.Named?
  }

  /** The `type` tag of a tagged value. */
  function TypeTag(v: Value): string
    requires Tagged(v)
  {
    match v
    case Bool(_) => "Boolean"
    case Num(_) => "Number"
    case Str(_) => "String"
    case Arr(_) => "Array"
    case Obj(_) => "Object"
    case Named(_, _) => "NamedParameter"
  }

  /** The `value` of a tagged value: the untagged payload, or a NamedParameter's argument as it is. */
  function Content(v: Value): Value
    requires Tagged(v)
  {
    match v
    case Bool(b) => RawBool(b)
    case Num(n) => RawNum(n)
    case Str(s) => RawStr(s)
    case Arr(es) => RawArr(es)
    case Obj(m) => RawObj(m)
    case Named(_, a) => a
  }

  /** The own properties of a tagged value. */
  function TaggedEntries(v: Value): (m: map<string, Value>)
    requires Tagged(v)
    ensures m.Keys == if v.Named? then {"value", "type", "name"} else {"value", "type"}
    ensures m["value"] == Content(v) && m["type"] == RawStr(TypeTag(v))
  {
    var m := map["value" := Content(v), "type" := RawStr(TypeTag(v))];
    if v.Named? then m["name" := RawStr(v.name)] else m
  }

  /** `m[k]` on a plain object: the entry, or `undefined` when there is none. */
  function Lookup(m: map<string, Value>, k: string): (v: Value)
    ensures k in m ==> v == m[k]
    ensures k !in m ==> v == Undefined
  {
    if k in m then m[k] else Undefined
  }

  /** The character of a decimal digit. */
  function Digit(d: nat): (c: char)
    requires d < 10
    ensures '0' <= c <= '9' && c as int - '0' as int == d
  {
    ('0' as int + d) as char
  }

  /** The decimal numeral of `k`, as JavaScript spells an array index used as a key. */
  function Decimal(k: nat): (s: string)
    ensures 0 < |s| && (k < 10 <==> |s| == 1)
    ensures forall j :: 0 <= j < |s| ==> '0' <= s[j] <= '9'
  {
    if k < 10 then [Digit(k)] else Decimal(k / 10) + [Digit(k % 10)]
  }

  /** Different indices have different numerals, so an index key names one element. */
  lemma {:induction false} DecimalInjective(a: nat, b: nat)
    requires Decimal(a) == Decimal(b)
    ensures a == b
    decreases a
  {
    var s := Decimal(a);
    if 10 <= a {
      assert Digit(a % 10) == s[|s| - 1] == Digit(b % 10);
      assert Decimal(a / 10) == s[..|s| - 1] == Decimal(b / 10);
      DecimalInjective(a / 10, b / 10);
    }
  }

  /** The index among `0..n-1` whose numeral is `key`, if any. */
  function IndexOf(key: string, n: nat): (r: Option<nat>)
    ensures r.Some? ==> r.value < n && Decimal(r.value) == key
    ensures r.None? ==> forall i :: 0 <= i < n ==> Decimal(i) != key
    ensures |key| > 0 && !('0' <= key[0] <= '9') ==> r.None?
  {
    if n == 0 then None
    else if Decimal(n - 1) == key then Some(n - 1)
    else IndexOf(key, n - 1)
  }

  /** `es[key]` on an array-like: the element whose index is spelled `key`, else `undefined`. */
  function IndexRead(es: seq<Value>, key: string): Value {
    match IndexOf(key, |es|)
    case Some(i) => es[i]
    case None => Undefined
  }

  /** Reading index `i` by its numeral finds element `i`. */
  lemma IndexReadAt(es: seq<Value>, i: nat)
    requires i < |es|
    ensures IndexRead(es, Decimal(i)) == es[i]
  {
    var j := IndexOf(Decimal(i), |es|);
    DecimalInjective(j.value, i);
  }

  /** The characters of a string, each as the one-character string that indexing yields. */
  function Chars(s: string): (cs: seq<Value>)
    ensures |cs| == |s|
    ensures forall i :: 0 <= i < |s| ==> cs[i] == RawStr([s[i]])
  {
    seq(|s|, i requires 0 <= i < |s| => RawStr([s[i]]))
  }

  /**
   * `v[key]`: the own properties of objects, the `length` and the elements of strings and
   * arrays, and `undefined` for any other key; reading from `undefined` throws.
   */
  function Prop(v: Value, key: string): (r: Result<Value>)
    ensures r.Err? <==> v.Undefined?
    ensures Tagged(v) && key == "value" ==> r == Ok(Content(v))
    ensures Tagged(v) && key == "type" ==> r == Ok(RawStr(TypeTag(v)))
    ensures v.RawStr? && key == "length" ==> r == Ok(RawNum(|v.rs|))
    ensures v.RawArr? && key == "length" ==> r == Ok(RawNum(|v.items|))
    ensures v.RawBool? || v.RawNum? ==> r == Ok(Undefined)
    ensures (v.RawStr? || v.RawArr?) && key != "length" && |key| > 0 && !('0' <= key[0] <= '9') ==> r == Ok(Undefined)
  {
    match v
    case Undefined => Err(ReadOfUndefined)
    case Closure(_, own) => Ok(Lookup(own, key))
    case RawObj(m) => Ok(Lookup(m, key))
    case RawBool(_) => Ok(Undefined)
    case RawNum(_) => Ok(Undefined)
    case RawStr(s) => Ok(if key == "length" then RawNum(|s|) else IndexRead(Chars(s), key))
    case RawArr(es) => Ok(if key == "length" then RawNum(|es|) else IndexRead(es, key))
    case _ => Ok(Lookup(TaggedEntries(v), key))
  }

  /** The keys `0`, ..., `n-1`, spelled as numerals. */
  function IndexKeys(n: nat): (ks: set<string>)
    ensures forall i :: 0 <= i < n ==> Decimal(i) in ks
    ensures forall k :: k in ks ==> IndexOf(k, n).Some?
  {
    set i | 0 <= i < n :: Decimal(i)
  }

  /** The own entries of an array-like: index numeral to element. */
  function Indexed(es: seq<Value>): (m: map<string, Value>) {
    map k | k in IndexKeys(|es|) :: IndexRead(es, k)
  }

  /**
   * The own enumerable entries `Object.keys(v)` lists, each with the value `v[key]` reads:
   * the fields of a tagged value or an object, the indices of a string or an array, none for
   * a primitive; `undefined` throws.
   */
  function OwnEntries(v: Value): (r: Result<map<string, Value>>)
    ensures r.Err? <==> v.Undefined?
    ensures v.RawObj? ==> r == Ok(v.entries)
    ensures v.Closure? ==> r == Ok(v.own)
    ensures Tagged(v) ==> r == Ok(TaggedEntries(v))
    ensures v.RawBool? || v.RawNum? ==> r == Ok(map[])
  {
    match v
    case Undefined => Err(KeysOfUndefined)
    case Closure(_, own) => Ok(own)
    case RawObj(m) => Ok(m)
    case RawBool(_) => Ok(map[])
    case RawNum(_) => Ok(map[])
    case RawStr(s) => Ok(Indexed(Chars(s)))
    case RawArr(es) => Ok(Indexed(es))
    case _ => Ok(TaggedEntries(v))
  }

  /** Every entry `Object.keys` lists holds what reading that key gives. */
  lemma OwnEntriesAreReads(v: Value, k: string)
    requires OwnEntries(v).Ok? && k in OwnEntries(v).value
    ensures Prop(v, k) == Ok(OwnEntries(v).value[k])
  {
    if v.RawStr? || v.RawArr? {
      var i :| 0 <= i && Decimal(i) == k;
      assert k != "length" by {
        assert "length"[0] == 'l';
      }
    }
  }

  /** The element `i` of a string or an array is listed under its numeral. */
  lemma IndexedHoldsElements(es: seq<Value>, i: nat)
    requires i < |es|
    ensures Decimal(i) in Indexed(es) && Indexed(es)[Decimal(i)] == es[i]
  {
    IndexReadAt(es, i);
  }

  /** What `...v` iterates: an array's elements or a string's characters; nothing else is iterable. */
  function Iterate(v: Value): (r: Result<seq<Value>>)
    ensures r.Ok? <==> v.RawArr? || v.RawStr?
    ensures r.Err? ==> r.error == NotIterable
  {
    match v
    case RawArr(es) => Ok(es)
    case RawStr(s) => Ok(Chars(s))
    case _ => Err(NotIterable)
  }

  /** The elements of an object whose `length` entry is a non-negative number, read by index. */
  function IndexedFrom(m: map<string, Value>): (r: Option<seq<Value>>)
    ensures r.Some? <==> Lookup(m, "length").RawNum? && Lookup(m, "length").rn >= 0
  {
    match Lookup(m, "length")
    case RawNum(n) =>
      if n < 0 then None else Some(seq(n, i requires 0 <= i < n => Lookup(m, Decimal(i))))
    case _ => None
  }

  /**
   * The elements a loop over `p.length` and `p[i]` visits: those of an array, the characters
   * of a string, or the indexed entries of an object with a numeric `length`; None when
   * `p.length` is not a non-negative number, so that no index is ever in range.
   */
  function ArrayLike(p: Value): (r: Option<seq<Value>>)
    ensures p.RawArr? ==> r == Some(p.items)
    ensures p.RawStr? ==> r == Some(Chars(p.rs))
    ensures Tagged(p) || p.Undefined? || p.RawBool? || p.RawNum? ==> r == None
  {
    match p
    case RawArr(es) => Some(es)
    case RawStr(s) => Some(Chars(s))
    case RawObj(m) => IndexedFrom(m)
    case Closure(_, own) => IndexedFrom(own)
    case _ => None
  }

  /**
   * `ArrayLike` is the walk by `length` and index: it exists exactly when `p.length` is a
   * non-negative number `n`, and then holds `n` elements, element `i` being `p[i]`.
   */
  lemma ArrayLikeReadsByIndex(p: Value)
    requires !p.Undefined?
    ensures ArrayLike(p).Some? <==> Prop(p, "length").value.RawNum? && Prop(p, "length").value.rn >= 0
    ensures ArrayLike(p).Some? ==>
              |ArrayLike(p).value| == Prop(p, "length").value.rn &&
              forall i :: 0 <= i < |ArrayLike(p).value| ==> Prop(p, Decimal(i)) == Ok(ArrayLike(p).value[i])
  {
    match p
    case RawArr(es) =>
      forall i | 0 <= i < |es| ensures Prop(p, Decimal(i)) == Ok(es[i]) {
        IndexReadAt(es, i);
        assert Decimal(i) != "length" by {
          assert "length"[0] == 'l';
        }
      }
    case RawStr(s) =>
      forall i | 0 <= i < |s| ensures Prop(p, Decimal(i)) == Ok(Chars(s)[i]) {
        IndexReadAt(Chars(s), i);
        assert Decimal(i) != "length" by {
          assert "length"[0] == 'l';
        }
      }
    case _ =>
  }

  /** Spreading and walking by index visit the same elements of an array or a string. */
  lemma IterateIsArrayLike(p: Value)
    requires p.RawArr? || p.RawStr?
    ensures Iterate(p) == Ok(ArrayLike(p).value)
  {
  }

  /** JavaScript truthiness: every object is truthy; `undefined`, `false`, `0` and `''` are not. */
  predicate Truthy(v: Value) {
    match v
    case Undefined => false
    case RawBool(b) => b
    case RawNum(n) => n != 0
    case RawStr(s) => s != ""
    case _ => true
  }

  datatype Option<+T> = None | Some(value: T)
}
