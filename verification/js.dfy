/** The JavaScript values the library manipulates, the handful of runtime
    operations it relies on (property lookup, assignment, deletion,
    `Object.assign`, `Array.prototype.concat`, property-key coercion) and the
    React Native `StyleSheet.flatten` it delegates the cascade merge to. */
module Js {

  /** A JavaScript value. A function is known only by its identity; what it
      does is supplied separately wherever the library calls one. Numbers are
      integers (floating point is not modelled). */
  datatype Value =
    | Undefined
    | Null
    | Bool(b: bool)
    | Num(n: int)
    | Str(s: string)
    | Func(id: nat)
    | Arr(elems: seq<Value>)
    | Obj(obj: Object)

  /** A plain object: its own enumerable keys in insertion order (the order
      `Object.keys` and `for ... in` visit them) and the value of each. */
  datatype Object = Object(keys: seq<string>, fields: map<string, Value>)

  const Empty: Object := Object([], map[])

  predicate NoDuplicates(s: seq<string>)
  {
    forall i, j :: 0 <= i < j < |s| ==> s[i] != s[j]
  }

  /** A well-formed object: every key listed exactly once, and only keys that
      have a value. Every object the library builds is well formed. */
  ghost predicate Valid(o: Object)
  {
    && NoDuplicates(o.keys)
    && (forall k :: k in o.fields <==> k in o.keys)
  }

  // ---------------------------------------------------------------------
  // Type tests and truthiness, as the library's `util` defines them.
  // ---------------------------------------------------------------------

  /** JavaScript truthiness: `undefined`, `null`, `false`, `0` and `''` are falsy. */
  predicate Truthy(v: Value)
  {
    match v
    case Undefined => false
    case Null => false
    case Bool(b) => b
    case Num(n) => n != 0
    case Str(s) => s != ""
    case _ => true
  }

  predicate Defined(v: Value) { !v.Undefined? }

  /** `isObject`: a plain object (its `toString` is `[object Object]`). */
  predicate IsObject(v: Value) { v.Obj? }

  /** `isString`: `o && typeof(o) === 'string'`, so the empty string fails. */
  predicate IsString(v: Value) { v.Str? && v.s != "" }

  predicate IsFunction(v: Value) { v.Func? }

  predicate IsArray(v: Value) { v.Arr? }

  predicate IsNumber(v: Value) { v.Num? }

  // ---------------------------------------------------------------------
  // Property access.
  // ---------------------------------------------------------------------

  /** `o[k]`: the own value, or `undefined` when `o` has no such key. */
  function Get(o: Object, k: string): Value
  {
    if k in o.fields then o.fields[k] else Undefined
  }

  /** `o.hasOwnProperty(k)`. */
  predicate Has(o: Object, k: string) { k in o.fields }

  /** `o[k] = v`: an existing key keeps its place, a new key goes last. */
  function Set(o: Object, k: string, v: Value): (r: Object)
    ensures Get(r, k) == v && Has(r, k)
    ensures forall j :: j != k ==> Get(r, j) == Get(o, j) && (Has(r, j) <==> Has(o, j))
    ensures k in r.keys && (k in o.keys ==> r.keys == o.keys) && (k !in o.keys ==> r.keys == o.keys + [k])
    ensures Valid(o) ==> Valid(r)
  {
    Object(if k in o.keys then o.keys else o.keys + [k], o.fields[k := v])
  }

  /** The keys of `s` other than `k`, in order. */
  function Without(s: seq<string>, k: string): (r: seq<string>)
    ensures forall j :: j in r <==> j in s && j != k
    ensures NoDuplicates(s) ==> NoDuplicates(r)
  {
    if s == [] then []
    else
      var rest := Without(s[1..], k);
      assert NoDuplicates(s) ==> NoDuplicates(s[1..]) && s[0] !in s[1..];
      if s[0] == k then rest else [s[0]] + rest
  }

  /** `delete o[k]`. */
  function Delete(o: Object, k: string): (r: Object)
    ensures !Has(r, k) && Get(r, k) == Undefined
    ensures forall j :: j != k ==> Get(r, j) == Get(o, j) && (Has(r, j) <==> Has(o, j))
    ensures Valid(o) ==> Valid(r)
  {
    Object(Without(o.keys, k), o.fields - {k})
  }

  /** `Object.assign(t, s)`, restricted to the listed keys of `s`: copy them in order. */
  function AssignKeys(t: Object, s: Object, ks: seq<string>): (r: Object)
    ensures forall k :: Get(r, k) == if k in ks then Get(s, k) else Get(t, k)
    ensures forall k :: Has(r, k) <==> Has(t, k) || k in ks
    ensures Valid(t) ==> Valid(r) && (forall k :: k in r.keys <==> k in t.keys || k in ks)
    decreases |ks|
  {
    if ks == [] then t
    else AssignKeys(Set(t, ks[0], Get(s, ks[0])), s, ks[1..])
  }

  /** `Object.assign(t, s)`: every own key of `s` is copied onto `t`, so `s` wins. */
  function Assign(t: Object, s: Object): (r: Object)
    ensures forall k :: Get(r, k) == if k in s.keys then Get(s, k) else Get(t, k)
    ensures Valid(t) ==> Valid(r) && (forall k :: k in r.keys <==> k in t.keys || k in s.keys)
  {
    AssignKeys(t, s, s.keys)
  }

  /** `list.concat(v)`: an array argument is spread one level, anything else is appended. */
  function Concat(list: seq<Value>, v: Value): (r: seq<Value>)
    ensures v.Arr? ==> r == list + v.elems
    ensures !v.Arr? ==> r == list + [v]
  {
    match v
    case Arr(es) => list + es
    case _ => list + [v]
  }

  // ---------------------------------------------------------------------
  // Coercion of a value to a property key (`String(v)`).
  // ---------------------------------------------------------------------

  function Digit(d: nat): char
    requires d < 10
  {
    "0123456789"[d]
  }

  function NatToString(n: nat): (r: string)
    ensures |r| > 0
  {
    if n < 10 then [Digit(n)] else NatToString(n / 10) + [Digit(n % 10)]
  }

  /** `String(v)`, as used when a value indexes an object. A function's
      source text is not modelled. */
  function ToKey(v: Value): string
  {
    match v
    case Undefined => "undefined"
    case Null => "null"
    case Bool(b) => if b then "true" else "false"
    case Num(n) => if n < 0 then "-" + NatToString(-n) else NatToString(n)
    case Str(s) => s
    case Func(_) => "function"
    case Arr(es) => JoinElements(es)
    case Obj(_) => "[object Object]"
  }

  /** `Array.prototype.join(',')`: `undefined` and `null` elements print as ''. */
  function JoinElements(es: seq<Value>): string
    decreases es
  {
    if es == [] then ""
    else
      var first := if es[0].Undefined? || es[0].Null? then "" else ToKey(es[0]);
      if |es| == 1 then first else first + "," + JoinElements(es[1..])
  }

  // ---------------------------------------------------------------------
  // StyleSheet.flatten: the cascade merge.
  // ---------------------------------------------------------------------

  /** The object one cascade entry contributes: an object itself, an array
      flattened recursively, anything else (falsy entries, registered style
      numbers) nothing. */
  function FlattenValue(v: Value): Object
    decreases v
  {
    match v
    case Arr(es) => FlattenList(Empty, es)
    case Obj(o) => o
    case _ => Empty
  }

  /** Merge the entries into `acc` from left to right; later keys overwrite. */
  function FlattenList(acc: Object, es: seq<Value>): Object
    decreases es
  {
    if es == [] then acc
    else FlattenList(Assign(acc, FlattenValue(es[0])), es[1..])
  }

  /** `StyleSheet.flatten(sheets)`. */
  function Flatten(sheets: seq<Value>): Object
  {
    FlattenList(Empty, sheets)
  }

  /** Entry `v` sets attribute `k` when it is merged. */
  predicate Provides(v: Value, k: string)
  {
    k in FlattenValue(v).keys
  }

  /** Merging one more entry is an `Object.assign` of what it contributes. */
  lemma {:induction false} FlattenListSnoc(acc: Object, es: seq<Value>, v: Value)
    ensures FlattenList(acc, es + [v]) == Assign(FlattenList(acc, es), FlattenValue(v))
    decreases |es|
  {
    if es == [] {
      assert ([] + [v])[1..] == [];
    } else {
      assert (es + [v])[0] == es[0];
      assert (es + [v])[1..] == es[1..] + [v];
      FlattenListSnoc(Assign(acc, FlattenValue(es[0])), es[1..], v);
    }
  }

  /** The cascade's precedence rule: the attribute's value is the one given by
      the last entry that sets it, and entries that do not set it are neutral. */
  lemma {:induction false} LaterWins(es: seq<Value>, j: nat, k: string)
    requires j < |es| && Provides(es[j], k)
    requires forall i :: j < i < |es| ==> !Provides(es[i], k)
    ensures Get(Flatten(es), k) == Get(FlattenValue(es[j]), k)
    decreases |es|
  {
    var n := |es| - 1;
    assert es == es[..n] + [es[n]];
    FlattenListSnoc(Empty, es[..n], es[n]);
    if j < n {
      LaterWins(es[..n], j, k);
    }
  }

  /** An entry that does not set an attribute leaves the merged value of that
      attribute as it was. */
  lemma AbsentIsNeutral(es: seq<Value>, v: Value, k: string)
    requires !Provides(v, k)
    ensures Get(Flatten(es + [v]), k) == Get(Flatten(es), k)
  {
    FlattenListSnoc(Empty, es, v);
  }

  /** No entry of `s` sets attribute `k`. */
  predicate NoneProvides(s: seq<Value>, k: string)
  {
    forall i :: 0 <= i < |s| ==> !Provides(s[i], k)
  }

  /** Entries appended after the last entry of `front` that set nothing of
      `k` leave that entry's value of `k` in place. */
  lemma LastProviderWins(front: seq<Value>, later: seq<Value>, k: string)
    requires |front| > 0 && Provides(front[|front| - 1], k)
    requires NoneProvides(later, k)
    ensures Get(Flatten(front + later), k) == Get(FlattenValue(front[|front| - 1]), k)
  {
    var r := front + later;
    var j := |front| - 1;
    assert r[j] == front[j];
    forall i | j < i < |r| ensures !Provides(r[i], k) {
      assert r[i] == later[i - |front|];
    }
    LaterWins(r, j, k);
  }

  /** Flattening builds a well-formed object. */
  lemma {:induction false} FlattenListValid(acc: Object, es: seq<Value>)
    requires Valid(acc)
    ensures Valid(FlattenList(acc, es))
    decreases |es|
  {
    if es != [] {
      FlattenListValid(Assign(acc, FlattenValue(es[0])), es[1..]);
    }
  }
}
