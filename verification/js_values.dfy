/** The JavaScript values a parsed configuration can hold, the truthiness
    test applied by `if (!v)`, and the keys a `for...in` loop visits. */
module JsValues {

  /** A JavaScript number, reduced to the distinctions truthiness depends on.
      `+0` and `-0` are both `Finite(0.0)`; both are falsy. */
  datatype Number = NaN | Infinity(negative: bool) | Finite(value: real)

  datatype JsValue =
    | Undefined
    | Null
    | Bool(b: bool)
    | Num(n: Number)
    | BigInt(i: int)
    | Str(s: string)
    | Arr(elements: seq<JsValue>)
    | Obj(properties: seq<Property>)

  /** An own enumerable property of an object, in enumeration order. */
  datatype Property = Property(key: string, value: JsValue)

  /** The key a `for...in` loop binds: a property name, or an index of an
      array or string (which JavaScript hands over as its decimal string). */
  datatype Key = Name(name: string) | Index(index: nat)

  datatype Entry = Entry(key: Key, value: JsValue)

  /** Every falsy value, listed one by one. */
  const FalsyValues: set<JsValue> :=
    {Undefined, Null, Bool(false), Num(NaN), Num(Finite(0.0)), BigInt(0), Str("")}

  /** ToBoolean (section 7.1.2 of ECMA-262), decided by the kind of value. */
  predicate Truthy(v: JsValue)
    ensures Truthy(v) <==> v !in FalsyValues
  {
    match v
    case Undefined => false
    case Null => false
    case Bool(b) => b
    case Num(n) => n.Infinity? || (n.Finite? && n.value != 0.0)
    case BigInt(i) => i != 0
    case Str(s) => s != ""
    case Arr(_) => true
    case Obj(_) => true
  }

  function PropertyEntries(ps: seq<Property>): (es: seq<Entry>)
    ensures |es| == |ps|
    ensures forall i :: 0 <= i < |ps| ==> es[i] == Entry(Name(ps[i].key), ps[i].value)
  {
    seq(|ps|, i requires 0 <= i < |ps| => Entry(Name(ps[i].key), ps[i].value))
  }

  /** The (key, value) pairs `for (const k in v)` visits together with `v[k]`:
      an object's properties in order, an array's elements and a string's
      one-character substrings by index, and nothing for other primitives. */
  function EnumerableEntries(v: JsValue): (r: seq<Entry>)
    ensures v.Obj? ==> |r| == |v.properties| && forall i :: 0 <= i < |r| ==> r[i].key == Name(v.properties[i].key)
    ensures v.Arr? ==> |r| == |v.elements|
    ensures v.Str? ==> |r| == |v.s|
    ensures v.Arr? || v.Str? ==> forall i :: 0 <= i < |r| ==> r[i].key == Index(i)
    ensures !v.Obj? && !v.Arr? && !v.Str? ==> r == []
  {
    match v
    case Obj(ps) => PropertyEntries(ps)
    case Arr(xs) => seq(|xs|, i requires 0 <= i < |xs| => Entry(Index(i), xs[i]))
    case Str(s) => seq(|s|, i requires 0 <= i < |s| => Entry(Index(i), Str([s[i]])))
    case _ => []
  }

  /** Property `i` is the first one named `key`. */
  ghost predicate IsFirstWithKey(ps: seq<Property>, key: string, i: int)
  {
    && 0 <= i < |ps|
    && ps[i].key == key
    && forall j :: 0 <= j < i ==> ps[j].key != key
  }

  /** Property access `v.key` for a named key: the first property of an object
      with that name, `undefined` otherwise. */
  function Get(v: JsValue, key: string): (r: JsValue)
    ensures r != Undefined ==> v.Obj? && exists i :: 0 <= i < |v.properties| && v.properties[i] == Property(key, r)
    ensures v.Obj? && (forall i :: 0 <= i < |v.properties| ==> v.properties[i].key != key) ==> r == Undefined
    ensures v.Obj? ==> forall i :: IsFirstWithKey(v.properties, key, i) ==> r == v.properties[i].value
  {
    match v
    case Obj(ps) => FirstWithKey(ps, key)
    case _ => Undefined
  }

  function FirstWithKey(ps: seq<Property>, key: string): (r: JsValue)
    ensures r != Undefined ==> exists i :: 0 <= i < |ps| && ps[i] == Property(key, r)
    ensures (forall i :: 0 <= i < |ps| ==> ps[i].key != key) ==> r == Undefined
    ensures forall i :: IsFirstWithKey(ps, key, i) ==> r == ps[i].value
  {
    if |ps| == 0 then Undefined
    else if ps[0].key == key then ps[0].value
    else
      assert forall i :: 0 < i < |ps| ==> ps[1..][i - 1] == ps[i];
      FirstWithKey(ps[1..], key)
  }

  /** The read `v[k]` in the loop body, for the keys the loop can produce from
      `v`: a name reads an object property, an index reads an array element
      or a one-character substring. Other pairings of key and value (a
      numeric name on an array, `length`) are never produced by the loop and
      read as `undefined` here. */
  function Member(v: JsValue, k: Key): JsValue
  {
    match k
    case Name(n) => Get(v, n)
    case Index(i) =>
      match v
      case Arr(xs) => if i < |xs| then xs[i] else Undefined
      case Str(s) => if i < |s| then Str([s[i]]) else Undefined
      case _ => Undefined
  }

  /** No two properties of an object share a name. */
  ghost predicate DistinctKeys(ps: seq<Property>)
  {
    forall i, j :: 0 <= i < j < |ps| ==> ps[i].key != ps[j].key
  }

  /** Each pair the loop visits is a key together with `v[key]`, so the
      value the loop tests is the one the configuration holds under that key. */
  lemma EntriesReadBack(v: JsValue)
    requires v.Obj? ==> DistinctKeys(v.properties)
    ensures forall i :: 0 <= i < |EnumerableEntries(v)| ==>
      Member(v, EnumerableEntries(v)[i].key) == EnumerableEntries(v)[i].value
  {
  }
}
