/** Dynamically typed JavaScript values, for the functions that branch on
    `typeof`, `Array.isArray` and truthiness of data of unknown shape. An object
    is its list of own enumerable properties in insertion order (`Object.keys`
    order); `undefined` is represented by absence (`None` from `Get`). */
module Json {
  import opened Wrappers

  datatype Value =
    | Null
    | Bool(b: bool)
    | Num(n: real)
    | NaN
    | Str(s: string)
    | Arr(items: seq<Value>)
    | Obj(fields: seq<(string, Value)>)

  /** `typeof v === 'number'` (true for NaN as well). */
  predicate IsNumber(v: Value) { v.Num? || v.NaN? }

  /** `typeof v === 'object'`: objects, arrays, and `null`. */
  predicate IsObjectType(v: Value) { v.Obj? || v.Arr? || v.Null? }

  /** JavaScript truthiness. */
  predicate Truthy(v: Value)
  {
    match v
    case Null => false
    case Bool(b) => b
    case Num(n) => n != 0.0
    case NaN => false
    case Str(s) => s != ""
    case Arr(_) => true
    case Obj(_) => true
  }

  /** The value of the first property named `key`. */
  function Lookup(fields: seq<(string, Value)>, key: string): (r: Option<Value>)
    ensures r.Some? ==> exists i :: 0 <= i < |fields| && fields[i] == (key, r.value)
    ensures r.None? ==> forall i :: 0 <= i < |fields| ==> fields[i].0 != key
  {
    if fields == [] then None
    else if fields[0].0 == key then Some(fields[0].1)
    else Lookup(fields[1..], key)
  }

  /** Property access `v[key]` for a non-index key; `None` stands for `undefined`. */
  function Get(v: Value, key: string): Option<Value>
  {
    if v.Obj? then Lookup(v.fields, key) else None
  }

  /** Truthiness of a possibly `undefined` value. */
  predicate Present(v: Option<Value>)
  {
    v.Some? && Truthy(v.value)
  }

  /** `v?.[key]`: `undefined` on `undefined` and `null`. */
  function Prop(v: Option<Value>, key: string): Option<Value>
  {
    if v.None? then None else Get(v.value, key)
  }

  function DigitChar(d: nat): char
    requires d < 10
  {
    "0123456789"[d]
  }

  /** Decimal rendering of an array index, the keys `Object.keys` gives an array. */
  function IndexKey(n: nat): string
  {
    if n < 10 then [DigitChar(n)] else IndexKey(n / 10) + [DigitChar(n % 10)]
  }

  /** `Object.keys(v)` paired with the values, for objects and arrays. */
  function Entries(v: Value): (r: seq<(string, Value)>)
    requires v.Obj? || v.Arr?
    ensures v.Obj? ==> r == v.fields
    ensures v.Arr? ==> |r| == |v.items|
  {
    if v.Obj? then v.fields
    else seq(|v.items|, i requires 0 <= i < |v.items| => (IndexKey(i), v.items[i]))
  }

  /** The object spread `{...o, [key]: v}`: an existing property keeps its
      position and takes the new value; a new one is appended. */
  function SetField(fields: seq<(string, Value)>, key: string, v: Value): (r: seq<(string, Value)>)
    ensures |r| == |fields| || |r| == |fields| + 1
    ensures forall i :: 0 <= i < |fields| ==> r[i].0 == fields[i].0
    ensures (forall i :: 0 <= i < |fields| ==> fields[i].0 != key) ==> r == fields + [(key, v)]
  {
    if fields == [] then [(key, v)]
    else if fields[0].0 == key then [(key, v)] + fields[1..]
    else [fields[0]] + SetField(fields[1..], key, v)
  }

  /** After `SetField`, the key reads the new value and every other key reads
      what it read before. */
  lemma {:induction false} SetFieldLookup(fields: seq<(string, Value)>, key: string, v: Value, other: string)
    ensures Lookup(SetField(fields, key, v), key) == Some(v)
    ensures other != key ==> Lookup(SetField(fields, key, v), other) == Lookup(fields, other)
  {
    if fields != [] && fields[0].0 != key {
      SetFieldLookup(fields[1..], key, v, other);
    }
  }
}
