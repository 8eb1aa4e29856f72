/** Decoded JSON values and the pieces of JavaScript semantics the client relies on:
    property reads, `for…in` enumeration, object spread, template-literal rendering
    and truthiness. `undefined` is `None` in a `Value`. */
module JsValues {
  import opened Outcomes

  /** A decoded JSON value. Numbers are integers; an object lists its properties in
      enumeration order. */
  datatype Json =
    | Null
    | Bool(b: bool)
    | Num(n: int)
    | Str(s: string)
    | Arr(items: seq<Json>)
    | Obj(fields: seq<(string, Json)>)

  /** A JavaScript value met while walking a response: `undefined` or a JSON value. */
  type Value = Option<Json>

  function Digit(d: nat): char
    requires d < 10
  {
    "0123456789"[d]
  }

  /** Decimal rendering of a natural number, most significant digit first. */
  function NatToString(n: nat): (s: string)
    ensures |s| >= 1
    ensures forall i :: 0 <= i < |s| ==> '0' <= s[i] <= '9'
  {
    if n < 10 then [Digit(n)] else NatToString(n / 10) + [Digit(n % 10)]
  }

  function IntToString(n: int): string {
    if n < 0 then "-" + NatToString(-n) else NatToString(n)
  }

  /** `String(j)`: what a template literal `${j}` produces for a JSON value. An array
      joins its elements with "," and renders null elements as the empty string. */
  function Show(j: Json): string
    decreases j, 1
  {
    match j
    case Null => "null"
    case Bool(b) => if b then "true" else "false"
    case Num(n) => IntToString(n)
    case Str(s) => s
    case Arr(items) => JoinShown(items)
    case Obj(_) => "[object Object]"
  }

  function JoinShown(items: seq<Json>): string
    decreases items, 0
  {
    if items == [] then ""
    else
      var head := if items[0] == Null then "" else Show(items[0]);
      if |items| == 1 then head else head + "," + JoinShown(items[1..])
  }

  /** `${v}` for a value that may be undefined. */
  function ShowValue(v: Value): string {
    match v
    case None => "undefined"
    case Some(j) => Show(j)
  }

  /** JavaScript truthiness. */
  predicate Truthy(v: Value) {
    match v
    case None => false
    case Some(Null) => false
    case Some(Bool(b)) => b
    case Some(Num(n)) => n != 0
    case Some(Str(s)) => s != ""
    case Some(Arr(_)) => true
    case Some(Obj(_)) => true
  }

  /** The value of property `key` among an object's fields (the last one listed wins). */
  function Lookup(fields: seq<(string, Json)>, key: string): Value {
    if fields == [] then None
    else if fields[|fields| - 1].0 == key then Some(fields[|fields| - 1].1)
    else Lookup(fields[..|fields| - 1], key)
  }

  /** `j.key` on a value known not to be null or undefined. Only objects carry the
      named properties this client reads; strings, arrays, numbers and booleans
      answer undefined for them. */
  function Field(j: Json, key: string): Value {
    if j.Obj? then Lookup(j.fields, key) else None
  }

  /** `v.key` for a named (non-index, non-`length`) property: reading it from null or
      undefined throws a TypeError. */
  function Get(v: Value, key: string): (r: Result<Value, Failure>)
    ensures r.Err? <==> v.None? || v == Some(Null)
    ensures r.Err? ==> r.error == TypeError(key)
  {
    match v
    case None => Err(TypeError(key))
    case Some(Null) => Err(TypeError(key))
    case Some(j) => Ok(Field(j, key))
  }

  /** `v[i]`: an array element, a one-character string, or an object property named by
      the index; reading it from null or undefined throws a TypeError. */
  function At(v: Value, i: nat): (r: Result<Value, Failure>)
    ensures r.Err? <==> v.None? || v == Some(Null)
  {
    match v
    case None => Err(TypeError(NatToString(i)))
    case Some(Null) => Err(TypeError(NatToString(i)))
    case Some(Arr(items)) => Ok(if i < |items| then Some(items[i]) else None)
    case Some(Str(s)) => Ok(if i < |s| then Some(Str([s[i]])) else None)
    case Some(Obj(fields)) => Ok(Lookup(fields, NatToString(i)))
    case Some(_) => Ok(None)
  }

  /** The values a `for (k in v) … v[k]` loop visits, in order: array elements, object
      property values, or the characters of a string; nothing for the other values,
      including null and undefined. */
  function Entries(v: Value): (es: seq<Json>)
    ensures v.Some? && v.value.Arr? ==> es == v.value.items
    ensures v.Some? && v.value.Obj? ==> |es| == |v.value.fields|
    ensures v.Some? && v.value.Str? ==> |es| == |v.value.s|
    ensures v.None? || v == Some(Null) ==> es == []
  {
    match v
    case Some(Arr(items)) => items
    case Some(Obj(fields)) => seq(|fields|, i requires 0 <= i < |fields| => fields[i].1)
    case Some(Str(s)) => seq(|s|, i requires 0 <= i < |s| => Str([s[i]]))
    case _ => []
  }

  /** The object that `{...fields}` builds from an object literal: a later field
      overrides an earlier one with the same key. */
  function FieldsToMap(fields: seq<(string, Json)>): map<string, Json> {
    if fields == [] then map[]
    else
      var last := fields[|fields| - 1];
      FieldsToMap(fields[..|fields| - 1])[last.0 := last.1]
  }

  /** The properties `{...xs}` copies from an array or a string: one per index. */
  function IndexMap(xs: seq<Json>): map<string, Json> {
    if xs == [] then map[]
    else IndexMap(xs[..|xs| - 1])[NatToString(|xs| - 1) := xs[|xs| - 1]]
  }

  /** The own enumerable properties that object spread `{...v}` copies. Spreading
      null, undefined, a number or a boolean copies nothing. */
  function Spread(v: Value): map<string, Json> {
    match v
    case Some(Obj(fields)) => FieldsToMap(fields)
    case Some(Arr(items)) => IndexMap(items)
    case Some(Str(s)) => IndexMap(Entries(v))
    case _ => map[]
  }

  /** A property is present exactly when some field carries its key. */
  lemma {:induction false} LookupFinds(fields: seq<(string, Json)>, key: string)
    ensures Lookup(fields, key).Some? <==> exists i :: 0 <= i < |fields| && fields[i].0 == key
  {
    if fields != [] {
      var init := fields[..|fields| - 1];
      LookupFinds(init, key);
      if exists i :: 0 <= i < |init| && init[i].0 == key {
        var i :| 0 <= i < |init| && init[i].0 == key;
        assert fields[i].0 == key;
      }
      if exists i :: 0 <= i < |fields| && fields[i].0 == key {
        var i :| 0 <= i < |fields| && fields[i].0 == key;
        if i < |init| { assert init[i].0 == key; }
      }
    }
  }

  /** Object spread of an object literal agrees with reading its properties: a key is
      copied exactly when the property is defined, with the value a read would give. */
  lemma {:induction false} FieldsToMapAgreesWithLookup(fields: seq<(string, Json)>, key: string)
    ensures key in FieldsToMap(fields) <==> Lookup(fields, key).Some?
    ensures key in FieldsToMap(fields) ==> Lookup(fields, key) == Some(FieldsToMap(fields)[key])
  {
    if fields != [] {
      FieldsToMapAgreesWithLookup(fields[..|fields| - 1], key);
    }
  }
}
