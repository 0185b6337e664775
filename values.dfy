/** JavaScript values as the find-or-create plugin sees them: query values,
    additional fields, options, callbacks and rejection reasons.

    Numbers are integers (floating point and NaN are not modelled). A
    function is identified by an opaque number. `Other` stands for any
    object whose prototype is neither Object.prototype, Array.prototype nor
    Date.prototype (an ObjectId, a RegExp, a class instance, an object made
    with `Object.create(null)`), described by its enumerable properties. */
module JsValues {

  datatype Value =
    | Undefined
    | Null
    | Bool(b: bool)
    | Num(n: int)
    | Str(s: string)
    | Func(id: nat)
    | Date(time: int)
    | Obj(fields: map<string, Value>)
    | Arr(items: seq<Value>)
    | Other(kind: string, props: map<string, Value>)

  /** The `typeof` operator. */
  function TypeOf(v: Value): string
  {
    match v
    case Undefined => "undefined"
    case Null => "object"
    case Bool(_) => "boolean"
    case Num(_) => "number"
    case Str(_) => "string"
    case Func(_) => "function"
    case _ => "object"
  }

  /** JavaScript truthiness: `undefined`, `null`, `false`, `0` and `""` are
      falsy, every object (even an empty one) is truthy. */
  predicate Truthy(v: Value)
  {
    match v
    case Undefined => false
    case Null => false
    case Bool(b) => b
    case Num(n) => n != 0
    case Str(s) => s != ""
    case _ => true
  }

  /** `isObject` of the plugin: true exactly for values whose prototype is
      Object.prototype, that is plain `{...}` objects. */
  predicate IsPlainObject(v: Value)
  {
    v.Obj?
  }

  /** Property read `o[key]` on an own-property map: a missing key reads as `undefined`. */
  function Get(m: map<string, Value>, key: string): Value
  {
    if key in m then m[key] else Undefined
  }

  const Digits: string := "0123456789"

  /** The property name of array index `i`: its decimal numeral. */
  function IndexKey(i: nat): (k: string)
    ensures |k| > 0 && '0' <= k[0] <= '9'
  {
    if i < 10 then [Digits[i]] else IndexKey(i / 10) + [Digits[i % 10]]
  }

  /** The enumerable index properties of an array. */
  function IndexProps(items: seq<Value>): (m: map<string, Value>)
    ensures forall k :: k in m ==> m[k] in items
    ensures forall k :: k in m ==> |k| > 0 && '0' <= k[0] <= '9'
    ensures |m| == 0 <==> |items| == 0
  {
    if |items| == 0 then map[]
    else IndexProps(items[..|items| - 1])[IndexKey(|items| - 1) := items[|items| - 1]]
  }

  /** The keys `for...in` walks and `Object.assign` copies, with their values.
      Inherited enumerable properties, and the index properties of a string
      primitive, are not modelled. */
  function Enumerable(v: Value): map<string, Value>
  {
    match v
    case Obj(fields) => fields
    case Other(_, props) => props
    case Arr(items) => IndexProps(items)
    case _ => map[]
  }

  /** Every enumerable property value is a proper part of the value it was
      read from, so a walk that recurses into property values terminates. */
  lemma EnumerableSmaller(v: Value)
    ensures forall k :: k in Enumerable(v) ==> Enumerable(v)[k] < v
  {
  }
}
