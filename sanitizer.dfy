/** `sanitizeMongoKeys`: the seed of a newly created document is the query
    with its operator keys (`$or`, `$gt`, ...) removed, and with every key
    removed whose value, once sanitized, is an empty plain object. A key that
    survives keeps its ORIGINAL value: the recursion only decides what to
    drop, it never rewrites nested values. */
module Sanitizer {
  import opened JsValues

  /** A key whose first character is `$`. The empty key has no first
      character (`""[0]` is `undefined`), so it is not an operator key. */
  predicate IsOperatorKey(key: string)
  {
    |key| > 0 && key[0] == '$'
  }

  /** The values returned as they are: everything whose `typeof` is not
      "object", Dates and `null`. Arrays and non-plain objects are NOT leaves. */
  predicate IsLeaf(v: Value)
  {
    TypeOf(v) != "object" || v.Date? || v.Null?
  }

  /** `isObject(v) && Object.keys(v).length < 1`. */
  predicate IsEmptyPlainObject(v: Value)
  {
    IsPlainObject(v) && |v.fields| < 1
  }

  /** Whether the sanitizer keeps `key` of an object whose properties are `props`. */
  predicate Keeps(props: map<string, Value>, key: string)
    requires key in props
  {
    !IsOperatorKey(key) && !IsEmptyPlainObject(Sanitize(props[key]))
  }

  /** The sanitizer as a function (the specification of SanitizeLoop). */
  function Sanitize(query: Value): Value
  {
    if IsLeaf(query) then query
    else
      var props := Enumerable(query);
      Obj(map key | key in props && !IsOperatorKey(key)
                    && !IsEmptyPlainObject(Sanitize(props[key])) :: props[key])
  }

  /** The kept part of `props` among the keys in `done`. */
  function KeptAmong(props: map<string, Value>, done: set<string>): map<string, Value>
  {
    map k | k in props && k in done && Keeps(props, k) :: props[k]
  }

  /** Dates, `null` and every non-object come back unchanged; any other value
      becomes a plain object whose keys are among its enumerable keys, none of
      them an operator key, each mapped to its original value. */
  lemma SanitizeShape(query: Value)
    ensures IsLeaf(query) ==> Sanitize(query) == query
    ensures !IsLeaf(query) ==>
      var r := Sanitize(query);
      && r.Obj? && r.fields.Keys <= Enumerable(query).Keys
      && forall k :: k in r.fields ==> !IsOperatorKey(k) && r.fields[k] == Enumerable(query)[k]
  {
  }

  /** Deciding one more key extends the kept part by that key, or not at all. */
  lemma KeptAmongStep(props: map<string, Value>, done: set<string>, key: string)
    requires key in props && key !in done
    ensures KeptAmong(props, done + {key})
            == if Keeps(props, key) then KeptAmong(props, done)[key := props[key]]
               else KeptAmong(props, done)
  {
  }

  /** Once every key is decided, the kept part is the sanitized object. */
  lemma KeptAmongAll(query: Value)
    requires !IsLeaf(query)
    ensures Obj(KeptAmong(Enumerable(query), Enumerable(query).Keys)) == Sanitize(query)
  {
    var props := Enumerable(query);
    assert KeptAmong(props, props.Keys) == Sanitize(query).fields;
  }

  /** The sanitizer as written: a fresh `cleanQuery` filled by a loop over the
      enumerable keys, with a recursive call per non-operator key. The keys
      are taken in an arbitrary order; the result does not depend on it. */
  method SanitizeLoop(query: Value) returns (clean: Value)
    ensures clean == Sanitize(query)
    decreases query
  {
    if IsLeaf(query) {
      return query;
    }
    var props := Enumerable(query);
    var cleanQuery: map<string, Value> := map[];
    var keys := props.Keys;
    while keys != {}
      invariant keys <= props.Keys
      invariant cleanQuery == KeptAmong(props, props.Keys - keys)
      decreases keys
    {
      var key :| key in keys;
      ghost var done := props.Keys - keys;
      keys := keys - {key};
      assert props.Keys - keys == done + {key};
      KeptAmongStep(props, done, key);
      if IsOperatorKey(key) {
        continue;
      }
      var cleanParam := SanitizeLoop(props[key]);
      if IsPlainObject(cleanParam) && |cleanParam.fields| < 1 {
        continue;
      }
      cleanQuery := cleanQuery[key := props[key]];
    }
    assert props.Keys - keys == props.Keys;
    KeptAmongAll(query);
    clean := Obj(cleanQuery);
  }

  /** Independent description of what the recursion drops: a non-leaf value
      all of whose enumerable keys are operators or hold such values again.
      Empty objects and empty arrays are vacuous. */
  ghost predicate Vacuous(v: Value)
    decreases v
  {
    !IsLeaf(v) &&
    var props := Enumerable(v);
    forall k :: k in props ==> IsOperatorKey(k) || Vacuous(props[k])
  }

  /** The sanitizer empties a value exactly when that value is vacuous. */
  lemma {:induction false} EmptyIffVacuous(v: Value)
    ensures IsEmptyPlainObject(Sanitize(v)) <==> Vacuous(v)
    decreases v
  {
    if !IsLeaf(v) {
      var props := Enumerable(v);
      forall k | k in props
        ensures IsEmptyPlainObject(Sanitize(props[k])) <==> Vacuous(props[k])
      {
        EmptyIffVacuous(props[k]);
      }
      var r := Sanitize(v);
      if IsEmptyPlainObject(r) {
        forall k | k in props
          ensures IsOperatorKey(k) || Vacuous(props[k])
        {
          assert k !in r.fields;
        }
      }
    }
  }

  /** A key of an object survives sanitization if and only if it is not an
      operator key and its value is not vacuous; it then keeps its original value. */
  lemma KeptIff(query: Value, key: string)
    requires !IsLeaf(query)
    ensures var r := Sanitize(query); var props := Enumerable(query);
      && (key in r.fields <==> key in props && !IsOperatorKey(key) && !Vacuous(props[key]))
      && (key in r.fields ==> r.fields[key] == props[key])
  {
    var props := Enumerable(query);
    if key in props {
      EmptyIffVacuous(props[key]);
    }
  }

  /** Sanitizing an already sanitized value changes nothing. */
  lemma Idempotent(query: Value)
    ensures Sanitize(Sanitize(query)) == Sanitize(query)
  {
    if !IsLeaf(query) {
      var r := Sanitize(query);
      var props := Enumerable(query);
      assert Enumerable(r) == r.fields;
      forall k | k in r.fields
        ensures Keeps(r.fields, k)
      {
        assert r.fields[k] == props[k] && Keeps(props, k);
      }
      assert Sanitize(r).fields == r.fields;
    }
  }

  /** `{name: "a", $or: [...], nested: {$gt: 5}}` seeds `{name: "a"}`: the
      operator key goes, and so does a key holding nothing but an operator. */
  lemma OperatorsStripped(name: string, v: Value, op: string, w: Value, nested: string, gt: string, x: Value)
    requires !IsOperatorKey(name) && IsLeaf(v) && IsOperatorKey(op) && IsOperatorKey(gt)
    requires name != op && name != nested && op != nested
    ensures Sanitize(Obj(map[name := v, op := w, nested := Obj(map[gt := x])])) == Obj(map[name := v])
  {
    var q := map[name := v, op := w, nested := Obj(map[gt := x])];
    var r := Sanitize(Obj(q));
    assert Sanitize(Obj(map[gt := x])).fields == map[];
    assert Sanitize(q[name]) == v;
    assert name in r.fields;
    assert r.fields.Keys == {name};
  }

  /** Arrays are walked like objects and become plain objects on the way, so
      a key holding an empty array is dropped. */
  lemma EmptyArrayDropped(key: string)
    ensures Sanitize(Obj(map[key := Arr([])])) == Obj(map[])
  {
    assert Sanitize(Arr([])).fields == map[];
    assert Sanitize(Obj(map[key := Arr([])])).fields == map[];
  }

  /** An array whose elements are all plain objects with only operator keys
      sanitizes to `{}`: each element does. */
  lemma OperatorArrayEmptied(items: seq<Value>)
    requires forall i :: 0 <= i < |items| ==>
      items[i].Obj? && forall k :: k in items[i].fields ==> IsOperatorKey(k)
    ensures IsEmptyPlainObject(Sanitize(Arr(items)))
  {
    var props := Enumerable(Arr(items));
    forall k | k in props
      ensures IsEmptyPlainObject(Sanitize(props[k]))
    {
      var i :| 0 <= i < |items| && items[i] == props[k];
      assert Sanitize(items[i]).fields == map[];
    }
    assert Sanitize(Arr(items)).fields == map[];
  }

  /** A key holding such an array is dropped, like one holding `[]`. */
  lemma OperatorArrayDropped(key: string, items: seq<Value>)
    requires forall i :: 0 <= i < |items| ==>
      items[i].Obj? && forall k :: k in items[i].fields ==> IsOperatorKey(k)
    ensures Sanitize(Obj(map[key := Arr(items)])) == Obj(map[])
  {
    OperatorArrayEmptied(items);
    assert Sanitize(Obj(map[key := Arr(items)])).fields == map[];
  }

  /** A non-empty array of leaves does not sanitize to `{}`: its index keys
      are not operator keys and its elements are kept. */
  lemma LeafArrayKept(items: seq<Value>)
    requires |items| > 0
    requires forall i :: 0 <= i < |items| ==> IsLeaf(items[i])
    ensures !IsEmptyPlainObject(Sanitize(Arr(items)))
  {
    var props := Enumerable(Arr(items));
    var k :| k in props;
    var i :| 0 <= i < |items| && items[i] == props[k];
    assert !IsOperatorKey(k) && IsLeaf(props[k]);
    assert k in Sanitize(Arr(items)).fields;
  }

  /** A key holding a non-empty array of leaves (strings, numbers, Dates,
      ...) is kept, array and all. */
  lemma ValueArrayKept(key: string, items: seq<Value>)
    requires !IsOperatorKey(key) && |items| > 0
    requires forall i :: 0 <= i < |items| ==> IsLeaf(items[i])
    ensures Sanitize(Obj(map[key := Arr(items)])) == Obj(map[key := Arr(items)])
  {
    LeafArrayKept(items);
    assert key in Sanitize(Obj(map[key := Arr(items)])).fields;
  }

  /** Only the top level is stripped: a kept key keeps its original value,
      operators nested inside it included. */
  lemma NestedOperatorKept(key: string, op: string, v: Value, field: string, w: Value)
    requires !IsOperatorKey(key) && IsOperatorKey(op) && !IsOperatorKey(field) && IsLeaf(w)
    ensures var inner := Obj(map[op := v, field := w]);
      Sanitize(Obj(map[key := inner])) == Obj(map[key := inner])
  {
    var inner := Obj(map[op := v, field := w]);
    assert op != field;
    assert field in Sanitize(inner).fields;
    assert key in Sanitize(Obj(map[key := inner])).fields;
  }
}
