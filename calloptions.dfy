/** How `findOrCreate` reads its positional arguments and which options it
    runs with. */
module CallOptions {
  import opened JsValues

  /** The three positional arguments after the query, once resolved. */
  datatype CallShape = CallShape(additionalFields: Value, contextOptions: Value, callback: Value)

  predicate IsCallable(v: Value)
  {
    TypeOf(v) == "function"
  }

  /** Argument resolution: a function in the second position is the callback
      and leaves no additional fields; a function in the third position is the
      callback and leaves no call-site options. The third position is looked
      at after the second, so when both hold functions the third one wins. */
  function ResolveCallShape(additionalFields: Value, contextOptions: Value, callback: Value): (r: CallShape)
    ensures !IsCallable(r.additionalFields) && !IsCallable(r.contextOptions)
    ensures r.additionalFields == if IsCallable(additionalFields) then Undefined else additionalFields
    ensures r.contextOptions == if IsCallable(contextOptions) then Undefined else contextOptions
    ensures r.callback == if IsCallable(contextOptions) then contextOptions
                          else if IsCallable(additionalFields) then additionalFields
                          else callback
  {
    var afterSecond :=
      if IsCallable(additionalFields) then CallShape(Undefined, contextOptions, additionalFields)
      else CallShape(additionalFields, contextOptions, callback);
    if IsCallable(afterSecond.contextOptions) then
      CallShape(afterSecond.additionalFields, Undefined, afterSecond.contextOptions)
    else afterSecond
  }

  /** The three documented call forms resolve to their named meanings. */
  lemma CallForms(fields: Value, options: Value, cb: nat)
    requires !IsCallable(fields) && !IsCallable(options)
    ensures ResolveCallShape(Func(cb), Undefined, Undefined) == CallShape(Undefined, Undefined, Func(cb))
    ensures ResolveCallShape(fields, Func(cb), Undefined) == CallShape(fields, Undefined, Func(cb))
    ensures ResolveCallShape(fields, options, Func(cb)) == CallShape(fields, options, Func(cb))
  {
  }

  /** The options every call starts from. */
  const DefaultOptions: map<string, Value> :=
    map["appendToArray" := Bool(false), "saveOptions" := Obj(map[]), "saveIfFound" := Bool(false)]

  /** `Object.assign({}, defaultOptions, modelOptions, contextOptions)`: each
      option is taken from the call-site options, else from the options the
      plugin was registered with, else from the defaults. An `undefined` or
      `null` source contributes nothing. */
  function MergeOptions(modelOptions: Value, contextOptions: Value): (options: map<string, Value>)
    ensures forall k :: k in options <==>
      k in DefaultOptions || k in Enumerable(modelOptions) || k in Enumerable(contextOptions)
    ensures forall k :: k in Enumerable(contextOptions) ==> options[k] == Enumerable(contextOptions)[k]
    ensures forall k :: k in Enumerable(modelOptions) && k !in Enumerable(contextOptions) ==>
      options[k] == Enumerable(modelOptions)[k]
    ensures forall k :: k in DefaultOptions && k !in Enumerable(modelOptions) && k !in Enumerable(contextOptions) ==>
      options[k] == DefaultOptions[k]
  {
    DefaultOptions + Enumerable(modelOptions) + Enumerable(contextOptions)
  }

  /** Without any options the call overwrites arrays, returns a found document
      untouched and resolves to the bare document. */
  lemma DefaultBehaviour()
    ensures var options := MergeOptions(Undefined, Null);
      && !Truthy(Get(options, "appendToArray"))
      && !Truthy(Get(options, "saveIfFound"))
      && !Truthy(Get(options, "status"))
      && Get(options, "saveOptions") == Obj(map[])
  {
  }
}
