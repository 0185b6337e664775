/** `findOrCreate`: look a document up by the raw query; when none exists,
    create one seeded from the sanitized query; merge the additional fields
    into it when the options allow; save when it is new or was changed; and
    report `(doc, wasUpdated, isNew)` through the caller's callback or through
    a promise. The `findOne` lookup is an input, the `save` calls are recorded
    on the document. */
module FindOrCreate {
  import opened JsValues
  import opened Sanitizer
  import opened CallOptions
  import opened Documents

  datatype Option<T> = None | Some(value: T)

  /** How the `findOne(query)` promise settled. */
  datatype FindResult = FindRejected(error: Value) | FindResolved(doc: Doc?)

  /** The arguments of the completion callback `(err, result, wasUpdated, isNew)`. */
  datatype Completion = Completion(err: Value, result: Doc?, wasUpdated: bool, isNew: bool)

  /** What a promise-mode caller receives on success: the bare result, or the
      status envelope `{result, wasUpdated, isNew}`. */
  datatype Resolution = Bare(doc: Doc?) | Envelope(result: Doc?, wasUpdated: bool, isNew: bool)

  datatype Settlement = Fulfilled(value: Resolution) | Rejected(reason: Value)

  /** Where the completion goes: to the caller's callback (the call returned
      `undefined`), or into the promise the call returned. */
  datatype Delivery = CallbackInvoked(callback: Value, args: Completion) | PromiseSettled(settlement: Settlement)

  /** The callback synthesized when the caller gave none: a truthy error
      rejects with that very error; otherwise the promise resolves with the
      result, wrapped in the envelope when the `status` option is truthy. */
  function Settle(status: Value, c: Completion): Settlement
  {
    if Truthy(c.err) then Rejected(c.err)
    else if Truthy(status) then Fulfilled(Envelope(c.result, c.wasUpdated, c.isNew))
    else Fulfilled(Bare(c.result))
  }

  /** The completion adapter: a truthy callback receives the completion
      itself; otherwise a deferred promise is returned and settled from it. */
  function Deliver(callback: Value, status: Value, c: Completion): Delivery
  {
    if Truthy(callback) then CallbackInvoked(callback, c) else PromiseSettled(Settle(status, c))
  }

  /** What a caller learns from a delivery: the error, or the reported triple
      (a bare promise value carries only the document). */
  datatype Observed = Failed(error: Value) | Reported(result: Doc?, wasUpdated: bool, isNew: bool) | OnlyDoc(doc: Doc?)

  function Observe(d: Delivery): Observed
  {
    match d
    case CallbackInvoked(_, c) => if Truthy(c.err) then Failed(c.err) else Reported(c.result, c.wasUpdated, c.isNew)
    case PromiseSettled(Rejected(e)) => Failed(e)
    case PromiseSettled(Fulfilled(Envelope(r, u, n))) => Reported(r, u, n)
    case PromiseSettled(Fulfilled(Bare(r))) => OnlyDoc(r)
  }

  /** Callback callers and promise callers with `status` set observe the same
      outcome, error or triple, whatever the callback; without `status` the
      promise carries the same document and nothing else. */
  lemma DualModeAgree(cb: Value, status: Value, c: Completion)
    requires Truthy(cb)
    ensures Truthy(status) ==> Observe(Deliver(Undefined, status, c)) == Observe(Deliver(cb, status, c))
    ensures !Truthy(status) && !Truthy(c.err) ==> Observe(Deliver(Undefined, status, c)) == OnlyDoc(c.result)
    ensures !Truthy(status) && Truthy(c.err) ==> Observe(Deliver(Undefined, status, c)) == Failed(c.err)
  {
  }

  /** A lookup that rejects with an error rejects the returned promise with
      that same error, whatever the `status` option. */
  lemma FindFailureRejects(err: Value, status: Value)
    requires Truthy(err)
    ensures Deliver(Undefined, status, Completion(err, null, false, false)) == PromiseSettled(Rejected(err))
  {
  }

  /** A lookup that rejects with a falsy reason (say `undefined`) is not an
      error to the synthesized callback: the promise resolves with `null`. */
  lemma FalsyRejectionResolves(status: Value)
    ensures Settle(status, Completion(Undefined, null, false, false))
            == if Truthy(status) then Fulfilled(Envelope(null, false, false)) else Fulfilled(Bare(null))
  {
  }

  /** The outcome of the lookup continuation: the final state of the working
      document, whether it was saved, and the reported flags. */
  datatype Handled = Handled(doc: DocState, saved: bool, wasUpdated: bool, isNew: bool)

  /** The state of a document created for `query`. */
  function SeedState(query: Value): DocState
  {
    DocState(SeedFields(Sanitize(query)), false)
  }

  /** The lookup continuation on values, given the found document's state
      (`None` when nothing matched). */
  function Handle(existing: Option<DocState>, query: Value, additionalFields: Value, options: map<string, Value>)
    : Handled
  {
    if existing.Some? && !Truthy(additionalFields) then Handled(existing.value, false, false, false)
    else
      var creating := existing.None?;
      var doc := if creating then SeedState(query) else existing.value;
      if !creating && !Truthy(Get(options, "saveIfFound")) then Handled(doc, false, false, creating)
      else
        var merged :=
          if Truthy(additionalFields)
          then Merge(doc, Enumerable(additionalFields), Truthy(Get(options, "appendToArray")))
          else doc;
        if !merged.modified && !creating then Handled(merged, false, false, creating)
        else Handled(merged, true, true, creating)
  }

  /** A found document is saved only when additional fields were given,
      `saveIfFound` is on and the merge left it modified; it is never reported
      as new, and reported as updated exactly when saved. */
  lemma FoundSavedOnlyWhenChanged(existing: DocState, query: Value, additionalFields: Value, options: map<string, Value>)
    ensures var h := Handle(Some(existing), query, additionalFields, options);
      && !h.isNew
      && h.wasUpdated == h.saved
      && (h.saved <==> Truthy(additionalFields) && Truthy(Get(options, "saveIfFound"))
                       && (existing.modified
                           || Changes(existing.fields, Enumerable(additionalFields), Truthy(Get(options, "appendToArray")))))
      && (!Truthy(additionalFields) || !Truthy(Get(options, "saveIfFound")) ==> h.doc == existing)
  {
  }

  /** When nothing matched, the new document is the sanitized query merged
      with the additional fields, it is always saved, and it is reported as
      new and updated. */
  lemma NotFoundCreates(query: Value, additionalFields: Value, options: map<string, Value>)
    ensures var h := Handle(None, query, additionalFields, options);
      var seed := SeedFields(Sanitize(query));
      && h.saved && h.wasUpdated && h.isNew
      && h.doc.fields == (if Truthy(additionalFields)
                          then MergeFields(seed, Enumerable(additionalFields), Truthy(Get(options, "appendToArray")))
                          else seed)
      && h.doc.modified == (Truthy(additionalFields)
                            && Changes(seed, Enumerable(additionalFields), Truthy(Get(options, "appendToArray"))))
  {
    var doc := SeedState(query);
    var append := Truthy(Get(options, "appendToArray"));
    var merged := if Truthy(additionalFields) then Merge(doc, Enumerable(additionalFields), append) else doc;
    assert Handle(None, query, additionalFields, options) == Handled(merged, true, true, true);
  }

  /** A document is persisted only when it is new or the merge modified it. */
  lemma SavedOnlyIfNewOrModified(existing: Option<DocState>, query: Value, additionalFields: Value, options: map<string, Value>)
    ensures var h := Handle(existing, query, additionalFields, options);
      && h.isNew == existing.None?
      && h.wasUpdated == h.saved
      && (h.saved ==> existing.None? || h.doc.modified)
  {
  }

  /** Running the upsert again with the same fields, in overwrite mode, on the
      clean document the first run stored does not write a second time. */
  lemma RepeatedUpsertWritesOnce(existing: DocState, query: Value, additionalFields: Value, options: map<string, Value>)
    requires !Truthy(Get(options, "appendToArray"))
    ensures var first := Handle(Some(existing), query, additionalFields, options);
      var again := Handle(Some(DocState(first.doc.fields, false)), query, additionalFields, options);
      !again.saved && again.doc.fields == first.doc.fields
  {
    var first := Handle(Some(existing), query, additionalFields, options);
    if Truthy(additionalFields) && Truthy(Get(options, "saveIfFound")) {
      OverwriteIdempotent(existing.fields, Enumerable(additionalFields));
    }
  }

  /** A query made of plain field values seeds a document with exactly those fields. */
  lemma SeedKeepsPlainFields(query: map<string, Value>)
    requires forall k :: k in query ==> !IsOperatorKey(k) && IsLeaf(query[k])
    ensures SeedFields(Sanitize(Obj(query))) == query
  {
    var r := Sanitize(Obj(query));
    forall k | k in query
      ensures k in r.fields
    {
      assert Sanitize(query[k]) == query[k];
    }
  }

  /** No existing document for `{email: "a@x.com"}` and additional fields
      `{name: "A"}`: the document `{email: "a@x.com", name: "A"}` is created,
      saved and reported as new and updated, whatever the options (the seed
      has no `name` array to append to). */
  lemma CreateScenario(email: string, address: Value, name: string, given: Value, options: map<string, Value>)
    requires !IsOperatorKey(email) && IsLeaf(address) && email != name && given != Undefined
    ensures var h := Handle(None, Obj(map[email := address]), Obj(map[name := given]), options);
      h == Handled(DocState(map[email := address, name := given], true), true, true, true)
  {
    var query := map[email := address];
    NotFoundCreates(Obj(query), Obj(map[name := given]), options);
    SeedKeepsPlainFields(query);
    MergeNewField(query, name, given, Truthy(Get(options, "appendToArray")));
  }

  /** The merge loop: every additional field is set on the document, appending
      to an array field when append mode is on. */
  method MergeInto(doc: Doc, additional: map<string, Value>, append: bool)
    modifies doc
    ensures doc.State() == Merge(old(doc.State()), additional, append)
    ensures doc.saves == old(doc.saves)
  {
    ghost var before := doc.fields;
    var pending := additional.Keys;
    while pending != {}
      invariant pending <= additional.Keys
      invariant doc.fields == MergeFields(before, Done(additional, pending), append)
      invariant doc.modified == (old(doc.modified) || Changes(before, Done(additional, pending), append))
      invariant doc.saves == old(doc.saves)
      decreases pending
    {
      var field :| field in pending;
      MergeStep(before, additional, pending, field, append);
      ChangesStep(before, additional, pending, field, append);
      pending := pending - {field};
      var current := doc.Read(field);
      if current.Arr? && append {
        doc.Set(field, Arr(Concat(current.items, additional[field])));
        continue;
      }
      doc.Set(field, additional[field]);
    }
    assert Done(additional, {}) == additional;
  }

  /** The fields of `additional` the loop has already set. */
  function Done(additional: map<string, Value>, pending: set<string>): map<string, Value>
  {
    map k | k in additional && k !in pending :: additional[k]
  }

  /** Setting one more field changes the merged fields at that field only. */
  lemma MergeStep(before: map<string, Value>, additional: map<string, Value>, pending: set<string>,
                  field: string, append: bool)
    requires field in pending && pending <= additional.Keys
    ensures var merged := MergeFields(before, Done(additional, pending), append);
      && Get(merged, field) == Get(before, field)
      && MergeFields(before, Done(additional, pending - {field}), append)
         == merged[field := MergedValue(Get(before, field), additional[field], append)]
  {
    var done := Done(additional, pending);
    var done' := Done(additional, pending - {field});
    assert done' == done[field := additional[field]];
    var merged := MergeFields(before, done, append);
    var merged' := MergeFields(before, done', append);
    var expected := merged[field := MergedValue(Get(before, field), additional[field], append)];
    assert merged'.Keys == expected.Keys;
    forall k | k in merged'
      ensures merged'[k] == expected[k]
    {
      if k != field {
        assert k in done' <==> k in done;
      }
    }
  }

  /** Setting one more field adds its own change, if any, to the change flag. */
  lemma ChangesStep(before: map<string, Value>, additional: map<string, Value>, pending: set<string>,
                    field: string, append: bool)
    requires field in pending && pending <= additional.Keys
    ensures Changes(before, Done(additional, pending - {field}), append)
            <==> Changes(before, Done(additional, pending), append)
                 || MergedValue(Get(before, field), additional[field], append) != Get(before, field)
  {
    var done := Done(additional, pending);
    var done' := Done(additional, pending - {field});
    if Changes(before, done', append) && !Changes(before, done, append) {
      var k :| k in done' && MergedValue(Get(before, k), done'[k], append) != Get(before, k);
      assert k == field;
    }
    if Changes(before, done, append) {
      var k :| k in done && MergedValue(Get(before, k), done[k], append) != Get(before, k);
      assert k in done';
    }
  }

  /** The continuation run once `findOne` resolved with `result` (`null` when
      nothing matched), with the call's resolved additional fields and options. */
  method OnFound(result: Doc?, query: Value, additionalFields: Value, options: map<string, Value>)
    returns (c: Completion)
    modifies if result != null then {result} else {}
    ensures var existing := if result == null then None else Some(old(result.State()));
      var h := Handle(existing, query, additionalFields, options);
      && c.err == Null && c.result != null
      && (result != null ==> c.result == result)
      && (result == null ==> fresh(c.result))
      && c.result.State() == h.doc
      && c.wasUpdated == h.wasUpdated && c.isNew == h.isNew
      && c.result.saves == (if result == null then [] else old(result.saves))
                           + (if h.saved then [Get(options, "saveOptions")] else [])
  {
    ghost var existing := if result == null then None else Some(result.State());
    ghost var h := Handle(existing, query, additionalFields, options);
    if result != null && !Truthy(additionalFields) {
      assert h == Handled(result.State(), false, false, false);
      return Completion(Null, result, false, false);
    }
    var creating := result == null;
    var doc: Doc;
    if creating {
      var seed := SanitizeLoop(query);
      doc := new Doc(seed);
    } else {
      doc := result;
    }
    ghost var start := doc.State();
    assert start == if creating then SeedState(query) else existing.value;
    if !creating && !Truthy(Get(options, "saveIfFound")) {
      assert h == Handled(start, false, false, false);
      return Completion(Null, doc, false, creating);
    }
    var additional := Enumerable(additionalFields);
    var append := Truthy(Get(options, "appendToArray"));
    if Truthy(additionalFields) {
      MergeInto(doc, additional, append);
    }
    assert doc.State() == h.doc;
    if !doc.modified && !creating {
      return Completion(Null, doc, false, creating);
    }
    doc.Save(Get(options, "saveOptions"));
    c := Completion(Null, doc, true, creating);
  }

  /** The whole call, given how `findOne` settled. */
  method FindOrCreate(modelOptions: Value, query: Value, additionalFields: Value, contextOptions: Value,
                      callback: Value, found: FindResult)
    returns (c: Completion, d: Delivery)
    modifies if found.FindResolved? && found.doc != null then {found.doc} else {}
    ensures var shape := ResolveCallShape(additionalFields, contextOptions, callback);
      d == Deliver(shape.callback, Get(MergeOptions(modelOptions, shape.contextOptions), "status"), c)
    ensures found.FindRejected? ==> c == Completion(found.error, null, false, false)
    ensures found.FindResolved? ==>
      var shape := ResolveCallShape(additionalFields, contextOptions, callback);
      var options := MergeOptions(modelOptions, shape.contextOptions);
      var existing := if found.doc == null then None else Some(old(found.doc.State()));
      var h := Handle(existing, query, shape.additionalFields, options);
      && c.err == Null && c.result != null
      && (found.doc != null ==> c.result == found.doc)
      && (found.doc == null ==> fresh(c.result))
      && c.result.State() == h.doc
      && c.wasUpdated == h.wasUpdated && c.isNew == h.isNew
      && c.result.saves == (if found.doc == null then [] else old(found.doc.saves))
                           + (if h.saved then [Get(options, "saveOptions")] else [])
  {
    var fields, context, cb := additionalFields, contextOptions, callback;
    if IsCallable(fields) {
      cb := fields;
      fields := Undefined;
    }
    if IsCallable(context) {
      cb := context;
      context := Undefined;
    }
    var options := DefaultOptions + Enumerable(modelOptions) + Enumerable(context);
    match found {
      case FindRejected(err) =>
        c := Completion(err, null, false, false);
      case FindResolved(result) =>
        c := OnFound(result, query, fields, options);
    }
    d := Deliver(cb, Get(options, "status"), c);
  }
}
