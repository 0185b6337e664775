/** The document the plugin finds or creates. The persistence layer owns it;
    this model keeps what the plugin relies on: the field values, the dirty
    flag behind `isModified()`, and the `save` calls made on it. */
module Documents {
  import opened JsValues

  /** The observable state of a document: its fields and its dirty flag. */
  datatype DocState = DocState(fields: map<string, Value>, modified: bool)

  /** The fields of a document constructed from `seed`: a plain object gives
      its properties, anything else gives none. */
  function SeedFields(seed: Value): map<string, Value>
  {
    if seed.Obj? then seed.fields else map[]
  }

  /** `items.concat(v)`: an array argument is spread, any other value is
      appended as one element. */
  function Concat(items: seq<Value>, v: Value): (r: seq<Value>)
    ensures |r| == |items| + (if v.Arr? then |v.items| else 1) && r[..|items|] == items
    ensures v.Arr? ==> r[|items|..] == v.items
    ensures !v.Arr? ==> r[|items|..] == [v]
  {
    if v.Arr? then items + v.items else items + [v]
  }

  /** The value a field holds after the merge: with append mode on and an
      array already there, the array extended by the supplied value;
      otherwise the supplied value. */
  function MergedValue(current: Value, supplied: Value, append: bool): Value
  {
    if current.Arr? && append then Arr(Concat(current.items, supplied)) else supplied
  }

  /** The fields after merging `additional` into `fields`. */
  function MergeFields(fields: map<string, Value>, additional: map<string, Value>, append: bool)
    : (r: map<string, Value>)
    ensures r.Keys == fields.Keys + additional.Keys
    ensures forall k :: k in additional ==> r[k] == MergedValue(Get(fields, k), additional[k], append)
    ensures forall k :: k in fields && k !in additional ==> r[k] == fields[k]
  {
    map k | k in fields.Keys + additional.Keys ::
      if k in additional then MergedValue(Get(fields, k), additional[k], append) else fields[k]
  }

  /** Whether some merged field receives a value other than the one it had. */
  predicate Changes(fields: map<string, Value>, additional: map<string, Value>, append: bool)
  {
    exists k :: k in additional && MergedValue(Get(fields, k), additional[k], append) != Get(fields, k)
  }

  /** The document state after the merge: `set` raises the dirty flag when a
      value differs from the one the field had. */
  function Merge(s: DocState, additional: map<string, Value>, append: bool): DocState
  {
    DocState(MergeFields(s.fields, additional, append),
             s.modified || Changes(s.fields, additional, append))
  }

  /** The dirty flag is raised by a merge exactly when some field reads
      differently afterwards. */
  lemma ChangesIffVisible(fields: map<string, Value>, additional: map<string, Value>, append: bool)
    ensures Changes(fields, additional, append) <==>
      exists k :: Get(MergeFields(fields, additional, append), k) != Get(fields, k)
  {
    var merged := MergeFields(fields, additional, append);
    if Changes(fields, additional, append) {
      var k :| k in additional && MergedValue(Get(fields, k), additional[k], append) != Get(fields, k);
      assert Get(merged, k) != Get(fields, k);
    }
    if exists k :: Get(merged, k) != Get(fields, k) {
      var k :| Get(merged, k) != Get(fields, k);
      assert k in additional;
    }
  }

  /** Merge rules, case by case: with append mode an array field `[1, 2]`
      merged with `[3]` becomes `[1, 2, 3]`; without it, `[3]`; a field not
      named is left as it was. */
  lemma ArrayAppendExample()
    ensures MergeFields(map["f" := Arr([Num(1), Num(2)]), "g" := Num(7)], map["f" := Arr([Num(3)])], true)
            == map["f" := Arr([Num(1), Num(2), Num(3)]), "g" := Num(7)]
    ensures MergeFields(map["f" := Arr([Num(1), Num(2)]), "g" := Num(7)], map["f" := Arr([Num(3)])], false)
            == map["f" := Arr([Num(3)]), "g" := Num(7)]
  {
    assert [Num(1), Num(2)] + [Num(3)] == [Num(1), Num(2), Num(3)];
  }

  /** In overwrite mode, merging one field is setting it. */
  lemma OverwriteOne(fields: map<string, Value>, key: string, v: Value)
    ensures MergeFields(fields, map[key := v], false) == fields[key := v]
  {
    var merged := MergeFields(fields, map[key := v], false);
    assert merged.Keys == fields.Keys + {key};
  }

  /** Merging a field the document does not have sets it, in either mode,
      and raises the dirty flag unless the value is `undefined`. */
  lemma MergeNewField(fields: map<string, Value>, key: string, v: Value, append: bool)
    requires key !in fields && v != Undefined
    ensures MergeFields(fields, map[key := v], append) == fields[key := v]
    ensures Changes(fields, map[key := v], append)
  {
    assert MergeFields(fields, map[key := v], append).Keys == fields.Keys + {key};
    assert MergedValue(Get(fields, key), v, append) != Get(fields, key);
  }

  /** Merging the same fields twice in overwrite mode leaves the document as
      the first merge did and reports no change. */
  lemma OverwriteIdempotent(fields: map<string, Value>, additional: map<string, Value>)
    ensures var once := MergeFields(fields, additional, false);
      MergeFields(once, additional, false) == once && !Changes(once, additional, false)
  {
    var once := MergeFields(fields, additional, false);
    assert MergeFields(once, additional, false) == once;
  }

  /** A document of the collection. */
  class Doc {
    var fields: map<string, Value>
    var modified: bool
    /** The options passed to each `save` call, in order. */
    var saves: seq<Value>

    /** `new Model(seed)`: a fresh, clean, never saved document. */
    constructor (seed: Value)
      ensures fields == SeedFields(seed) && !modified && saves == []
    {
      fields := SeedFields(seed);
      modified := false;
      saves := [];
    }

    function State(): DocState
      reads this
    {
      DocState(fields, modified)
    }

    /** `doc[path]`. */
    function Read(path: string): Value
      reads this
    {
      Get(fields, path)
    }

    /** `doc.set(path, value)`. Assumed of the persistence layer: the dirty
        flag is raised exactly when the new value differs from the current one. */
    method Set(path: string, value: Value)
      modifies this
      ensures fields == old(fields)[path := value]
      ensures modified == (old(modified) || Get(old(fields), path) != value)
      ensures saves == old(saves)
    {
      modified := modified || Get(fields, path) != value;
      fields := fields[path := value];
    }

    /** `doc.save(saveOptions)`: the call is recorded; the fields are kept. */
    method Save(saveOptions: Value)
      modifies this
      ensures saves == old(saves) + [saveOptions]
      ensures fields == old(fields) && modified == old(modified)
    {
      saves := saves + [saveOptions];
    }
  }
}
