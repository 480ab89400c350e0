/** The document layer (unqdantic/models.py): a document class bound to a
    collection, its instances with their fields as a record, and the CRUD
    and query operations over the collection. An instance's fields are the
    record `doc()` would serialise; a collection-less class raises
    `ValueError` on every operation that touches the collection. */
module Models {
  import opened Values
  import opened Strings
  import Utils
  import opened Operators
  import opened Expression
  import opened Store
  import Meta

  // ---------------------------------------------------------------------------
  // from_doc
  // ---------------------------------------------------------------------------

  /** `from_doc(doc)`: the stored id moves from `__id` to the `id` field; a
      record without `__id` raises `KeyError`. Gives the fields of the
      instance built from it. */
  function FromDoc(doc: Record): (r: Result<Record>)
    ensures r.Ok? <==> IdKey in doc
    ensures r.Err? ==> r.error == KeyError
    ensures r.Ok? ==> r.value.Keys == doc.Keys - {IdKey} + {"id"}
    ensures r.Ok? ==> r.value["id"] == doc[IdKey]
    ensures r.Ok? ==> forall k | k in doc && k != IdKey && k != "id" :: r.value[k] == doc[k]
  {
    if IdKey !in doc then Err(KeyError) else Ok((doc - {IdKey})["id" := doc[IdKey]])
  }

  /** What the store keeps for an instance comes back, through `from_doc`, as
      the instance with its id set to the one the store handed out. */
  lemma StoredComesBack(fields: Record, id: nat)
    requires IdKey !in fields
    ensures FromDoc(fields[IdKey := Int(id)]) == Ok(fields["id" := Int(id)])
  {
    var r := FromDoc(fields[IdKey := Int(id)]).value;
    assert IdKey != "id";
    assert fields[IdKey := Int(id)] - {IdKey} == fields;
    assert r.Keys == fields["id" := Int(id)].Keys;
    assert forall k | k in r :: r[k] == fields["id" := Int(id)][k];
  }

  /** `[cls.from_doc(doc) for doc in docs]`. */
  function FromDocs(docs: seq<Record>): (r: Result<seq<Record>>)
    ensures r.Ok? <==> forall i | 0 <= i < |docs| :: IdKey in docs[i]
    ensures r.Ok? ==> |r.value| == |docs|
    ensures r.Ok? ==> forall i | 0 <= i < |docs| :: FromDoc(docs[i]) == Ok(r.value[i])
    decreases |docs|
  {
    if |docs| == 0 then Ok([])
    else
      var first :- FromDoc(docs[0]);
      var rest := FromDocs(docs[1..]);
      assert rest.Ok? <==> forall i | 1 <= i < |docs| :: IdKey in docs[i] by {
        if forall i | 1 <= i < |docs| :: IdKey in docs[i] {
          assert forall i | 0 <= i < |docs[1..]| :: docs[1..][i] == docs[i + 1];
        }
        if rest.Ok? {
          forall i | 1 <= i < |docs| ensures IdKey in docs[i] {
            assert docs[i] == docs[1..][i - 1];
          }
        }
      }
      if rest.Err? then Err(rest.error)
      else
        assert forall i | 1 <= i < |docs| :: docs[i] == docs[1..][i - 1];
        Ok([first] + rest.value)
  }

  // ---------------------------------------------------------------------------
  // Field assignment in update
  // ---------------------------------------------------------------------------

  /** A key of `update(fields=...)`: a string, or a field proxy such as
      `User.info.money`, which defines `__hash__` and can be a dict key. */
  datatype FieldKey = Name(s: string) | ProxyKey(path: QueryPath)

  /** `str(k)` as written: a proxy's text is its repr, which starts with the
      owning class's name. */
  function KeyTextAsWritten(k: FieldKey): string {
    match k
    case Name(s) => s
    case ProxyKey(p) => PathText(p)
  }

  /** `str(k)` corrected: a proxy stands for its path below the document. */
  function KeyText(k: FieldKey): string {
    match k
    case Name(s) => s
    case ProxyKey(p) => Join(p.parts, '.')
  }

  /** `setattr(recursively_get_attr(self, keys[:-1]), keys[-1], value)` on an
      instance's fields: the walk raises `AttributeError` at a missing
      attribute or a value that is not a model, and pydantic raises
      `ValueError` when the last name is not a field of the model reached. */
  function SetAttr(data: Record, keys: seq<string>, v: Value): (r: Result<Record>)
    requires |keys| >= 1
    ensures r.Ok? <==> Utils.Find(Obj(data), keys).Some?
    ensures r.Ok? ==> Utils.Find(Obj(r.value), keys) == Some(v)
    ensures r.Ok? ==> r.value.Keys == data.Keys
    ensures r.Ok? ==> forall k | k in data && k != keys[0] :: r.value[k] == data[k]
    ensures r.Err? ==> r.error == AttributeError || r.error == ValueError
    decreases |keys|
  {
    if |keys| == 1 then
      if keys[0] in data then Ok(data[keys[0] := v]) else Err(ValueError)
    else if keys[0] in data && data[keys[0]].Obj? then
      var sub :- SetAttr(data[keys[0]].fields, keys[1..], v);
      Ok(data[keys[0] := Obj(sub)])
    else Err(AttributeError)
  }

  /** Every other field is unchanged: a path that neither leads to the
      assigned one nor runs through it reads the same before and after. */
  lemma {:induction false} SetAttrFrame(data: Record, keys: seq<string>, v: Value, p: seq<string>)
    requires |keys| >= 1 && SetAttr(data, keys, v).Ok?
    requires !(keys <= p) && !(p <= keys)
    ensures Utils.Find(Obj(SetAttr(data, keys, v).value), p) == Utils.Find(Obj(data), p)
    decreases |keys|
  {
    if p[0] == keys[0] && |keys| > 1 {
      assert keys[1..] <= p[1..] ==> keys <= p;
      assert p[1..] <= keys[1..] ==> p <= keys;
      SetAttrFrame(data[keys[0]].fields, keys[1..], v, p[1..]);
    }
  }

  /** One assignment of `update`: the `id` field only takes an int (pydantic
      validates assignments). */
  function SetField(data: Record, keys: seq<string>, v: Value): (r: Result<Record>)
    requires |keys| >= 1
  {
    if keys == ["id"] && !v.Int? then Err(ValueError) else SetAttr(data, keys, v)
  }

  predicate NonEmptyKeys(steps: seq<(seq<string>, Value)>) {
    forall i | 0 <= i < |steps| :: |steps[i].0| >= 1
  }

  /** The assignments in order: the fields reached, and the error of the one
      that raised, if any (the earlier ones stay made). */
  function SetFields(data: Record, steps: seq<(seq<string>, Value)>): (r: (Record, Option<Error>))
    requires NonEmptyKeys(steps)
    ensures r.0.Keys == data.Keys
    ensures r.1.Some? ==> r.1.value == AttributeError || r.1.value == ValueError
    ensures r.1.None? && |steps| > 0 ==> Utils.Find(Obj(r.0), steps[|steps| - 1].0) == Some(steps[|steps| - 1].1)
    decreases |steps|
  {
    if |steps| == 0 then (data, None)
    else
      match SetField(data, steps[0].0, steps[0].1)
      case Err(e) => (data, Some(e))
      case Ok(d) => SetFields(d, steps[1..])
  }

  /** The assignments from the `i`-th on: the `i`-th one, then the rest or
      its error. */
  lemma SetFieldsAt(data: Record, steps: seq<(seq<string>, Value)>, i: nat)
    requires NonEmptyKeys(steps) && i < |steps|
    ensures var next := SetField(data, steps[i].0, steps[i].1);
      && (next.Err? ==> SetFields(data, steps[i..]) == (data, Some(next.error)))
      && (next.Ok? ==> SetFields(data, steps[i..]) == SetFields(next.value, steps[i + 1..]))
  {
    assert steps[i..][0] == steps[i];
    assert steps[i..][1..] == steps[i + 1..];
  }

  /** The assignments `update(fields=..., **kwargs)` makes: each field key
      split at its dots, then each keyword as a single name. */
  function UpdateSteps(fields: seq<(FieldKey, Value)>, kwargs: seq<(string, Value)>): (r: seq<(seq<string>, Value)>)
    ensures NonEmptyKeys(r)
    ensures |r| == |fields| + |kwargs|
  {
    seq(|fields|, i requires 0 <= i < |fields| => (Split(KeyText(fields[i].0), '.'), fields[i].1))
      + seq(|kwargs|, j requires 0 <= j < |kwargs| => ([kwargs[j].0], kwargs[j].1))
  }

  /** A record whose `id` field holds an int. */
  predicate HasId(data: Record) {
    "id" in data && data["id"].Int?
  }

  /** One validated assignment keeps `id` an int. */
  lemma SetFieldKeepsId(data: Record, keys: seq<string>, v: Value)
    requires |keys| >= 1 && HasId(data)
    ensures SetField(data, keys, v).Ok? ==> HasId(SetField(data, keys, v).value)
  {
  }

  lemma {:induction false} SetFieldsKeepsId(data: Record, steps: seq<(seq<string>, Value)>)
    requires NonEmptyKeys(steps) && HasId(data)
    ensures HasId(SetFields(data, steps).0)
    decreases |steps|
  {
    if |steps| > 0 {
      var r := SetField(data, steps[0].0, steps[0].1);
      if r.Ok? {
        SetFieldsKeepsId(r.value, steps[1..]);
      }
    }
  }

  /** An update through a field proxy, as written: the text of the key starts
      with the class's name, which is not a field of the instance, so the
      attribute walk raises `AttributeError` and nothing is assigned. */
  lemma UpdateByProxyAsWritten(data: Record, p: QueryPath, v: Value)
    requires |p.parts| >= 1 && NoSep(p.parts, '.') && '.' !in p.name && p.name !in data
    ensures SetField(data, Split(KeyTextAsWritten(ProxyKey(p)), '.'), v) == Err(AttributeError)
  {
    PathTextSplits(p);
    var keys := Split(KeyTextAsWritten(ProxyKey(p)), '.');
    assert keys[0] == p.name && |keys| >= 2;
  }

  /** An update through a field proxy, corrected: the field at the proxy's
      path is assigned when the path exists. */
  lemma UpdateByProxySets(data: Record, p: QueryPath, v: Value)
    requires |p.parts| >= 1 && NoSep(p.parts, '.') && p.parts != ["id"]
    requires Utils.Find(Obj(data), p.parts).Some?
    ensures SetField(data, Split(KeyText(ProxyKey(p)), '.'), v).Ok?
    ensures Utils.GetItem(Obj(SetField(data, Split(KeyText(ProxyKey(p)), '.'), v).value), p.parts) == v
  {
    SplitJoin(p.parts, '.');
    Utils.GetItemFind(Obj(SetField(data, p.parts, v).value), p.parts);
  }

  /** `update(fields={User.info.money: 300})` on a user: the key as written
      raises, the corrected key assigns the field. */
  lemma UpdateByProxyDiscrepancy()
    ensures var data := map["id" := Int(0), "name" := Str("Ax"), "info" := Obj(map["money" := Int(200)])];
            var p := QueryPath("User", ["info", "money"]);
            && SetField(data, Split(KeyTextAsWritten(ProxyKey(p)), '.'), Int(300)) == Err(AttributeError)
            && SetField(data, Split(KeyText(ProxyKey(p)), '.'), Int(300)).Ok?
            && Utils.GetItem(Obj(SetField(data, Split(KeyText(ProxyKey(p)), '.'), Int(300)).value), ["info", "money"])
               == Int(300)
  {
    var data := map["id" := Int(0), "name" := Str("Ax"), "info" := Obj(map["money" := Int(200)])];
    var p := QueryPath("User", ["info", "money"]);
    assert NoSep(p.parts, '.') by {
      assert p.parts[0] == "info" && p.parts[1] == "money";
    }
    UpdateByProxyAsWritten(data, p, Int(300));
    assert Utils.Find(Obj(data), p.parts).Some? by {
      assert p.parts[1..] == ["money"];
    }
    UpdateByProxySets(data, p, Int(300));
  }

  // ---------------------------------------------------------------------------
  // get_or_create / update_or_create
  // ---------------------------------------------------------------------------

  /** The fields `get_or_create` and `update_or_create` create a record from:
      the dict rebuilt from the filter, with `generate_dict(defaults)` merged
      over it. */
  function CreatedFields(expression: Query, defaults: seq<(string, Value)>): Result<Record> {
    var d :- Utils.Generate(defaults);
    var t :- ToDict(expression);
    Ok(Utils.Merge(t, d))
  }

  /** The defaults win over the values the filter contributes. */
  lemma DefaultsWin(expression: Query, defaults: seq<(string, Value)>, p: seq<string>)
    requires CreatedFields(expression, defaults).Ok?
    requires Utils.Find(Obj(Utils.Generate(defaults).value), p).Some?
    requires !Utils.Find(Obj(Utils.Generate(defaults).value), p).value.Obj?
    ensures Utils.Find(Obj(CreatedFields(expression, defaults).value), p)
         == Utils.Find(Obj(Utils.Generate(defaults).value), p)
  {
    Utils.MergeRightWins(ToDict(expression).value, Utils.Generate(defaults).value, p);
  }

  /** A record created for an equality filter on a field the defaults do not
      touch satisfies the filter. */
  lemma CreatedSatisfiesFilter(p: QueryPath, v: Value, defaults: seq<(string, Value)>)
    requires |p.parts| >= 1 && NoSep(p.parts, '.')
    requires Utils.Generate(defaults).Ok? && p.parts[0] !in Utils.Generate(defaults).value
    ensures CreatedFields(Query(Path(p), Eq, Lit(v)), defaults).Ok?
    ensures Holds(Query(Path(p), Eq, Lit(v)), CreatedFields(Query(Path(p), Eq, Lit(v)), defaults).value)
  {
    var q := Query(Path(p), Eq, Lit(v));
    ToDictLeaf(p, Eq, v);
    var t := ToDict(q).value;
    var d := Utils.Generate(defaults).value;
    Utils.MergeLeftKept(t, d, p.parts);
    Utils.ChainLookup(p.parts, v);
    Utils.GetItemFind(Obj(Utils.Merge(t, d)), p.parts);
    EqualitySelects(p, v, Utils.Merge(t, d));
  }

  /** A record that holds each equality's literal at its field's path
      satisfies every one of the equalities, and so their AND-merge. */
  lemma EqualitiesHold(filters: seq<Operand>, rec: Record)
    requires |filters| >= 1 && forall i | 0 <= i < |filters| :: IsEquality(filters[i])
    requires forall i | 0 <= i < |filters| && IsEquality(filters[i]) ::
      Utils.Find(Obj(rec), filters[i].query.left.path.parts) == Some(filters[i].query.right.value)
    ensures AllTruthValued(filters, rec) && AllHold(filters, rec)
    ensures Merged(filters, None).Ok? && Holds(Merged(filters, None).value, rec)
  {
    forall i | 0 <= i < |filters| ensures Eval(filters[i].query, rec) == Ok(Bool(true)) {
      var p := filters[i].query.left.path;
      var v := filters[i].query.right.value;
      assert filters[i].query == Query(Path(p), Eq, Lit(v));
      Utils.GetItemFind(Obj(rec), p.parts);
      EqualitySelects(p, v, rec);
      PyEqReflexive(v);
    }
    MergeIsConjunction(filters, rec);
  }

  /** The record `get_or_create` and `update_or_create` create for an
      AND-merge of equalities on distinct top-level names the defaults do not
      touch satisfies that merge; so does what the store keeps for it, unless
      a filter is on `__id`. */
  lemma CreatedSatisfiesFilters(filters: seq<Operand>, defaults: seq<(string, Value)>, id: nat)
    requires |filters| >= 1 && DistinctEqualities(filters)
    requires Utils.Generate(defaults).Ok?
    requires forall i | 0 <= i < |filters| :: filters[i].query.left.path.parts[0] !in Utils.Generate(defaults).value
    ensures Merged(filters, None).Ok?
    ensures CreatedFields(Merged(filters, None).value, defaults).Ok?
    ensures Holds(Merged(filters, None).value, CreatedFields(Merged(filters, None).value, defaults).value)
    ensures IdKey !in EqualityHeads(filters) ==>
      Holds(Merged(filters, None).value, CreatedDoc(CreatedFields(Merged(filters, None).value, defaults).value, id))
  {
    MergedEqualitiesToDict(filters);
    var t := ToDict(Merged(filters, None).value).value;
    var d := Utils.Generate(defaults).value;
    var created := Utils.Merge(t, d);
    forall i | 0 <= i < |filters|
      ensures Utils.Find(Obj(created), filters[i].query.left.path.parts) == Some(filters[i].query.right.value)
    {
      Utils.MergeLeftKept(t, d, filters[i].query.left.path.parts);
    }
    EqualitiesHold(filters, created);
    if IdKey !in EqualityHeads(filters) {
      var stored := CreatedDoc(created, id);
      forall i | 0 <= i < |filters|
        ensures Utils.Find(Obj(stored), filters[i].query.left.path.parts) == Some(filters[i].query.right.value)
      {
        var h := filters[i].query.left.path.parts[0];
        assert h in EqualityHeads(filters) && h in t && h in created;
        assert stored[h] == created[h];
      }
      EqualitiesHold(filters, stored);
    }
  }

  /** What the store keeps for a created instance comes back, through
      `from_doc`, as the instance that was created. */
  lemma CreatedComesBack(fields: Record, id: nat)
    requires IdKey !in fields
    ensures FromDoc(CreatedDoc(fields, id)) == Ok(fields["id" := Int(id)])
  {
    var base := if "id" in fields then fields else fields["id" := Int(id)];
    assert IdKey != "id";
    assert CreatedDoc(fields, id) - {IdKey} == base;
    assert base["id" := Int(id)] == fields["id" := Int(id)];
  }

  /** After `update` writes fields back under their id, the record there
      comes back, through `from_doc`, as those fields, and no other record
      changes. */
  lemma WrittenBackComesBack(records: map<nat, Record>, d: Record)
    requires HasId(d) && d["id"].i >= 0 && d["id"].i as nat in records && IdKey !in d
    ensures WrittenBack(records, d).Keys == records.Keys
    ensures FromDoc(WrittenBack(records, d)[d["id"].i as nat]) == Ok(d)
    ensures forall k | k in records && k != d["id"].i as nat :: WrittenBack(records, d)[k] == records[k]
  {
    assert IdKey != "id";
    assert d[IdKey := d["id"]] - {IdKey} == d;
    assert d["id" := d["id"]] == d;
  }

  /** The top-level names of a dict generated from `items`, each once, in
      the order `generate_dict` first inserts them. */
  function FirstParts(items: seq<(string, Value)>): (r: seq<string>)
    decreases |items|
  {
    if |items| == 0 then []
    else
      var rest := FirstParts(items[..|items| - 1]);
      var k := Split(items[|items| - 1].0, '.')[0];
      if k in rest then rest else rest + [k]
  }

  /** The names listed are exactly the first parts of the items' keys. */
  lemma {:induction false} FirstPartsElements(items: seq<(string, Value)>, k: string)
    ensures k in FirstParts(items) <==> exists i | 0 <= i < |items| :: Split(items[i].0, '.')[0] == k
    decreases |items|
  {
    if |items| > 0 {
      var last := |items| - 1;
      FirstPartsElements(items[..last], k);
      if k in FirstParts(items[..last]) {
        var i :| 0 <= i < last && Split(items[..last][i].0, '.')[0] == k;
        assert items[..last][i] == items[i];
      }
      if exists i | 0 <= i < |items| :: Split(items[i].0, '.')[0] == k {
        var i :| 0 <= i < |items| && Split(items[i].0, '.')[0] == k;
        if i < last {
          assert items[..last][i] == items[i];
        }
      }
    }
  }

  /** `x` is the first part of some key before any key whose first part is
      `y`: `generate_dict` inserts `x` at the top before `y`. */
  predicate FirstBefore(items: seq<(string, Value)>, x: string, y: string) {
    exists a | 0 <= a < |items| && Split(items[a].0, '.')[0] == x ::
      forall b | 0 <= b <= a :: Split(items[b].0, '.')[0] != y
  }

  lemma FirstBeforePrefix(items: seq<(string, Value)>, n: nat, x: string, y: string)
    requires n <= |items| && FirstBefore(items[..n], x, y)
    ensures FirstBefore(items, x, y)
  {
    var a :| 0 <= a < n && Split(items[..n][a].0, '.')[0] == x
      && forall b | 0 <= b <= a :: Split(items[..n][b].0, '.')[0] != y;
    assert forall b | 0 <= b <= a :: items[..n][b] == items[b];
  }

  /** The names are listed once each, in the order `generate_dict` first
      inserts them. */
  lemma {:induction false} FirstPartsOrder(items: seq<(string, Value)>)
    ensures forall j, k | 0 <= j < k < |FirstParts(items)| :: FirstParts(items)[j] != FirstParts(items)[k]
    ensures forall j, k | 0 <= j < k < |FirstParts(items)| ::
      FirstBefore(items, FirstParts(items)[j], FirstParts(items)[k])
    decreases |items|
  {
    if |items| > 0 {
      var last := |items| - 1;
      var rest := FirstParts(items[..last]);
      var key := Split(items[last].0, '.')[0];
      FirstPartsOrder(items[..last]);
      forall j, k | 0 <= j < k < |rest| ensures FirstBefore(items, rest[j], rest[k]) {
        FirstBeforePrefix(items, last, rest[j], rest[k]);
      }
      if key !in rest {
        forall j | 0 <= j < |rest| ensures FirstBefore(items, rest[j], key) {
          FirstPartsElements(items[..last], rest[j]);
          var a :| 0 <= a < last && Split(items[..last][a].0, '.')[0] == rest[j];
          forall b | 0 <= b <= a ensures Split(items[b].0, '.')[0] != key {
            assert items[..last][b] == items[b];
            FirstPartsElements(items[..last], key);
          }
          assert items[..last][a] == items[a];
        }
      }
    }
  }

  /** Walking a key into a dict adds its first part as a top-level key. */
  lemma AssignKeys(m: Record, parts: seq<string>, v: Value)
    requires |parts| >= 1 && Utils.Assign(m, parts, v).Ok?
    ensures Utils.Assign(m, parts, v).value.Keys == m.Keys + {parts[0]}
  {
  }

  /** The top-level keys of a generated dict are the first parts of the keys. */
  lemma {:induction false} GenerateFromKeys(acc: Record, items: seq<(string, Value)>, k: string)
    requires Utils.GenerateFrom(acc, items).Ok?
    ensures k in Utils.GenerateFrom(acc, items).value
        <==> k in acc || exists i | 0 <= i < |items| :: Split(items[i].0, '.')[0] == k
    decreases |items|
  {
    if |items| > 0 {
      var next := Utils.Assign(acc, Split(items[0].0, '.'), items[0].1).value;
      AssignKeys(acc, Split(items[0].0, '.'), items[0].1);
      GenerateFromKeys(next, items[1..], k);
      if exists i | 0 <= i < |items[1..]| :: Split(items[1..][i].0, '.')[0] == k {
        var i :| 0 <= i < |items[1..]| && Split(items[1..][i].0, '.')[0] == k;
        assert items[1..][i] == items[i + 1];
      }
      if exists i | 1 <= i < |items| :: Split(items[i].0, '.')[0] == k {
        var i :| 1 <= i < |items| && Split(items[i].0, '.')[0] == k;
        assert items[1..][i - 1] == items[i];
      }
    }
  }

  /** `**generate_dict(defaults)` as the keywords `update_or_create` passes
      to `update`: the generated dict's top-level items, in insertion order. */
  function DefaultKeywords(defaults: seq<(string, Value)>): (r: Result<seq<(string, Value)>>)
    ensures r.Ok? <==> Utils.Generate(defaults).Ok?
    ensures r.Ok? ==> NamesKeys(Utils.Generate(defaults).value, r.value)
    ensures r.Ok? ==> forall j | 0 <= j < |r.value| ::
      r.value[j].0 in Utils.Generate(defaults).value && r.value[j].1 == Utils.Generate(defaults).value[r.value[j].0]
    ensures r.Ok? ==> forall j, k | 0 <= j < k < |r.value| :: r.value[j].0 != r.value[k].0
    ensures r.Ok? ==> forall j, k | 0 <= j < k < |r.value| :: FirstBefore(defaults, r.value[j].0, r.value[k].0)
  {
    var generated :- Utils.Generate(defaults);
    DefaultItems(defaults, generated);
    Ok(TopItems(generated, FirstParts(defaults)))
  }

  /** The items `**generate_dict(defaults)` passes: every top-level key of
      the generated dict once, with its value, in insertion order. */
  lemma DefaultItems(defaults: seq<(string, Value)>, generated: Record)
    requires Utils.Generate(defaults) == Ok(generated)
    ensures forall i | 0 <= i < |FirstParts(defaults)| :: FirstParts(defaults)[i] in generated
    ensures var r := TopItems(generated, FirstParts(defaults));
      && NamesKeys(generated, r)
      && (forall j | 0 <= j < |r| :: r[j].0 in generated && r[j].1 == generated[r[j].0])
      && (forall j, k | 0 <= j < k < |r| :: r[j].0 != r[k].0)
      && (forall j, k | 0 <= j < k < |r| :: FirstBefore(defaults, r[j].0, r[k].0))
  {
    var names := FirstParts(defaults);
    FirstPartsOrder(defaults);
    forall k ensures k in generated <==> k in names {
      GenerateFromKeys(map[], defaults, k);
      FirstPartsElements(defaults, k);
    }
    TopItemsKeys(generated, names);
  }

  /** The items name exactly the keys of the dict. */
  ghost predicate NamesKeys(d: Record, items: seq<(string, Value)>) {
    forall k :: k in d <==> exists j | 0 <= j < |items| :: items[j].0 == k
  }

  /** The items name exactly the keys of the dict when `names` does. */
  lemma TopItemsKeys(generated: Record, names: seq<string>)
    requires forall i | 0 <= i < |names| :: names[i] in generated
    requires forall k :: k in generated <==> k in names
    ensures NamesKeys(generated, TopItems(generated, names))
  {
    var items := TopItems(generated, names);
    forall k ensures k in generated <==> exists j | 0 <= j < |items| :: items[j].0 == k {
      if k in generated {
        var j :| 0 <= j < |names| && names[j] == k;
        assert items[j].0 == k;
      }
    }
  }

  /** `**default` for `update`: the generated dict's top-level items in
      insertion order. */
  function TopItems(generated: Record, names: seq<string>): (r: seq<(string, Value)>)
    requires forall i | 0 <= i < |names| :: names[i] in generated
    ensures |r| == |names|
    ensures forall i | 0 <= i < |names| :: r[i] == (names[i], generated[names[i]])
  {
    seq(|names|, i requires 0 <= i < |names| => (names[i], generated[names[i]]))
  }

  // ---------------------------------------------------------------------------
  // Document classes and instances
  // ---------------------------------------------------------------------------

  /** What the store keeps for an instance created from `fields` and stored
      under `id`: the `id` field defaults to the id handed out, and the store
      adds `__id`. */
  function CreatedDoc(fields: Record, id: nat): Record {
    (if "id" in fields then fields else fields["id" := Int(id)])[IdKey := Int(id)]
  }

  /** The store after `update` writes the fields `d` back under the id they
      hold: an id that holds no record changes nothing. */
  function WrittenBack(records: map<nat, Record>, d: Record): map<nat, Record> {
    if HasId(d) && d["id"].i >= 0 && d["id"].i as nat in records then records[d["id"].i as nat := d[IdKey := d["id"]]]
    else records
  }

  /** A document class: its name, its resolved meta config, and the
      collection it is bound to (none when its meta names no database). */
  class DocumentClass {
    const name: string
    const meta: Meta.Mro
    var collection: Collection?

    constructor (name: string, meta: Meta.Mro, collection: Collection?)
      ensures this.name == name && this.meta == meta && this.collection == collection
    {
      this.name := name;
      this.meta := meta;
      this.collection := collection;
    }

    /** `_generate_id`: one past `get_last_id()`, or 0 when that raises
        `ValueError`, which it does for an unbound class and for an empty
        collection. This is the id the store hands out next. */
    function GenerateId(): (id: nat)
      reads this, collection
      ensures collection == null || collection.lastId.None? ==> id == 0
      ensures collection != null ==> id == collection.NextId()
      ensures collection != null && collection.Valid() ==> id !in collection.records
    {
      if collection == null then 0
      else match collection.LastRecordId()
        case Ok(last) => last + 1
        case Err(_) => 0
    }

    /** `all()`: every stored record as an instance, in id order. */
    function All(): (r: Result<seq<Record>>)
      reads this, collection
      ensures collection == null ==> r == Err(ValueError)
      ensures collection != null && collection.Valid() ==> r.Ok? && |r.value| == |collection.All()|
      ensures collection != null && collection.Valid() ==>
        forall i | 0 <= i < |collection.All()| :: FromDoc(collection.All()[i]) == Ok(r.value[i])
    {
      if collection == null then Err(ValueError)
      else
        StoredCarryIds(collection);
        FromDocs(collection.All())
    }

    /** `get_by_id(id)`: the instance stored under the id, or `None`. */
    function GetById(id: int): (r: Result<Option<Record>>)
      reads this, collection
      ensures collection == null ==> r == Err(ValueError)
      ensures collection != null && collection.Valid() ==>
        r.Ok? && (r.value.Some? <==> id >= 0 && id as nat in collection.records)
      ensures collection != null && collection.Valid() && r.Ok? && r.value.Some? ==>
        "id" in r.value.value && r.value.value["id"] == Int(id) && IdKey !in r.value.value
      ensures collection != null && collection.Valid() && r.Ok? && r.value.Some? ==>
        FromDoc(collection.records[id as nat]) == Ok(r.value.value)
    {
      if collection == null then Err(ValueError)
      else
        match collection.Fetch(id)
        case None => Ok(None)
        case Some(doc) =>
          if |doc| == 0 then Ok(None)
          else
            var d :- FromDoc(doc);
            Ok(Some(d))
    }

    /** `find_all(*filter)`: without filters every record; otherwise the
        records on which the AND-merge of the filters holds, in id order. */
    function FindAll(filters: seq<Operand>): (r: Result<seq<Record>>)
      reads this, collection
      ensures collection == null ==> r == Err(ValueError)
      ensures collection != null && |filters| == 0 ==> r == All()
      ensures collection != null && |filters| > 0 && !AllQueries(filters) ==> r == Err(TypeError)
      ensures collection != null && collection.Valid() && r.Ok? ==> forall i | 0 <= i < |r.value| :: HasId(r.value[i])
    {
      if collection == null then Err(ValueError)
      else if |filters| == 0 then
        FromStoredHaveIds(collection, collection.All());
        All()
      else
        MergeFails(filters, None);
        var expression :- Merged(filters, None);
        var data :- collection.Filter(expression);
        FromStoredHaveIds(collection, data);
        FromDocs(data)
    }

    /** `find_one(*filter)`: without filters the record with id 0; otherwise
        the first match, or `None`. */
    function FindOne(filters: seq<Operand>): (r: Result<Option<Record>>)
      reads this, collection
      ensures |filters| == 0 ==> r == GetById(0)
      ensures |filters| > 0 ==> (r.Ok? <==> FindAll(filters).Ok?)
      ensures |filters| > 0 && r.Ok? ==>
        (r.value.None? <==> |FindAll(filters).value| == 0)
        && (r.value.Some? ==> r.value.value == FindAll(filters).value[0])
    {
      if |filters| == 0 then GetById(0)
      else
        var docs :- FindAll(filters);
        if |docs| > 0 then Ok(Some(docs[0])) else Ok(None)
    }

    /** `delete_by_id(id)`. */
    method DeleteById(id: int) returns (r: Result<bool>)
      requires collection != null ==> collection.Valid()
      modifies collection
      ensures collection == null ==> r == Err(ValueError)
      ensures collection != null ==> collection.Valid()
      ensures collection != null ==> r == Ok(id >= 0 && id as nat in old(collection.records))
      ensures collection != null ==>
        collection.records == map k | k in old(collection.records) && k != id :: old(collection.records)[k]
      ensures collection != null ==> collection.lastId == old(collection.lastId)
    {
      if collection == null {
        return Err(ValueError);
      }
      var ok := collection.Delete(id);
      r := Ok(ok);
    }

    /** `save_all(*documents)`: stores every instance's fields in one call;
        without documents nothing is stored and the answer is `False`. */
    method SaveAll(documents: seq<Document>) returns (r: Result<bool>)
      requires collection != null ==> collection.Valid()
      modifies collection
      ensures collection == null ==> r == Err(ValueError)
      ensures collection != null ==> collection.Valid()
      ensures collection != null ==> r == Ok(|documents| > 0)
      ensures collection != null ==>
        collection.records == Appended(old(collection.records), old(collection.NextId()), Fields(documents))
      ensures collection != null && |documents| > 0 ==> collection.lastId == Some(old(collection.NextId()) + |documents| - 1)
      ensures collection != null && |documents| == 0 ==> collection.lastId == old(collection.lastId)
    {
      if collection == null {
        return Err(ValueError);
      }
      if |documents| == 0 {
        return Ok(false);
      }
      var ok := collection.StoreAll(Fields(documents));
      r := Ok(ok);
    }

    /** `get_or_create(*filter, defaults=...)`: an existing match comes back
        unchanged; otherwise an instance is created from the filter's dict
        with the defaults merged over it, and inserted. */
    method GetOrCreate(filters: seq<Operand>, defaults: seq<(string, Value)>) returns (r: Result<Document>)
      requires collection != null ==> collection.Valid()
      modifies collection
      ensures Merged(filters, None).Err? ==> r == Err(Merged(filters, None).error)
      ensures Merged(filters, None).Ok? && collection == null ==> r == Err(ValueError)
      ensures collection != null ==> collection.Valid()
      ensures collection != null && Merged(filters, None).Ok?
              && old(FindOne([Nested(Merged(filters, None).value)])).Err? ==>
                r == Err(old(FindOne([Nested(Merged(filters, None).value)])).error)
                && collection.records == old(collection.records) && collection.lastId == old(collection.lastId)
      ensures collection != null && Merged(filters, None).Ok?
              && old(FindOne([Nested(Merged(filters, None).value)])).Ok?
              && old(FindOne([Nested(Merged(filters, None).value)])).value.Some? ==>
                && r.Ok?
                && r.value.data == old(FindOne([Nested(Merged(filters, None).value)])).value.value
                && collection.records == old(collection.records) && collection.lastId == old(collection.lastId)
      ensures collection != null && Merged(filters, None).Ok?
              && old(FindOne([Nested(Merged(filters, None).value)])) == Ok(None) ==>
                var created := CreatedFields(Merged(filters, None).value, defaults);
                var id := old(collection.NextId());
                && (created.Err? ==> r == Err(created.error) && collection.records == old(collection.records)
                                     && collection.lastId == old(collection.lastId))
                && (created.Ok? && "id" in created.value && !created.value["id"].Int? ==>
                      r == Err(ValueError) && collection.records == old(collection.records)
                      && collection.lastId == old(collection.lastId))
                && (created.Ok? && !("id" in created.value && !created.value["id"].Int?) ==>
                      && r.Ok?
                      && r.value.data == created.value["id" := Int(id)]
                      && collection.records == old(collection.records)[id := CreatedDoc(created.value, id)]
                      && collection.lastId == Some(id))
    {
      var expression :- Merge(filters, None);
      if collection == null {
        return Err(ValueError);
      }
      var found :- FindOne([Nested(expression)]);
      if found.Some? {
        var model := new Document(this, found.value);
        return Ok(model);
      }
      var generated :- Utils.GenerateDict(defaults);
      r := Create(expression, defaults, generated);
    }

    /** `cls(**merge_dicts(expression.to_dict(), default)).insert()`, with
        `default` the dict generated from the defaults: pydantic rejects an
        `id` that is not an int. */
    method Create(expression: Query, defaults: seq<(string, Value)>, generated: Record) returns (r: Result<Document>)
      requires collection != null && collection.Valid()
      requires Utils.Generate(defaults) == Ok(generated)
      modifies collection
      ensures collection.Valid()
      ensures var created := CreatedFields(expression, defaults);
              var id := old(collection.NextId());
              && (created.Err? ==> r == Err(created.error) && collection.records == old(collection.records)
                                   && collection.lastId == old(collection.lastId))
              && (created.Ok? && "id" in created.value && !created.value["id"].Int? ==>
                    r == Err(ValueError) && collection.records == old(collection.records)
                    && collection.lastId == old(collection.lastId))
              && (created.Ok? && !("id" in created.value && !created.value["id"].Int?) ==>
                    && r.Ok?
                    && r.value.data == created.value["id" := Int(id)]
                    && collection.records == old(collection.records)[id := CreatedDoc(created.value, id)]
                    && collection.lastId == Some(id))
    {
      var leaves :- ToDict(expression);
      var fields := Utils.MergeDicts(leaves, generated);
      if "id" in fields && !fields["id"].Int? {
        return Err(ValueError);
      }
      var model := new Document(this, fields);
      var _ := model.Insert();
      r := Ok(model);
    }

    /** `update_or_create(*filter, defaults=...)`: the defaults are generated
        first; an existing match is updated with their top-level items as
        keywords, otherwise an instance is created as by `get_or_create`. */
    method UpdateOrCreate(filters: seq<Operand>, defaults: seq<(string, Value)>) returns (r: Result<Document>)
      requires collection != null ==> collection.Valid()
      modifies collection
      ensures Merged(filters, None).Err? ==> r == Err(Merged(filters, None).error)
      ensures Merged(filters, None).Ok? && Utils.Generate(defaults).Err? ==> r == Err(Utils.Generate(defaults).error)
      ensures Merged(filters, None).Ok? && Utils.Generate(defaults).Ok? && collection == null ==> r == Err(ValueError)
      ensures collection != null ==> collection.Valid()
      ensures collection != null && Merged(filters, None).Ok? && Utils.Generate(defaults).Ok?
              && old(FindOne([Nested(Merged(filters, None).value)])).Err? ==>
                r == Err(old(FindOne([Nested(Merged(filters, None).value)])).error)
                && collection.records == old(collection.records) && collection.lastId == old(collection.lastId)
      ensures collection != null && Merged(filters, None).Ok? && Utils.Generate(defaults).Ok?
              && old(FindOne([Nested(Merged(filters, None).value)])).Ok?
              && old(FindOne([Nested(Merged(filters, None).value)])).value.Some? ==>
                var updated := SetFields(old(FindOne([Nested(Merged(filters, None).value)])).value.value,
                                         UpdateSteps([], DefaultKeywords(defaults).value));
                && (updated.1.Some? ==> r == Err(updated.1.value) && collection.records == old(collection.records))
                && (updated.1.None? ==>
                      && r.Ok?
                      && r.value.data == updated.0
                      && collection.records == WrittenBack(old(collection.records), updated.0))
                && collection.lastId == old(collection.lastId)
      ensures collection != null && Merged(filters, None).Ok? && Utils.Generate(defaults).Ok?
              && old(FindOne([Nested(Merged(filters, None).value)])) == Ok(None) ==>
                var created := CreatedFields(Merged(filters, None).value, defaults);
                var id := old(collection.NextId());
                && (created.Err? ==> r == Err(created.error) && collection.records == old(collection.records)
                                     && collection.lastId == old(collection.lastId))
                && (created.Ok? && "id" in created.value && !created.value["id"].Int? ==>
                      r == Err(ValueError) && collection.records == old(collection.records)
                      && collection.lastId == old(collection.lastId))
                && (created.Ok? && !("id" in created.value && !created.value["id"].Int?) ==>
                      && r.Ok?
                      && r.value.data == created.value["id" := Int(id)]
                      && collection.records == old(collection.records)[id := CreatedDoc(created.value, id)]
                      && collection.lastId == Some(id))
    {
      var expression :- Merge(filters, None);
      var generated :- Utils.GenerateDict(defaults);
      if collection == null {
        return Err(ValueError);
      }
      var found :- FindOne([Nested(expression)]);
      if found.Some? {
        var model := new Document(this, found.value);
        var keywords := DefaultKeywords(defaults).value;
        var updated := model.Update([], keywords);
        if updated.Err? {
          return Err(updated.error);
        }
        return Ok(model);
      }
      r := Create(expression, defaults, generated);
    }
  }

  /** An instance of a document class, with its fields. */
  class Document {
    const cls: DocumentClass
    var data: Record

    ghost predicate Valid()
      reads this
    {
      HasId(data)
    }

    function Id(): int
      reads this
      requires Valid()
    {
      data["id"].i
    }

    /** `cls(**fields)`: the `id` field defaults to `cls._generate_id()`. */
    constructor (cls: DocumentClass, fields: Record)
      requires "id" in fields ==> fields["id"].Int?
      ensures this.cls == cls && Valid()
      ensures data == if "id" in fields then fields else fields["id" := Int(cls.GenerateId())]
    {
      this.cls := cls;
      data := if "id" in fields then fields else fields["id" := Int(cls.GenerateId())];
    }

    /** `insert()`: the fields are stored, and the instance takes the id the
        store handed out; nothing else about it changes. */
    method Insert() returns (r: Result<Document>)
      requires Valid()
      requires cls.collection != null ==> cls.collection.Valid()
      modifies this, cls.collection
      ensures Valid()
      ensures cls.collection == null ==> r == Err(ValueError) && data == old(data)
      ensures cls.collection != null ==> r == Ok(this) && cls.collection.Valid()
      ensures cls.collection != null ==>
        var id := old(cls.collection.NextId());
        && data == old(data)["id" := Int(id)]
        && cls.collection.records == old(cls.collection.records)[id := old(data)[IdKey := Int(id)]]
        && cls.collection.lastId == Some(id)
    {
      if cls.collection == null {
        return Err(ValueError);
      }
      var id := cls.collection.Store(data);
      data := data["id" := Int(id)];
      r := Ok(this);
    }

    /** `update(fields=..., **kwargs)`: the assignments are made in order,
        then the fields replace the stored record under the instance's id.
        An assignment that raises leaves the earlier ones made and the store
        untouched. */
    method Update(fields: seq<(FieldKey, Value)>, kwargs: seq<(string, Value)>) returns (r: Result<bool>)
      requires Valid()
      requires cls.collection != null ==> cls.collection.Valid()
      modifies this, cls.collection
      ensures Valid()
      ensures cls.collection == null ==> r == Err(ValueError) && data == old(data)
      ensures cls.collection != null ==> cls.collection.Valid()
      ensures cls.collection != null ==> data == SetFields(old(data), UpdateSteps(fields, kwargs)).0
      ensures cls.collection != null && SetFields(old(data), UpdateSteps(fields, kwargs)).1.Some? ==>
        r == Err(SetFields(old(data), UpdateSteps(fields, kwargs)).1.value)
        && cls.collection.records == old(cls.collection.records)
      ensures cls.collection != null && SetFields(old(data), UpdateSteps(fields, kwargs)).1.None? ==>
        r == Ok(Id() >= 0 && Id() as nat in old(cls.collection.records))
        && cls.collection.records
           == if r.value then old(cls.collection.records)[Id() as nat := data[IdKey := Int(Id())]]
              else old(cls.collection.records)
      ensures cls.collection != null ==> cls.collection.lastId == old(cls.collection.lastId)
    {
      if cls.collection == null {
        return Err(ValueError);
      }
      var steps := UpdateSteps(fields, kwargs);
      var failed := Assign(steps);
      if failed.Some? {
        return Err(failed.value);
      }
      var ok := cls.collection.Update(Id(), data);
      r := Ok(ok);
    }

    /** The assignment loop of `update`: the assignments are made in order
        until one raises, whose error is given back. */
    method Assign(steps: seq<(seq<string>, Value)>) returns (failed: Option<Error>)
      requires Valid() && NonEmptyKeys(steps)
      modifies this
      ensures Valid()
      ensures (data, failed) == SetFields(old(data), steps)
    {
      var i := 0;
      while i < |steps|
        invariant 0 <= i <= |steps|
        invariant Valid()
        invariant SetFields(data, steps[i..]) == SetFields(old(data), steps)
      {
        SetFieldsAt(data, steps, i);
        var next := SetField(data, steps[i].0, steps[i].1);
        if next.Err? {
          return Some(next.error);
        }
        SetFieldKeepsId(data, steps[i].0, steps[i].1);
        data := next.value;
        i := i + 1;
      }
      assert steps[i..] == [];
      failed := None;
    }

    /** `save(**kwargs)`: an instance whose id holds a record is updated with
        the keywords, any other is inserted. */
    method Save(kwargs: seq<(string, Value)>) returns (r: Result<Document>)
      requires Valid()
      requires cls.collection != null ==> cls.collection.Valid()
      modifies this, cls.collection
      ensures Valid()
      ensures cls.collection == null ==> r == Err(ValueError) && data == old(data)
      ensures cls.collection != null ==> cls.collection.Valid()
      ensures cls.collection != null && old(Id()) >= 0 && old(Id()) as nat in old(cls.collection.records) ==>
        var updated := SetFields(old(data), UpdateSteps([], kwargs));
        && data == updated.0
        && (updated.1.Some? ==> r == Err(updated.1.value) && cls.collection.records == old(cls.collection.records))
        && (updated.1.None? ==> r == Ok(this) && cls.collection.records == WrittenBack(old(cls.collection.records), data))
        && cls.collection.lastId == old(cls.collection.lastId)
      ensures cls.collection != null && !(old(Id()) >= 0 && old(Id()) as nat in old(cls.collection.records)) ==>
        var id := old(cls.collection.NextId());
        && r == Ok(this)
        && data == old(data)["id" := Int(id)]
        && cls.collection.records == old(cls.collection.records)[id := old(data)[IdKey := Int(id)]]
        && cls.collection.lastId == Some(id)
    {
      if cls.collection == null {
        return Err(ValueError);
      }
      var existing := cls.collection.Fetch(Id());
      if existing.Some? && |existing.value| > 0 {
        var updated := Update([], kwargs);
        if updated.Err? {
          return Err(updated.error);
        }
        r := Ok(this);
      } else {
        r := Insert();
      }
    }

    /** `delete()`: the record under the instance's id is removed. */
    method Delete() returns (r: Result<bool>)
      requires Valid()
      requires cls.collection != null ==> cls.collection.Valid()
      modifies cls.collection
      ensures cls.collection == null ==> r == Err(ValueError)
      ensures cls.collection != null ==> cls.collection.Valid()
      ensures cls.collection != null ==> r == Ok(Id() >= 0 && Id() as nat in old(cls.collection.records))
      ensures cls.collection != null ==>
        cls.collection.records == map k | k in old(cls.collection.records) && k != Id() :: old(cls.collection.records)[k]
      ensures cls.collection != null ==> cls.collection.lastId == old(cls.collection.lastId)
    {
      if cls.collection == null {
        return Err(ValueError);
      }
      var ok := cls.collection.Delete(Id());
      r := Ok(ok);
    }
  }

  /** The fields of each instance. */
  function Fields(documents: seq<Document>): (r: seq<Record>)
    reads set d | d in documents
    ensures |r| == |documents|
    ensures forall i | 0 <= i < |documents| :: r[i] == documents[i].data
  {
    if |documents| == 0 then [] else [documents[0].data] + Fields(documents[1..])
  }

  /** The records of `rs`, in order, on which every filter holds. */
  function HoldingAll(filters: seq<Operand>, rs: seq<Record>): seq<Record>
    requires forall i | 0 <= i < |rs| :: AllTruthValued(filters, rs[i])
    decreases |rs|
  {
    if |rs| == 0 then []
    else (if AllHold(filters, rs[0]) then [rs[0]] else []) + HoldingAll(filters, rs[1..])
  }

  /** Filtering by a query that evaluates, on every record, to whether all
      the filters hold keeps the records on which they all hold. */
  lemma {:induction false} MatchingHoldingAll(e: Query, filters: seq<Operand>, rs: seq<Record>)
    requires forall i | 0 <= i < |rs| :: AllTruthValued(filters, rs[i])
    requires forall i | 0 <= i < |rs| :: Eval(e, rs[i]) == Ok(Bool(AllHold(filters, rs[i])))
    ensures Matching(e, rs) == HoldingAll(filters, rs)
    decreases |rs|
  {
    if |rs| > 0 {
      assert forall i | 0 <= i < |rs| - 1 :: rs[1..][i] == rs[i + 1];
      MatchingHoldingAll(e, filters, rs[1..]);
    }
  }

  /** The AND-merge of filters that evaluate to booleans on every stored
      record evaluates, on each record `all()` lists, to whether all of them
      hold there. */
  lemma MergedOnListing(c: Collection, filters: seq<Operand>)
    requires c.Valid()
    requires |filters| >= 1 && AllQueries(filters)
    requires forall id | id in c.records :: AllTruthValued(filters, c.records[id])
    ensures Merged(filters, None).Ok?
    ensures forall i | 0 <= i < |c.All()| :: AllTruthValued(filters, c.All()[i])
    ensures forall i | 0 <= i < |c.All()| ::
      Eval(Merged(filters, None).value, c.All()[i]) == Ok(Bool(AllHold(filters, c.All()[i])))
  {
    MergeFails(filters, None);
    forall i | 0 <= i < |c.All()|
      ensures AllTruthValued(filters, c.All()[i])
      ensures Eval(Merged(filters, None).value, c.All()[i]) == Ok(Bool(AllHold(filters, c.All()[i])))
    {
      MergeIsConjunction(filters, c.All()[i]);
    }
  }

  /** A record is kept exactly when it is in `rs` and all the filters hold
      on it. */
  lemma {:induction false} HoldingAllMembers(filters: seq<Operand>, rs: seq<Record>, x: Record)
    requires forall i | 0 <= i < |rs| :: AllTruthValued(filters, rs[i])
    ensures x in HoldingAll(filters, rs) <==> x in rs && AllTruthValued(filters, x) && AllHold(filters, x)
    decreases |rs|
  {
    if |rs| > 0 {
      assert forall i | 0 <= i < |rs| - 1 :: rs[1..][i] == rs[i + 1];
      HoldingAllMembers(filters, rs[1..], x);
      assert rs == [rs[0]] + rs[1..];
    }
  }

  /** `find_all` with filters that evaluate to booleans on every stored
      record gives the instances of the stored records on which all of them
      hold, in id order. */
  lemma FindAllInOrder(cls: DocumentClass, filters: seq<Operand>)
    requires cls.collection != null && cls.collection.Valid()
    requires |filters| >= 1 && AllQueries(filters)
    requires forall id | id in cls.collection.records :: AllTruthValued(filters, cls.collection.records[id])
    ensures forall i | 0 <= i < |cls.collection.All()| :: AllTruthValued(filters, cls.collection.All()[i])
    ensures FromDocs(HoldingAll(filters, cls.collection.All())).Ok?
    ensures cls.FindAll(filters) == FromDocs(HoldingAll(filters, cls.collection.All()))
  {
    var c := cls.collection;
    MergedOnListing(c, filters);
    var e := Merged(filters, None).value;
    var rs := c.All();
    MatchingHoldingAll(e, filters, rs);
    var h := HoldingAll(filters, rs);
    forall i | 0 <= i < |h| ensures IdKey in h[i] {
      HoldingAllMembers(filters, rs, h[i]);
    }
    assert Filtered(e, rs) == Ok(h);
  }

  /** Hence, one instance per stored record on which all the filters hold,
      and no other. */
  lemma FindAllIsConjunction(cls: DocumentClass, filters: seq<Operand>, x: Record)
    requires cls.collection != null && cls.collection.Valid()
    requires |filters| >= 1 && AllQueries(filters)
    requires forall id | id in cls.collection.records :: AllTruthValued(filters, cls.collection.records[id])
    ensures cls.FindAll(filters).Ok?
    ensures x in cls.FindAll(filters).value <==>
      exists id | id in cls.collection.records ::
        AllHold(filters, cls.collection.records[id]) && FromDoc(cls.collection.records[id]) == Ok(x)
  {
    var c := cls.collection;
    FindAllInOrder(cls, filters);
    var h := HoldingAll(filters, c.All());
    var found := FromDocs(h).value;
    if x in found {
      var j :| 0 <= j < |found| && found[j] == x;
      HoldingAllMembers(filters, c.All(), h[j]);
      AllListsStore(c, h[j]);
    }
    if exists id | id in c.records :: AllHold(filters, c.records[id]) && FromDoc(c.records[id]) == Ok(x) {
      var id :| id in c.records && AllHold(filters, c.records[id]) && FromDoc(c.records[id]) == Ok(x);
      var rec := c.records[id];
      AllListsStore(c, rec);
      HoldingAllMembers(filters, c.All(), rec);
      var j :| 0 <= j < |h| && h[j] == rec;
      assert found[j] == x;
    }
  }

  /** The first record kept is the one with the least id on which all the
      filters hold. */
  lemma FirstHoldingLeast(c: Collection, filters: seq<Operand>)
    requires c.Valid()
    requires |filters| >= 1 && AllQueries(filters)
    requires forall id | id in c.records :: AllTruthValued(filters, c.records[id])
    requires forall i | 0 <= i < |c.All()| :: AllTruthValued(filters, c.All()[i])
    requires |HoldingAll(filters, c.All())| > 0
    ensures exists id | id in c.records ::
      && HoldingAll(filters, c.All())[0] == c.records[id]
      && AllHold(filters, c.records[id])
      && forall j | j in c.records && j < id :: !AllHold(filters, c.records[j])
  {
    MergedOnListing(c, filters);
    var e := Merged(filters, None).value;
    MatchingHoldingAll(e, filters, c.All());
    FirstMatchLeast(e, c.records, c.NextId());
    var id :| id in c.records && id < c.NextId() && HoldingAll(filters, c.All())[0] == c.records[id]
      && Holds(e, c.records[id]) && forall j | j in c.records && j < id :: !Holds(e, c.records[j]);
    forall j | j in c.records ensures Holds(e, c.records[j]) <==> AllHold(filters, c.records[j]) {
      MergeIsConjunction(filters, c.records[j]);
    }
  }

  /** `find_one` with such filters gives `None` exactly when no stored record
      satisfies all of them, and otherwise the instance of the one with the
      least id. */
  lemma FindOneMatches(cls: DocumentClass, filters: seq<Operand>)
    requires cls.collection != null && cls.collection.Valid()
    requires |filters| >= 1 && AllQueries(filters)
    requires forall id | id in cls.collection.records :: AllTruthValued(filters, cls.collection.records[id])
    ensures cls.FindOne(filters).Ok?
    ensures cls.FindOne(filters).value.None? <==>
      forall id | id in cls.collection.records :: !AllHold(filters, cls.collection.records[id])
    ensures cls.FindOne(filters).value.Some? ==>
      exists id | id in cls.collection.records ::
        && AllHold(filters, cls.collection.records[id])
        && FromDoc(cls.collection.records[id]) == Ok(cls.FindOne(filters).value.value)
        && forall j | j in cls.collection.records && j < id :: !AllHold(filters, cls.collection.records[j])
  {
    var c := cls.collection;
    FindAllIsConjunction(cls, filters, map[]);
    FindAllInOrder(cls, filters);
    if cls.FindOne(filters).value.Some? {
      FirstHoldingLeast(c, filters);
    }
    if exists id | id in c.records :: AllHold(filters, c.records[id]) {
      var id :| id in c.records && AllHold(filters, c.records[id]);
      var x := FromDoc(c.records[id]).value;
      FindAllIsConjunction(cls, filters, x);
    }
  }

  /** The instances built from stored records have int ids. */
  lemma FromStoredHaveIds(c: Collection, docs: seq<Record>)
    ensures c.Valid() && (forall x | x in docs :: x in c.All()) && FromDocs(docs).Ok? ==>
      forall i | 0 <= i < |docs| :: HasId(FromDocs(docs).value[i])
  {
    if c.Valid() && (forall x | x in docs :: x in c.All()) && FromDocs(docs).Ok? {
      forall i | 0 <= i < |docs| ensures HasId(FromDocs(docs).value[i]) {
        AllListsStore(c, docs[i]);
      }
    }
  }

  /** Every stored record carries its id. */
  lemma StoredCarryIds(c: Collection)
    ensures c.Valid() ==> forall i | 0 <= i < |c.All()| :: IdKey in c.All()[i] && c.All()[i][IdKey].Int?
  {
    if c.Valid() {
      forall i | 0 <= i < |c.All()| ensures IdKey in c.All()[i] && c.All()[i][IdKey].Int? {
        AllListsStore(c, c.All()[i]);
      }
    }
  }
}
