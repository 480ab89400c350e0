/** The dict helpers under the query engine (unqdantic/utils.py): a right-biased
    deep merge, the expansion of dotted keys into nested dicts, and the walks
    of a key path through nested dicts and through nested records. */
module Utils {
  import opened Values
  import opened Strings

  // ---------------------------------------------------------------------------
  // merge_dicts
  // ---------------------------------------------------------------------------

  /** The merge of two dicts: every key of either side; where both sides hold
      a dict the two are merged recursively, otherwise `b` wins. */
  function Merge(a: Record, b: Record): (r: Record)
    ensures r.Keys == a.Keys + b.Keys
    ensures forall k | k in b && !(k in a && a[k].Obj? && b[k].Obj?) :: r[k] == b[k]
    ensures forall k | k in a && k !in b :: r[k] == a[k]
    decreases Obj(a)
  {
    map k | k in a.Keys + b.Keys ::
      if k in a && k in b && a[k].Obj? && b[k].Obj? then Obj(Merge(a[k].fields, b[k].fields))
      else if k in b then b[k]
      else a[k]
  }

  /** `merge_dicts` as the source runs it: a fresh result filled key by key
      from the union of the two key sets, in no particular order. */
  method MergeDicts(a: Record, b: Record) returns (result: Record)
    ensures result == Merge(a, b)
    decreases Obj(a)
  {
    var keys := a.Keys + b.Keys;
    var todo := keys;
    result := map[];
    while todo != {}
      invariant todo <= keys
      invariant result.Keys == keys - todo
      invariant forall k | k in result :: result[k] == Merge(a, b)[k]
      decreases todo
    {
      var key :| key in todo;
      if key in a && key in b && a[key].Obj? && b[key].Obj? {
        var sub := MergeDicts(a[key].fields, b[key].fields);
        result := result[key := Obj(sub)];
      } else if key in a {
        result := result[key := if key in b then b[key] else a[key]];
      } else {
        result := result[key := b[key]];
      }
      todo := todo - {key};
    }
  }

  lemma MergeRightEmpty(a: Record)
    ensures Merge(a, map[]) == a
  {
  }

  lemma MergeLeftEmpty(b: Record)
    ensures Merge(map[], b) == b
  {
  }

  /** Merging a dict with itself changes nothing, at any depth. */
  lemma {:induction false} MergeIdempotent(a: Record)
    ensures Merge(a, a) == a
    decreases Obj(a)
  {
    forall k | k in a ensures Merge(a, a)[k] == a[k] {
      if a[k].Obj? {
        MergeIdempotent(a[k].fields);
      }
    }
  }

  /** Along any key path, a non-dict value that `b` holds wins over whatever
      `a` holds there. */
  lemma {:induction false} MergeRightWins(a: Record, b: Record, p: seq<string>)
    requires Find(Obj(b), p).Some? && !Find(Obj(b), p).value.Obj?
    ensures Find(Obj(Merge(a, b)), p) == Find(Obj(b), p)
    decreases |p|
  {
    var k := p[0];
    if k in a && a[k].Obj? && b[k].Obj? {
      MergeRightWins(a[k].fields, b[k].fields, p[1..]);
    }
  }

  /** A path whose first key `b` lacks keeps what `a` holds there. */
  lemma MergeLeftKept(a: Record, b: Record, p: seq<string>)
    requires |p| >= 1 && p[0] !in b
    ensures Find(Obj(Merge(a, b)), p) == Find(Obj(a), p)
  {
  }

  /** A path whose first key only `b` has leads where it leads in `b`. */
  lemma MergeRightKept(a: Record, b: Record, p: seq<string>)
    requires |p| >= 1 && p[0] !in a && p[0] in b
    ensures Find(Obj(Merge(a, b)), p) == Find(Obj(b), p)
  {
  }

  // ---------------------------------------------------------------------------
  // Walking a key path
  // ---------------------------------------------------------------------------

  /** One step of `recursively_get_item`: `d.get(key)` when `d` is a dict,
      `None` otherwise. */
  function GetStep(d: Value, key: string): Value {
    if d.Obj? && key in d.fields then d.fields[key] else Null
  }

  /** `recursively_get_item`: the value at the end of the key path, or `None`
      once a key is missing or an intermediate value is not a dict. */
  function GetItem(obj: Value, keys: seq<string>): (r: Value)
    ensures |keys| == 0 ==> r == obj
    ensures |keys| > 0 && !obj.Obj? ==> r == Null
    decreases |keys|
  {
    if |keys| == 0 then obj
    else
      var r := GetItem(GetStep(obj, keys[0]), keys[1..]);
      assert |keys| > 0 && !obj.Obj? ==> r == GetItem(Null, keys[1..]) == Null;
      r
  }

  /** Where the key path leads, if every key on it is present (the value
      found there may itself be `None`). */
  function Find(v: Value, keys: seq<string>): Option<Value>
    decreases |keys|
  {
    if |keys| == 0 then Some(v)
    else if v.Obj? && keys[0] in v.fields then Find(v.fields[keys[0]], keys[1..])
    else None
  }

  /** The fold of `recursively_get_item` gives the value `Find` reaches and
      `None` for a path that is not there. */
  lemma {:induction false} GetItemFind(v: Value, keys: seq<string>)
    ensures GetItem(v, keys) == match Find(v, keys) case Some(w) => w case None => Null
    decreases |keys|
  {
    if |keys| > 0 {
      GetItemFind(GetStep(v, keys[0]), keys[1..]);
    }
  }

  /** Walking `p + q` is walking `p` and then `q` from where `p` ended. */
  lemma {:induction false} GetItemAppend(v: Value, p: seq<string>, q: seq<string>)
    ensures GetItem(v, p + q) == GetItem(GetItem(v, p), q)
    decreases |p|
  {
    if |p| > 0 {
      assert (p + q)[0] == p[0] && (p + q)[1..] == p[1..] + q;
      GetItemAppend(GetStep(v, p[0]), p[1..], q);
    } else {
      assert p + q == q;
    }
  }

  /** `recursively_get_attr`: `getattr` along the path; a missing attribute, or
      a value that is not a record, raises `AttributeError`. */
  function GetAttr(obj: Value, keys: seq<string>): (r: Result<Value>)
    ensures r.Ok? <==> Find(obj, keys).Some?
    ensures r.Err? ==> r.error == AttributeError
    decreases |keys|
  {
    if |keys| == 0 then Ok(obj)
    else if obj.Obj? && keys[0] in obj.fields then GetAttr(obj.fields[keys[0]], keys[1..])
    else Err(AttributeError)
  }

  /** The attribute walk succeeds exactly where the path is present, and then
      it reaches the value the dict walk reaches. */
  lemma {:induction false} GetAttrAgreesWithGetItem(obj: Value, keys: seq<string>)
    ensures GetAttr(obj, keys).Ok? <==> Find(obj, keys).Some?
    ensures GetAttr(obj, keys).Ok? ==> GetAttr(obj, keys).value == GetItem(obj, keys)
    ensures GetAttr(obj, keys).Err? ==> GetAttr(obj, keys).error == AttributeError
    decreases |keys|
  {
    GetItemFind(obj, keys);
    if |keys| > 0 && obj.Obj? && keys[0] in obj.fields {
      GetAttrAgreesWithGetItem(obj.fields[keys[0]], keys[1..]);
    }
  }

  // ---------------------------------------------------------------------------
  // generate_dict
  // ---------------------------------------------------------------------------

  /** The inner walk of `generate_dict` for one key split at the dots: a missing
      key part gets a fresh dict (or, at the end, the value); a present one is
      left alone; a present value that is not a dict in the middle of the path
      cannot be descended into and raises `TypeError`. */
  function Assign(m: Record, parts: seq<string>, v: Value): Result<Record>
    requires |parts| >= 1
    decreases |parts|
  {
    var k := parts[0];
    if |parts| == 1 then Ok(if k in m then m else m[k := v])
    else
      var child := if k in m then m[k] else Obj(map[]);
      if !child.Obj? then Err(TypeError)
      else
        var sub :- Assign(child.fields, parts[1..], v);
        Ok(m[k := Obj(sub)])
  }

  /** `generate_dict` from a partial result, over the remaining items. */
  function GenerateFrom(acc: Record, items: seq<(string, Value)>): Result<Record>
    decreases |items|
  {
    if |items| == 0 then Ok(acc)
    else
      var next :- Assign(acc, Split(items[0].0, '.'), items[0].1);
      GenerateFrom(next, items[1..])
  }

  /** `generate_dict` of a dict given as its items in insertion order. */
  function Generate(items: seq<(string, Value)>): Result<Record> {
    GenerateFrom(map[], items)
  }

  /** `generate_dict` as the source runs it: one pass over the items, each key
      walked into the result built so far. */
  method GenerateDict(data: seq<(string, Value)>) returns (result: Result<Record>)
    ensures result == Generate(data)
  {
    var acc: Record := map[];
    var i := 0;
    while i < |data|
      invariant 0 <= i <= |data|
      invariant GenerateFrom(acc, data[i..]) == Generate(data)
    {
      assert data[i..][1..] == data[i + 1..];
      var next := Assign(acc, Split(data[i].0, '.'), data[i].1);
      if next.Err? {
        return Err(next.error);
      }
      acc := next.value;
      i := i + 1;
    }
    result := Ok(acc);
  }

  /** The nested chain `{k1: {k2: ... {kn: v}}}`. */
  function Chain(parts: seq<string>, v: Value): (r: Record)
    requires |parts| >= 1
    ensures r.Keys == {parts[0]}
    decreases |parts|
  {
    if |parts| == 1 then map[parts[0] := v]
    else map[parts[0] := Obj(Chain(parts[1..], v))]
  }

  /** Walking a key into an empty dict builds the chain for it. */
  lemma {:induction false} AssignIntoEmpty(parts: seq<string>, v: Value)
    requires |parts| >= 1
    ensures Assign(map[], parts, v) == Ok(Chain(parts, v))
    decreases |parts|
  {
    if |parts| > 1 {
      AssignIntoEmpty(parts[1..], v);
    }
  }

  /** The chain holds `v` at the end of its path. */
  lemma {:induction false} ChainLookup(parts: seq<string>, v: Value)
    requires |parts| >= 1
    ensures Find(Obj(Chain(parts, v)), parts) == Some(v)
    ensures GetItem(Obj(Chain(parts, v)), parts) == v
    decreases |parts|
  {
    if |parts| > 1 {
      ChainLookup(parts[1..], v);
    }
    GetItemFind(Obj(Chain(parts, v)), parts);
  }

  /** A single dotted key expands to the chain of its parts: `"info.money"`
      with `300` gives `{"info": {"money": 300}}`, and a key without dots maps
      straight to its value. */
  lemma GenerateSingle(key: string, v: Value)
    ensures Generate([(key, v)]) == Ok(Chain(Split(key, '.'), v))
  {
    var parts := Split(key, '.');
    AssignIntoEmpty(parts, v);
    assert [(key, v)][1..] == [];
    assert GenerateFrom(Chain(parts, v), []) == Ok(Chain(parts, v));
  }

  /** Round trip: the dict generated from the dot-joined key path holds the
      value at that path. */
  lemma GenerateThenGetItem(keys: seq<string>, v: Value)
    requires |keys| >= 1 && NoSep(keys, '.')
    ensures Generate([(Join(keys, '.'), v)]).Ok?
    ensures GetItem(Obj(Generate([(Join(keys, '.'), v)]).value), keys) == v
  {
    SplitJoin(keys, '.');
    GenerateSingle(Join(keys, '.'), v);
    ChainLookup(keys, v);
  }

  /** Walking a key never overwrites: every non-dict value already reachable
      in the dict is still there, at the same path, afterwards. */
  lemma {:induction false} AssignKeeps(m: Record, parts: seq<string>, v: Value, q: seq<string>)
    requires |parts| >= 1 && Assign(m, parts, v).Ok?
    requires Find(Obj(m), q).Some? && !Find(Obj(m), q).value.Obj?
    ensures Find(Obj(Assign(m, parts, v).value), q) == Find(Obj(m), q)
    decreases |parts|
  {
    var m' := Assign(m, parts, v).value;
    var k := parts[0];
    if q[0] == k && |parts| > 1 {
      var child := m[k];
      AssignKeeps(child.fields, parts[1..], v, q[1..]);
    }
  }

  /** Walking a key puts the value at its path, unless the path was already
      there, in which case what was there stays. */
  lemma {:induction false} AssignPlaces(m: Record, parts: seq<string>, v: Value)
    requires |parts| >= 1 && Assign(m, parts, v).Ok?
    ensures Find(Obj(Assign(m, parts, v).value), parts)
         == if Find(Obj(m), parts).Some? then Find(Obj(m), parts) else Some(v)
    decreases |parts|
  {
    var k := parts[0];
    if |parts| > 1 {
      var child := if k in m then m[k] else Obj(map[]);
      AssignPlaces(child.fields, parts[1..], v);
    }
  }

  /** Generating from several keys: keys that share a prefix land in the same
      nested dict, so each key's path is present in the result. */
  lemma {:induction false} GenerateFromAllPresent(acc: Record, items: seq<(string, Value)>, i: nat)
    requires GenerateFrom(acc, items).Ok? && i < |items|
    ensures Find(Obj(GenerateFrom(acc, items).value), Split(items[i].0, '.')).Some?
    decreases |items|
  {
    var next := Assign(acc, Split(items[0].0, '.'), items[0].1).value;
    if i == 0 {
      AssignPlaces(acc, Split(items[0].0, '.'), items[0].1);
      GenerateFromKeeps(next, items[1..], Split(items[0].0, '.'));
    } else {
      GenerateFromAllPresent(next, items[1..], i - 1);
    }
  }

  /** Later keys keep every path already present, whatever value it holds. */
  lemma {:induction false} GenerateFromKeeps(acc: Record, items: seq<(string, Value)>, q: seq<string>)
    requires GenerateFrom(acc, items).Ok? && Find(Obj(acc), q).Some?
    ensures Find(Obj(GenerateFrom(acc, items).value), q).Some?
    decreases |items|
  {
    if |items| > 0 {
      var next := Assign(acc, Split(items[0].0, '.'), items[0].1).value;
      AssignKeepsPath(acc, Split(items[0].0, '.'), items[0].1, q);
      GenerateFromKeeps(next, items[1..], q);
    }
  }

  /** A present path stays present after a key is walked in. */
  lemma {:induction false} AssignKeepsPath(m: Record, parts: seq<string>, v: Value, q: seq<string>)
    requires |parts| >= 1 && Assign(m, parts, v).Ok?
    requires Find(Obj(m), q).Some?
    ensures Find(Obj(Assign(m, parts, v).value), q).Some?
    decreases |parts|
  {
    var k := parts[0];
    if |q| > 0 && q[0] == k && |parts| > 1 {
      AssignKeepsPath(m[k].fields, parts[1..], v, q[1..]);
    }
  }
}
