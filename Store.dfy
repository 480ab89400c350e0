/** The collection under a document class (unqdantic/core.py's `Collection`,
    a wrapper over an unqlite collection), as an in-memory store: records
    are kept under integer ids handed out in increasing order from 0, and a
    stored record carries its id under the key `__id`, as unqlite returns it. */
module Store {
  import opened Values
  import Expression

  /** The key under which a stored record carries its id. */
  const IdKey: string := "__id"

  /** The records stored under the ids below `bound`, in increasing id order. */
  function Listed(records: map<nat, Record>, bound: nat): (r: seq<Record>)
    ensures |r| <= bound
    decreases bound
  {
    if bound == 0 then []
    else Listed(records, bound - 1) + (if bound - 1 in records then [records[bound - 1]] else [])
  }

  /** A record is listed exactly when it is stored under some id below the
      bound. */
  lemma {:induction false} ListedMembers(records: map<nat, Record>, bound: nat, x: Record)
    ensures x in Listed(records, bound) <==> exists id | id in records && id < bound :: records[id] == x
    decreases bound
  {
    if bound > 0 {
      ListedMembers(records, bound - 1, x);
      if x in Listed(records, bound) && x !in Listed(records, bound - 1) {
        assert records[bound - 1] == x;
      }
    }
  }

  /** Ids beyond the bound do not affect the listing. */
  lemma {:induction false} ListedIgnoresLater(records: map<nat, Record>, bound: nat, id: nat, x: Record)
    requires id >= bound
    ensures Listed(records[id := x], bound) == Listed(records, bound)
    decreases bound
  {
    if bound > 0 {
      ListedIgnoresLater(records, bound - 1, id, x);
    }
  }

  /** The records of `rs` on which the query holds, in their order in `rs`. */
  function Matching(q: Expression.Query, rs: seq<Record>): seq<Record>
    decreases |rs|
  {
    if |rs| == 0 then []
    else (if Expression.Holds(q, rs[0]) then [rs[0]] else []) + Matching(q, rs[1..])
  }

  /** `collection.filter(query)`: the records, in order, on which the query
      evaluates to a true value; a query that raises on a record raises. */
  function Filtered(q: Expression.Query, rs: seq<Record>): (r: Result<seq<Record>>)
    ensures r.Ok? ==> forall x | x in r.value :: x in rs && Expression.Holds(q, x)
    ensures r.Ok? ==> forall i | 0 <= i < |rs| :: Expression.Holds(q, rs[i]) ==> rs[i] in r.value
    ensures r.Ok? ==> r.value == Matching(q, rs)
    ensures r.Err? <==> exists i | 0 <= i < |rs| :: Expression.Eval(q, rs[i]).Err?
    decreases |rs|
  {
    if |rs| == 0 then Ok([])
    else
      var e := Expression.Eval(q, rs[0]);
      if e.Err? then Err(e.error)
      else
        var rest := Filtered(q, rs[1..]);
        assert rest.Err? <==> exists i | 1 <= i < |rs| :: Expression.Eval(q, rs[i]).Err? by {
          if rest.Err? {
            var j :| 0 <= j < |rs[1..]| && Expression.Eval(q, rs[1..][j]).Err?;
            assert rs[1..][j] == rs[j + 1];
          }
        }
        if rest.Err? then Err(rest.error)
        else
          assert [] + rest.value == rest.value;
          MatchingKeeps(q, rs);
          Ok(if Truthy(e.value) then [rs[0]] + rest.value else rest.value)
  }

  /** `Matching` keeps only records of `rs` on which the query holds, and
      every such record. */
  lemma MatchingKeeps(q: Expression.Query, rs: seq<Record>)
    ensures forall x | x in Matching(q, rs) :: x in rs && Expression.Holds(q, x)
    ensures forall i | 0 <= i < |rs| :: Expression.Holds(q, rs[i]) ==> rs[i] in Matching(q, rs)
  {
    forall x | x in Matching(q, rs) ensures x in rs && Expression.Holds(q, x) {
      MatchingMembers(q, rs, x);
    }
    forall i | 0 <= i < |rs| && Expression.Holds(q, rs[i]) ensures rs[i] in Matching(q, rs) {
      MatchingMembers(q, rs, rs[i]);
    }
  }

  /** Filtering a concatenation filters each part. */
  lemma {:induction false} MatchingAppend(q: Expression.Query, a: seq<Record>, b: seq<Record>)
    ensures Matching(q, a + b) == Matching(q, a) + Matching(q, b)
    decreases |a|
  {
    if |a| == 0 {
      assert a + b == b;
    } else {
      assert (a + b)[0] == a[0] && (a + b)[1..] == a[1..] + b;
      MatchingAppend(q, a[1..], b);
    }
  }

  /** A record is kept exactly when it is in `rs` and the query holds on it. */
  lemma {:induction false} MatchingMembers(q: Expression.Query, rs: seq<Record>, x: Record)
    ensures x in Matching(q, rs) <==> x in rs && Expression.Holds(q, x)
    decreases |rs|
  {
    if |rs| > 0 {
      MatchingMembers(q, rs[1..], x);
      assert rs == [rs[0]] + rs[1..];
    }
  }

  /** The first record the listing keeps is the matching record with the
      least id: no record under a smaller id matches. */
  lemma {:induction false} FirstMatchLeast(q: Expression.Query, records: map<nat, Record>, bound: nat)
    requires |Matching(q, Listed(records, bound))| > 0
    ensures exists id | id in records && id < bound ::
      && Matching(q, Listed(records, bound))[0] == records[id]
      && Expression.Holds(q, records[id])
      && forall j | j in records && j < id :: !Expression.Holds(q, records[j])
    decreases bound
  {
    var earlier := Listed(records, bound - 1);
    var last := if bound - 1 in records then [records[bound - 1]] else [];
    MatchingAppend(q, earlier, last);
    if |Matching(q, earlier)| > 0 {
      FirstMatchLeast(q, records, bound - 1);
    } else {
      assert bound - 1 in records && Expression.Holds(q, records[bound - 1]);
      forall j | j in records && j < bound - 1 ensures !Expression.Holds(q, records[j]) {
        ListedMembers(records, bound - 1, records[j]);
        MatchingMembers(q, earlier, records[j]);
      }
    }
  }

  /** Every record carries its own id under `__id`. */
  predicate CarryIds(records: map<nat, Record>) {
    forall id | id in records :: IdKey in records[id] && records[id][IdKey] == Int(id)
  }

  /** Records that carry their ids are listed under strictly increasing ids,
      each the record stored under its id. */
  lemma {:induction false} ListedInIdOrder(records: map<nat, Record>, bound: nat)
    ensures CarryIds(records) ==> forall i | 0 <= i < |Listed(records, bound)| ::
      var x := Listed(records, bound)[i];
      IdKey in x && x[IdKey].Int? && 0 <= x[IdKey].i < bound && x[IdKey].i as nat in records && records[x[IdKey].i as nat] == x
    ensures CarryIds(records) ==> forall i, j | 0 <= i < j < |Listed(records, bound)| ::
      Listed(records, bound)[i][IdKey].i < Listed(records, bound)[j][IdKey].i
    decreases bound
  {
    if bound > 0 && CarryIds(records) {
      ListedInIdOrder(records, bound - 1);
    }
  }

  /** The store after `docs` are stored one after the other from id `next`. */
  function Appended(records: map<nat, Record>, next: nat, docs: seq<Record>): map<nat, Record>
    decreases |docs|
  {
    if |docs| == 0 then records
    else Appended(records[next := docs[0][IdKey := Int(next)]], next + 1, docs[1..])
  }

  /** Storing `docs` from id `next` adds exactly the ids `next` to
      `next + |docs| - 1`, the `i`-th record under `next + i` with that id
      written in, and keeps every other record. */
  lemma {:induction false} AppendedRecords(records: map<nat, Record>, next: nat, docs: seq<Record>)
    ensures forall k :: k in Appended(records, next, docs) <==> k in records || next <= k < next + |docs|
    ensures forall i | 0 <= i < |docs| :: Appended(records, next, docs)[next + i] == docs[i][IdKey := Int(next + i)]
    ensures forall k | k in records && !(next <= k < next + |docs|) :: Appended(records, next, docs)[k] == records[k]
    decreases |docs|
  {
    if |docs| > 0 {
      var first := records[next := docs[0][IdKey := Int(next)]];
      AppendedRecords(first, next + 1, docs[1..]);
      forall i | 0 <= i < |docs|
        ensures next + i in Appended(records, next, docs)
                && Appended(records, next, docs)[next + i] == docs[i][IdKey := Int(next + i)]
      {
        if i > 0 {
          assert docs[1..][i - 1] == docs[i];
          assert next + i == (next + 1) + (i - 1);
        }
      }
    }
  }

  class Collection {
    var records: map<nat, Record>
    /** The last id handed out, if any: deleting a record does not give its
        id back. */
    var lastId: Option<nat>

    /** Every stored id was handed out, and every record carries its own id. */
    ghost predicate Valid()
      reads this
    {
      && (forall id | id in records :: lastId.Some? && id <= lastId.value)
      && CarryIds(records)
    }

    constructor ()
      ensures Valid()
      ensures records == map[] && lastId == None
    {
      records := map[];
      lastId := None;
    }

    /** The id the next stored record gets. */
    function NextId(): (id: nat)
      reads this
      ensures Valid() ==> id !in records
    {
      if lastId.None? then 0 else lastId.value + 1
    }

    /** `last_record_id()`: the last id handed out; an empty collection has
        none and raises `ValueError`. */
    function LastRecordId(): (r: Result<nat>)
      reads this
      ensures r.Ok? <==> lastId.Some?
      ensures r.Err? ==> r.error == ValueError
      ensures Valid() && r.Ok? ==> forall id | id in records :: id <= r.value
    {
      if lastId.None? then Err(ValueError) else Ok(lastId.value)
    }

    /** `fetch(id)`: the record stored under the id, or `None`. */
    function Fetch(id: int): (r: Option<Record>)
      reads this
      ensures r.Some? <==> id >= 0 && id as nat in records
      ensures r.Some? ==> r.value == records[id as nat]
      ensures Valid() && r.Some? ==> r.value[IdKey] == Int(id)
    {
      if id >= 0 && id as nat in records then Some(records[id as nat]) else None
    }

    /** `all()`: every stored record, in id order: each listed record is the
        one stored under the id it carries, and the ids increase. */
    function All(): (r: seq<Record>)
      reads this
      ensures Valid() ==> forall i | 0 <= i < |r| ::
        IdKey in r[i] && r[i][IdKey].Int? && r[i][IdKey].i >= 0
        && r[i][IdKey].i as nat in records && records[r[i][IdKey].i as nat] == r[i]
      ensures Valid() ==> forall i, j | 0 <= i < j < |r| :: r[i][IdKey].i < r[j][IdKey].i
    {
      ListedInIdOrder(records, NextId());
      Listed(records, NextId())
    }

    /** `filter(query)`: the stored records, in id order, on which the query
        holds; it raises when the query raises on any stored record. */
    function Filter(q: Expression.Query): (r: Result<seq<Record>>)
      reads this
      ensures r.Ok? ==> r.value == Matching(q, All())
      ensures r.Err? <==> exists i | 0 <= i < |All()| :: Expression.Eval(q, All()[i]).Err?
    {
      Filtered(q, All())
    }

    /** `store(doc)`: the document is stored under the next id, which is
        returned; nothing else changes. */
    method Store(doc: Record) returns (id: nat)
      requires Valid()
      modifies this
      ensures Valid()
      ensures id == old(NextId()) && id !in old(records)
      ensures records == old(records)[id := doc[IdKey := Int(id)]]
      ensures lastId == Some(id)
    {
      id := NextId();
      records := records[id := doc[IdKey := Int(id)]];
      lastId := Some(id);
    }

    /** `store(docs, return_id=False)`: the documents are stored one after
        the other. */
    method StoreAll(docs: seq<Record>) returns (ok: bool)
      requires Valid()
      modifies this
      ensures Valid()
      ensures ok
      ensures records == Appended(old(records), old(NextId()), docs)
      ensures |docs| > 0 ==> lastId == Some(old(NextId()) + |docs| - 1)
      ensures |docs| == 0 ==> lastId == old(lastId)
    {
      var i := 0;
      while i < |docs|
        invariant 0 <= i <= |docs|
        invariant Valid()
        invariant NextId() == old(NextId()) + i
        invariant i == 0 ==> lastId == old(lastId)
        invariant Appended(records, NextId(), docs[i..]) == Appended(old(records), old(NextId()), docs)
      {
        assert docs[i..][1..] == docs[i + 1..];
        var _ := Store(docs[i]);
        i := i + 1;
      }
      ok := true;
    }

    /** `update(id, doc)`: the record under the id is replaced by the document;
        an id that holds no record changes nothing and gives `False`. */
    method Update(id: int, doc: Record) returns (ok: bool)
      requires Valid()
      modifies this
      ensures Valid()
      ensures ok <==> id >= 0 && id as nat in old(records)
      ensures ok ==> records == old(records)[id as nat := doc[IdKey := Int(id)]]
      ensures !ok ==> records == old(records)
      ensures lastId == old(lastId)
    {
      if id >= 0 && id as nat in records {
        records := records[id as nat := doc[IdKey := Int(id)]];
        ok := true;
      } else {
        ok := false;
      }
    }

    /** `delete(id)`: the record under the id is removed; an id that holds no
        record changes nothing and gives `False`. */
    method Delete(id: int) returns (ok: bool)
      requires Valid()
      modifies this
      ensures Valid()
      ensures ok <==> id >= 0 && id as nat in old(records)
      ensures records == if ok then old(records) - {id as nat} else old(records)
      ensures lastId == old(lastId)
    {
      if id >= 0 && id as nat in records {
        records := records - {id as nat};
        ok := true;
      } else {
        ok := false;
      }
    }
  }

  /** `all()` lists exactly the stored records. */
  lemma AllListsStore(c: Collection, x: Record)
    requires c.Valid()
    ensures x in c.All() <==> exists id | id in c.records :: c.records[id] == x
  {
    ListedMembers(c.records, c.NextId(), x);
  }
}
