/** The query AST (unqdantic/expression.py): field paths, the proxy that
    accumulates a path as attributes are accessed, query nodes built from
    operators, their evaluation against a record, the AND-merge of several
    queries and the rebuilding of a default-value dict from a query. */
module Expression {
  import opened Values
  import opened Strings
  import opened Operators
  import Utils

  /** `QueryPath`: the attribute names from the document down to a field,
      and the name of the owning document class. */
  datatype QueryPath = QueryPath(name: string, parts: seq<string>)

  /** `str(path)`: the owner's name, a dot, and the dot-joined parts. */
  function PathText(p: QueryPath): string {
    p.name + "." + Join(p.parts, '.')
  }

  /** The text of a path splits back into the owner's name followed by the
      parts, as long as no name holds a dot. */
  lemma PathTextSplits(p: QueryPath)
    requires '.' !in p.name && |p.parts| >= 1 && NoSep(p.parts, '.')
    ensures Split(PathText(p), '.') == [p.name] + p.parts
  {
    SplitJoin([p.name] + p.parts, '.');
    assert ([p.name] + p.parts)[1..] == p.parts;
  }

  /** An operand of a query node: a field path, a nested query, or anything
      else, which is taken as a literal. */
  datatype Operand = Path(path: QueryPath) | Nested(query: Query) | Lit(value: Value)

  /** `Query(left, operator, right)`. */
  datatype Query = Query(left: Operand, op: Op, right: Operand)

  /** `Query.__call__`: both operands are resolved against the record, left
      first (a nested query is evaluated, a path is looked up with
      `recursively_get_item`, a literal is itself), then the operator is
      applied. */
  function Eval(q: Query, record: Record): (r: Result<Value>)
    ensures r.Ok? && IsPredicate(q.op) ==> r.value.Bool?
    decreases q
  {
    var left :- Resolve(q.left, record);
    var right :- Resolve(q.right, record);
    Apply(q.op, left, right)
  }

  function Resolve(o: Operand, record: Record): Result<Value>
    decreases o
  {
    match o
    case Nested(q) => Eval(q, record)
    case Path(p) => Ok(Utils.GetItem(Obj(record), p.parts))
    case Lit(v) => Ok(v)
  }

  /** Whether a record passes the query as a filter: it evaluates without
      raising to a true value. */
  predicate Holds(q: Query, record: Record) {
    var r := Eval(q, record);
    r.Ok? && Truthy(r.value)
  }

  /** An equality on a field holds exactly for the records whose value at the
      field's path equals the literal: in particular for every record that
      holds the literal itself there. */
  lemma EqualitySelects(p: QueryPath, v: Value, record: Record)
    ensures Eval(Query(Path(p), Eq, Lit(v)), record)
         == Ok(Bool(PyEq(Utils.GetItem(Obj(record), p.parts), v)))
    ensures Utils.GetItem(Obj(record), p.parts) == v ==> Holds(Query(Path(p), Eq, Lit(v)), record)
  {
    PyEqReflexive(v);
  }

  // ---------------------------------------------------------------------------
  // Builders
  // ---------------------------------------------------------------------------

  /** The binary operators both `QueryPathProxy` and `Query` overload (`==`,
      `!=`, `<`, `<=`, `>`, `>=`, `|`, `^`, `+`, `-`) or define as methods
      (`startswith`, `endswith`); `&` is overloaded by `Query` alone. */
  const BinaryBuilders: set<Op> := {Eq, Ne, Lt, Le, Gt, Ge, Or, Xor, Add, Sub, StartsWith, EndsWith}

  /** `__len__`, `__neg__` and `__pos__`, which build a node whose right
      operand is `None`. */
  const UnaryBuilders: set<Op> := {Len, Neg, Not}

  /** A builder on a query: `q op other` gives a node with `q` on the left. */
  function Combine(q: Query, op: Op, other: Operand): (r: Query)
    requires op in BinaryBuilders || op == And
    ensures r.left == Nested(q) && r.op == op && r.right == other
  {
    Query(Nested(q), op, other)
  }

  /** A unary builder on a query. */
  function CombineUnary(q: Query, op: Op): (r: Query)
    requires op in UnaryBuilders
    ensures r.left == Nested(q) && r.op == op && r.right == Lit(Null)
  {
    Query(Nested(q), op, Lit(Null))
  }

  /** `q1 & q2` holds exactly when both hold, for filters that evaluate to
      truth values. */
  lemma ConjunctionHolds(q1: Query, q2: Query, record: Record)
    requires IsPredicate(q1.op) && IsPredicate(q2.op)
    ensures Holds(Combine(q1, And, Nested(q2)), record) <==> Holds(q1, record) && Holds(q2, record)
  {
    var r1, r2 := Eval(q1, record), Eval(q2, record);
    assert Resolve(Nested(q1), record) == r1 && Resolve(Nested(q2), record) == r2;
    if r1.Ok? && r2.Ok? {
      assert r1.value.Bool? && r2.value.Bool?;
      assert Eval(Combine(q1, And, Nested(q2)), record) == Ok(Bool(r1.value.b && r2.value.b));
    } else {
      assert Eval(Combine(q1, And, Nested(q2)), record).Err?;
    }
  }

  /** `in_(a, b)`, `not_in(a, b)`, `is_(a, b)`, `is_not(a, b)` and
      `concat(a, b)`: a node over the two operands as given. */
  function Helper(op: Op, a: Operand, b: Operand): (r: Query)
    requires op in {Contains, NotContains, Is, IsNot, Concat}
    ensures r.left == a && r.op == op && r.right == b
  {
    Query(a, op, b)
  }

  /** `in_` on a field path selects the records whose value at the path is
      one of the listed values. */
  lemma InSelects(p: QueryPath, xs: seq<Value>, record: Record)
    ensures Eval(Helper(Contains, Path(p), Lit(List(xs))), record)
         == Ok(Bool(exists i | 0 <= i < |xs| :: PyEq(xs[i], Utils.GetItem(Obj(record), p.parts))))
  {
  }

  /** `is_` against `None` holds exactly for the records that hold `None` (or
      lack the field) at the path. */
  lemma IsNoneSelects(p: QueryPath, record: Record)
    ensures Eval(Helper(Is, Path(p), Lit(Null)), record)
         == Ok(Bool(Utils.GetItem(Obj(record), p.parts) == Null))
  {
  }

  /** `QueryPathProxy`: the object a document class hands out for a field;
      each further attribute or item access appends a name to its path. */
  class QueryPathProxy {
    const parentName: string
    var path: QueryPath

    constructor (parentName: string, attr: string)
      ensures this.parentName == parentName
      ensures path == QueryPath(parentName, [attr])
    {
      this.parentName := parentName;
      path := QueryPath(parentName, [attr]);
    }

    /** `__getattr__` and `__getitem__`: append the name, return the proxy
        itself. */
    method Access(name: string) returns (self: QueryPathProxy)
      modifies this
      ensures self == this
      ensures path == QueryPath(old(path).name, old(path).parts + [name])
    {
      path := QueryPath(path.name, path.parts + [name]);
      self := this;
    }

    /** `repr(proxy)`: the owner's name and the dot-joined path. */
    function Text(): (r: string)
      reads this
      ensures path.name == parentName ==> r == PathText(path)
    {
      parentName + "." + Join(path.parts, '.')
    }

    /** A binary builder on the proxy: the node holds the proxy's path on
        the left. The proxy has no `__and__`, so `proxy & other` raises
        `TypeError`. */
    function Binary(op: Op, other: Operand): (r: Result<Query>)
      reads this
      requires op in BinaryBuilders || op == And
      ensures r.Ok? <==> op != And
      ensures r.Ok? ==> r.value.left == Path(path) && r.value.op == op && r.value.right == other
      ensures r.Err? ==> r.error == TypeError
    {
      if op == And then Err(TypeError) else Ok(Query(Path(path), op, other))
    }

    /** A unary builder on the proxy. */
    function Unary(op: Op): (r: Query)
      reads this
      requires op in UnaryBuilders
      ensures r.left == Path(path) && r.op == op && r.right == Lit(Null)
    {
      Query(Path(path), op, Lit(Null))
    }
  }

  /** `in_(proxy, b)` and `not_in(proxy, b)` as written, when the left
      operand is the proxy object a document class hands out (`User.name`)
      rather than its path. The proxy is neither a `Query` nor a `QueryPath`,
      so evaluation takes it as a literal and `_contains` tests `proxy in b`;
      the record is never consulted. A list compares each element with the
      proxy, which answers with a `Query`; the truth value of that `Query`
      calls `Query.__len__`, which returns a `Query` instead of an int, so the
      test raises `TypeError` unless the list is empty. A dict hashes the
      proxy by identity and holds no string key equal to it. Anything else
      raises `TypeError`. */
  function ProxyMembershipAsWritten(b: Value): (r: Result<bool>)
    ensures r.Ok? ==> !r.value
    ensures r.Ok? <==> (b.List? && |b.items| == 0) || b.Obj?
  {
    match b
    case List(xs) => if |xs| == 0 then Ok(false) else Err(TypeError)
    case Obj(_) => Ok(false)
    case _ => Err(TypeError)
  }

  /** `in_` on a proxy, corrected: the proxy stands for its path, so the
      field's value is looked up in the record. */
  function InField(proxy: QueryPathProxy, b: Operand): (r: Query)
    reads proxy
    ensures r == Helper(Contains, Path(proxy.path), b)
  {
    Query(Path(proxy.path), Contains, b)
  }

  /** `in_(User.name, ["Ax", "Axy"])` on a record whose name is `"Ax"`: the
      corrected query selects it, the query as written raises. */
  lemma InOnProxyDiscrepancy(proxy: QueryPathProxy)
    requires proxy.path == QueryPath("User", ["name"])
    ensures Eval(InField(proxy, Lit(List([Str("Ax"), Str("Axy")]))), map["name" := Str("Ax")])
         == Ok(Bool(true))
    ensures ProxyMembershipAsWritten(List([Str("Ax"), Str("Axy")])) == Err(TypeError)
  {
    var record := map["name" := Str("Ax")];
    var xs := [Str("Ax"), Str("Axy")];
    InSelects(proxy.path, xs, record);
    assert Utils.GetItem(Obj(record), ["name"]) == Str("Ax") by {
      Utils.GetItemFind(Obj(record), ["name"]);
    }
    assert PyEq(xs[0], Utils.GetItem(Obj(record), proxy.path.parts));
  }

  /** A node built on a proxy compares, at evaluation time, the record's value
      at the proxy's path with the other operand. */
  lemma ProxyNodeEvaluates(proxy: QueryPathProxy, op: Op, v: Value, record: Record)
    requires op in BinaryBuilders
    ensures proxy.Binary(op, Lit(v)).Ok?
    ensures Eval(proxy.Binary(op, Lit(v)).value, record)
         == Apply(op, Utils.GetItem(Obj(record), proxy.path.parts), v)
  {
  }

  // ---------------------------------------------------------------------------
  // Query.merge
  // ---------------------------------------------------------------------------

  /** The fold of `Query.merge` from an accumulated query over the remaining
      elements. */
  function MergeFrom(e: Query, rest: seq<Operand>, op: Op): (r: Result<Query>)
    ensures r.Err? ==> r.error == TypeError
    decreases |rest|
  {
    if |rest| == 0 then Ok(e)
    else if !rest[0].Nested? then Err(TypeError)
    else MergeFrom(Query(Nested(e), op, rest[0]), rest[1..], op)
  }

  /** `Query.merge(expressions, operator_func)`: an empty tuple fails on
      `expressions[0]` with `IndexError`; an element that is not a query raises
      `TypeError`; one query is returned unchanged; several are folded to the
      left with the operator, `and_` by default. */
  function Merged(expressions: seq<Operand>, operatorFunc: Option<Op>): Result<Query> {
    var op := if operatorFunc.None? then And else operatorFunc.value;
    if |expressions| == 0 then Err(IndexError)
    else if !expressions[0].Nested? then Err(TypeError)
    else if |expressions| == 1 then Ok(expressions[0].query)
    else MergeFrom(expressions[0].query, expressions[1..], op)
  }

  /** `Query.merge` as the source runs it, reassigning the accumulated query
      in a loop. */
  method Merge(expressions: seq<Operand>, operatorFunc: Option<Op>) returns (r: Result<Query>)
    ensures r == Merged(expressions, operatorFunc)
  {
    var op := if operatorFunc.None? then And else operatorFunc.value;
    if |expressions| == 0 {
      return Err(IndexError);
    }
    if !expressions[0].Nested? {
      return Err(TypeError);
    }
    if |expressions| == 1 {
      return Ok(expressions[0].query);
    }
    var e := expressions[0].query;
    for i := 1 to |expressions|
      invariant MergeFrom(e, expressions[i..], op) == Merged(expressions, operatorFunc)
    {
      assert expressions[i..][1..] == expressions[i + 1..];
      if !expressions[i].Nested? {
        return Err(TypeError);
      }
      e := Query(Nested(e), op, expressions[i]);
    }
    assert expressions[|expressions|..] == [];
    r := Ok(e);
  }

  predicate AllQueries(expressions: seq<Operand>) {
    forall i | 0 <= i < |expressions| :: expressions[i].Nested?
  }

  lemma {:induction false} MergeFromFails(e: Query, rest: seq<Operand>, op: Op)
    ensures MergeFrom(e, rest, op).Err? <==> !AllQueries(rest)
    ensures MergeFrom(e, rest, op).Err? ==> MergeFrom(e, rest, op).error == TypeError
    decreases |rest|
  {
    if |rest| > 0 && rest[0].Nested? {
      MergeFromFails(Query(Nested(e), op, rest[0]), rest[1..], op);
      assert AllQueries(rest) <==> AllQueries(rest[1..]) by {
        if AllQueries(rest[1..]) {
          forall i | 0 <= i < |rest| ensures rest[i].Nested? {
            if i > 0 { assert rest[i] == rest[1..][i - 1]; }
          }
        }
      }
    }
  }

  /** `Query.merge` fails exactly on an empty input or on an element that is
      not a query, and one query comes back unchanged. */
  lemma MergeFails(expressions: seq<Operand>, operatorFunc: Option<Op>)
    ensures Merged(expressions, operatorFunc).Err? <==> |expressions| == 0 || !AllQueries(expressions)
    ensures Merged(expressions, operatorFunc).Err? ==>
      Merged(expressions, operatorFunc).error == if |expressions| == 0 then IndexError else TypeError
    ensures |expressions| == 1 && expressions[0].Nested? ==>
      Merged(expressions, operatorFunc) == Ok(expressions[0].query)
  {
    if |expressions| > 1 && expressions[0].Nested? {
      var op := if operatorFunc.None? then And else operatorFunc.value;
      MergeFromFails(expressions[0].query, expressions[1..], op);
      assert AllQueries(expressions) <==> AllQueries(expressions[1..]) by {
        if AllQueries(expressions[1..]) {
          forall i | 0 <= i < |expressions| ensures expressions[i].Nested? {
            if i > 0 { assert expressions[i] == expressions[1..][i - 1]; }
          }
        }
      }
    }
  }

  /** Every element is a query that evaluates to a truth value on the record. */
  predicate AllTruthValued(expressions: seq<Operand>, record: Record) {
    forall i | 0 <= i < |expressions| ::
      expressions[i].Nested? && Eval(expressions[i].query, record).Ok?
      && Eval(expressions[i].query, record).value.Bool?
  }

  /** Whether every element holds on the record. */
  predicate AllHold(expressions: seq<Operand>, record: Record)
    requires AllTruthValued(expressions, record)
  {
    forall i | 0 <= i < |expressions| :: Eval(expressions[i].query, record).value.b
  }

  lemma {:induction false} MergeFromConjunction(e: Query, rest: seq<Operand>, record: Record)
    requires Eval(e, record).Ok? && Eval(e, record).value.Bool?
    requires AllTruthValued(rest, record)
    ensures MergeFrom(e, rest, And).Ok?
    ensures Eval(MergeFrom(e, rest, And).value, record)
         == Ok(Bool(Eval(e, record).value.b && AllHold(rest, record)))
    decreases |rest|
  {
    if |rest| > 0 {
      var e' := Query(Nested(e), And, rest[0]);
      assert AllTruthValued(rest[1..], record) by {
        forall i | 0 <= i < |rest[1..]| ensures rest[1..][i] == rest[i + 1] { }
      }
      MergeFromConjunction(e', rest[1..], record);
      assert AllHold(rest, record) <==> Eval(rest[0].query, record).value.b && AllHold(rest[1..], record) by {
        if Eval(rest[0].query, record).value.b && AllHold(rest[1..], record) {
          forall i | 0 <= i < |rest| ensures Eval(rest[i].query, record).value.b {
            if i > 0 { assert rest[i] == rest[1..][i - 1]; }
          }
        }
      }
    }
  }

  /** The AND-merge of filters that evaluate to truth values holds on a record
      exactly when every filter does. */
  lemma MergeIsConjunction(expressions: seq<Operand>, record: Record)
    requires |expressions| >= 1 && AllTruthValued(expressions, record)
    ensures Merged(expressions, None).Ok?
    ensures Eval(Merged(expressions, None).value, record) == Ok(Bool(AllHold(expressions, record)))
  {
    var e := expressions[0].query;
    assert AllTruthValued(expressions[1..], record) by {
      forall i | 0 <= i < |expressions[1..]| ensures expressions[1..][i] == expressions[i + 1] { }
    }
    MergeFromConjunction(e, expressions[1..], record);
    assert AllHold(expressions, record) <==> Eval(e, record).value.b && AllHold(expressions[1..], record) by {
      if Eval(e, record).value.b && AllHold(expressions[1..], record) {
        forall i | 0 <= i < |expressions| ensures Eval(expressions[i].query, record).value.b {
          if i > 0 { assert expressions[i] == expressions[1..][i - 1]; }
        }
      }
    }
  }

  // ---------------------------------------------------------------------------
  // Query.to_dict
  // ---------------------------------------------------------------------------

  /** The value a leaf `(path, right)` stores: a literal is itself and a path
      is the list of its names (a `QueryPath` is a list); a nested query would
      be stored as the query object, which is not a value. */
  function LeafValue(right: Operand): Result<Value> {
    match right
    case Lit(v) => Ok(v)
    case Path(p) => Ok(List(seq(|p.parts|, i requires 0 <= i < |p.parts| => Str(p.parts[i]))))
    case Nested(_) => Err(Unrepresentable)
  }

  /** The top-level names `to_dict` gives a query: the first dotted name of
      every path on the left of a node, at any depth. */
  function LeafHeads(q: Query): set<string>
    decreases q
  {
    (if q.left.Path? then {Split(Join(q.left.path.parts, '.'), '.')[0]} else {})
    + (if q.left.Nested? then LeafHeads(q.left.query) else {})
    + (if q.right.Nested? then LeafHeads(q.right.query) else {})
  }

  /** `Query.to_dict`: a path on the left contributes
      `generate_dict({".".join(path): right})`, whatever the operator; the
      dicts of nested queries on the left and then on the right are merged
      over it. */
  function ToDict(q: Query): (r: Result<Record>)
    ensures r.Err? ==> r.error == Unrepresentable
    ensures r.Ok? ==> r.value.Keys == LeafHeads(q)
    decreases q
  {
    var leaf :-
      if q.left.Path? then
        var v :- LeafValue(q.right);
        Utils.GenerateSingle(Join(q.left.path.parts, '.'), v);
        Utils.Generate([(Join(q.left.path.parts, '.'), v)])
      else Ok(map[]);
    var withLeft :-
      if q.left.Nested? then
        var keyData :- ToDict(q.left.query);
        Ok(Utils.Merge(leaf, keyData))
      else Ok(leaf);
    if q.right.Nested? then
      var valueData :- ToDict(q.right.query);
      Ok(Utils.Merge(withLeft, valueData))
    else Ok(withLeft)
  }

  /** A leaf on a path of dot-free names rebuilds the nested chain that holds
      the literal at that path, whatever the operator: the owner's name is not
      part of it. */
  lemma ToDictLeaf(p: QueryPath, op: Op, v: Value)
    requires |p.parts| >= 1 && NoSep(p.parts, '.')
    ensures ToDict(Query(Path(p), op, Lit(v))) == Ok(Utils.Chain(p.parts, v))
    ensures Utils.GetItem(Obj(ToDict(Query(Path(p), op, Lit(v))).value), p.parts) == v
  {
    SplitJoin(p.parts, '.');
    Utils.GenerateSingle(Join(p.parts, '.'), v);
    Utils.ChainLookup(p.parts, v);
  }

  /** An equality filter on a dot-free path rebuilds a dict on which the
      filter holds. */
  lemma ToDictSatisfiesEquality(p: QueryPath, v: Value)
    requires |p.parts| >= 1 && NoSep(p.parts, '.')
    ensures ToDict(Query(Path(p), Eq, Lit(v))).Ok?
    ensures Holds(Query(Path(p), Eq, Lit(v)), ToDict(Query(Path(p), Eq, Lit(v))).value)
  {
    ToDictLeaf(p, Eq, v);
    EqualitySelects(p, v, ToDict(Query(Path(p), Eq, Lit(v))).value);
  }

  /** Folding one more element onto a merge nests the merge so far on the
      left of a new node. */
  lemma {:induction false} MergeFromSnoc(e: Query, rest: seq<Operand>, last: Operand, op: Op)
    requires MergeFrom(e, rest, op).Ok? && last.Nested?
    ensures MergeFrom(e, rest + [last], op) == Ok(Query(Nested(MergeFrom(e, rest, op).value), op, last))
    decreases |rest|
  {
    if |rest| == 0 {
      assert rest + [last] == [last];
      assert [last][1..] == [];
    } else {
      assert (rest + [last])[0] == rest[0] && (rest + [last])[1..] == rest[1..] + [last];
      MergeFromSnoc(Query(Nested(e), op, rest[0]), rest[1..], last, op);
    }
  }

  /** An equality between a field on a path of dot-free names and a literal. */
  predicate IsEquality(o: Operand) {
    && o.Nested? && o.query.left.Path? && o.query.op == Eq && o.query.right.Lit?
    && |o.query.left.path.parts| >= 1 && NoSep(o.query.left.path.parts, '.')
  }

  /** Equalities on fields under pairwise distinct top-level names. */
  predicate DistinctEqualities(filters: seq<Operand>) {
    && (forall i | 0 <= i < |filters| :: IsEquality(filters[i]))
    && (forall i, j | 0 <= i < j < |filters| ::
          filters[i].query.left.path.parts[0] != filters[j].query.left.path.parts[0])
  }

  /** The AND-merge of one more query nests the merge so far. */
  lemma MergedSnoc(init: seq<Operand>, last: Operand)
    requires |init| >= 1 && Merged(init, None).Ok? && last.Nested?
    ensures Merged(init + [last], None) == Ok(Query(Nested(Merged(init, None).value), And, last))
  {
    var filters := init + [last];
    assert filters[0] == init[0] && filters[1..] == init[1..] + [last];
    assert Merged(init, None) == MergeFrom(init[0].query, init[1..], And);
    MergeFromSnoc(init[0].query, init[1..], last, And);
  }

  /** `to_dict` of a query AND an equality on a name the query's dict lacks:
      the equality's chain is added beside what the query's dict holds. */
  lemma ToDictAndEquality(e: Query, f: Operand)
    requires ToDict(e).Ok? && IsEquality(f)
    requires f.query.left.path.parts[0] !in ToDict(e).value
    ensures ToDict(Query(Nested(e), And, f)).Ok?
    ensures ToDict(Query(Nested(e), And, f)).value.Keys == ToDict(e).value.Keys + {f.query.left.path.parts[0]}
    ensures Utils.Find(Obj(ToDict(Query(Nested(e), And, f)).value), f.query.left.path.parts) == Some(f.query.right.value)
    ensures forall q: seq<string> | |q| >= 1 && q[0] != f.query.left.path.parts[0] ::
      Utils.Find(Obj(ToDict(Query(Nested(e), And, f)).value), q) == Utils.Find(Obj(ToDict(e).value), q)
  {
    var p := f.query.left.path;
    var v := f.query.right.value;
    assert f.query == Query(Path(p), Eq, Lit(v));
    ToDictLeaf(p, Eq, v);
    Utils.ChainLookup(p.parts, v);
    var a := ToDict(e).value;
    var b := Utils.Chain(p.parts, v);
    Utils.MergeLeftEmpty(a);
    assert ToDict(Query(Nested(e), And, f)) == Ok(Utils.Merge(a, b));
    Utils.MergeRightKept(a, b, p.parts);
    forall q: seq<string> | |q| >= 1 && q[0] != p.parts[0]
      ensures Utils.Find(Obj(Utils.Merge(a, b)), q) == Utils.Find(Obj(a), q)
    {
      Utils.MergeLeftKept(a, b, q);
    }
  }

  /** The top-level names of the fields the equalities are on. */
  function EqualityHeads(filters: seq<Operand>): set<string>
    requires forall i | 0 <= i < |filters| :: IsEquality(filters[i])
  {
    set i | 0 <= i < |filters| && IsEquality(filters[i]) :: filters[i].query.left.path.parts[0]
  }

  /** What `to_dict` gives the AND-merge of equalities on distinct top-level
      names: a dict that holds each literal at its field's path, with exactly
      those names at the top. */
  predicate EqualitiesRebuilt(filters: seq<Operand>)
    requires |filters| >= 1 && DistinctEqualities(filters)
  {
    && Merged(filters, None).Ok?
    && ToDict(Merged(filters, None).value).Ok?
    && ToDict(Merged(filters, None).value).value.Keys == EqualityHeads(filters)
    && forall i | 0 <= i < |filters| ::
         Utils.Find(Obj(ToDict(Merged(filters, None).value).value), filters[i].query.left.path.parts)
           == Some(filters[i].query.right.value)
  }

  lemma SingleEqualityRebuilt(filters: seq<Operand>)
    requires |filters| == 1 && DistinctEqualities(filters)
    ensures EqualitiesRebuilt(filters)
  {
    var f := filters[0];
    var p := f.query.left.path;
    var v := f.query.right.value;
    assert f.query == Query(Path(p), Eq, Lit(v));
    ToDictLeaf(p, Eq, v);
    Utils.ChainLookup(p.parts, v);
    MergeFails(filters, None);
    assert EqualityHeads(filters) == {p.parts[0]};
  }

  lemma MergedEqualitiesStep(filters: seq<Operand>)
    requires |filters| >= 2 && DistinctEqualities(filters)
    requires DistinctEqualities(filters[..|filters| - 1]) && EqualitiesRebuilt(filters[..|filters| - 1])
    ensures EqualitiesRebuilt(filters)
  {
    var n := |filters|;
    var init := filters[..n - 1];
    var f := filters[n - 1];
    var p := f.query.left.path;
    assert filters == init + [f];
    var e := Merged(init, None).value;
    var a := ToDict(e).value;
    assert p.parts[0] !in a by {
      forall i | 0 <= i < n - 1 ensures init[i].query.left.path.parts[0] != p.parts[0] {
        assert filters[i].query.left.path.parts[0] != filters[n - 1].query.left.path.parts[0];
      }
    }
    MergedSnoc(init, f);
    ToDictAndEquality(e, f);
    var d := ToDict(Query(Nested(e), And, f)).value;
    forall i | 0 <= i < n ensures Utils.Find(Obj(d), filters[i].query.left.path.parts) == Some(filters[i].query.right.value) {
      if i < n - 1 {
        var q := filters[i].query.left.path.parts;
        assert q[0] != p.parts[0] by {
          assert filters[i].query.left.path.parts[0] != filters[n - 1].query.left.path.parts[0];
        }
        assert Utils.Find(Obj(d), q) == Utils.Find(Obj(a), q);
        assert init[i] == filters[i];
      }
    }
    assert EqualityHeads(filters) == EqualityHeads(init) + {p.parts[0]};
  }

  /** `to_dict` of the AND-merge of equalities on distinct top-level names:
      the dict holds each literal at its field's path, and has exactly those
      names at the top. */
  lemma {:induction false} MergedEqualitiesToDict(filters: seq<Operand>)
    requires |filters| >= 1 && DistinctEqualities(filters)
    ensures Merged(filters, None).Ok?
    ensures ToDict(Merged(filters, None).value).Ok?
    ensures ToDict(Merged(filters, None).value).value.Keys == EqualityHeads(filters)
    ensures forall i | 0 <= i < |filters| ::
      Utils.Find(Obj(ToDict(Merged(filters, None).value).value), filters[i].query.left.path.parts)
        == Some(filters[i].query.right.value)
    decreases |filters|
  {
    if |filters| == 1 {
      SingleEqualityRebuilt(filters);
    } else {
      var init := filters[..|filters| - 1];
      assert forall i | 0 <= i < |init| :: init[i] == filters[i];
      MergedEqualitiesToDict(init);
      MergedEqualitiesStep(filters);
    }
  }
}
