/** The scenario of tests/test_insert_query.py and tests/test_model_meta.py,
    stated on the model: four users inserted into an empty collection, the
    filters the tests count, deletion and saving; and the meta config the
    `User` class of tests/models.py resolves. */
module Scenarios {
  import opened Values
  import opened Operators
  import opened Expression
  import opened Store
  import opened Meta
  import opened MetaDocument
  import Models
  import Utils
  import Strings

  /** A user's fields as the instance holds them before insertion. */
  function User(id: nat, name: string, age: int, money: int): Record {
    map["id" := Int(id), "name" := Str(name), "age" := Int(age), "info" := Obj(map["money" := Int(money)])]
  }

  /** The four users of the test, with the ids `InsertedIds` shows they get. */
  function Users(): seq<Record> {
    [User(0, "Ax", 15, 200), User(1, "Axy", 18, 300), User(2, "Az", 20, 200), User(3, "By", 40, 300)]
  }

  /** What the store holds for a user. */
  function Doc(id: nat, name: string, age: int, money: int): Record {
    User(id, name, age, money)[IdKey := Int(id)]
  }

  /** The store after the four inserts. */
  function Inserted(): map<nat, Record> {
    Appended(map[], 0, Users())
  }

  lemma InsertedStore()
    ensures Inserted() == map[0 := Doc(0, "Ax", 15, 200), 1 := Doc(1, "Axy", 18, 300),
                              2 := Doc(2, "Az", 20, 200), 3 := Doc(3, "By", 40, 300)]
    ensures Listed(Inserted(), 4) == [Doc(0, "Ax", 15, 200), Doc(1, "Axy", 18, 300),
                                      Doc(2, "Az", 20, 200), Doc(3, "By", 40, 300)]
  {
    var us := Users();
    assert us[1..] == [us[1], us[2], us[3]];
    assert us[1..][1..] == [us[2], us[3]];
    assert us[1..][1..][1..] == [us[3]];
    assert us[1..][1..][1..][1..] == [];
  }

  /** The keywords `User(name=..., age=..., info=UserInfo(money=...))`
      passes: no `id`, so the instance takes `_generate_id()`. */
  function NewUser(name: string, age: int, money: int): Record {
    map["name" := Str(name), "age" := Int(age), "info" := Obj(map["money" := Int(money)])]
  }

  /** `User(name=..., age=..., info=UserInfo(money=...)).insert()`: the
      user takes the id the collection hands out next and is stored under
      it. */
  method InsertUser(cls: Models.DocumentClass, name: string, age: int, money: int) returns (id: nat)
    requires cls.collection != null && cls.collection.Valid()
    modifies cls.collection
    ensures cls.collection.Valid()
    ensures id == old(cls.collection.NextId()) && cls.collection.lastId == Some(id)
    ensures cls.collection.records == old(cls.collection.records)[id := Doc(id, name, age, money)]
  {
    var u := new Models.Document(cls, NewUser(name, age, money));
    assert u.data == User(cls.collection.NextId(), name, age, money);
    var _ := u.Insert();
    id := u.Id();
  }

  /** `test_meta`: four users made and inserted one after the other into a
      new collection get the ids 0, 1, 2 and 3, and the collection then
      lists them in that order. */
  method InsertedIds() returns (ids: seq<int>, stored: map<nat, Record>, listing: seq<Record>)
    ensures ids == [0, 1, 2, 3]
    ensures stored == Inserted()
    ensures listing == [Doc(0, "Ax", 15, 200), Doc(1, "Axy", 18, 300), Doc(2, "Az", 20, 200), Doc(3, "By", 40, 300)]
  {
    var store := new Collection();
    var cls := new Models.DocumentClass("User", [MetaConfigTag], store);
    var id1 := InsertUser(cls, "Ax", 15, 200);
    assert id1 == 0 && store.records == map[0 := Doc(0, "Ax", 15, 200)];
    var id2 := InsertUser(cls, "Axy", 18, 300);
    assert id2 == 1;
    var id3 := InsertUser(cls, "Az", 20, 200);
    assert id3 == 2;
    var id4 := InsertUser(cls, "By", 40, 300);
    assert id4 == 3;
    ids := [id1, id2, id3, id4];
    stored := store.records;
    InsertedStore();
    assert stored == map[0 := Doc(0, "Ax", 15, 200), 1 := Doc(1, "Axy", 18, 300),
                         2 := Doc(2, "Az", 20, 200), 3 := Doc(3, "By", 40, 300)];
    listing := store.All();
  }

  function Field(name: string): QueryPath {
    QueryPath("User", [name])
  }

  function Money(): QueryPath {
    QueryPath("User", ["info", "money"])
  }

  /** The fields a stored user holds at the paths the tests filter on. */
  lemma DocFields(id: nat, name: string, age: int, money: int)
    ensures Utils.GetItem(Obj(Doc(id, name, age, money)), ["name"]) == Str(name)
    ensures Utils.GetItem(Obj(Doc(id, name, age, money)), ["age"]) == Int(age)
    ensures Utils.GetItem(Obj(Doc(id, name, age, money)), ["info", "money"]) == Int(money)
  {
    var d := Obj(Doc(id, name, age, money));
    assert ["info", "money"][1..] == ["money"];
    assert Utils.GetItem(d, ["name"]) == Utils.GetItem(Str(name), []);
    assert Utils.GetItem(d, ["age"]) == Utils.GetItem(Int(age), []);
    assert Utils.GetItem(Obj(map["money" := Int(money)]), ["money"]) == Utils.GetItem(Int(money), []);
  }

  /** A query comparing a field with a literal applies its operator to the
      field's value. */
  lemma LeafEval(p: QueryPath, op: Op, v: Value, record: Record)
    ensures Eval(Query(Path(p), op, Lit(v)), record) == Apply(op, Utils.GetItem(Obj(record), p.parts), v)
  {
  }

  /** A query on the name, the age or the money of a stored user applies
      its operator to that field. */
  lemma NameOn(op: Op, v: Value, id: nat, name: string, age: int, money: int)
    ensures Eval(Query(Path(Field("name")), op, Lit(v)), Doc(id, name, age, money)) == Apply(op, Str(name), v)
  {
    DocFields(id, name, age, money);
    LeafEval(Field("name"), op, v, Doc(id, name, age, money));
  }

  lemma AgeOn(op: Op, v: Value, id: nat, name: string, age: int, money: int)
    ensures Eval(Query(Path(Field("age")), op, Lit(v)), Doc(id, name, age, money)) == Apply(op, Int(age), v)
  {
    DocFields(id, name, age, money);
    LeafEval(Field("age"), op, v, Doc(id, name, age, money));
  }

  lemma MoneyOn(op: Op, v: Value, id: nat, name: string, age: int, money: int)
    ensures Eval(Query(Path(Money()), op, Lit(v)), Doc(id, name, age, money)) == Apply(op, Int(money), v)
  {
    DocFields(id, name, age, money);
    LeafEval(Money(), op, v, Doc(id, name, age, money));
  }

  /** The comparisons the tests make, on ints and on strings. */
  lemma IntCompare(op: Op, x: int, v: int)
    requires op in {Eq, Lt, Gt, Ge}
    ensures Apply(op, Int(x), Int(v))
         == Ok(Bool(if op == Eq then x == v else if op == Lt then x < v else if op == Gt then x > v else x >= v))
  {
  }

  lemma StrTest(op: Op, s: string, p: string)
    requires op in {StartsWith, EndsWith}
    ensures Apply(op, Str(s), Str(p))
         == Ok(Bool(if op == StartsWith then Strings.StartsWith(s, p) else Strings.EndsWith(s, p)))
  {
  }

  function CountTrue(bs: seq<bool>): nat
    decreases |bs|
  {
    if |bs| == 0 then 0 else (if bs[0] then 1 else 0) + CountTrue(bs[1..])
  }

  /** A filter whose query gives a boolean on every record keeps as many as
      give `True`. */
  lemma {:induction false} FilteredCount(q: Query, rs: seq<Record>, bs: seq<bool>)
    requires |rs| == |bs| && forall i | 0 <= i < |rs| :: Eval(q, rs[i]) == Ok(Bool(bs[i]))
    ensures Filtered(q, rs).Ok? && |Filtered(q, rs).value| == CountTrue(bs)
    decreases |rs|
  {
    if |rs| > 0 {
      FilteredCount(q, rs[1..], bs[1..]);
    }
  }

  /** The stored users in id order. */
  function Listing(): seq<Record> {
    [Doc(0, "Ax", 15, 200), Doc(1, "Axy", 18, 300), Doc(2, "Az", 20, 200), Doc(3, "By", 40, 300)]
  }

  /** The stored users a query keeps, by position: as many as it selects. */
  lemma Selects(q: Query, b0: bool, b1: bool, b2: bool, b3: bool)
    requires Eval(q, Doc(0, "Ax", 15, 200)) == Ok(Bool(b0))
    requires Eval(q, Doc(1, "Axy", 18, 300)) == Ok(Bool(b1))
    requires Eval(q, Doc(2, "Az", 20, 200)) == Ok(Bool(b2))
    requires Eval(q, Doc(3, "By", 40, 300)) == Ok(Bool(b3))
    ensures Count(q) == (if b0 then 1 else 0) + (if b1 then 1 else 0) + (if b2 then 1 else 0) + (if b3 then 1 else 0)
  {
    ListedInserted();
    var bs := [b0, b1, b2, b3];
    forall i | 0 <= i < 4 ensures Eval(q, Listing()[i]) == Ok(Bool(bs[i])) {
      if i == 0 {} else if i == 1 {} else if i == 2 {} else {}
    }
    FilteredCount(q, Listing(), bs);
    CountFour(b0, b1, b2, b3);
  }

  /** The four inserts are listed in id order. */
  lemma ListedInserted()
    ensures Listed(Inserted(), 4) == Listing()
  {
    InsertedStore();
  }

  lemma CountFour(b0: bool, b1: bool, b2: bool, b3: bool)
    ensures CountTrue([b0, b1, b2, b3]) == (if b0 then 1 else 0) + (if b1 then 1 else 0) + (if b2 then 1 else 0) + (if b3 then 1 else 0)
  {
    var c3, c2, c1, c0 := [b3], [b2, b3], [b1, b2, b3], [b0, b1, b2, b3];
    assert c3[1..] == [] && c2[1..] == c3 && c1[1..] == c2 && c0[1..] == c1;
    assert CountTrue(c3) == (if b3 then 1 else 0) + CountTrue([]);
    assert CountTrue(c2) == (if b2 then 1 else 0) + CountTrue(c3);
    assert CountTrue(c1) == (if b1 then 1 else 0) + CountTrue(c2);
    assert CountTrue(c0) == (if b0 then 1 else 0) + CountTrue(c1);
  }

  /** The number of stored users a query selects. */
  function Count(q: Query): int {
    var r := Filtered(q, Listed(Inserted(), 4));
    if r.Ok? then |r.value| else -1
  }

  /** `User.name.startswith("Ax")` selects two users. */
  lemma PrefixFilter()
    ensures Count(Query(Path(Field("name")), StartsWith, Lit(Str("Ax")))) == 2
  {
    var q := Query(Path(Field("name")), StartsWith, Lit(Str("Ax")));
    NameOn(StartsWith, Str("Ax"), 0, "Ax", 15, 200);
    StrTest(StartsWith, "Ax", "Ax");
    NameOn(StartsWith, Str("Ax"), 1, "Axy", 18, 300);
    StrTest(StartsWith, "Axy", "Ax");
    NameOn(StartsWith, Str("Ax"), 2, "Az", 20, 200);
    StrTest(StartsWith, "Az", "Ax");
    assert !Strings.StartsWith("Az", "Ax") by { assert "Az"[..2][1] != "Ax"[1]; }
    NameOn(StartsWith, Str("Ax"), 3, "By", 40, 300);
    StrTest(StartsWith, "By", "Ax");
    Selects(q, true, true, false, false);
  }

  /** `User.name.endswith("y")` selects two users. */
  lemma SuffixFilter()
    ensures Count(Query(Path(Field("name")), EndsWith, Lit(Str("y")))) == 2
  {
    var q := Query(Path(Field("name")), EndsWith, Lit(Str("y")));
    NameOn(EndsWith, Str("y"), 0, "Ax", 15, 200);
    StrTest(EndsWith, "Ax", "y");
    NameOn(EndsWith, Str("y"), 1, "Axy", 18, 300);
    StrTest(EndsWith, "Axy", "y");
    NameOn(EndsWith, Str("y"), 2, "Az", 20, 200);
    StrTest(EndsWith, "Az", "y");
    NameOn(EndsWith, Str("y"), 3, "By", 40, 300);
    StrTest(EndsWith, "By", "y");
    Selects(q, false, true, false, true);
  }

  /** `User.age >= 18` selects three users. */
  lemma AdultFilter()
    ensures Count(Query(Path(Field("age")), Ge, Lit(Int(18)))) == 3
  {
    var q := Query(Path(Field("age")), Ge, Lit(Int(18)));
    AgeOn(Ge, Int(18), 0, "Ax", 15, 200);
    IntCompare(Ge, 15, 18);
    AgeOn(Ge, Int(18), 1, "Axy", 18, 300);
    IntCompare(Ge, 18, 18);
    AgeOn(Ge, Int(18), 2, "Az", 20, 200);
    IntCompare(Ge, 20, 18);
    AgeOn(Ge, Int(18), 3, "By", 40, 300);
    IntCompare(Ge, 40, 18);
    Selects(q, false, true, true, true);
  }

  /** `User.age < 18` selects one user. */
  lemma MinorFilter()
    ensures Count(Query(Path(Field("age")), Lt, Lit(Int(18)))) == 1
  {
    var q := Query(Path(Field("age")), Lt, Lit(Int(18)));
    AgeOn(Lt, Int(18), 0, "Ax", 15, 200);
    IntCompare(Lt, 15, 18);
    AgeOn(Lt, Int(18), 1, "Axy", 18, 300);
    IntCompare(Lt, 18, 18);
    AgeOn(Lt, Int(18), 2, "Az", 20, 200);
    IntCompare(Lt, 20, 18);
    AgeOn(Lt, Int(18), 3, "By", 40, 300);
    IntCompare(Lt, 40, 18);
    Selects(q, true, false, false, false);
  }

  /** `User.info.money == 300` selects two users. */
  lemma MoneyEqualFilter()
    ensures Count(Query(Path(Money()), Eq, Lit(Int(300)))) == 2
  {
    var q := Query(Path(Money()), Eq, Lit(Int(300)));
    MoneyOn(Eq, Int(300), 0, "Ax", 15, 200);
    IntCompare(Eq, 200, 300);
    MoneyOn(Eq, Int(300), 1, "Axy", 18, 300);
    IntCompare(Eq, 300, 300);
    MoneyOn(Eq, Int(300), 2, "Az", 20, 200);
    IntCompare(Eq, 200, 300);
    MoneyOn(Eq, Int(300), 3, "By", 40, 300);
    IntCompare(Eq, 300, 300);
    Selects(q, false, true, false, true);
  }

  /** `User.info.money > 100` selects all four users. */
  lemma MoneyAboveFilter()
    ensures Count(Query(Path(Money()), Gt, Lit(Int(100)))) == 4
  {
    var q := Query(Path(Money()), Gt, Lit(Int(100)));
    MoneyOn(Gt, Int(100), 0, "Ax", 15, 200);
    IntCompare(Gt, 200, 100);
    MoneyOn(Gt, Int(100), 1, "Axy", 18, 300);
    IntCompare(Gt, 300, 100);
    MoneyOn(Gt, Int(100), 2, "Az", 20, 200);
    IntCompare(Gt, 200, 100);
    MoneyOn(Gt, Int(100), 3, "By", 40, 300);
    IntCompare(Gt, 300, 100);
    Selects(q, true, true, true, true);
  }

  /** The records whose flag is set, in order. */
  function Select(rs: seq<Record>, bs: seq<bool>): seq<Record>
    requires |rs| == |bs|
    decreases |rs|
  {
    if |rs| == 0 then [] else (if bs[0] then [rs[0]] else []) + Select(rs[1..], bs[1..])
  }

  /** A filter whose query gives a boolean on every record keeps exactly the
      records that give `True`, in order. */
  lemma {:induction false} FilteredSelect(q: Query, rs: seq<Record>, bs: seq<bool>)
    requires |rs| == |bs| && forall i | 0 <= i < |rs| :: Eval(q, rs[i]) == Ok(Bool(bs[i]))
    ensures Filtered(q, rs) == Ok(Select(rs, bs))
    decreases |rs|
  {
    if |rs| > 0 {
      assert forall i | 0 <= i < |rs| - 1 :: rs[1..][i] == rs[i + 1];
      FilteredSelect(q, rs[1..], bs[1..]);
      assert [] + Select(rs[1..], bs[1..]) == Select(rs[1..], bs[1..]);
    }
  }

  /** A store holding ids 0 to 3 lists them in order. */
  lemma ListedFour(m: map<nat, Record>)
    requires 0 in m && 1 in m && 2 in m && 3 in m
    ensures Listed(m, 4) == [m[0], m[1], m[2], m[3]]
  {
    assert Listed(m, 1) == [m[0]];
  }

  /** A store holding ids 0, 2 and 3 but not 1 lists those three in order. */
  lemma ListedWithoutOne(m: map<nat, Record>)
    requires 0 in m && 1 !in m && 2 in m && 3 in m
    ensures Listed(m, 4) == [m[0], m[2], m[3]]
  {
    assert Listed(m, 1) == [m[0]];
  }

  /** Records whose flags are all unset are all dropped. */
  lemma {:induction false} SelectNone(rs: seq<Record>, bs: seq<bool>)
    requires |rs| == |bs| && forall i | 0 <= i < |bs| :: !bs[i]
    ensures Select(rs, bs) == []
    decreases |rs|
  {
    if |rs| > 0 {
      SelectNone(rs[1..], bs[1..]);
    }
  }

  /** A set flag in front of unset ones keeps just its record. */
  lemma SelectHead(rs: seq<Record>, bs: seq<bool>)
    requires |rs| == |bs| > 0 && bs[0] && forall i | 1 <= i < |bs| :: !bs[i]
    ensures Select(rs, bs) == [rs[0]]
  {
    SelectNone(rs[1..], bs[1..]);
  }

  /** Selecting the second of four records. */
  lemma SelectSecond(rs: seq<Record>)
    requires |rs| == 4
    ensures Select(rs, [false, true, false, false]) == [rs[1]]
  {
    var bs := [false, true, false, false];
    SelectHead(rs[1..], bs[1..]);
    assert Select(rs, bs) == [] + Select(rs[1..], bs[1..]);
  }

  /** The name equality of the test on a stored user. */
  lemma NameIs(name: string, id: nat, other: string, age: int, money: int)
    ensures Eval(Query(Path(Field("name")), Eq, Lit(Str(name))), Doc(id, other, age, money)) == Ok(Bool(other == name))
  {
    DocFields(id, other, age, money);
    LeafEval(Field("name"), Eq, Str(name), Doc(id, other, age, money));
  }

  function NameQuery(name: string): Query {
    Query(Path(Field("name")), Eq, Lit(Str(name)))
  }

  /** Which stored users are named "Axy". */
  lemma AxyFlags()
    ensures forall i | 0 <= i < 4 :: Eval(NameQuery("Axy"), Listing()[i]) == Ok(Bool([false, true, false, false][i]))
  {
    NameIs("Axy", 0, "Ax", 15, 200);
    NameIs("Axy", 1, "Axy", 18, 300);
    NameIs("Axy", 2, "Az", 20, 200);
    NameIs("Axy", 3, "By", 40, 300);
  }

  /** `find_one(User.name == "Axy")` finds the user with id 1, and the
      instance built from it has that id. */
  lemma FindByName()
    ensures Filtered(NameQuery("Axy"), Listed(Inserted(), 4)) == Ok([Doc(1, "Axy", 18, 300)])
    ensures Models.FromDoc(Doc(1, "Axy", 18, 300)).Ok?
    ensures Models.FromDoc(Doc(1, "Axy", 18, 300)).value["id"] == Int(1)
  {
    InsertedStore();
    AxyFlags();
    FilteredSelect(NameQuery("Axy"), Listing(), [false, true, false, false]);
    SelectSecond(Listing());
  }

  /** A filter whose query gives `False` on every record keeps none. */
  lemma {:induction false} FilteredNone(q: Query, rs: seq<Record>)
    requires forall i | 0 <= i < |rs| :: Eval(q, rs[i]) == Ok(Bool(false))
    ensures Filtered(q, rs) == Ok([])
    decreases |rs|
  {
    if |rs| > 0 {
      assert forall i | 0 <= i < |rs| - 1 :: rs[1..][i] == rs[i + 1];
      FilteredNone(q, rs[1..]);
    }
  }

  /** After that user is deleted, the same filter finds nothing. */
  lemma DeletedNotFound()
    ensures Filtered(NameQuery("Axy"), Listed(Inserted() - {1}, 4)) == Ok([])
  {
    InsertedStore();
    var m := Inserted() - {1};
    assert 0 in m && 1 !in m && 2 in m && 3 in m;
    ListedWithoutOne(m);
    var rest := [m[0], m[2], m[3]];
    assert rest == [Doc(0, "Ax", 15, 200), Doc(2, "Az", 20, 200), Doc(3, "By", 40, 300)];
    NameIs("Axy", 0, "Ax", 15, 200);
    NameIs("Axy", 2, "Az", 20, 200);
    NameIs("Axy", 3, "By", 40, 300);
    FilteredNone(NameQuery("Axy"), rest);
  }

  /** After ids 1 and 3 are deleted, `all()` lists two users. */
  lemma TwoLeft()
    ensures |Listed(Inserted() - {1} - {3}, 4)| == 2
  {
    InsertedStore();
  }

  /** A store holding ids 0 and 2 but not 1 or 3 lists those two in order. */
  lemma ListedZeroTwo(m: map<nat, Record>)
    requires 0 in m && 1 !in m && 2 in m && 3 !in m
    ensures Listed(m, 4) == [m[0], m[2]]
  {
    assert Listed(m, 1) == [m[0]];
  }

  /** After ids 1 and 3 are deleted, the first user is renamed to "qwe" and
      saved, and an equality filter on the new name finds that user, under
      id 0. */
  lemma SavedRename()
    ensures Filtered(NameQuery("qwe"), Listed((Inserted() - {1} - {3})[0 := Doc(0, "qwe", 15, 200)], 4))
         == Ok([Doc(0, "qwe", 15, 200)])
  {
    InsertedStore();
    var m := (Inserted() - {1} - {3})[0 := Doc(0, "qwe", 15, 200)];
    ListedZeroTwo(m);
    var saved := [Doc(0, "qwe", 15, 200), Listing()[2]];
    NameIs("qwe", 0, "qwe", 15, 200);
    NameIs("qwe", 2, "Az", 20, 200);
    FilteredSelect(NameQuery("qwe"), saved, [true, false]);
    SelectHead(saved, [true, false]);
  }

  /** The class table before any document class is defined. */
  function Initial(): Classes {
    map[MetaConfigTag := MetaConfigNamespace]
  }

  /** `class Document(BaseModel, metaclass=MetaDocument)`: no base is a
      document, the inner `Meta` is `MetaConfig` itself, and there is no
      keyword. */
  function DocumentStage(): Stage {
    DefineMeta(Initial(), 1, "Document", [OtherBase], Some([MetaConfigTag]), map[])
  }

  /** `Document`'s meta is a new empty class over `MetaConfig` (named once,
      though it is both the inner `Meta` and the parent), and naming it
      writes "Document" into `MetaConfig` itself. */
  lemma DocumentMeta()
    ensures DocumentStage()
         == Stage(map[MetaConfigTag := MetaConfigNamespace["name" := Text("Document")], 1 := map[]], 2,
                  Ok([1, MetaConfigTag]))
  {
    OnlyOtherBases(Initial(), 1, [OtherBase], [MetaConfigTag]);
    var named := Initial()[MetaConfigTag := MetaConfigNamespace["name" := Text("Document")]];
    assert MetaKeywords(named, [MetaConfigTag], map[]) == map[];
    OwnIsParent(named, [MetaConfigTag], map[], 1);
    NoOwnConfig(named, [MetaConfigTag], map[], 1, "name");
    assert Initial()[MetaConfigTag] == MetaConfigNamespace;
    assert [1] + [MetaConfigTag] == [1, MetaConfigTag];
    assert MixMetaConfig(named, None, [MetaConfigTag], map[], 1) == Ok((named[1 := map[]], [1, MetaConfigTag]));
    assert named[1 := map[]] == map[MetaConfigTag := MetaConfigNamespace["name" := Text("Document")], 1 := map[]];
  }

  /** The class table once `User`'s inner `Meta` (tag 2, setting the
      database handle `h` and the name "user") is defined. */
  function UserClasses(h: nat): Classes {
    DocumentStage().classes[2 := map["db" := Database(h), "name" := Text("user")]]
  }

  /** `class User(Document)` with that inner `Meta`. */
  function UserStage(h: nat): Stage
    requires DocumentStage().meta == Ok([1, MetaConfigTag])
  {
    DefineMeta(UserClasses(h), 3, "User", [DocumentBase([1, MetaConfigTag])], Some([2]), map[])
  }

  /** `User.meta` resolves the name and the database its inner `Meta` sets,
      and keeps `MetaConfig`'s default for what it does not set. */
  lemma UserMeta(h: nat)
    ensures DocumentStage().meta == Ok([1, MetaConfigTag])
    ensures UserStage(h).meta.Ok?
    ensures Lookup(UserStage(h).classes, UserStage(h).meta.value, "name") == Some(Text("user"))
    ensures Lookup(UserStage(h).classes, UserStage(h).meta.value, "db") == Some(Database(h))
    ensures Lookup(UserStage(h).classes, UserStage(h).meta.value, "by_alias") == Some(Flag(false))
  {
    DocumentMeta();
    var cs := UserClasses(h);
    var bases := [DocumentBase([1, MetaConfigTag])];
    assert Known(cs, [1, MetaConfigTag]) && Known(cs, [2]);
    assert FirstDocument(bases) == Some(0);
    ResolvedSetting(cs, 3, "User", bases, Some([2]), map[], "name");
    ResolvedSetting(cs, 3, "User", bases, Some([2]), map[], "db");
    ResolvedSetting(cs, 3, "User", bases, Some([2]), map[], "by_alias");
    assert Lookup(cs, [2], "by_alias") == Lookup(cs, [], "by_alias");
    assert Lookup(cs, [1, MetaConfigTag], "by_alias") == Lookup(cs, [MetaConfigTag], "by_alias");
  }
}
