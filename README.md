# unqdantic core, modelled in Dafny

unqdantic maps pydantic models to collections of an UnQLite database. A
document class (`class User(Document)`) gets a meta config from its bases, its
inner `Meta` and the keywords of its class statement, and is bound to a
collection when that meta names a database. Its fields are reached through
query-path proxies (`User.info.money`). Comparing a proxy builds a `Query`
tree. A query evaluates against a stored record, and `Query.merge` joins
several queries with `&`. Instances are inserted, updated, saved and deleted.
Class methods find, fetch, delete and create records in the collection.
Small dict helpers sit underneath:
- `merge_dicts`: a deep, right-biased merge;
- `generate_dict`: expands dotted keys into nested dicts;
- `recursively_get_item` and `recursively_get_attr`: walk key paths.

The project has these modules:

- `Values`: the JSON-like values a record holds, Python's `==` on them, the
  truth value, and the exceptions raised.
- `Strings`: `str.split`, `str.join`, prefix and suffix tests, and string
  ordering.
- `Utils`: the four helpers of unqdantic/utils.py. `merge_dicts` and the
  outer loop of `generate_dict` are methods, each proved equal to a pure
  function that the lemmas describe.
- `Operators`: the operator functions a query node applies: comparisons,
  `&`, `|` and `^`, `+`, `-`, `in`, `is`, `_len`, `not`, negation, and
  `startswith`/`endswith`.
- `Expression`: `QueryPath`, the `QueryPathProxy` class, `Query` with its
  evaluation (`__call__`), builders, `merge` and `to_dict`, and the module
  helpers `in_`, `not_in`, `is_`, `is_not` and `concat`.
- `Store`: the collection under a document class, a class over an in-memory
  map from ids to records. Ids are handed out from 0 in increasing order,
  and a stored record carries its id under `__id`.
- `Meta`: meta-config composition (unqdantic/meta.py). Classes made by
  `type()` are namespaces under tags, and attribute lookup walks the class's
  C3 order.
- `Models`: the document layer of unqdantic/models.py. It has a
  `DocumentClass` class (name, resolved meta, collection) with the
  class methods, and a `Document` class (its fields) with the instance
  methods.
- `MetaDocument`: `MetaDocument.__new__`, as a `Registry` of the classes
  made so far that creates document classes.
- `Scenarios`: the data and queries of tests/test_insert_query.py and
  tests/test_model_meta.py, stated on the model.

## Model

| member | source | states |
|---|---|---|
| Values.PyEqSymmetric | unqdantic/expression.py:50-54 | Python's `==`, which `eq` and `ne` apply, is symmetric on record values |
| Values.PyEqIsEqualityWithoutBools | unqdantic/expression.py:50-54 | without booleans, which Python treats as the ints 0 and 1, `==` is structural equality |
| Strings.Split | unqdantic/utils.py:25 | `key.split(".")` gives at least one piece and no piece holds the separator |
| Strings.SplitJoin | unqdantic/expression.py:197 | splitting the `".".join` of separator-free parts gives the parts back |
| Strings.Compare | unqdantic/expression.py:56-66 | the string ordering behind `<`, `<=`, `>` and `>=` is a three-way result that is 0 exactly on equal strings |
| Strings.CompareAntisymmetric | unqdantic/expression.py:56-66 | swapping two strings negates their comparison |
| Utils.Merge | unqdantic/utils.py:5-19 | `merge_dicts` has the keys of both sides; a key `b` holds wins unless both sides hold dicts there; a key only `a` holds keeps `a`'s value |
| Utils.MergeDicts | unqdantic/utils.py:5-19 | the key-by-key loop of `merge_dicts` builds exactly `Merge(a, b)` |
| Utils.MergeRightEmpty | unqdantic/utils.py:5-19 | merging with an empty right side gives the left side |
| Utils.MergeLeftEmpty | unqdantic/utils.py:5-19 | merging an empty left side gives the right side |
| Utils.MergeIdempotent | unqdantic/utils.py:5-19 | merging a dict with itself gives it back, at every depth |
| Utils.MergeRightWins | unqdantic/utils.py:14-18 | along any key path, a non-dict value the right side holds is what the merge holds |
| Utils.MergeLeftKept | unqdantic/utils.py:15-16 | a path whose first key the right side lacks reads what the left side holds |
| Utils.MergeRightKept | unqdantic/utils.py:5-19 | a path whose first key only the right side holds reads what the right side holds |
| Utils.GetItem | unqdantic/utils.py:45-50 | `recursively_get_item` gives the object for an empty path and `None` once it leaves the dicts |
| Utils.GetItemFind | unqdantic/utils.py:45-50 | `recursively_get_item` gives the value at the path when every key is present, and `None` otherwise |
| Utils.GetItemAppend | unqdantic/utils.py:45-50 | walking `p + q` is walking `q` from where `p` ends |
| Utils.GetAttr | unqdantic/utils.py:37-42 | `recursively_get_attr` succeeds exactly when every key of the path is present, and otherwise raises `AttributeError` |
| Utils.GetAttrAgreesWithGetItem | unqdantic/utils.py:37-42 | `recursively_get_attr` succeeds exactly when the path is present, gives what `recursively_get_item` gives, and otherwise raises `AttributeError` |
| Utils.GenerateDict | unqdantic/utils.py:22-34 | the loop over the items computes `Generate(data)`, the fold of the per-key walk |
| Utils.Chain | unqdantic/utils.py:27-33 | the nested dict built for one dotted key has the first part as its only key |
| Utils.AssignIntoEmpty | unqdantic/utils.py:27-33 | walking a dotted key into an empty dict builds the nested chain for it |
| Utils.ChainLookup | unqdantic/utils.py:27-33 | that chain holds the value at the end of its path |
| Utils.GenerateSingle | unqdantic/utils.py:22-34 | `generate_dict({"a.b": v})` is `{"a": {"b": v}}` for any dotted key |
| Utils.GenerateThenGetItem | unqdantic/utils.py:22-50 | round trip: `recursively_get_item` on `generate_dict({".".join(keys): v})` at `keys` gives `v` |
| Utils.AssignKeeps | unqdantic/utils.py:28-32 | a key walk never overwrites: every non-dict value already reachable stays as it was |
| Utils.AssignPlaces | unqdantic/utils.py:28-33 | after a key walk the value is at the key's path, unless that path was already taken |
| Utils.GenerateFromAllPresent | unqdantic/utils.py:22-34 | every key of the input has its path present in the generated dict |
| Utils.GenerateFromKeeps | unqdantic/utils.py:22-34 | paths present before later keys are walked stay present |
| Utils.AssignKeepsPath | unqdantic/utils.py:28-33 | a present path stays present after a key walk |
| Operators.FirstDifference | unqdantic/expression.py:56-66 | the first index where two lists differ: equal elements before it, unequal ones at it |
| Operators.Compare | unqdantic/expression.py:56-66 | the ordering of two values is -1, 0 or 1, is 0 exactly when they are `==`, and raises only `TypeError` |
| Operators.FirstDifferenceSymmetric | unqdantic/expression.py:56-66 | the first difference of two lists does not depend on their order |
| Operators.CompareAntisymmetric | unqdantic/expression.py:56-66 | swapping the operands negates the ordering, and an unorderable pair raises either way |
| Operators.BitwiseOnBools | unqdantic/expression.py:68-72 | `&`, `\|` and `^` on booleans-as-ints agree with `and`, `or` and `!=` |
| Operators.Membership | unqdantic/expression.py:218-223 | `a in b` raises only `TypeError` |
| Operators.Identity | unqdantic/expression.py:246-251 | `a is b` is decided exactly when `None`, `True` or `False` takes part |
| Operators.Apply | unqdantic/expression.py:173 | `eq`, `ne` and `not` never raise, and every comparison or test gives a bool |
| Operators.OrderingConverse | unqdantic/expression.py:56-66 | `a < b` is `b > a` and `a <= b` is `b >= a`, errors included |
| Operators.Trichotomy | unqdantic/expression.py:50-66 | on an orderable pair exactly one of `<`, `==` and `>` holds |
| Operators.NotContainsNegates | unqdantic/expression.py:218-223 | `_not_contains` raises exactly when `_contains` does and otherwise negates it |
| Expression.PathTextSplits | unqdantic/expression.py:18-19 | `str(path)` splits back at the dots into the owner's name followed by the path |
| Expression.Eval | unqdantic/expression.py:158-173 | evaluating a node whose operator is a comparison or test gives a bool |
| Expression.EqualitySelects | unqdantic/expression.py:50-51 | `proxy == v` evaluates to whether the record's value at the path equals `v` |
| Expression.Combine | unqdantic/expression.py:99-148 | a builder on a query gives a node with the query on the left and the operand on the right |
| Expression.CombineUnary | unqdantic/expression.py:105-139 | `q.__len__()`, `-q` and `+q` give a node with the query on the left and `None` on the right |
| Expression.ConjunctionHolds | unqdantic/expression.py:147-148 | `q1 & q2` selects a record exactly when both select it |
| Expression.Helper | unqdantic/expression.py:238-255 | `in_`, `not_in`, `is_`, `is_not` and `concat` build a node of their two operands |
| Expression.InSelects | unqdantic/expression.py:238-239 | `in_(path, list)` evaluates to whether some element equals the record's value at the path |
| Expression.IsNoneSelects | unqdantic/expression.py:246-247 | `is_(path, None)` evaluates to whether the record holds `None` (or nothing) at the path |
| Expression.QueryPathProxy.constructor | unqdantic/expression.py:26-28 | a new proxy holds its owner's name and the one-name path |
| Expression.QueryPathProxy.Access | unqdantic/expression.py:33-39 | attribute and item access append the name to the proxy's own path and return the same proxy |
| Expression.QueryPathProxy.Text | unqdantic/expression.py:30-31 | the proxy's repr is its path's text |
| Expression.QueryPathProxy.Binary | unqdantic/expression.py:41-87 | a comparison or arithmetic on the proxy builds a node with its path on the left; `&` is not defined on a proxy and raises `TypeError` |
| Expression.QueryPathProxy.Unary | unqdantic/expression.py:47-84 | `proxy.__len__()`, `-proxy` and `+proxy` build a node with its path and `None` |
| Expression.ProxyMembershipAsWritten | unqdantic/expression.py:218-243 | `in_(proxy, b)` tests the proxy object itself: never true, and it raises `TypeError` unless `b` is an empty list or a dict |
| Expression.InField | unqdantic/expression.py:238-239 | corrected `in_` on a proxy: the node holds the proxy's path |
| Expression.InOnProxyDiscrepancy | unqdantic/expression.py:238-239 | `in_(User.name, ["Ax", "Axy"])` on a record named "Ax": the corrected node selects it, the node as written raises |
| Expression.ProxyNodeEvaluates | unqdantic/expression.py:50-87 | a node built on a proxy applies its operator to the record's value at the path |
| Expression.MergeFrom | unqdantic/expression.py:187-192 | the merge loop raises only `TypeError` |
| Expression.Merge | unqdantic/expression.py:175-192 | the loop of `Query.merge` computes `Merged`, which the lemmas below characterise |
| Expression.MergeFromFails | unqdantic/expression.py:188-191 | the loop raises exactly when some remaining element is not a query |
| Expression.MergeFails | unqdantic/expression.py:181-192 | `merge` raises exactly on an empty tuple (`IndexError`) or a non-query element (`TypeError`); a single query comes back unchanged |
| Expression.MergeFromConjunction | unqdantic/expression.py:187-192 | the left-nested `&` of truth-valued queries evaluates to their conjunction |
| Expression.MergeIsConjunction | unqdantic/expression.py:175-192 | the default merge of truth-valued filters selects a record exactly when all of them do |
| Expression.ToDictLeaf | unqdantic/expression.py:194-207 | `to_dict` of `path op v` is the nested dict holding `v` at the path |
| Expression.ToDictSatisfiesEquality | unqdantic/expression.py:194-207 | the dict `to_dict` builds from `path == v` satisfies that filter |
| Expression.ToDict | unqdantic/expression.py:194-207 | `to_dict` fails only where a query sits on the right of a path; otherwise its top-level keys are exactly the first names of the paths on the left of its nodes, at any depth |
| Expression.MergeFromSnoc | unqdantic/expression.py:187-192 | one more query at the end of the loop puts the merge so far on the left of a new `&` node with that query on the right |
| Expression.MergedSnoc | unqdantic/expression.py:181-192 | the same for `merge`: merging `qs + [q]` gives `merged(qs) & q` |
| Expression.ToDictAndEquality | unqdantic/expression.py:194-207 | `to_dict` of `q & (path == v)`, when `q`'s dict lacks the path's first name, adds that name, holds `v` at the path, and keeps every path under the other names |
| Expression.SingleEqualityRebuilt | unqdantic/expression.py:194-207 | `to_dict` of one equality has that equality's first name as its only key and holds the literal at the path |
| Expression.MergedEqualitiesStep | unqdantic/expression.py:187-207 | if the merged equalities rebuild into their dict, so does the merge with one more equality on a fresh first name |
| Expression.MergedEqualitiesToDict | unqdantic/expression.py:175-207 | `to_dict` of the merge of equalities on distinct first names succeeds, has exactly those names at the top, and holds each literal at its path |
| Store.Listed | unqdantic/core.py:39-40 | the listing of the stored records has at most one entry per id |
| Store.ListedMembers | unqdantic/core.py:39-40 | a record is listed exactly when it is stored under some id below the bound |
| Store.ListedIgnoresLater | unqdantic/core.py:39-40 | ids from the bound on do not affect the listing |
| Store.Filtered | unqdantic/core.py:51-52 | `filter` returns exactly the records on which the query holds, in their listed order, and raises exactly when the query raises on some record |
| Store.MatchingAppend | unqdantic/core.py:51-52 | filtering a concatenation filters each part and concatenates the results |
| Store.MatchingMembers | unqdantic/core.py:51-52 | a record is kept exactly when it is in the list and the query holds on it |
| Store.FirstMatchLeast | unqdantic/core.py:39-52 | the first record `filter` keeps from the listing is the stored record with the least id on which the query holds |
| Store.ListedInIdOrder | unqdantic/core.py:39-40 | the listing is in strictly increasing id order, and each entry is the record stored under the id it carries |
| Store.Collection.constructor | unqdantic/core.py:30-32 | a new collection is empty and has handed out no id |
| Store.Collection.NextId | unqdantic/core.py:106-111 | the next id holds no record |
| Store.Collection.LastRecordId | unqdantic/core.py:75-76 | `last_record_id` raises `ValueError` exactly when no id was handed out, and otherwise bounds every stored id |
| Store.Collection.Fetch | unqdantic/core.py:84-85 | `fetch(id)` gives the record under the id, which carries that id, and `None` when there is none |
| Store.Collection.Store | unqdantic/core.py:106-111 | `store(doc)` puts the document, with its id, under the next id, returns it, and keeps the collection valid |
| Store.Collection.StoreAll | unqdantic/core.py:106-111 | `store(docs, return_id=False)` stores the documents under consecutive ids (the `Appended` fold), keeps the collection valid, and leaves the last id at the last one handed out |
| Store.AppendedRecords | unqdantic/core.py:106-111 | storing documents from id `next` adds exactly the ids `next` to `next + n - 1`, the `i`-th document under `next + i` with that id written in, and keeps every other record |
| Store.Collection.Update | unqdantic/core.py:113-114 | `update(id, doc)` replaces the record under an existing id, and otherwise changes nothing and gives `False` |
| Store.Collection.Delete | unqdantic/core.py:119-120 | `delete(id)` removes the record under an existing id, and otherwise changes nothing and gives `False` |
| Store.Collection.All | unqdantic/core.py:39-40 | `all()` lists the stored records in strictly increasing id order, each the record stored under the id it carries |
| Store.Collection.Filter | unqdantic/core.py:51-52 | `filter(query)` gives the stored records on which the query holds, in id order, and raises exactly when the query raises on a stored record |
| Store.AllListsStore | unqdantic/core.py:39-40 | `all()` lists exactly the stored records |
| Meta.MetaConfigDefaults | unqdantic/meta.py:6-9 | `MetaConfig` has `name` and `db` `None` and `by_alias` `False` |
| Meta.LookupAppend | unqdantic/meta.py:12-24 | looking along `a + b` looks along `a` and then along `b` |
| Meta.LookupOther | unqdantic/meta.py:12-24 | a class outside the order does not affect the lookup |
| Meta.Candidate | unqdantic/meta.py:24 | the merge's next class heads some base and is in no tail |
| Meta.C3Merge | unqdantic/meta.py:24 | the C3 merge that `type()` performs fails only with `TypeError` |
| Meta.C3MergeElements | unqdantic/meta.py:24 | the merge orders only classes its inputs name |
| Meta.Linearize | unqdantic/meta.py:24 | a new class's order starts with the class itself; an inconsistent order raises `TypeError` |
| Meta.MixMetaConfig | unqdantic/meta.py:12-24 | `mix_meta_config` adds one new class with the keyword namespace, whose order starts with it |
| Meta.SingleBaseOrder | unqdantic/meta.py:17-18 | over one base, the order is the new class followed by the base's order |
| Meta.C3EndsAtRoot | unqdantic/meta.py:24 | merging an order that ends at `MetaConfig` with `MetaConfig` gives that order |
| Meta.InheritedOrder | unqdantic/models.py:71 | `mix_meta_config(base.meta, MetaConfig)` orders the new class before the whole of the base's meta order |
| Meta.C3Disjoint | unqdantic/meta.py:24 | merging two orders with no class in common gives one after the other |
| Meta.TwoBaseOrder | unqdantic/meta.py:21-24 | over two disjoint bases, the order is the new class, the own config's order, then the parent's |
| Meta.NoOwnConfig | unqdantic/meta.py:17-18 | without an own config, the keyword entries come first and everything else is the parent's |
| Meta.OwnIsParent | unqdantic/meta.py:19-20 | an own config equal to the parent is named once, with the same result as no own config, because naming it twice raises `TypeError` |
| Meta.DistinctConfigs | unqdantic/meta.py:21-24 | a distinct own config: keyword entries first, then the own config's settings, then the parent's |
| Meta.KeywordsWin | unqdantic/meta.py:12-24 | a keyword entry wins over both configs in every case |
| Meta.MixKnown | unqdantic/meta.py:12-24 | every class in a mixed config's order is in the new class table |
| Models.FromDoc | unqdantic/models.py:265-268 | `from_doc` moves the stored id from `__id` to `id` and keeps every other field; a record without `__id` raises `KeyError` |
| Models.StoredComesBack | unqdantic/models.py:265-268 | the fields stored with an id come back through `from_doc` with that id as `id` |
| Models.FromDocs | unqdantic/models.py:185 | building instances from a list succeeds exactly when every record carries `__id`, elementwise |
| Models.SetAttrFrame | unqdantic/models.py:139-145 | every field off the assigned path, at any depth, reads the same after the assignment |
| Models.SetAttr | unqdantic/models.py:139-145 | the attribute walk succeeds exactly when the path exists; then the path holds the new value and the other top-level fields are unchanged (deeper fields: `Models.SetAttrFrame`); it raises only `AttributeError` or `ValueError` |
| Models.SetFields | unqdantic/models.py:137-148 | the assignments never add or remove a top-level field, raise only `AttributeError` or `ValueError`, and when none raises the last one's value is at its path |
| Models.UpdateSteps | unqdantic/models.py:137-148 | `update` makes one assignment per field key and per keyword, each with a non-empty path |
| Models.SetFieldsKeepsId | unqdantic/models.py:137-148 | assignments, validated by pydantic, keep `id` an int |
| Models.UpdateByProxyAsWritten | unqdantic/models.py:138-145 | a proxy key's `str` starts with the class name, so the walk raises `AttributeError` |
| Models.UpdateByProxySets | unqdantic/models.py:138-145 | corrected key text: the field at the proxy's path is assigned |
| Models.UpdateByProxyDiscrepancy | unqdantic/models.py:138-145 | `update(fields={User.info.money: 300})` raises as written and assigns the field once corrected |
| Models.DefaultsWin | unqdantic/models.py:231-233 | in `get_or_create`, a value from the defaults wins over the value the filter contributes at the same path |
| Models.CreatedSatisfiesFilter | unqdantic/models.py:231-234 | a record created for `path == v` satisfies that filter when the defaults leave the field alone |
| Models.EqualitiesHold | unqdantic/expression.py:175-192 | a record holding every equality's literal at its path satisfies each equality and their merge |
| Models.CreatedSatisfiesFilters | unqdantic/models.py:228-234 | the instance `get_or_create` makes for equalities on distinct first names, with defaults that leave those names alone, satisfies the merged filter, and so does the record stored for it when no filter names `__id` |
| Models.CreatedComesBack | unqdantic/models.py:231-234 | the record stored for a created instance comes back through `from_doc` as its fields with the new id as `id` |
| Models.WrittenBackComesBack | unqdantic/models.py:149 | writing an instance back keeps the stored ids; the record under its id comes back through `from_doc` as the instance's fields, and every other record is unchanged |
| Models.FirstPartsElements | unqdantic/models.py:244-246 | the names passed on are exactly the first parts of the defaults' keys |
| Models.FirstPartsOrder | unqdantic/utils.py:22-34 | the first parts are listed once each, in the order their keys first occur |
| Models.AssignKeys | unqdantic/utils.py:27-33 | a key walk adds exactly the key's first part at the top level |
| Models.GenerateFromKeys | unqdantic/utils.py:22-34 | the top-level keys of a generated dict are exactly the first parts of its keys |
| Models.DefaultKeywords | unqdantic/models.py:244-246 | `**generate_dict(defaults)` passes each top-level key of the generated dict once, with its value, in the order `generate_dict` first inserts it |
| Models.TopItems | unqdantic/models.py:246 | `**default` passes the named entries of the dict in order |
| Models.DocumentClass.constructor | unqdantic/models.py:84-96 | a new document class holds its name, meta and collection |
| Models.DocumentClass.GenerateId | unqdantic/models.py:276-281 | `_generate_id` is one past the last id, or 0 when `get_last_id` raises; it is never a stored id |
| Models.DocumentClass.All | unqdantic/models.py:208-212 | `all()` raises `ValueError` without a collection and otherwise gives, in id order, the `from_doc` instance of each record `collection.all()` lists |
| Models.DocumentClass.GetById | unqdantic/models.py:194-200 | `get_by_id` raises `ValueError` without a collection, gives `None` exactly when no record is under the id, and otherwise the instance `from_doc` makes of the stored record, which has that id |
| Models.DocumentClass.FindAll | unqdantic/models.py:177-185 | `find_all` raises `ValueError` without a collection; with no filter it is `all()`; a non-query filter raises `TypeError`; every instance it gives has an int id |
| Models.DocumentClass.FindOne | unqdantic/models.py:187-192 | `find_one` with no filter is `get_by_id(0)`; otherwise the first result of `find_all`, or `None` |
| Models.DocumentClass.DeleteById | unqdantic/models.py:202-206 | `delete_by_id` removes the record under the id, reports whether there was one, and does not give the id back (the last id is unchanged) |
| Models.DocumentClass.SaveAll | unqdantic/models.py:166-175 | `save_all` stores every instance's fields under consecutive ids and gives `False` for no instances; the last id becomes the last one handed out |
| Models.DocumentClass.GetOrCreate | unqdantic/models.py:222-234 | `get_or_create` propagates an error of `find_one`; it returns the match unchanged and leaves the store alone; or else it stores the filter's dict merged with the generated defaults under a new id and returns it with that id, raising `ValueError` for a non-int `id`; the last id is unchanged unless a record was created, and is then the new id |
| Models.DocumentClass.Create | unqdantic/models.py:231-234 | the create branch: the merged fields are stored under `_generate_id()`, with that id as `id` and `__id`, and that id becomes the last id; on an error nothing changes |
| Models.DocumentClass.UpdateOrCreate | unqdantic/models.py:236-249 | `update_or_create` generates the defaults first; it sets them on the match and writes it back under its id, leaving the store alone when an assignment raises; or else it creates as `get_or_create` does; only a creation changes the last id |
| Models.Document.constructor | unqdantic/models.py:86-92 | a new instance keeps its fields and takes `_generate_id()` as `id` when none is given |
| Models.Document.Insert | unqdantic/models.py:122-127 | `insert` raises `ValueError` without a collection, and otherwise stores the fields under the next id, takes that id, and makes it the last id, so the next `_generate_id()` is one past it |
| Models.Document.Update | unqdantic/models.py:129-149 | `update` makes the assignments in order and stops at the first that raises; if none raises, it writes the fields back under the instance's id; the last id is unchanged |
| Models.Document.Assign | unqdantic/models.py:137-148 | the assignment loops of `update`: the assignments are made in order until one raises, whose error comes back; the fields reached are those `SetFields` gives, and the instance keeps an int `id` |
| Models.Document.Save | unqdantic/models.py:151-159 | `save` updates an instance whose id holds a record: it returns the instance with the assigned fields written back under its id, or propagates the first error and leaves the store alone, with the last id unchanged either way; it inserts any other, which makes its new id the last id |
| Models.Document.Delete | unqdantic/models.py:161-164 | `delete` removes the record under the instance's id, reports whether there was one, and leaves the last id unchanged, so the id is not handed out again |
| Models.Fields | unqdantic/models.py:172 | the list of the instances' fields, elementwise |
| Models.MatchingHoldingAll | unqdantic/models.py:183-185 | filtering by the merged query keeps exactly the records on which every filter holds, in order |
| Models.MergedOnListing | unqdantic/models.py:183-185 | the merged filter is truth-valued and holds on a listed record exactly when every filter does |
| Models.HoldingAllMembers | unqdantic/models.py:183-185 | a record is kept exactly when it is listed and every filter holds on it |
| Models.FindAllInOrder | unqdantic/models.py:177-185 | `find_all(*filters)` succeeds and gives the instances of the stored records on which every filter holds, in id order |
| Models.FindAllIsConjunction | unqdantic/models.py:177-185 | `find_all(*filters)` gives exactly the instances of the stored records on which every filter holds |
| Models.FirstHoldingLeast | unqdantic/models.py:187-192 | the first record kept is the stored record with the least id on which every filter holds |
| Models.FindOneMatches | unqdantic/models.py:187-192 | `find_one(*filters)` gives `None` exactly when no stored record satisfies every filter, and otherwise the instance of the match with the least id |
| Models.FromStoredHaveIds | unqdantic/models.py:185 | instances built from stored records have int ids |
| Models.StoredCarryIds | unqdantic/core.py:39-40 | every listed record carries its int id under `__id` |
| MetaDocument.ParentMetaGrows | unqdantic/models.py:68-71 | the loop over the bases only adds fresh classes, leaves the existing ones unchanged, and finds a meta over known classes |
| MetaDocument.ParentMetaOrdered | unqdantic/models.py:68-71 | when every document base's meta has the shape `mix_meta_config` gives, the loop never raises and each document base yields a new empty class over its meta |
| MetaDocument.MetaKeywords | unqdantic/models.py:73-80 | the meta keywords taken are exactly the class keywords that name a non-dunder attribute of the meta |
| MetaDocument.DefineMeta | unqdantic/models.py:68-82 | the new meta's order is over known classes, and the only failure is `TypeError` |
| MetaDocument.FirstDocument | unqdantic/models.py:69-71 | the first document base, or none when no base is a document |
| MetaDocument.OnlyOtherBases | unqdantic/models.py:68-71 | without a document base, the parent meta is `MetaConfig` itself |
| MetaDocument.FirstDocumentBaseWins | unqdantic/models.py:69-71 | since the loop runs over the reversed bases, the parent meta is an empty new class over the FIRST document base's meta |
| MetaDocument.LookupReachesRoot | unqdantic/models.py:73-77 | every `MetaConfig` attribute is found along a meta's order |
| MetaDocument.ResolvedSetting | unqdantic/models.py:68-82 | a setting not given as a keyword comes from the inner `Meta`, else (for `name`) the class's name, else the first document base's meta, else `MetaConfig` |
| MetaDocument.KeywordSetting | unqdantic/models.py:73-82 | a meta keyword of the class statement wins over every other source |
| MetaDocument.Registry.constructor | unqdantic/meta.py:6-9 | the registry starts with `MetaConfig` alone |
| MetaDocument.Registry.DefineClass | unqdantic/models.py:120 | a plain class statement adds one new class with its namespace |
| MetaDocument.Registry.InheritMeta | unqdantic/models.py:68-71 | the reversed loop over the bases computes `ParentMeta` |
| MetaDocument.Registry.NewDocumentClass | unqdantic/models.py:61-98 | class creation gives the meta `DefineMeta` describes; the class is unbound when `db` is `None`, bound when it is a database, and `AttributeError` is raised otherwise |
| Scenarios.InsertUser | tests/test_insert_query.py:5 | `User(...).insert()` on a bound class: the user takes the collection's next id, is stored under it, and that id becomes the last id |
| Scenarios.InsertedIds | tests/test_insert_query.py:4-17 | four users made without an id and inserted one after the other into a new collection, through `Models.Document` and its `insert`, get the ids 0, 1, 2 and 3; the collection then holds `Inserted()` and lists them in that order |
| Scenarios.PrefixFilter | tests/test_insert_query.py:24 | `User.name.startswith("Ax")` selects two users |
| Scenarios.SuffixFilter | tests/test_insert_query.py:25 | `User.name.endswith("y")` selects two users |
| Scenarios.AdultFilter | tests/test_insert_query.py:27 | `User.age >= 18` selects three users |
| Scenarios.MinorFilter | tests/test_insert_query.py:28 | `User.age < 18` selects one user |
| Scenarios.MoneyEqualFilter | tests/test_insert_query.py:30 | `User.info.money == 300` selects two users |
| Scenarios.MoneyAboveFilter | tests/test_insert_query.py:31 | `User.info.money > 100` selects four users |
| Scenarios.FindByName | tests/test_insert_query.py:22 | `User.name == "Axy"` finds exactly the user with id 1 |
| Scenarios.DeletedNotFound | tests/test_insert_query.py:34-35 | after that user is deleted the filter finds nothing |
| Scenarios.TwoLeft | tests/test_insert_query.py:37-38 | after deleting ids 1 and 3, two users are listed |
| Scenarios.SavedRename | tests/test_insert_query.py:37-42 | with ids 1 and 3 deleted, after the first user is renamed and saved, the new name finds exactly that user |
| Scenarios.DocumentMeta | unqdantic/models.py:68-82 | defining `Document`, whose inner `Meta` is `MetaConfig` itself, writes its name into `MetaConfig` and gives it an empty meta over `MetaConfig` |
| Scenarios.UserMeta | tests/test_model_meta.py:6-10 | `User.meta` resolves `name` "user" and its database from its inner `Meta`, and `by_alias` from `MetaConfig` |

## Left out

- The UnQLite engine: the collection is an in-memory map from ids to
  records. Files, cursors, schemas (`set_schema`), `creation_date` and
  `clear` (`drop`/`create`) are not modelled.
- `Database` and `init_model` (unqdantic/core.py:129-160): the collection a
  database opens for a class is a parameter of
  `MetaDocument.Registry.NewDocumentClass`. The collection name
  (`meta.name or cname.lower()`), `meta.db = self` and the database's
  registry of initialised documents are not modelled.
- Pydantic: field declaration (`add_fields`, `__fields__`), validation
  and defaults. Of validation, only the check that `id` is an int is
  modelled. An instance's fields are a record, and `doc()` (a JSON round
  trip with `by_alias`) is that record.
- `MetaDocument.__getattr__` (unqdantic/models.py:100-103): a field proxy
  is made by `Expression.QueryPathProxy.constructor`. The check against
  `__fields__` belongs to pydantic.
- `export_all_to_dict` and `bulk_save_from_dict`: serialisation, and a
  composition of `cls(**doc)` with `Models.Document.Save`.
- `Query.__str__` and `__repr__`: text only.
- Floats and `truediv`: values are None, bools, ints, strings, lists and
  dicts.
- Aliasing: a `Query` holds a proxy's path by value, so a later access on
  the same proxy does not change nodes already built. Each `User.name`
  makes a new proxy, so this does not arise in the source's own use.
- Operators.Identity: `is` between two values that are not `None`,
  `True` or `False` gives `Undetermined`, because object identity is not
  modelled.
- Meta.C3Merge: its contract states only the error. The order it gives is
  proved for the one- and two-base shapes `mix_meta_config` creates, not
  for arbitrary hierarchies.
- Models.Document.Update: it uses the corrected key text of the second
  finding below. For a field-proxy key of `fields`, the source raises
  `AttributeError` (unqdantic/models.py:138-145), which
  `Models.UpdateByProxyAsWritten` states. The model assigns the field at
  the proxy's path instead.
- Models.UpdateSteps: it splits a field-proxy key by the corrected key text
  (the proxy's path), not by `str(k)` as unqdantic/models.py:138 does.
  `Models.KeyTextAsWritten` is the text the source uses.
- Models.Document.Save: `save(**kwargs)` forwards its keywords to
  `update(**kwargs)` (unqdantic/models.py:156). A keyword named `fields`
  would bind `update`'s `fields` argument; the model takes every keyword
  as a field name.
- Expression.ToDict: a query on the right of a path is stored by the source
  as the `Query` object itself (unqdantic/expression.py:196-197). A record
  value cannot hold a query, so the model raises `Unrepresentable` there
  (`Expression.LeafValue`). The dict of the right-hand query merged in
  after it is not modelled for such a node.
- `len(q)` on a query or proxy: `__len__` returns a `Query`, so Python's
  `len` raises `TypeError`. The model has the node that a direct
  `q.__len__()` call builds (unqdantic/expression.py:105-106); the
  `TypeError` of `len` itself is not modelled.
- Models.DocumentClass.UpdateOrCreate: it passes the generated defaults
  as keywords. A default named `fields` is not set apart as the `fields`
  argument.
- Models.DefaultKeywords: defaults keys are taken as strings, so
  `str(k)` on a non-string key is not modelled.
- Orphaned meta classes: intermediate classes that `mix_meta_config`
  makes stay in the registry, which only matters for tag freshness.
- A malformed-expression error for a helper (`in_`, `not_in`, `is_`,
  `is_not`, `concat`) whose left operand is neither a path nor a query:
  unqdantic/expression.py:238-255 performs no such check, and the model
  follows the code. A proxy given there is the first finding below.
- `to_dict` does not look at a node's operator, so `age > 18` contributes
  `{"age": 18}` just as `age == 18` does. `Expression.ToDictLeaf` states
  this for every operator.
- Concurrency: UnQLite's locking is outside the model.

## Findings

| source | as written | input that shows it | evidently intended | confidence | as-written member | corrected member |
|---|---|---|---|---|---|---|
| unqdantic/expression.py:238-243 | `in_(a, b)` and `not_in(a, b)` store the field proxy `a` as a literal. Evaluation then tests the proxy object itself for membership. Comparing the proxy with a list element gives a `Query`, whose truth value calls `Query.__len__`, which returns a `Query`, so the membership check raises `TypeError` | `in_(User.name, ["Ax", "Axy"])` on the record `{"name": "Ax"}` | membership is decided on the record's value at the proxy's path, which selects that record | not executed | Expression.ProxyMembershipAsWritten | Expression.InField |
| unqdantic/models.py:138-145 | `update(fields={proxy: v})` keys the assignment by `str(proxy)`, which starts with the class name (`"User.info.money"`). The attribute walk then looks for a field `User` and raises `AttributeError` | `user.update(fields={User.info.money: 300})` on a user whose `info.money` is 200 | the field at the proxy's path (`info.money`) is set to 300 | not executed | Models.UpdateByProxyAsWritten | Models.UpdateByProxySets |
