/** Class creation for documents (`MetaDocument.__new__` in
    unqdantic/models.py): the meta config a new document class gets from its
    bases, its own inner `Meta` and the meta keywords of the class
    statement, and the collection it is bound to. Classes made by `type()`
    live in a registry of namespaces under tags. */
module MetaDocument {
  import opened Values
  import opened Strings
  import opened Meta
  import Store
  import Models

  /** A base of a class statement: a document class, given by its meta's
      order, or any other class. */
  datatype Base = DocumentBase(meta: Mro) | OtherBase

  /** Every document base's meta has an order over known classes. */
  predicate BasesKnown(classes: Classes, bases: seq<Base>) {
    forall i | 0 <= i < |bases| :: bases[i].DocumentBase? ==> |bases[i].meta| > 0 && Known(classes, bases[i].meta)
  }

  /** The shape of every order `mix_meta_config` gives over `MetaConfig`:
      no class twice, at least one class above `MetaConfig`, which is last. */
  predicate MetaOrder(m: Mro) {
    |m| >= 2 && NoDup(m) && m[|m| - 1] == MetaConfigTag
  }

  /** Every tag in use is below `next`, the tag the next class gets. */
  predicate Fresh(classes: Classes, next: Tag) {
    forall t | t in classes :: t < next
  }

  /** The registry after a step, and the meta order reached or the error
      raised. */
  datatype Stage = Stage(classes: Classes, next: Tag, meta: Result<Mro>)

  /** The loop over the bases from last to first: each document base gives
      `mix_meta_config(base.meta, MetaConfig)`, a new class, which replaces
      the meta found so far; other bases are skipped. */
  function ParentMeta(classes: Classes, next: Tag, bases: seq<Base>, meta: Mro): (r: Stage)
    requires MetaConfigTag in classes && BasesKnown(classes, bases) && |meta| > 0
    ensures MetaConfigTag in r.classes
    ensures r.next >= next
    ensures r.meta.Ok? ==> |r.meta.value| > 0
    ensures r.meta.Err? ==> r.meta.error == TypeError
    decreases |bases|
  {
    if |bases| == 0 then Stage(classes, next, Ok(meta))
    else
      var base := bases[|bases| - 1];
      assert BasesKnown(classes, bases[..|bases| - 1]) by {
        forall i | 0 <= i < |bases| - 1 ensures bases[..|bases| - 1][i] == bases[i] { }
      }
      if base.OtherBase? then ParentMeta(classes, next, bases[..|bases| - 1], meta)
      else
        match MixMetaConfig(classes, Some(base.meta), [MetaConfigTag], map[], next)
        case Err(e) => Stage(classes, next, Err(e))
        case Ok(mixed) =>
          assert BasesKnown(mixed.0, bases[..|bases| - 1]) by {
            forall i | 0 <= i < |bases| - 1 && bases[i].DocumentBase?
              ensures Known(mixed.0, bases[i].meta)
            {
              assert bases[..|bases| - 1][i] == bases[i];
            }
          }
          ParentMeta(mixed.0, next + 1, bases[..|bases| - 1], mixed.1)
  }

  /** Whether `dir()` would hide the name from the allowed meta keywords:
      it starts and ends with two underscores. */
  predicate IsDunder(key: string) {
    |key| >= 2 && key[..2] == "__" && key[|key| - 2..] == "__"
  }

  /** The class statement's keywords that name a non-dunder attribute of the
      meta found so far; the others go on to pydantic. */
  function MetaKeywords(classes: Classes, meta: Mro, kwargs: map<string, Setting>): (r: Namespace)
    requires Known(classes, meta)
    ensures forall k :: k in r <==> k in kwargs && !IsDunder(k) && Lookup(classes, meta, k).Some?
    ensures forall k | k in r :: r[k] == kwargs[k]
  {
    map k | k in kwargs && !IsDunder(k) && Lookup(classes, meta, k).Some? :: kwargs[k]
  }

  /** The whole of class creation up to the meta config: the parent meta from
      the bases, its `name` set to the class name in place, then
      `mix_meta_config(attrs.get("Meta"), meta, **meta_kwargs)`. */
  function DefineMeta(classes: Classes, next: Tag, cname: string, bases: seq<Base>, inner: Option<Mro>,
                      kwargs: map<string, Setting>): (r: Stage)
    requires MetaConfigTag in classes && Fresh(classes, next) && BasesKnown(classes, bases)
    requires inner.Some? ==> |inner.value| > 0 && Known(classes, inner.value)
    ensures Fresh(r.classes, r.next) && MetaConfigTag in r.classes
    ensures r.meta.Ok? ==> |r.meta.value| > 0 && Known(r.classes, r.meta.value)
    ensures r.meta.Err? ==> r.meta.error == TypeError
  {
    var s := ParentMeta(classes, next, bases, [MetaConfigTag]);
    ParentMetaGrows(classes, next, bases, [MetaConfigTag]);
    if s.meta.Err? then s
    else
      var m := s.meta.value;
      var named := s.classes[m[0] := s.classes[m[0]]["name" := Text(cname)]];
      assert Known(named, m);
      assert inner.Some? ==> Known(named, inner.value);
      match MixMetaConfig(named, inner, m, MetaKeywords(named, m, kwargs), s.next)
      case Err(e) => Stage(named, s.next, Err(e))
      case Ok(mixed) =>
        MixKnown(named, inner, m, MetaKeywords(named, m, kwargs), s.next);
        Stage(mixed.0, s.next + 1, Ok(mixed.1))
  }

  /** The first document base, in declaration order. */
  function FirstDocument(bases: seq<Base>): (r: Option<nat>)
    ensures r.Some? ==> r.value < |bases| && bases[r.value].DocumentBase?
                        && forall i | 0 <= i < r.value :: bases[i].OtherBase?
    ensures r.None? ==> forall i | 0 <= i < |bases| :: bases[i].OtherBase?
    decreases |bases|
  {
    if |bases| == 0 then None
    else if bases[0].DocumentBase? then Some(0)
    else
      match FirstDocument(bases[1..])
      case None => None
      case Some(k) => Some(k + 1)
  }

  lemma BasesKnownPrefix(classes: Classes, grown: Classes, bases: seq<Base>, n: nat)
    requires n <= |bases| && BasesKnown(classes, bases) && classes.Keys <= grown.Keys
    ensures BasesKnown(grown, bases[..n])
  {
    forall i | 0 <= i < n && bases[..n][i].DocumentBase? ensures Known(grown, bases[..n][i].meta) {
      assert bases[..n][i] == bases[i];
    }
  }

  /** One round of the loop, on its last base: skipped, raising, or giving
      the new meta the rest of the loop goes on with. */
  lemma ParentMetaStep(classes: Classes, next: Tag, bases: seq<Base>, meta: Mro)
    requires MetaConfigTag in classes && BasesKnown(classes, bases) && |meta| > 0 && |bases| > 0
    ensures BasesKnown(classes, bases[..|bases| - 1])
    ensures bases[|bases| - 1].OtherBase? ==>
      ParentMeta(classes, next, bases, meta) == ParentMeta(classes, next, bases[..|bases| - 1], meta)
    ensures bases[|bases| - 1].DocumentBase? ==>
      var mixed := MixMetaConfig(classes, Some(bases[|bases| - 1].meta), [MetaConfigTag], map[], next);
      && (mixed.Err? ==> ParentMeta(classes, next, bases, meta) == Stage(classes, next, Err(mixed.error)))
      && (mixed.Ok? ==>
            && BasesKnown(mixed.value.0, bases[..|bases| - 1])
            && ParentMeta(classes, next, bases, meta)
               == ParentMeta(mixed.value.0, next + 1, bases[..|bases| - 1], mixed.value.1))
  {
    var n := |bases| - 1;
    BasesKnownPrefix(classes, classes, bases, n);
    if bases[n].DocumentBase? {
      var mixed := MixMetaConfig(classes, Some(bases[n].meta), [MetaConfigTag], map[], next);
      if mixed.Ok? {
        BasesKnownPrefix(classes, mixed.value.0, bases, n);
      }
    }
  }

  /** A last base that is not a document class is skipped. */
  lemma ParentMetaSkip(classes: Classes, next: Tag, bases: seq<Base>, meta: Mro)
    requires MetaConfigTag in classes && BasesKnown(classes, bases) && |meta| > 0
    requires |bases| > 0 && bases[|bases| - 1].OtherBase?
    ensures BasesKnown(classes, bases[..|bases| - 1])
    ensures ParentMeta(classes, next, bases, meta) == ParentMeta(classes, next, bases[..|bases| - 1], meta)
  {
    ParentMetaStep(classes, next, bases, meta);
  }

  /** A last base that is a document class with a well-formed meta gives a
      new empty class over that meta, which the rest of the loop starts
      from. */
  lemma ParentMetaOverBase(classes: Classes, next: Tag, bases: seq<Base>, meta: Mro)
    requires MetaConfigTag in classes && BasesKnown(classes, bases) && |meta| > 0
    requires |bases| > 0 && bases[|bases| - 1].DocumentBase? && MetaOrder(bases[|bases| - 1].meta)
    ensures BasesKnown(classes[next := map[]], bases[..|bases| - 1])
    ensures ParentMeta(classes, next, bases, meta)
         == ParentMeta(classes[next := map[]], next + 1, bases[..|bases| - 1], [next] + bases[|bases| - 1].meta)
  {
    var b := bases[|bases| - 1].meta;
    ParentMetaStep(classes, next, bases, meta);
    InheritedOrder(next, b);
    assert MixMetaConfig(classes, Some(b), [MetaConfigTag], map[], next) == Ok((classes[next := map[]], [next] + b));
  }

  /** The loop over the bases only adds classes under fresh tags: every
      class it starts from keeps its namespace, and the meta it finds is
      over known classes. */
  lemma {:induction false} ParentMetaGrows(classes: Classes, next: Tag, bases: seq<Base>, meta: Mro)
    requires MetaConfigTag in classes && BasesKnown(classes, bases) && |meta| > 0
    requires Known(classes, meta) && Fresh(classes, next)
    ensures var r := ParentMeta(classes, next, bases, meta);
      && Fresh(r.classes, r.next) && classes.Keys <= r.classes.Keys
      && (forall t | t in classes :: r.classes[t] == classes[t])
      && (r.meta.Ok? ==> Known(r.classes, r.meta.value))
    decreases |bases|
  {
    var r := ParentMeta(classes, next, bases, meta);
    if |bases| == 0 {
      assert r == Stage(classes, next, Ok(meta));
    } else {
      var n := |bases| - 1;
      if bases[n].OtherBase? {
        ParentMetaSkip(classes, next, bases, meta);
        ParentMetaGrows(classes, next, bases[..n], meta);
        assert r == ParentMeta(classes, next, bases[..n], meta);
      } else {
        var ok, found := ParentMetaMix(classes, next, bases, meta);
        if ok {
          var later := ParentMeta(classes[next := map[]], next + 1, bases[..n], found);
          ParentMetaGrows(classes[next := map[]], next + 1, bases[..n], found);
          KeepsThroughNew(classes, next, later.classes);
          assert r == later;
        }
      }
    }
  }

  /** A last base that is a document class: the loop raises there, or
      goes on from a new empty class under `next` with a meta over known
      classes. */
  lemma ParentMetaMix(classes: Classes, next: Tag, bases: seq<Base>, meta: Mro) returns (ok: bool, found: Mro)
    requires MetaConfigTag in classes && BasesKnown(classes, bases) && |meta| > 0 && Fresh(classes, next)
    requires |bases| > 0 && bases[|bases| - 1].DocumentBase?
    ensures !ok ==> ParentMeta(classes, next, bases, meta) == Stage(classes, next, Err(TypeError))
    ensures ok ==>
      && |found| > 0 && Known(classes[next := map[]], found)
      && BasesKnown(classes[next := map[]], bases[..|bases| - 1])
      && ParentMeta(classes, next, bases, meta)
         == ParentMeta(classes[next := map[]], next + 1, bases[..|bases| - 1], found)
  {
    var b := bases[|bases| - 1].meta;
    ParentMetaStep(classes, next, bases, meta);
    var mixed := MixMetaConfig(classes, Some(b), [MetaConfigTag], map[], next);
    ok := mixed.Ok?;
    if ok {
      MixKnown(classes, Some(b), [MetaConfigTag], map[], next);
      found := mixed.value.1;
    } else {
      found := [];
    }
  }

  /** A table that keeps every class of `classes[next := map[]]` keeps
      every class of `classes`, when `next` is a fresh tag. */
  lemma KeepsThroughNew(classes: Classes, next: Tag, later: Classes)
    requires Fresh(classes, next)
    requires classes[next := map[]].Keys <= later.Keys
    requires forall t | t in classes[next := map[]] :: later[t] == classes[next := map[]][t]
    ensures classes.Keys <= later.Keys && forall t | t in classes :: later[t] == classes[t]
  {
    forall t | t in classes ensures t in later && later[t] == classes[t] {
      assert t != next && t in classes[next := map[]];
    }
  }

  /** Without document bases the loop leaves `MetaConfig` as the meta. */
  lemma {:induction false} OnlyOtherBases(classes: Classes, next: Tag, bases: seq<Base>, meta: Mro)
    requires MetaConfigTag in classes && BasesKnown(classes, bases) && |meta| > 0
    requires forall i | 0 <= i < |bases| :: bases[i].OtherBase?
    ensures ParentMeta(classes, next, bases, meta) == Stage(classes, next, Ok(meta))
    decreases |bases|
  {
    if |bases| > 0 {
      ParentMetaSkip(classes, next, bases, meta);
      OnlyOtherBases(classes, next, bases[..|bases| - 1], meta);
    }
  }

  /** Every document base's meta has the shape `mix_meta_config` gives. */
  predicate BasesOrdered(bases: seq<Base>) {
    forall i | 0 <= i < |bases| && bases[i].DocumentBase? :: MetaOrder(bases[i].meta)
  }

  /** The loop over the bases when every document base's meta is well
      formed: each document base gives a new empty class over its meta. */
  ghost function OrderedParent(classes: Classes, next: Tag, bases: seq<Base>, meta: Mro): Stage
    decreases |bases|
  {
    if |bases| == 0 then Stage(classes, next, Ok(meta))
    else if bases[|bases| - 1].OtherBase? then OrderedParent(classes, next, bases[..|bases| - 1], meta)
    else OrderedParent(classes[next := map[]], next + 1, bases[..|bases| - 1], [next] + bases[|bases| - 1].meta)
  }

  /** Over well-formed bases the loop never raises: it is `OrderedParent`. */
  lemma {:induction false} ParentMetaOrdered(classes: Classes, next: Tag, bases: seq<Base>, meta: Mro)
    requires MetaConfigTag in classes && BasesKnown(classes, bases) && |meta| > 0 && BasesOrdered(bases)
    ensures ParentMeta(classes, next, bases, meta) == OrderedParent(classes, next, bases, meta)
    decreases |bases|
  {
    if |bases| > 0 {
      var n := |bases| - 1;
      assert BasesOrdered(bases[..n]) by {
        forall i | 0 <= i < n ensures bases[..n][i] == bases[i] { }
      }
      if bases[n].OtherBase? {
        ParentMetaSkip(classes, next, bases, meta);
        ParentMetaOrdered(classes, next, bases[..n], meta);
      } else {
        ParentMetaOverBase(classes, next, bases, meta);
        ParentMetaOrdered(classes[next := map[]], next + 1, bases[..n], [next] + bases[n].meta);
      }
    }
  }

  /** Without document bases `OrderedParent` leaves the meta as it is. */
  lemma {:induction false} OrderedOnlyOthers(classes: Classes, next: Tag, bases: seq<Base>, meta: Mro)
    requires forall i | 0 <= i < |bases| :: bases[i].OtherBase?
    ensures OrderedParent(classes, next, bases, meta) == Stage(classes, next, Ok(meta))
    decreases |bases|
  {
    if |bases| > 0 {
      assert bases[|bases| - 1].OtherBase?;
      assert forall i | 0 <= i < |bases| - 1 :: bases[..|bases| - 1][i] == bases[i];
      OrderedOnlyOthers(classes, next, bases[..|bases| - 1], meta);
    }
  }

  /** `OrderedParent` ends with the class made over the first document base. */
  lemma {:induction false} OrderedFirstWins(classes: Classes, next: Tag, bases: seq<Base>, k: nat, meta: Mro)
    requires k < |bases| && bases[k].DocumentBase? && forall i | 0 <= i < k :: bases[i].OtherBase?
    ensures var r := OrderedParent(classes, next, bases, meta);
      && r.next > next && r.meta == Ok([r.next - 1] + bases[k].meta)
      && r.next - 1 in r.classes && r.classes[r.next - 1] == map[]
    decreases |bases|
  {
    var n := |bases| - 1;
    assert forall i | 0 <= i < n :: bases[..n][i] == bases[i];
    if k == n {
      OrderedOnlyOthers(classes[next := map[]], next + 1, bases[..n], [next] + bases[n].meta);
    } else if bases[n].OtherBase? {
      OrderedFirstWins(classes, next, bases[..n], k, meta);
    } else {
      OrderedFirstWins(classes[next := map[]], next + 1, bases[..n], k, [next] + bases[n].meta);
    }
  }

  /** The loop runs from the last base to the first, so the meta it leaves
      is the one made over the FIRST document base: a new class, with an
      empty namespace, followed by that base's meta order. */
  lemma FirstDocumentBaseWins(classes: Classes, next: Tag, bases: seq<Base>, k: nat, meta: Mro)
    requires MetaConfigTag in classes && BasesKnown(classes, bases) && |meta| > 0
    requires k < |bases| && bases[k].DocumentBase? && forall i | 0 <= i < k :: bases[i].OtherBase?
    requires BasesOrdered(bases)
    ensures var r := ParentMeta(classes, next, bases, meta);
      && r.next > next && r.meta == Ok([r.next - 1] + bases[k].meta)
      && r.next - 1 in r.classes && r.classes[r.next - 1] == map[]
  {
    ParentMetaOrdered(classes, next, bases, meta);
    OrderedFirstWins(classes, next, bases, k, meta);
  }

  /** What holds before each round of the loop over the bases: the
      registry is valid, the meta found so far is over known classes, and
      finishing the loop from here gives `target`. */
  predicate LoopState(classes: Classes, next: Tag, bases: seq<Base>, i: nat, found: Mro, target: Stage) {
    && i <= |bases| && MetaConfigTag in classes && Fresh(classes, next)
    && |found| > 0 && Known(classes, found) && BasesKnown(classes, bases[..i])
    && ParentMeta(classes, next, bases[..i], found) == target
  }

  /** One round of the loop keeps `LoopState`, or raises what the loop
      raises. */
  lemma InheritStep(classes: Classes, next: Tag, bases: seq<Base>, i: nat, found: Mro, target: Stage)
    requires 0 < i && LoopState(classes, next, bases, i, found, target)
    ensures bases[i - 1].OtherBase? ==> LoopState(classes, next, bases, i - 1, found, target)
    ensures bases[i - 1].DocumentBase? ==>
      var mixed := MixMetaConfig(classes, Some(bases[i - 1].meta), [MetaConfigTag], map[], next);
      && (mixed.Err? ==> target == Stage(classes, next, Err(mixed.error)))
      && (mixed.Ok? ==> LoopState(mixed.value.0, next + 1, bases, i - 1, mixed.value.1, target))
  {
    assert bases[..i][..i - 1] == bases[..i - 1];
    ParentMetaStep(classes, next, bases[..i], found);
    var base := bases[i - 1];
    if base.DocumentBase? {
      var mixed := MixMetaConfig(classes, Some(base.meta), [MetaConfigTag], map[], next);
      if mixed.Ok? {
        MixKnown(classes, Some(base.meta), [MetaConfigTag], map[], next);
        assert Known(mixed.value.0, found);
      }
    }
  }

  /** Lookups along an order only see the namespaces of its classes. */
  lemma {:induction false} LookupAgrees(c1: Classes, c2: Classes, mro: Mro, key: string)
    requires Known(c1, mro) && Known(c2, mro)
    requires forall t | t in mro :: c1[t] == c2[t]
    ensures Lookup(c1, mro, key) == Lookup(c2, mro, key)
    decreases |mro|
  {
    if |mro| > 0 {
      LookupAgrees(c1, c2, mro[1..], key);
    }
  }

  /** An order ending at `MetaConfig` finds every `MetaConfig` attribute. */
  lemma {:induction false} LookupReachesRoot(classes: Classes, mro: Mro, key: string)
    requires Known(classes, mro) && |mro| > 0 && mro[|mro| - 1] == MetaConfigTag
    requires key in classes[MetaConfigTag]
    ensures Lookup(classes, mro, key).Some?
    decreases |mro|
  {
    if |mro| > 1 && key !in classes[mro[0]] {
      assert mro[1..][|mro[1..]| - 1] == MetaConfigTag;
      LookupReachesRoot(classes, mro[1..], key);
    }
  }

  /** The parent meta the loop leaves, in the shape the lemmas below use:
      `MetaConfig` alone, or a fresh empty class over the first document
      base's meta. */
  lemma ParentShape(classes: Classes, next: Tag, bases: seq<Base>)
    requires MetaConfigTag in classes && Fresh(classes, next) && BasesKnown(classes, bases)
    requires BasesOrdered(bases)
    ensures var s := ParentMeta(classes, next, bases, [MetaConfigTag]);
      && s.meta.Ok? && NoDup(s.meta.value) && s.meta.value[|s.meta.value| - 1] == MetaConfigTag
      && Fresh(s.classes, s.next) && Known(s.classes, s.meta.value)
      && (forall t | t in classes :: t in s.classes && s.classes[t] == classes[t])
      && (FirstDocument(bases).None? ==> s.meta.value == [MetaConfigTag])
      && (FirstDocument(bases).Some? ==>
            var b := bases[FirstDocument(bases).value].meta;
            && s.meta.value == [s.meta.value[0]] + b && s.meta.value[0] !in classes
            && s.meta.value[0] in s.classes && s.classes[s.meta.value[0]] == map[])
  {
    var s := ParentMeta(classes, next, bases, [MetaConfigTag]);
    ParentMetaGrows(classes, next, bases, [MetaConfigTag]);
    match FirstDocument(bases)
    case None =>
      OnlyOtherBases(classes, next, bases, [MetaConfigTag]);
    case Some(k) =>
      FirstDocumentBaseWins(classes, next, bases, k, [MetaConfigTag]);
      var b := bases[k].meta;
      assert s.meta.value == [s.next - 1] + b;
      assert s.next - 1 !in b by {
        assert Known(classes, b);
      }
      assert s.meta.value[1..] == b;
      assert s.meta.value[|s.meta.value| - 1] == b[|b| - 1];
  }

  /** The settings of the new class's meta, for a name the class statement
      does not pass as a keyword: the declared inner `Meta` first; then the
      class's name for `name`; then the first document base's meta, or
      `MetaConfig`'s defaults when there is none. */
  lemma ResolvedSetting(classes: Classes, next: Tag, cname: string, bases: seq<Base>, inner: Option<Mro>,
                        kwargs: map<string, Setting>, key: string)
    requires MetaConfigTag in classes && Fresh(classes, next) && BasesKnown(classes, bases)
    requires BasesOrdered(bases)
    requires inner.Some? ==> |inner.value| > 0 && NoDup(inner.value) && Known(classes, inner.value)
    requires inner.Some? ==> MetaConfigTag !in inner.value
    requires inner.Some? ==> forall i | 0 <= i < |bases| && bases[i].DocumentBase? :: Disjoint(inner.value, bases[i].meta)
    requires key !in kwargs
    ensures DefineMeta(classes, next, cname, bases, inner, kwargs).meta.Ok?
    ensures Lookup(DefineMeta(classes, next, cname, bases, inner, kwargs).classes,
                   DefineMeta(classes, next, cname, bases, inner, kwargs).meta.value, key)
         == if inner.Some? && Lookup(classes, inner.value, key).Some? then Lookup(classes, inner.value, key)
            else if key == "name" then Some(Text(cname))
            else if FirstDocument(bases).Some? then Lookup(classes, bases[FirstDocument(bases).value].meta, key)
            else Lookup(classes, [MetaConfigTag], key)
  {
    ParentShape(classes, next, bases);
    var s := ParentMeta(classes, next, bases, [MetaConfigTag]);
    var m := s.meta.value;
    var named := s.classes[m[0] := s.classes[m[0]]["name" := Text(cname)]];
    var mk := MetaKeywords(named, m, kwargs);
    assert key !in mk;
    // The parent meta's answer for the key.
    assert Known(named, m);
    assert Lookup(named, m, key) == if key == "name" then Some(Text(cname)) else
      if FirstDocument(bases).Some? then Lookup(classes, bases[FirstDocument(bases).value].meta, key)
      else Lookup(classes, [MetaConfigTag], key) by {
      match FirstDocument(bases)
      case None =>
        assert m == [MetaConfigTag];
        assert named[MetaConfigTag] == classes[MetaConfigTag]["name" := Text(cname)];
      case Some(k) =>
        var b := bases[k].meta;
        assert m[1..] == b;
        assert named[m[0]] == map["name" := Text(cname)];
        LookupAgrees(named, classes, b, key);
    }
    match inner
    case None =>
      NoOwnConfig(named, m, mk, s.next, key);
    case Some(own) =>
      assert Disjoint(own, m) by {
        forall t | t in own ensures t !in m {
          assert t in classes;
          if FirstDocument(bases).Some? {
            assert m == [m[0]] + bases[FirstDocument(bases).value].meta;
          }
        }
      }
      assert Known(named, own);
      DistinctConfigs(named, own, m, mk, s.next, key);
      LookupAgrees(named, classes, own, key);
  }

  /** An allowed meta keyword of the class statement wins over everything:
      every `MetaConfig` attribute is allowed. */
  lemma KeywordSetting(classes: Classes, next: Tag, cname: string, bases: seq<Base>, inner: Option<Mro>,
                       kwargs: map<string, Setting>, key: string)
    requires MetaConfigTag in classes && Fresh(classes, next) && BasesKnown(classes, bases)
    requires BasesOrdered(bases)
    requires inner.Some? ==> |inner.value| > 0 && Known(classes, inner.value)
    requires key in kwargs && key in classes[MetaConfigTag] && !IsDunder(key)
    requires DefineMeta(classes, next, cname, bases, inner, kwargs).meta.Ok?
    ensures Lookup(DefineMeta(classes, next, cname, bases, inner, kwargs).classes,
                   DefineMeta(classes, next, cname, bases, inner, kwargs).meta.value, key)
         == Some(kwargs[key])
  {
    ParentShape(classes, next, bases);
    var s := ParentMeta(classes, next, bases, [MetaConfigTag]);
    var m := s.meta.value;
    var named := s.classes[m[0] := s.classes[m[0]]["name" := Text(cname)]];
    assert Known(named, m);
    assert key in named[MetaConfigTag];
    LookupReachesRoot(named, m, key);
    var mk := MetaKeywords(named, m, kwargs);
    assert inner.Some? ==> Known(named, inner.value);
    KeywordsWin(named, inner, m, mk, s.next, key);
  }

  /** The registry of classes made so far: `MetaConfig` under tag 0, and
      every class `type()` made under a tag below `next`. */
  class Registry {
    var classes: Classes
    var next: Tag

    ghost predicate Valid()
      reads this
    {
      MetaConfigTag in classes && Fresh(classes, next)
    }

    constructor ()
      ensures Valid()
      ensures classes == map[MetaConfigTag := MetaConfigNamespace] && next == MetaConfigTag + 1
    {
      classes := map[MetaConfigTag := MetaConfigNamespace];
      next := MetaConfigTag + 1;
    }

    /** A plain class statement, such as an inner `class Meta:`: a new class
        over `object` alone, with the namespace its body sets. */
    method DefineClass(namespace: Namespace) returns (order: Mro)
      requires Valid()
      modifies this
      ensures Valid()
      ensures order == [old(next)] && old(next) !in old(classes)
      ensures classes == old(classes)[old(next) := namespace] && next == old(next) + 1
    {
      order := [next];
      classes := classes[next := namespace];
      next := next + 1;
    }

    /** The loop of `MetaDocument.__new__` over the bases, last to first,
        that finds the parent meta. */
    method InheritMeta(bases: seq<Base>) returns (meta: Result<Mro>)
      requires Valid() && BasesKnown(classes, bases)
      modifies this
      ensures Valid()
      ensures Stage(classes, next, meta) == ParentMeta(old(classes), old(next), bases, [MetaConfigTag])
    {
      var found: Mro := [MetaConfigTag];
      ghost var target := ParentMeta(classes, next, bases, [MetaConfigTag]);
      var i := |bases|;
      assert bases[..i] == bases;
      while i > 0
        invariant 0 <= i <= |bases|
        invariant LoopState(classes, next, bases, i, found, target)
        invariant target == ParentMeta(old(classes), old(next), bases, [MetaConfigTag])
      {
        InheritStep(classes, next, bases, i, found, target);
        i := i - 1;
        var base := bases[i];
        if base.DocumentBase? {
          var mixed := MixMetaConfig(classes, Some(base.meta), [MetaConfigTag], map[], next);
          if mixed.Err? {
            return Err(mixed.error);
          }
          classes, next, found := mixed.value.0, next + 1, mixed.value.1;
        }
      }
      meta := Ok(found);
    }

    /** `MetaDocument.__new__(cname, bases, attrs, **kwargs)`: the new
        document class with its meta config, bound to `store` (the
        collection the meta's database opens for it) when the meta names a
        database, and to nothing when it names `None`; any other `db` has no
        `init_model` and raises `AttributeError`. */
    method NewDocumentClass(cname: string, bases: seq<Base>, inner: Option<Mro>, kwargs: map<string, Setting>,
                            store: Store.Collection?)
      returns (r: Result<Models.DocumentClass>)
      requires Valid() && BasesKnown(classes, bases)
      requires inner.Some? ==> |inner.value| > 0 && Known(classes, inner.value)
      modifies this
      ensures Valid()
      ensures var s := DefineMeta(old(classes), old(next), cname, bases, inner, kwargs);
        && classes == s.classes && next == s.next
        && (s.meta.Err? ==> r == Err(s.meta.error))
        && (s.meta.Ok? ==>
              match Lookup(s.classes, s.meta.value, "db")
              case Some(NoneValue) => r.Ok? && fresh(r.value) && r.value.collection == null
              case Some(Database(_)) => r.Ok? && fresh(r.value) && r.value.collection == store
              case _ => r == Err(AttributeError))
      ensures r.Ok? ==>
        r.value.name == cname && r.value.meta == DefineMeta(old(classes), old(next), cname, bases, inner, kwargs).meta.value
    {
      ghost var s := DefineMeta(classes, next, cname, bases, inner, kwargs);
      ParentMetaGrows(classes, next, bases, [MetaConfigTag]);
      var parent := InheritMeta(bases);
      if parent.Err? {
        return Err(parent.error);
      }
      var meta := parent.value;
      // `meta.name = cname`: set on the class itself, `MetaConfig` included.
      classes := classes[meta[0] := classes[meta[0]]["name" := Text(cname)]];
      var metaKwargs := MetaKeywords(classes, meta, kwargs);
      var mixed := MixMetaConfig(classes, inner, meta, metaKwargs, next);
      if mixed.Err? {
        return Err(mixed.error);
      }
      MixKnown(classes, inner, meta, metaKwargs, next);
      classes, next := mixed.value.0, next + 1;
      var order := mixed.value.1;
      assert s.meta == Ok(order);
      match Lookup(classes, order, "db")
      case Some(NoneValue) =>
        var cls := new Models.DocumentClass(cname, order, null);
        r := Ok(cls);
      case Some(Database(_)) =>
        var cls := new Models.DocumentClass(cname, order, store);
        r := Ok(cls);
      case _ =>
        r := Err(AttributeError);
    }
  }
}
