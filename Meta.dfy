/** Meta-config composition (unqdantic/meta.py). A meta config is a Python
    class whose settings are found by attribute lookup along its method
    resolution order; `mix_meta_config` creates a new class `Meta` over one
    or two bases with the keyword entries as its own namespace. Here a class
    is a tag with its own namespace in a class table, and a class is handed
    around as its method resolution order (the class itself first; `object`
    is left out, as it holds none of these settings). */
module Meta {
  import opened Values

  /** A setting's value: `None`, a string, a database handle or a flag. */
  datatype Setting = NoneValue | Text(s: string) | Database(handle: nat) | Flag(b: bool)

  type Namespace = map<string, Setting>
  type Tag = nat
  type Classes = map<Tag, Namespace>
  type Mro = seq<Tag>

  /** `MetaConfig` and its class-level defaults. */
  const MetaConfigTag: Tag := 0
  const MetaConfigNamespace: Namespace :=
    map["name" := NoneValue, "db" := NoneValue, "by_alias" := Flag(false)]

  predicate Known(classes: Classes, mro: Mro) {
    forall t | t in mro :: t in classes
  }

  predicate NoDup(s: seq<Tag>) {
    forall i, j | 0 <= i < j < |s| :: s[i] != s[j]
  }

  predicate Disjoint(a: seq<Tag>, b: seq<Tag>) {
    forall t | t in a :: t !in b
  }

  /** Attribute lookup on a class: the first class along its order whose own
      namespace holds the name. */
  function Lookup(classes: Classes, mro: Mro, key: string): Option<Setting>
    requires Known(classes, mro)
    decreases |mro|
  {
    if |mro| == 0 then None
    else if key in classes[mro[0]] then Some(classes[mro[0]][key])
    else Lookup(classes, mro[1..], key)
  }

  /** The defaults of `MetaConfig`. */
  lemma MetaConfigDefaults()
    ensures Lookup(map[MetaConfigTag := MetaConfigNamespace], [MetaConfigTag], "name") == Some(NoneValue)
    ensures Lookup(map[MetaConfigTag := MetaConfigNamespace], [MetaConfigTag], "db") == Some(NoneValue)
    ensures Lookup(map[MetaConfigTag := MetaConfigNamespace], [MetaConfigTag], "by_alias") == Some(Flag(false))
  {
  }

  /** Looking along `a + b` is looking along `a`, then along `b`. */
  lemma {:induction false} LookupAppend(classes: Classes, a: Mro, b: Mro, key: string)
    requires Known(classes, a) && Known(classes, b)
    ensures Known(classes, a + b)
    ensures Lookup(classes, a + b, key)
         == if Lookup(classes, a, key).Some? then Lookup(classes, a, key) else Lookup(classes, b, key)
    decreases |a|
  {
    if |a| > 0 {
      assert (a + b)[1..] == a[1..] + b;
      LookupAppend(classes, a[1..], b, key);
    } else {
      assert a + b == b;
    }
  }

  /** A class the order does not pass through does not affect the lookup. */
  lemma {:induction false} LookupOther(classes: Classes, mro: Mro, t: Tag, ns: Namespace, key: string)
    requires Known(classes, mro) && t !in mro
    ensures Known(classes[t := ns], mro)
    ensures Lookup(classes[t := ns], mro, key) == Lookup(classes, mro, key)
    decreases |mro|
  {
    if |mro| > 0 {
      LookupOther(classes, mro[1..], t, ns, key);
    }
  }

  // ---------------------------------------------------------------------------
  // C3 linearisation, as `type(name, bases, namespace)` computes the order
  // ---------------------------------------------------------------------------

  function TotalLen(seqs: seq<Mro>): nat
    decreases |seqs|
  {
    if |seqs| == 0 then 0 else |seqs[0]| + TotalLen(seqs[1..])
  }

  /** Whether `h` occurs in the tail (all but the head) of a sequence. */
  predicate InTail(h: Tag, s: Mro) {
    |s| > 0 && h in s[1..]
  }

  predicate InTails(h: Tag, seqs: seq<Mro>)
    decreases |seqs|
  {
    |seqs| > 0 && (InTail(h, seqs[0]) || InTails(h, seqs[1..]))
  }

  /** Whether `h` heads some sequence. */
  predicate HeadOfSome(h: Tag, seqs: seq<Mro>)
    decreases |seqs|
  {
    |seqs| > 0 && ((|seqs[0]| > 0 && seqs[0][0] == h) || HeadOfSome(h, seqs[1..]))
  }

  /** Whether `t` occurs in some sequence. */
  predicate InSome(t: Tag, seqs: seq<Mro>)
    decreases |seqs|
  {
    |seqs| > 0 && (t in seqs[0] || InSome(t, seqs[1..]))
  }

  /** The first head, scanning the sequences in order, that is in no tail. */
  function Candidate(seqs: seq<Mro>, all: seq<Mro>): (r: Option<Tag>)
    ensures r.Some? ==> HeadOfSome(r.value, seqs) && !InTails(r.value, all)
    decreases |seqs|
  {
    if |seqs| == 0 then None
    else if |seqs[0]| > 0 && !InTails(seqs[0][0], all) then Some(seqs[0][0])
    else Candidate(seqs[1..], all)
  }

  /** A sequence that starts with `h` loses it. */
  function Drop(s: Mro, h: Tag): Mro {
    if |s| > 0 && s[0] == h then s[1..] else s
  }

  /** Every sequence that starts with `h` loses it. */
  function Remove(seqs: seq<Mro>, h: Tag): (r: seq<Mro>)
    ensures |r| == |seqs|
    decreases |seqs|
  {
    if |seqs| == 0 then [] else [Drop(seqs[0], h)] + Remove(seqs[1..], h)
  }

  lemma {:induction false} RemoveShrinks(seqs: seq<Mro>, h: Tag)
    ensures TotalLen(Remove(seqs, h)) <= TotalLen(seqs)
    ensures HeadOfSome(h, seqs) ==> TotalLen(Remove(seqs, h)) < TotalLen(seqs)
    decreases |seqs|
  {
    if |seqs| > 0 {
      RemoveShrinks(seqs[1..], h);
      assert Remove(seqs, h)[1..] == Remove(seqs[1..], h);
    }
  }

  lemma {:induction false} RemoveKeepsOthers(seqs: seq<Mro>, h: Tag, t: Tag)
    requires InSome(t, Remove(seqs, h))
    ensures InSome(t, seqs)
    decreases |seqs|
  {
    assert Remove(seqs, h)[1..] == Remove(seqs[1..], h);
    if t !in Remove(seqs, h)[0] {
      RemoveKeepsOthers(seqs[1..], h, t);
    }
  }

  lemma {:induction false} HeadIsIn(h: Tag, seqs: seq<Mro>)
    requires HeadOfSome(h, seqs)
    ensures InSome(h, seqs)
    decreases |seqs|
  {
    if !(|seqs[0]| > 0 && seqs[0][0] == h) {
      HeadIsIn(h, seqs[1..]);
    }
  }

  /** The C3 merge: repeatedly take the first head that is in no tail; when
      no head qualifies, there is no consistent order and `type()` raises
      `TypeError`. */
  function C3Merge(seqs: seq<Mro>): (r: Result<Mro>)
    ensures r.Err? ==> r.error == TypeError
    decreases TotalLen(seqs)
  {
    if TotalLen(seqs) == 0 then Ok([])
    else
      match Candidate(seqs, seqs)
      case None => Err(TypeError)
      case Some(h) =>
        RemoveShrinks(seqs, h);
        var rest :- C3Merge(Remove(seqs, h));
        Ok([h] + rest)
  }

  /** The merge only orders classes its inputs name. */
  lemma {:induction false} C3MergeElements(seqs: seq<Mro>, t: Tag)
    requires C3Merge(seqs).Ok? && t in C3Merge(seqs).value
    ensures InSome(t, seqs)
    decreases TotalLen(seqs)
  {
    var h := Candidate(seqs, seqs).value;
    RemoveShrinks(seqs, h);
    if t == h {
      HeadIsIn(h, seqs);
    } else {
      C3MergeElements(Remove(seqs, h), t);
      RemoveKeepsOthers(seqs, h, t);
    }
  }

  /** The classes a list of bases starts with. */
  function Heads(bases: seq<Mro>): (r: seq<Tag>)
    requires forall i | 0 <= i < |bases| :: |bases[i]| > 0
    ensures |r| == |bases|
    ensures forall i | 0 <= i < |bases| :: r[i] == bases[i][0]
  {
    seq(|bases|, i requires 0 <= i < |bases| => bases[i][0])
  }

  /** The order of a new class `newTag` over the bases: a base named twice
      raises `TypeError`, otherwise the class comes first and the C3 merge of
      the bases' orders and the list of bases follows. */
  function Linearize(newTag: Tag, bases: seq<Mro>): (r: Result<Mro>)
    requires forall i | 0 <= i < |bases| :: |bases[i]| > 0
    ensures r.Ok? ==> |r.value| > 0 && r.value[0] == newTag
    ensures r.Err? ==> r.error == TypeError
  {
    if !NoDup(Heads(bases)) then Err(TypeError)
    else
      var rest :- C3Merge(bases + [Heads(bases)]);
      Ok([newTag] + rest)
  }

  // ---------------------------------------------------------------------------
  // mix_meta_config
  // ---------------------------------------------------------------------------

  /** The bases `mix_meta_config` chooses: the parent alone when there is no
      own config, the one class when the own config is the parent, the own
      config and then the parent otherwise. */
  function BaseClasses(own: Option<Mro>, parent: Mro): (r: seq<Mro>)
    requires |parent| > 0 && (own.Some? ==> |own.value| > 0)
    ensures forall i | 0 <= i < |r| :: |r[i]| > 0
  {
    if own.None? then [parent]
    else if own.value[0] == parent[0] then [own.value]
    else [own.value, parent]
  }

  /** `mix_meta_config(self_config, parent_config, **namespace)`: a new class
      `newTag`, with the keyword entries as its namespace, over the chosen
      bases. Gives the new class table and the new class's order. */
  function MixMetaConfig(classes: Classes, own: Option<Mro>, parent: Mro, namespace: Namespace, newTag: Tag)
    : (r: Result<(Classes, Mro)>)
    requires |parent| > 0 && (own.Some? ==> |own.value| > 0)
    ensures r.Ok? ==> r.value.0 == classes[newTag := namespace]
    ensures r.Ok? ==> |r.value.1| > 0 && r.value.1[0] == newTag
    ensures r.Err? ==> r.error == TypeError
  {
    var mro :- Linearize(newTag, BaseClasses(own, parent));
    Ok((classes[newTag := namespace], mro))
  }

  lemma NoDupTail(b: Mro)
    requires |b| > 0 && NoDup(b)
    ensures b[0] !in b[1..] && NoDup(b[1..])
  {
    forall i, j | 0 <= i < j < |b[1..]| ensures b[1..][i] != b[1..][j] {
      assert b[1..][i] == b[i + 1] && b[1..][j] == b[j + 1];
    }
  }

  /** The merge steps on two sequences, spelled out. */
  lemma Shape2(s0: Mro, s1: Mro, h: Tag, all: seq<Mro>)
    ensures InTails(h, [s0, s1]) <==> InTail(h, s0) || InTail(h, s1)
    ensures Remove([s0, s1], h) == [Drop(s0, h), Drop(s1, h)]
    ensures TotalLen([s0, s1]) == |s0| + |s1|
    ensures Candidate([s0, s1], all)
         == if |s0| > 0 && !InTails(s0[0], all) then Some(s0[0])
            else if |s1| > 0 && !InTails(s1[0], all) then Some(s1[0])
            else None
  {
    assert [s0, s1][1..] == [s1];
    assert [s1][1..] == [];
    assert !InTails(h, []) && TotalLen([]) == 0;
    assert InTails(h, [s1]) <==> InTail(h, s1);
    assert TotalLen([s1]) == |s1|;
  }

  /** The merge steps on three sequences, spelled out. */
  lemma Shape3(s0: Mro, s1: Mro, s2: Mro, h: Tag, all: seq<Mro>)
    ensures InTails(h, [s0, s1, s2]) <==> InTail(h, s0) || InTail(h, s1) || InTail(h, s2)
    ensures Remove([s0, s1, s2], h) == [Drop(s0, h), Drop(s1, h), Drop(s2, h)]
    ensures TotalLen([s0, s1, s2]) == |s0| + |s1| + |s2|
    ensures Candidate([s0, s1, s2], all)
         == if |s0| > 0 && !InTails(s0[0], all) then Some(s0[0])
            else if |s1| > 0 && !InTails(s1[0], all) then Some(s1[0])
            else if |s2| > 0 && !InTails(s2[0], all) then Some(s2[0])
            else None
  {
    assert [s0, s1, s2][1..] == [s1, s2];
    Shape2(s1, s2, h, all);
  }

  lemma {:induction false} C3Alone(b: Mro)
    requires NoDup(b)
    ensures C3Merge([b, []]) == Ok(b)
    decreases |b|
  {
    Shape2(b, [], if |b| > 0 then b[0] else 0, [b, []]);
    if |b| > 0 {
      NoDupTail(b);
      C3Alone(b[1..]);
      assert [b[0]] + b[1..] == b;
    }
  }

  lemma {:induction false} C3Second(b: Mro)
    requires NoDup(b)
    ensures C3Merge([[], b, []]) == Ok(b)
    decreases |b|
  {
    Shape3([], b, [], if |b| > 0 then b[0] else 0, [[], b, []]);
    if |b| > 0 {
      NoDupTail(b);
      C3Second(b[1..]);
      assert [b[0]] + b[1..] == b;
    }
  }

  /** One base: its order follows the new class unchanged. */
  lemma SingleBaseOrder(newTag: Tag, b: Mro)
    requires |b| > 0 && NoDup(b)
    ensures Linearize(newTag, [b]) == Ok([newTag] + b)
  {
    assert Heads([b]) == [b[0]];
    assert [b] + [Heads([b])] == [b, [b[0]]];
    Shape2(b, [b[0]], b[0], [b, [b[0]]]);
    NoDupTail(b);
    assert Candidate([b, [b[0]]], [b, [b[0]]]) == Some(b[0]);
    assert Remove([b, [b[0]]], b[0]) == [b[1..], []];
    C3Alone(b[1..]);
    assert [b[0]] + b[1..] == b;
    assert C3Merge([b, [b[0]]]) == Ok(b);
    assert NoDup(Heads([b]));
  }

  /** An order ending at `MetaConfig`, merged with `MetaConfig`'s own order
      and the list of bases' remainder, comes out unchanged. */
  lemma {:induction false} C3EndsAtRoot(s: Mro)
    requires |s| > 0 && NoDup(s) && s[|s| - 1] == MetaConfigTag
    ensures C3Merge([s, [MetaConfigTag], [MetaConfigTag]]) == Ok(s)
    decreases |s|
  {
    var root := MetaConfigTag;
    var seqs := [s, [root], [root]];
    Shape3(s, [root], [root], s[0], seqs);
    NoDupTail(s);
    assert Candidate(seqs, seqs) == Some(s[0]);
    if |s| == 1 {
      assert Remove(seqs, s[0]) == [[], [], []];
      Shape3([], [], [], root, [[], [], []]);
    } else {
      assert s[0] != root by {
        assert s[|s| - 1] == s[1..][|s| - 2];
      }
      assert Remove(seqs, s[0]) == [s[1..], [root], [root]];
      assert s[1..][|s[1..]| - 1] == root;
      C3EndsAtRoot(s[1..]);
    }
    assert [s[0]] + s[1..] == s;
  }

  /** A meta class made over an inherited meta and `MetaConfig`: the new
      class, then the inherited meta's whole order. */
  lemma InheritedOrder(newTag: Tag, b: Mro)
    requires |b| >= 2 && NoDup(b) && b[|b| - 1] == MetaConfigTag
    ensures BaseClasses(Some(b), [MetaConfigTag]) == [b, [MetaConfigTag]]
    ensures Linearize(newTag, [b, [MetaConfigTag]]) == Ok([newTag] + b)
  {
    var root := MetaConfigTag;
    assert b[0] != root by {
      assert b[|b| - 1] == root;
    }
    assert Heads([b, [root]]) == [b[0], root];
    var seqs := [b, [root], [b[0], root]];
    assert [b, [root]] + [Heads([b, [root]])] == seqs;
    Shape3(b, [root], [b[0], root], b[0], seqs);
    NoDupTail(b);
    assert Candidate(seqs, seqs) == Some(b[0]);
    assert Remove(seqs, b[0]) == [b[1..], [root], [root]];
    assert b[1..][|b[1..]| - 1] == root;
    C3EndsAtRoot(b[1..]);
    assert [b[0]] + b[1..] == b;
    assert C3Merge(seqs) == Ok(b);
  }

  lemma {:induction false} C3Disjoint(a: Mro, b: Mro)
    requires |b| > 0 && NoDup(a) && NoDup(b) && Disjoint(a, b)
    ensures C3Merge([a, b, [b[0]]]) == Ok(a + b)
    decreases |a|
  {
    NoDupTail(b);
    if |a| == 0 {
      Shape3(a, b, [b[0]], b[0], [a, b, [b[0]]]);
      C3Second(b[1..]);
      assert a + b == [b[0]] + b[1..];
    } else {
      assert a[0] !in b;
      NoDupTail(a);
      Shape3(a, b, [b[0]], a[0], [a, b, [b[0]]]);
      C3Disjoint(a[1..], b);
      assert [a[0]] + (a[1..] + b) == a + b;
    }
  }

  /** Two bases whose orders share no class: the own config's order, then the
      parent's. */
  lemma TwoBaseOrder(newTag: Tag, a: Mro, b: Mro)
    requires |a| > 0 && |b| > 0 && NoDup(a) && NoDup(b) && Disjoint(a, b)
    ensures Linearize(newTag, [a, b]) == Ok([newTag] + a + b)
  {
    var seqs := [a, b, [a[0], b[0]]];
    assert Heads([a, b]) == [a[0], b[0]];
    assert [a, b] + [Heads([a, b])] == seqs;
    assert a[0] !in b;
    NoDupTail(a);
    Shape3(a, b, [a[0], b[0]], a[0], seqs);
    assert [a[0], b[0]][1..] == [b[0]];
    assert Candidate(seqs, seqs) == Some(a[0]);
    assert Remove(seqs, a[0]) == [a[1..], b, [b[0]]];
    C3Disjoint(a[1..], b);
    assert [a[0]] + (a[1..] + b) == a + b;
    assert C3Merge(seqs) == Ok(a + b);
    assert NoDup(Heads([a, b]));
    assert [newTag] + (a + b) == [newTag] + a + b;
  }

  /** Without an own config the new class inherits from the parent alone:
      its keyword entries, then whatever the parent resolves. */
  lemma NoOwnConfig(classes: Classes, parent: Mro, namespace: Namespace, newTag: Tag, key: string)
    requires |parent| > 0 && NoDup(parent) && Known(classes, parent) && newTag !in classes
    ensures MixMetaConfig(classes, None, parent, namespace, newTag)
         == Ok((classes[newTag := namespace], [newTag] + parent))
    ensures Known(classes[newTag := namespace], [newTag] + parent)
    ensures Lookup(classes[newTag := namespace], [newTag] + parent, key)
         == if key in namespace then Some(namespace[key]) else Lookup(classes, parent, key)
  {
    SingleBaseOrder(newTag, parent);
    LookupOther(classes, parent, newTag, namespace, key);
    assert ([newTag] + parent)[1..] == parent;
  }

  /** When the own config is the parent itself it is named once: the result
      is the one of the no-own-config case, whereas naming it twice as a base
      would raise. */
  lemma OwnIsParent(classes: Classes, parent: Mro, namespace: Namespace, newTag: Tag)
    requires |parent| > 0
    ensures MixMetaConfig(classes, Some(parent), parent, namespace, newTag)
         == MixMetaConfig(classes, None, parent, namespace, newTag)
    ensures Linearize(newTag, [parent, parent]) == Err(TypeError)
  {
    assert Heads([parent, parent])[0] == Heads([parent, parent])[1];
  }

  /** A distinct own config: the keyword entries come first, the own config's
      settings shadow the parent's, and the ones it leaves unset fall through
      to the parent. */
  lemma DistinctConfigs(classes: Classes, own: Mro, parent: Mro, namespace: Namespace, newTag: Tag, key: string)
    requires |own| > 0 && |parent| > 0 && NoDup(own) && NoDup(parent) && Disjoint(own, parent)
    requires Known(classes, own) && Known(classes, parent) && newTag !in classes
    ensures MixMetaConfig(classes, Some(own), parent, namespace, newTag)
         == Ok((classes[newTag := namespace], [newTag] + own + parent))
    ensures Known(classes[newTag := namespace], [newTag] + own + parent)
    ensures Lookup(classes[newTag := namespace], [newTag] + own + parent, key)
         == if key in namespace then Some(namespace[key])
            else if Lookup(classes, own, key).Some? then Lookup(classes, own, key)
            else Lookup(classes, parent, key)
  {
    assert own[0] != parent[0] by { assert own[0] in own; }
    TwoBaseOrder(newTag, own, parent);
    var c := classes[newTag := namespace];
    LookupOther(classes, own, newTag, namespace, key);
    LookupOther(classes, parent, newTag, namespace, key);
    LookupAppend(c, own, parent, key);
    assert ([newTag] + own + parent)[1..] == own + parent;
  }

  /** Keyword entries take precedence over both bases, in every case. */
  lemma KeywordsWin(classes: Classes, own: Option<Mro>, parent: Mro, namespace: Namespace, newTag: Tag, key: string)
    requires |parent| > 0 && (own.Some? ==> |own.value| > 0)
    requires Known(classes, parent) && (own.Some? ==> Known(classes, own.value))
    requires MixMetaConfig(classes, own, parent, namespace, newTag).Ok?
    requires key in namespace
    ensures Known(MixMetaConfig(classes, own, parent, namespace, newTag).value.0,
                  MixMetaConfig(classes, own, parent, namespace, newTag).value.1)
    ensures Lookup(MixMetaConfig(classes, own, parent, namespace, newTag).value.0,
                   MixMetaConfig(classes, own, parent, namespace, newTag).value.1, key)
         == Some(namespace[key])
  {
    MixKnown(classes, own, parent, namespace, newTag);
  }

  /** Every class in a mixed config's order is in the new table. */
  lemma MixKnown(classes: Classes, own: Option<Mro>, parent: Mro, namespace: Namespace, newTag: Tag)
    requires |parent| > 0 && (own.Some? ==> |own.value| > 0)
    requires Known(classes, parent) && (own.Some? ==> Known(classes, own.value))
    requires MixMetaConfig(classes, own, parent, namespace, newTag).Ok?
    ensures Known(MixMetaConfig(classes, own, parent, namespace, newTag).value.0,
                  MixMetaConfig(classes, own, parent, namespace, newTag).value.1)
  {
    var bases := BaseClasses(own, parent);
    var seqs := bases + [Heads(bases)];
    var mro := MixMetaConfig(classes, own, parent, namespace, newTag).value.1;
    var c := classes[newTag := namespace];
    forall t | t in mro ensures t in c {
      if t != newTag {
        assert t in mro[1..] by {
          var i :| 0 <= i < |mro| && mro[i] == t;
          assert i > 0 && mro[1..][i - 1] == t;
        }
        assert mro[1..] == C3Merge(seqs).value;
        C3MergeElements(seqs, t);
        SeqsKnown(classes, own, parent, t);
      }
    }
  }

  /** Every class named in the bases or their orders is in the table. */
  lemma SeqsKnown(classes: Classes, own: Option<Mro>, parent: Mro, t: Tag)
    requires |parent| > 0 && (own.Some? ==> |own.value| > 0)
    requires Known(classes, parent) && (own.Some? ==> Known(classes, own.value))
    requires InSome(t, BaseClasses(own, parent) + [Heads(BaseClasses(own, parent))])
    ensures t in classes
  {
    var bases := BaseClasses(own, parent);
    var seqs := bases + [Heads(bases)];
    InSomeIndex(t, seqs);
    var i :| 0 <= i < |seqs| && t in seqs[i];
    if i == |bases| {
      var j :| 0 <= j < |bases| && Heads(bases)[j] == t;
      assert bases[j][0] in bases[j];
    }
  }

  lemma {:induction false} InSomeIndex(t: Tag, seqs: seq<Mro>)
    requires InSome(t, seqs)
    ensures exists i | 0 <= i < |seqs| :: t in seqs[i]
    decreases |seqs|
  {
    if t !in seqs[0] {
      InSomeIndex(t, seqs[1..]);
      var i :| 0 <= i < |seqs[1..]| && t in seqs[1..][i];
      assert seqs[i + 1] == seqs[1..][i];
    }
  }
}
