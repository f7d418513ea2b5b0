/** The records a methods provider stores: documented methods and the named
    sections that group them, with the sequence operations the provider needs. */
module MethodData {
  import opened Wrappers

  /** One documented method. `id` stands for the object's identity, `selector`
      is the name the provider indexes it by, `parent` is the documented entity
      the method belongs to, and `content` is everything else about it, which
      the provider never inspects. */
  datatype Method<P, C> = Method(id: nat, selector: string, parent: Option<P>, content: C)

  /** A named group of methods; an absent name marks the default section. */
  datatype Section<P, C> = Section(name: Option<string>, methods: seq<Method<P, C>>)

  /** The methods of all `sections`, section after section, each in its own order. */
  function Flatten<P, C>(sections: seq<Section<P, C>>): seq<Method<P, C>>
  {
    if |sections| == 0 then []
    else Flatten(sections[..|sections| - 1]) + sections[|sections| - 1].methods
  }

  /** The identities of the methods in `ms`. */
  function Ids<P, C>(ms: seq<Method<P, C>>): set<nat>
  {
    set i | 0 <= i < |ms| :: ms[i].id
  }

  /** The selectors of the methods in `ms`. */
  function Selectors<P, C>(ms: seq<Method<P, C>>): set<string>
  {
    set i | 0 <= i < |ms| :: ms[i].selector
  }

  /** The (identity, selector) pairs of the methods in `ms`. */
  function Pairs<P, C>(ms: seq<Method<P, C>>): set<(nat, string)>
  {
    set i | 0 <= i < |ms| :: (ms[i].id, ms[i].selector)
  }

  ghost predicate UniqueIds<P, C>(ms: seq<Method<P, C>>)
  {
    forall i, j :: 0 <= i < j < |ms| ==> ms[i].id != ms[j].id
  }

  ghost predicate UniqueSelectors<P, C>(ms: seq<Method<P, C>>)
  {
    forall i, j :: 0 <= i < j < |ms| ==> ms[i].selector != ms[j].selector
  }

  /** In a list of unique identities, an identity fixes the position. */
  lemma IdFixesPosition<P, C>(ms: seq<Method<P, C>>, i: nat, j: nat)
    requires UniqueIds(ms) && i < |ms| && j < |ms|
    ensures ms[i].id == ms[j].id ==> i == j
  {
  }

  /** In a list of unique selectors, a selector fixes the position. */
  lemma SelectorFixesPosition<P, C>(ms: seq<Method<P, C>>, i: nat, j: nat)
    requires UniqueSelectors(ms) && i < |ms| && j < |ms|
    ensures ms[i].selector == ms[j].selector ==> i == j
  {
  }

  /** One object has one selector: two pairs with the same identity name the
      same selector. Real objects satisfy this by being themselves; the numbers
      this model uses for identity have to be told. */
  ghost predicate IdentityConsistent(pairs: set<(nat, string)>)
  {
    forall a, b :: a in pairs && b in pairs && a.0 == b.0 ==> a.1 == b.1
  }

  /** `n` is the same method as `m`, at most with other content: the same
      instance, under the same selector, attached to the same parent. */
  ghost predicate SameMethod<P, C>(m: Method<P, C>, n: Method<P, C>)
  {
    m.id == n.id && m.selector == n.selector && m.parent == n.parent
  }

  /** `ys` starts with the methods of `xs`, each in its own position and at
      most with other content; anything after them is new. */
  ghost predicate KeepsPlaces<P, C>(xs: seq<Method<P, C>>, ys: seq<Method<P, C>>)
  {
    |xs| <= |ys| && forall j :: 0 <= j < |xs| ==> SameMethod(xs[j], ys[j])
  }

  /** `ms` with the content of the instance `id` set to `content`, wherever it occurs. */
  function SetContent<P, C>(ms: seq<Method<P, C>>, id: nat, content: C): seq<Method<P, C>>
  {
    seq(|ms|, i requires 0 <= i < |ms| => if ms[i].id == id then ms[i].(content := content) else ms[i])
  }

  /** `sections` with the content of the instance `id` set to `content`, in every section. */
  function SetContentInSections<P, C>(sections: seq<Section<P, C>>, id: nat, content: C): seq<Section<P, C>>
  {
    seq(|sections|, i requires 0 <= i < |sections| =>
      sections[i].(methods := SetContent(sections[i].methods, id, content)))
  }

  lemma FlattenAppend<P, C>(sections: seq<Section<P, C>>, s: Section<P, C>)
    ensures Flatten(sections + [s]) == Flatten(sections) + s.methods
  {
    assert (sections + [s])[..|sections|] == sections;
  }

  /** Setting an instance's content inside the sections sets it in their concatenation. */
  lemma {:induction false} FlattenSetContent<P, C>(sections: seq<Section<P, C>>, id: nat, content: C)
    ensures Flatten(SetContentInSections(sections, id, content)) == SetContent(Flatten(sections), id, content)
    decreases |sections|
  {
    if |sections| > 0 {
      var n := |sections| - 1;
      var front := sections[..n];
      var updated := SetContentInSections(sections, id, content);
      assert updated[..n] == SetContentInSections(front, id, content);
      FlattenSetContent(front, id, content);
      var a, b := Flatten(front), sections[n].methods;
      assert SetContent(a + b, id, content) == SetContent(a, id, content) + SetContent(b, id, content);
    }
  }

  /** Distinct identities are as many as the methods carrying them. */
  lemma {:induction false} UniqueIdsCount<P, C>(ms: seq<Method<P, C>>)
    requires UniqueIds(ms)
    ensures |Ids(ms)| == |ms|
    decreases |ms|
  {
    if |ms| > 0 {
      var n := |ms| - 1;
      UniqueIdsCount(ms[..n]);
      assert Ids(ms) == Ids(ms[..n]) + {ms[n].id};
      assert ms[n].id !in Ids(ms[..n]);
    }
  }

  lemma PairsDrop<P, C>(ms: seq<Method<P, C>>)
    requires |ms| > 0
    ensures Pairs(ms) == {(ms[0].id, ms[0].selector)} + Pairs(ms[1..])
  {
    forall x | x in Pairs(ms) ensures x in {(ms[0].id, ms[0].selector)} + Pairs(ms[1..]) {
      var i :| 0 <= i < |ms| && x == (ms[i].id, ms[i].selector);
      if i > 0 {
        assert x == (ms[1..][i - 1].id, ms[1..][i - 1].selector);
      }
    }
  }

  lemma SelectorsAppend<P, C>(ms: seq<Method<P, C>>, m: Method<P, C>)
    ensures Selectors(ms + [m]) == Selectors(ms) + {m.selector}
    ensures Pairs(ms + [m]) == Pairs(ms) + {(m.id, m.selector)}
    ensures Ids(ms + [m]) == Ids(ms) + {m.id}
  {
    var xs := ms + [m];
    assert xs[|ms|] == m;
    forall s | s in Selectors(xs) ensures s in Selectors(ms) + {m.selector} {
      var i :| 0 <= i < |xs| && s == xs[i].selector;
      if i < |ms| { assert s == ms[i].selector; }
    }
    forall s | s in Selectors(ms) ensures s in Selectors(xs) {
      var i :| 0 <= i < |ms| && s == ms[i].selector;
      assert s == xs[i].selector;
    }
    forall x | x in Pairs(xs) ensures x in Pairs(ms) + {(m.id, m.selector)} {
      var i :| 0 <= i < |xs| && x == (xs[i].id, xs[i].selector);
      if i < |ms| { assert x == (ms[i].id, ms[i].selector); }
    }
    forall x | x in Pairs(ms) ensures x in Pairs(xs) {
      var i :| 0 <= i < |ms| && x == (ms[i].id, ms[i].selector);
      assert x == (xs[i].id, xs[i].selector);
    }
    forall d | d in Ids(xs) ensures d in Ids(ms) + {m.id} {
      var i :| 0 <= i < |xs| && d == xs[i].id;
      if i < |ms| { assert d == ms[i].id; }
    }
    forall d | d in Ids(ms) ensures d in Ids(xs) {
      var i :| 0 <= i < |ms| && d == ms[i].id;
      assert d == xs[i].id;
    }
  }

  /** Sequences that agree on every position's identity and selector have the
      same identities, selectors and pairs. */
  lemma SameKeys<P, C>(xs: seq<Method<P, C>>, ys: seq<Method<P, C>>)
    requires |xs| == |ys|
    requires forall i :: 0 <= i < |xs| ==> xs[i].id == ys[i].id && xs[i].selector == ys[i].selector
    ensures Selectors(xs) == Selectors(ys) && Pairs(xs) == Pairs(ys) && Ids(xs) == Ids(ys)
  {
    forall s | s in Selectors(xs) ensures s in Selectors(ys) {
      var i :| 0 <= i < |xs| && s == xs[i].selector;
      assert s == ys[i].selector;
    }
    forall s | s in Selectors(ys) ensures s in Selectors(xs) {
      var i :| 0 <= i < |ys| && s == ys[i].selector;
      assert s == xs[i].selector;
    }
    forall x | x in Pairs(xs) ensures x in Pairs(ys) {
      var i :| 0 <= i < |xs| && x == (xs[i].id, xs[i].selector);
      assert x == (ys[i].id, ys[i].selector);
    }
    forall x | x in Pairs(ys) ensures x in Pairs(xs) {
      var i :| 0 <= i < |ys| && x == (ys[i].id, ys[i].selector);
      assert x == (xs[i].id, xs[i].selector);
    }
    forall d | d in Ids(xs) ensures d in Ids(ys) {
      var i :| 0 <= i < |xs| && d == xs[i].id;
      assert d == ys[i].id;
    }
    forall d | d in Ids(ys) ensures d in Ids(xs) {
      var i :| 0 <= i < |ys| && d == ys[i].id;
      assert d == xs[i].id;
    }
  }

  lemma ConsistentSubset(small: set<(nat, string)>, big: set<(nat, string)>)
    requires small <= big && IdentityConsistent(big)
    ensures IdentityConsistent(small)
  {
  }
}
