/** Merging one methods provider into another: methods the receiver does not
    know are registered into it, methods it knows absorb the source's data, and
    the source is only read. */
module ProviderMerge {
  import opened Wrappers
  import opened MethodData
  import opened MethodsProvider

  /** `m` after absorbing `sm`'s content, when `sm` has its selector. */
  function AbsorbOne<P, C>(m: Method<P, C>, sm: Method<P, C>, merge: (C, C) -> C): Method<P, C>
  {
    if sm.selector == m.selector then m.(content := merge(m.content, sm.content)) else m
  }

  /** Reference definition: `m` after absorbing, in order, every method of `ms`
      that has its selector. */
  function Absorb<P, C>(m: Method<P, C>, ms: seq<Method<P, C>>, merge: (C, C) -> C): Method<P, C>
    decreases |ms|
  {
    if |ms| == 0 then m else Absorb(AbsorbOne(m, ms[0], merge), ms[1..], merge)
  }

  /** Reference definition: each of `existing` after absorbing `ms`, in place. */
  function AbsorbAll<P, C>(existing: seq<Method<P, C>>, ms: seq<Method<P, C>>, merge: (C, C) -> C): seq<Method<P, C>>
  {
    seq(|existing|, i requires 0 <= i < |existing| => Absorb(existing[i], ms, merge))
  }

  /** Reference definition: the methods of `ms` whose selector is not in
      `known`, in their order, attached to `parent`. */
  function Unknown<P, C>(ms: seq<Method<P, C>>, known: set<string>, parent: P): seq<Method<P, C>>
    decreases |ms|
  {
    if |ms| == 0 then []
    else (if ms[0].selector in known then [] else [ms[0].(parent := Some(parent))])
         + Unknown(ms[1..], known, parent)
  }

  /** Merges data into the method registered under `selector`: that instance
      gets `content` wherever the provider holds it, in its section, in the flat
      list and in the index. Every method keeps its place, its identity, its
      selector and its parent, and no other instance changes. */
  function ReplaceContent<P, C>(p: Provider<P, C>, selector: string, content: C): (r: Provider<P, C>)
    requires selector in p.bySelector
    ensures r.parent == p.parent
    ensures |r.sections| == |p.sections|
    ensures forall i :: 0 <= i < |p.sections| ==>
              && r.sections[i].name == p.sections[i].name
              && |r.sections[i].methods| == |p.sections[i].methods|
    ensures forall i, j :: 0 <= i < |p.sections| && 0 <= j < |p.sections[i].methods| ==>
              var m, n := p.sections[i].methods[j], r.sections[i].methods[j];
              && SameMethod(m, n)
              && (m.id == p.bySelector[selector].id ==> n.content == content)
              && (m.id != p.bySelector[selector].id ==> n == m)
    ensures |r.methods| == |p.methods|
    ensures forall j :: 0 <= j < |p.methods| ==>
              var m, n := p.methods[j], r.methods[j];
              && SameMethod(m, n)
              && (m.id == p.bySelector[selector].id ==> n.content == content)
              && (m.id != p.bySelector[selector].id ==> n == m)
    ensures r.bySelector.Keys == p.bySelector.Keys
    ensures SameMethod(p.bySelector[selector], r.bySelector[selector]) && r.bySelector[selector].content == content
    ensures forall s :: s in p.bySelector && s != selector ==> r.bySelector[s] == p.bySelector[s]
  {
    var target := p.bySelector[selector];
    p.(sections := SetContentInSections(p.sections, target.id, content),
       methods := SetContent(p.methods, target.id, content),
       bySelector := p.bySelector[selector := target.(content := content)])
  }

  /** On a valid provider, merging data into the method registered under
      `selector` changes exactly that method's content in the flat list, and
      the invariant holds. */
  lemma ReplaceContentKeepsValid<P, C>(p: Provider<P, C>, selector: string, content: C)
    requires Valid(p) && selector in p.bySelector
    ensures Valid(ReplaceContent(p, selector, content))
    ensures forall k :: 0 <= k < |p.methods| && p.methods[k].selector == selector ==>
              ReplaceContent(p, selector, content).methods == p.methods[k := p.methods[k].(content := content)]
  {
    var q := ReplaceContent(p, selector, content);
    var k :| 0 <= k < |p.methods| && p.methods[k].selector == selector;
    assert p.bySelector[selector] == p.methods[k];
    assert q.methods == p.methods[k := p.methods[k].(content := content)] by {
      forall i | 0 <= i < |p.methods| ensures q.methods[i] == p.methods[k := p.methods[k].(content := content)][i] {
        IdFixesPosition(p.methods, i, k);
      }
    }
    FlattenSetContent(p.sections, p.methods[k].id, content);
    ContentChangeKeepsValid(p, q, k, content);
    forall k' | 0 <= k' < |p.methods| && p.methods[k'].selector == selector
      ensures q.methods == p.methods[k' := p.methods[k'].(content := content)]
    {
      SelectorFixesPosition(p.methods, k', k);
    }
  }

  /** A provider that differs from a valid one only in the content of its
      `k`-th method, consistently in the list, the sections and the index, is valid. */
  lemma ContentChangeKeepsValid<P, C>(p: Provider<P, C>, q: Provider<P, C>, k: nat, content: C)
    requires Valid(p) && k < |p.methods|
    requires q.parent == p.parent
    requires q.methods == p.methods[k := p.methods[k].(content := content)]
    requires Flatten(q.sections) == q.methods
    requires q.bySelector == p.bySelector[p.methods[k].selector := q.methods[k]]
    ensures Valid(q)
  {
    SameKeys(p.methods, q.methods);
    forall i | 0 <= i < |q.methods|
      ensures q.methods[i].selector in q.bySelector && q.bySelector[q.methods[i].selector] == q.methods[i]
    {
      SelectorFixesPosition(p.methods, i, k);
    }
  }

  /** How a merge may change the sections: they keep their names and order,
      every method stays in its section and position (at most with other
      content), and only the last section gains methods. The one exception is a
      provider without sections, which may gain the unnamed default section. */
  ghost predicate KeepsSectionLayout<P, C>(a: seq<Section<P, C>>, b: seq<Section<P, C>>)
  {
    && (|b| == |a| || (|a| == 0 && |b| == 1 && b[0].name.None?))
    && (forall i :: 0 <= i < |a| ==> b[i].name == a[i].name && KeepsPlaces(a[i].methods, b[i].methods))
    && (forall i :: 0 <= i < |a| - 1 ==> |b[i].methods| == |a[i].methods|)
  }

  /** Registering a new method keeps the section layout. */
  lemma AppendedKeepsLayout<P, C>(p: Provider<P, C>, q: Provider<P, C>, m: Method<P, C>)
    requires Appended(p, q, m)
    ensures KeepsSectionLayout(p.sections, q.sections)
  {
    if |p.sections| > 0 {
      var last := |p.sections| - 1;
      forall i | 0 <= i < last ensures q.sections[i] == p.sections[i] {
        assert q.sections[i] == q.sections[..last][i];
      }
    }
  }

  /** The effect of one source method on the receiver: if the receiver has its
      selector, that method absorbs the source's data; otherwise it is
      registered exactly as `RegisterMethod` would. */
  function MergeOne<P, C>(p: Provider<P, C>, sm: Method<P, C>, merge: (C, C) -> C): (r: Provider<P, C>)
    ensures r.parent == p.parent
    ensures Valid(p) ==> Valid(r)
    ensures KeepsSectionLayout(p.sections, r.sections)
  {
    if sm.selector in p.bySelector then
      var existing := p.bySelector[sm.selector];
      ReplaceContentKeepsValidIf(p, sm.selector, merge(existing.content, sm.content));
      ReplaceContent(p, sm.selector, merge(existing.content, sm.content))
    else if sm.id in Ids(p.methods) then
      RegisterMethod(p, sm).value
    else
      AppendedKeepsLayout(p, RegisterMethod(p, sm).value, sm.(parent := Some(p.parent)));
      RegisterMethod(p, sm).value
  }

  lemma ReplaceContentKeepsValidIf<P, C>(p: Provider<P, C>, selector: string, content: C)
    requires selector in p.bySelector
    ensures Valid(p) ==> Valid(ReplaceContent(p, selector, content))
  {
    if Valid(p) {
      ReplaceContentKeepsValid(p, selector, content);
    }
  }

  /** Merges the methods `ms` into `p`, one after another in their order. */
  function MergeMethods<P, C>(p: Provider<P, C>, ms: seq<Method<P, C>>, merge: (C, C) -> C): (r: Provider<P, C>)
    ensures r.parent == p.parent
    ensures Valid(p) ==> Valid(r)
    ensures KeepsSectionLayout(p.sections, r.sections)
    decreases |ms|
  {
    if |ms| == 0 then p
    else
      var q := MergeOne(p, ms[0], merge);
      var r := MergeMethods(q, ms[1..], merge);
      LayoutTransitive(p.sections, q.sections, r.sections);
      r
  }

  lemma LayoutTransitive<P, C>(a: seq<Section<P, C>>, b: seq<Section<P, C>>, c: seq<Section<P, C>>)
    requires KeepsSectionLayout(a, b) && KeepsSectionLayout(b, c)
    ensures KeepsSectionLayout(a, c)
  {
  }

  lemma AbsorbKeepsKeys<P, C>(m: Method<P, C>, ms: seq<Method<P, C>>, merge: (C, C) -> C)
    ensures Absorb(m, ms, merge).id == m.id
    ensures Absorb(m, ms, merge).selector == m.selector
    ensures Absorb(m, ms, merge).parent == m.parent
    decreases |ms|
  {
    if |ms| > 0 {
      AbsorbKeepsKeys(AbsorbOne(m, ms[0], merge), ms[1..], merge);
    }
  }

  /** A method no source method shares a selector with absorbs nothing. */
  lemma {:induction false} AbsorbUntouched<P, C>(m: Method<P, C>, ms: seq<Method<P, C>>, merge: (C, C) -> C)
    requires forall k :: 0 <= k < |ms| ==> ms[k].selector != m.selector
    ensures Absorb(m, ms, merge) == m
    decreases |ms|
  {
    if |ms| > 0 {
      AbsorbUntouched(m, ms[1..], merge);
    }
  }

  /** A selector none of `ms` carries does not affect which of them are unknown. */
  lemma {:induction false} UnknownIgnores<P, C>(ms: seq<Method<P, C>>, known: set<string>, x: string, parent: P)
    requires forall k :: 0 <= k < |ms| ==> ms[k].selector != x
    ensures Unknown(ms, known + {x}, parent) == Unknown(ms, known, parent)
    decreases |ms|
  {
    if |ms| > 0 {
      UnknownIgnores(ms[1..], known, x, parent);
    }
  }

  /** One merge step seen on the flat lists: a source method `sm` whose
      selector the receiver knows is absorbed in place; any other is appended,
      attached to the receiver's parent. */
  ghost predicate StepShape<P, C>(xs: seq<Method<P, C>>, ys: seq<Method<P, C>>, sm: Method<P, C>, parent: P, merge: (C, C) -> C)
  {
    if sm.selector in Selectors(xs) then
      && |ys| == |xs|
      && forall i :: 0 <= i < |xs| ==> ys[i] == AbsorbOne(xs[i], sm, merge)
    else ys == xs + [sm.(parent := Some(parent))]
  }

  /** The first step of merging `ms` has the shape `StepShape` describes. */
  lemma MergeOneShape<P, C>(p: Provider<P, C>, ms: seq<Method<P, C>>, merge: (C, C) -> C)
    requires Valid(p) && |ms| > 0 && IdentityConsistent(Pairs(p.methods) + Pairs(ms))
    ensures StepShape(p.methods, MergeOne(p, ms[0], merge).methods, ms[0], p.parent, merge)
  {
    var sm := ms[0];
    var q := MergeOne(p, sm, merge);
    if sm.selector in p.bySelector {
      var k :| 0 <= k < |p.methods| && p.methods[k].selector == sm.selector;
      assert p.bySelector[sm.selector] == p.methods[k];
      forall i | 0 <= i < |p.methods| ensures q.methods[i] == AbsorbOne(p.methods[i], sm, merge) {
        IdFixesPosition(p.methods, i, k);
        SelectorFixesPosition(p.methods, i, k);
      }
    } else {
      PairsDrop(ms);
      assert (sm.id, sm.selector) in Pairs(ms);
      forall i | 0 <= i < |p.methods| ensures p.methods[i].id != sm.id {
        assert (p.methods[i].id, p.methods[i].selector) in Pairs(p.methods);
        assert p.methods[i].selector in Selectors(p.methods);
      }
    }
  }

  lemma SelectorsDrop<P, C>(ms: seq<Method<P, C>>)
    requires |ms| > 0
    ensures Selectors(ms) == {ms[0].selector} + Selectors(ms[1..])
  {
    forall s | s in Selectors(ms) ensures s in {ms[0].selector} + Selectors(ms[1..]) {
      var i :| 0 <= i < |ms| && s == ms[i].selector;
      if i > 0 { assert s == ms[1..][i - 1].selector; }
    }
    forall s | s in Selectors(ms[1..]) ensures s in Selectors(ms) {
      var i :| 0 <= i < |ms[1..]| && s == ms[1..][i].selector;
      assert s == ms[i + 1].selector;
    }
  }

  /** A merge step adds the source method's selector to the known ones and
      keeps identities consistent with the source methods still to come. */
  lemma StepKeys<P, C>(xs: seq<Method<P, C>>, ys: seq<Method<P, C>>, ms: seq<Method<P, C>>, parent: P, merge: (C, C) -> C)
    requires |ms| > 0 && StepShape(xs, ys, ms[0], parent, merge)
    requires IdentityConsistent(Pairs(xs) + Pairs(ms))
    ensures Selectors(ys) == Selectors(xs) + {ms[0].selector}
    ensures Pairs(ys) <= Pairs(xs) + {(ms[0].id, ms[0].selector)}
    ensures IdentityConsistent(Pairs(ys) + Pairs(ms[1..]))
  {
    var sm := ms[0];
    PairsDrop(ms);
    if sm.selector in Selectors(xs) {
      SameKeys(xs, ys);
    } else {
      SelectorsAppend(xs, sm.(parent := Some(parent)));
    }
    ConsistentSubset(Pairs(ys) + Pairs(ms[1..]), Pairs(xs) + Pairs(ms));
  }

  /** Merging `ms` registers exactly the selectors of the receiver and of `ms`,
      and pairs no identity with a selector it did not already have. */
  lemma {:induction false} MergeSelectors<P, C>(p: Provider<P, C>, ms: seq<Method<P, C>>, merge: (C, C) -> C)
    requires Valid(p) && IdentityConsistent(Pairs(p.methods) + Pairs(ms))
    ensures Selectors(MergeMethods(p, ms, merge).methods) == Selectors(p.methods) + Selectors(ms)
    ensures Pairs(MergeMethods(p, ms, merge).methods) <= Pairs(p.methods) + Pairs(ms)
    decreases |ms|
  {
    if |ms| == 0 {
      assert Selectors(ms) == {} && Pairs(ms) == {};
    } else {
      var q := MergeOne(p, ms[0], merge);
      var r := MergeMethods(q, ms[1..], merge);
      assert MergeMethods(p, ms, merge) == r;
      MergeOneShape(p, ms, merge);
      StepKeys(p.methods, q.methods, ms, p.parent, merge);
      MergeSelectors(q, ms[1..], merge);
      SelectorsDrop(ms);
      PairsDrop(ms);
      SetsCompose(Selectors(r.methods), Selectors(q.methods), Selectors(p.methods), Selectors(ms[1..]), Selectors(ms), ms[0].selector);
      SetsBound(Pairs(r.methods), Pairs(q.methods), Pairs(p.methods), Pairs(ms[1..]), Pairs(ms), (ms[0].id, ms[0].selector));
    }
  }

  /* SetsCompose, SetsBound and ConcatAssociates are plain set and sequence
     arithmetic. They are stated over variables rather than over providers so
     that the merge proofs which call them reason about unions and
     concatenations without the providers' definitions in view, which keeps
     those proofs small. */

  /** One step of a union split into the first element and the rest. */
  lemma SetsCompose<T>(result: set<T>, mid: set<T>, start: set<T>, rest: set<T>, all: set<T>, x: T)
    requires result == mid + rest && mid == start + {x} && all == {x} + rest
    ensures result == start + all
  {
  }

  /** One step of an inclusion split into the first element and the rest. */
  lemma SetsBound<T>(result: set<T>, mid: set<T>, start: set<T>, rest: set<T>, all: set<T>, x: T)
    requires result <= mid + rest && mid <= start + {x} && all == {x} + rest
    ensures result <= start + all
  {
  }

  /** Concatenation regroups. */
  lemma ConcatAssociates<T>(x: seq<T>, y: seq<T>, z: seq<T>)
    ensures x + y + z == x + (y + z)
  {
  }

  /** Absorbing the first source method and then the rest is absorbing them all. */
  lemma AbsorbAllStep<P, C>(xs: seq<Method<P, C>>, ys: seq<Method<P, C>>, ms: seq<Method<P, C>>, merge: (C, C) -> C)
    requires |ms| > 0 && |ys| == |xs|
    requires forall i :: 0 <= i < |xs| ==> ys[i] == AbsorbOne(xs[i], ms[0], merge)
    ensures AbsorbAll(ys, ms[1..], merge) == AbsorbAll(xs, ms, merge)
  {
  }

  /** Appending a method no later source method shares a selector with, after
      a source method none of `xs` shares a selector with. */
  lemma AbsorbAllAppend<P, C>(xs: seq<Method<P, C>>, a: Method<P, C>, ms: seq<Method<P, C>>, merge: (C, C) -> C)
    requires |ms| > 0
    requires forall i :: 0 <= i < |xs| ==> xs[i].selector != ms[0].selector
    requires forall k :: 1 <= k < |ms| ==> ms[k].selector != a.selector
    ensures AbsorbAll(xs + [a], ms[1..], merge) == AbsorbAll(xs, ms, merge) + [a]
  {
    assert forall k :: 0 <= k < |ms[1..]| ==> ms[1..][k].selector != a.selector by {
      forall k | 0 <= k < |ms[1..]| ensures ms[1..][k].selector != a.selector {
        assert ms[1..][k] == ms[k + 1];
      }
    }
    AbsorbUntouched(a, ms[1..], merge);
  }

  /** One merge step preserves the closed form of `MergeShape`. */
  lemma StepAbsorbs<P, C>(xs: seq<Method<P, C>>, ys: seq<Method<P, C>>, ms: seq<Method<P, C>>, parent: P,
                          merge: (C, C) -> C, result: seq<Method<P, C>>)
    requires |ms| > 0 && UniqueSelectors(ms) && StepShape(xs, ys, ms[0], parent, merge)
    requires result == AbsorbAll(ys, ms[1..], merge) + Unknown(ms[1..], Selectors(ys), parent)
    ensures result == AbsorbAll(xs, ms, merge) + Unknown(ms, Selectors(xs), parent)
  {
    if ms[0].selector in Selectors(xs) {
      StepAbsorbsKnown(xs, ys, ms, parent, merge, result);
    } else {
      StepAppends(xs, ms, parent, merge, result);
    }
  }

  lemma StepAbsorbsKnown<P, C>(xs: seq<Method<P, C>>, ys: seq<Method<P, C>>, ms: seq<Method<P, C>>, parent: P,
                               merge: (C, C) -> C, result: seq<Method<P, C>>)
    requires |ms| > 0 && ms[0].selector in Selectors(xs) && |ys| == |xs|
    requires forall i :: 0 <= i < |xs| ==> ys[i] == AbsorbOne(xs[i], ms[0], merge)
    requires result == AbsorbAll(ys, ms[1..], merge) + Unknown(ms[1..], Selectors(ys), parent)
    ensures result == AbsorbAll(xs, ms, merge) + Unknown(ms, Selectors(xs), parent)
  {
    AbsorbAllStep(xs, ys, ms, merge);
    SameKeys(xs, ys);
    assert Unknown(ms, Selectors(xs), parent) == Unknown(ms[1..], Selectors(xs), parent);
  }

  lemma StepAppends<P, C>(xs: seq<Method<P, C>>, ms: seq<Method<P, C>>, parent: P,
                          merge: (C, C) -> C, result: seq<Method<P, C>>)
    requires |ms| > 0 && UniqueSelectors(ms) && ms[0].selector !in Selectors(xs)
    requires var ys := xs + [ms[0].(parent := Some(parent))];
      result == AbsorbAll(ys, ms[1..], merge) + Unknown(ms[1..], Selectors(ys), parent)
    ensures result == AbsorbAll(xs, ms, merge) + Unknown(ms, Selectors(xs), parent)
  {
    var sm, rest, known := ms[0], ms[1..], Selectors(xs);
    var a := sm.(parent := Some(parent));
    SelectorsAppend(xs, a);
    assert forall k :: 1 <= k < |ms| ==> ms[k].selector != sm.selector;
    forall k | 0 <= k < |rest| ensures rest[k].selector != sm.selector {
      assert rest[k] == ms[k + 1];
    }
    forall i | 0 <= i < |xs| ensures xs[i].selector != sm.selector {
      assert xs[i].selector in known;
    }
    AbsorbAllAppend(xs, a, ms, merge);
    UnknownIgnores(rest, known, sm.selector, parent);
    var absorbed, later := AbsorbAll(xs, ms, merge), Unknown(rest, known, parent);
    assert result == absorbed + [a] + later;
    ConcatAssociates(absorbed, [a], later);
  }

  lemma UniqueSelectorsDrop<P, C>(ms: seq<Method<P, C>>)
    requires |ms| > 0 && UniqueSelectors(ms)
    ensures UniqueSelectors(ms[1..])
  {
    forall i, j | 0 <= i < j < |ms[1..]| ensures ms[1..][i].selector != ms[1..][j].selector {
      assert ms[1..][i] == ms[i + 1] && ms[1..][j] == ms[j + 1];
    }
  }

  /** The receiver after a merge, position by position: its own methods in
      their places, each having absorbed the source methods with its selector,
      followed by the source methods it did not know, in source order. */
  lemma {:induction false} MergeShape<P, C>(p: Provider<P, C>, ms: seq<Method<P, C>>, merge: (C, C) -> C)
    requires Valid(p) && UniqueSelectors(ms)
    requires IdentityConsistent(Pairs(p.methods) + Pairs(ms))
    ensures MergeMethods(p, ms, merge).methods
            == AbsorbAll(p.methods, ms, merge) + Unknown(ms, Selectors(p.methods), p.parent)
    decreases |ms|
  {
    if |ms| == 0 {
      assert AbsorbAll(p.methods, ms, merge) == p.methods;
    } else {
      var q := MergeOne(p, ms[0], merge);
      MergeOneShape(p, ms, merge);
      StepKeys(p.methods, q.methods, ms, p.parent, merge);
      UniqueSelectorsDrop(ms);
      MergeShape(q, ms[1..], merge);
      assert MergeMethods(p, ms, merge) == MergeMethods(q, ms[1..], merge);
      StepAbsorbs(p.methods, q.methods, ms, p.parent, merge, MergeMethods(q, ms[1..], merge).methods);
    }
  }

  lemma MergeFacts<P, C>(p: Provider<P, C>, source: Provider<P, C>, merge: (C, C) -> C)
    ensures Valid(p) && IdentityConsistent(Pairs(p.methods) + Pairs(source.methods)) ==>
              && Selectors(MergeMethods(p, source.methods, merge).methods) == Selectors(p.methods) + Selectors(source.methods)
              && Pairs(MergeMethods(p, source.methods, merge).methods) <= Pairs(p.methods) + Pairs(source.methods)
    ensures Valid(p) && Valid(source) && IdentityConsistent(Pairs(p.methods) + Pairs(source.methods)) ==>
              MergeMethods(p, source.methods, merge).methods
              == AbsorbAll(p.methods, source.methods, merge) + Unknown(source.methods, Selectors(p.methods), p.parent)
  {
    if Valid(p) && IdentityConsistent(Pairs(p.methods) + Pairs(source.methods)) {
      MergeSelectors(p, source.methods, merge);
      if Valid(source) {
        MergeShape(p, source.methods, merge);
      }
    }
  }

  /** Merges `source` into the receiver `p`. Every selector of `source` ends up
      registered; the receiver's own methods keep their places and absorb the
      data of the source methods with their selectors; the source methods the
      receiver did not know follow, in source order, attached to the
      receiver's parent and placed in its current section. `source` is a value
      and is left as it was. The selector-level promises need identities to be
      consistent: one instance never carries two selectors. */
  function MergeDataFromMethodsProvider<P, C>(p: Provider<P, C>, source: Provider<P, C>, merge: (C, C) -> C): (r: Provider<P, C>)
    ensures r.parent == p.parent
    ensures Valid(p) ==> Valid(r)
    ensures KeepsSectionLayout(p.sections, r.sections)
    ensures Valid(p) && IdentityConsistent(Pairs(p.methods) + Pairs(source.methods)) ==>
              && Selectors(r.methods) == Selectors(p.methods) + Selectors(source.methods)
              && Pairs(r.methods) <= Pairs(p.methods) + Pairs(source.methods)
    ensures Valid(p) && Valid(source) && IdentityConsistent(Pairs(p.methods) + Pairs(source.methods)) ==>
              r.methods == AbsorbAll(p.methods, source.methods, merge) + Unknown(source.methods, Selectors(p.methods), p.parent)
  {
    MergeFacts(p, source, merge);
    MergeMethods(p, source.methods, merge)
  }

  /** After a merge, the receiver's own methods open its flat list in their old
      order, each the same instance under the same selector and parent as
      before, with only its content merged. */
  lemma MergeKeepsReceiverMethods<P, C>(p: Provider<P, C>, source: Provider<P, C>, merge: (C, C) -> C)
    requires Valid(p) && Valid(source) && IdentityConsistent(Pairs(p.methods) + Pairs(source.methods))
    ensures KeepsPlaces(p.methods, MergeDataFromMethodsProvider(p, source, merge).methods)
  {
    var r := MergeDataFromMethodsProvider(p, source, merge);
    forall j | 0 <= j < |p.methods| ensures SameMethod(p.methods[j], r.methods[j]) {
      assert r.methods[j] == AbsorbAll(p.methods, source.methods, merge)[j];
      AbsorbKeepsKeys(p.methods[j], source.methods, merge);
    }
  }

  /** After a merge, lookup finds every source selector in the receiver. */
  lemma MergeRegistersSource<P, C>(p: Provider<P, C>, source: Provider<P, C>, merge: (C, C) -> C, j: nat)
    requires Valid(p) && IdentityConsistent(Pairs(p.methods) + Pairs(source.methods))
    requires j < |source.methods| && |source.methods[j].selector| > 0
    ensures MethodBySelector(MergeDataFromMethodsProvider(p, source, merge), Some(source.methods[j].selector)).Some?
  {
    assert source.methods[j].selector in Selectors(source.methods);
  }

  /** Identities consistent across three pair sets stay consistent when the
      last two are replaced by a subset of their union. */
  lemma ConsistentAfterJoin(x: set<(nat, string)>, y: set<(nat, string)>, z: set<(nat, string)>, yz: set<(nat, string)>)
    requires IdentityConsistent(x + y + z) && yz <= y + z
    ensures IdentityConsistent(y + z) && IdentityConsistent(x + yz)
  {
    ConsistentSubset(y + z, x + y + z);
    ConsistentSubset(x + yz, x + y + z);
  }

  /** Identities consistent across three pair sets stay consistent when the
      first two are replaced by a subset of their union. */
  lemma ConsistentAfterJoinFirst(x: set<(nat, string)>, y: set<(nat, string)>, z: set<(nat, string)>, xy: set<(nat, string)>)
    requires IdentityConsistent(x + y + z) && xy <= x + y
    ensures IdentityConsistent(x + y) && IdentityConsistent(xy + z)
  {
    ConsistentSubset(x + y, x + y + z);
    ConsistentSubset(xy + z, x + y + z);
  }

  /** Merging `b` and then `c` into `a` registers the union of the three
      selector sets. */
  lemma MergeThenMergeSelectors<P, C>(a: Provider<P, C>, b: Provider<P, C>, c: Provider<P, C>, merge: (C, C) -> C)
    requires Valid(a)
    requires IdentityConsistent(Pairs(a.methods) + Pairs(b.methods) + Pairs(c.methods))
    ensures Selectors(MergeDataFromMethodsProvider(MergeDataFromMethodsProvider(a, b, merge), c, merge).methods)
            == Selectors(a.methods) + Selectors(b.methods) + Selectors(c.methods)
  {
    ConsistentAfterJoinFirst(Pairs(a.methods), Pairs(b.methods), Pairs(c.methods), Pairs(a.methods));
    var ab := MergeDataFromMethodsProvider(a, b, merge);
    ConsistentAfterJoinFirst(Pairs(a.methods), Pairs(b.methods), Pairs(c.methods), Pairs(ab.methods));
  }

  /** Merging into `a` the result of merging `c` into `b` registers the union
      of the three selector sets. */
  lemma MergeOfMergeSelectors<P, C>(a: Provider<P, C>, b: Provider<P, C>, c: Provider<P, C>, merge: (C, C) -> C)
    requires Valid(a) && Valid(b)
    requires IdentityConsistent(Pairs(a.methods) + Pairs(b.methods) + Pairs(c.methods))
    ensures Selectors(MergeDataFromMethodsProvider(a, MergeDataFromMethodsProvider(b, c, merge), merge).methods)
            == Selectors(a.methods) + Selectors(b.methods) + Selectors(c.methods)
  {
    ConsistentAfterJoin(Pairs(a.methods), Pairs(b.methods), Pairs(c.methods), Pairs(b.methods));
    var bc := MergeDataFromMethodsProvider(b, c, merge);
    ConsistentAfterJoin(Pairs(a.methods), Pairs(b.methods), Pairs(c.methods), Pairs(bc.methods));
  }

  /** Merging is associative in the methods it registers: merging `b` and then
      `c` into `a` registers the same selectors as merging into `a` the result
      of merging `c` into `b`. */
  lemma MergeAssociativeOnSelectors<P, C>(a: Provider<P, C>, b: Provider<P, C>, c: Provider<P, C>, merge: (C, C) -> C)
    requires Valid(a) && Valid(b)
    requires IdentityConsistent(Pairs(a.methods) + Pairs(b.methods) + Pairs(c.methods))
    ensures Selectors(MergeDataFromMethodsProvider(MergeDataFromMethodsProvider(a, b, merge), c, merge).methods)
            == Selectors(MergeDataFromMethodsProvider(a, MergeDataFromMethodsProvider(b, c, merge), merge).methods)
  {
    MergeThenMergeSelectors(a, b, c, merge);
    MergeOfMergeSelectors(a, b, c, merge);
  }
}
