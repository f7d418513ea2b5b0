/** Merging three providers in either grouping. When the two sources share no
    selector, no receiver method ever absorbs two source methods, so the
    per-method merge is never applied to its own result and the two
    groupings give the same flat list, whatever that merge is. */
module MergeAssociativity {
  import opened Wrappers
  import opened MethodData
  import opened MethodsProvider
  import opened ProviderMerge

  /** Absorbing looks only at the selectors and contents of the source methods,
      not at their parents. */
  lemma {:induction false} AbsorbIgnoresParent<P, C>(m: Method<P, C>, xs: seq<Method<P, C>>, ys: seq<Method<P, C>>, merge: (C, C) -> C)
    requires |xs| == |ys|
    requires forall k :: 0 <= k < |xs| ==> xs[k].selector == ys[k].selector && xs[k].content == ys[k].content
    ensures Absorb(m, xs, merge) == Absorb(m, ys, merge)
    decreases |xs|
  {
    if |xs| > 0 {
      AbsorbIgnoresParent(AbsorbOne(m, xs[0], merge), xs[1..], ys[1..], merge);
    }
  }

  /** Absorbing two runs of source methods is absorbing the first, then the second. */
  lemma {:induction false} AbsorbConcat<P, C>(m: Method<P, C>, xs: seq<Method<P, C>>, ys: seq<Method<P, C>>, merge: (C, C) -> C)
    ensures Absorb(m, xs + ys, merge) == Absorb(Absorb(m, xs, merge), ys, merge)
    decreases |xs|
  {
    if |xs| == 0 {
      assert xs + ys == ys;
    } else {
      assert (xs + ys)[1..] == xs[1..] + ys;
      AbsorbConcat(AbsorbOne(m, xs[0], merge), xs[1..], ys, merge);
    }
  }

  /** The unknown methods of two runs are those of each run, in order. */
  lemma {:induction false} UnknownConcat<P, C>(xs: seq<Method<P, C>>, ys: seq<Method<P, C>>, known: set<string>, parent: P)
    ensures Unknown(xs + ys, known, parent) == Unknown(xs, known, parent) + Unknown(ys, known, parent)
    decreases |xs|
  {
    if |xs| == 0 {
      assert xs + ys == ys;
    } else {
      assert (xs + ys)[1..] == xs[1..] + ys;
      UnknownConcat(xs[1..], ys, known, parent);
    }
  }

  /** Filtering out two known sets one after the other filters out their union;
      the last parent wins. */
  lemma {:induction false} UnknownTwice<P, C>(ms: seq<Method<P, C>>, k1: set<string>, k2: set<string>, p1: P, p2: P)
    ensures Unknown(Unknown(ms, k1, p1), k2, p2) == Unknown(ms, k1 + k2, p2)
    decreases |ms|
  {
    if |ms| > 0 {
      var head := if ms[0].selector in k1 then [] else [ms[0].(parent := Some(p1))];
      UnknownConcat(head, Unknown(ms[1..], k1, p1), k2, p2);
      UnknownTwice(ms[1..], k1, k2, p1, p2);
      if ms[0].selector !in k1 {
        assert [ms[0].(parent := Some(p1))][1..] == [];
      }
    }
  }

  /** With none of their selectors known, the unknown methods are all of them,
      re-attached to `parent`. */
  lemma {:induction false} UnknownNoneKnown<P, C>(ms: seq<Method<P, C>>, known: set<string>, parent: P)
    requires forall k :: 0 <= k < |ms| ==> ms[k].selector !in known
    ensures |Unknown(ms, known, parent)| == |ms|
    ensures forall k :: 0 <= k < |ms| ==> Unknown(ms, known, parent)[k] == ms[k].(parent := Some(parent))
    decreases |ms|
  {
    if |ms| > 0 {
      UnknownNoneKnown(ms[1..], known, parent);
    }
  }

  /** The unknown methods carry selectors of the methods they come from. */
  lemma {:induction false} UnknownSelectors<P, C>(ms: seq<Method<P, C>>, known: set<string>, parent: P)
    ensures forall k :: 0 <= k < |Unknown(ms, known, parent)| ==> Unknown(ms, known, parent)[k].selector in Selectors(ms)
    decreases |ms|
  {
    if |ms| > 0 {
      UnknownSelectors(ms[1..], known, parent);
      assert ms[0].selector in Selectors(ms);
      forall k | 0 <= k < |ms[1..]| ensures ms[1..][k].selector in Selectors(ms) {
        assert ms[1..][k] == ms[k + 1];
      }
    }
  }

  /** Methods that share no selector with the source absorb nothing. */
  lemma AbsorbAllNoMatch<P, C>(xs: seq<Method<P, C>>, ms: seq<Method<P, C>>, merge: (C, C) -> C)
    requires forall i, k :: 0 <= i < |xs| && 0 <= k < |ms| ==> ms[k].selector != xs[i].selector
    ensures AbsorbAll(xs, ms, merge) == xs
  {
    forall i | 0 <= i < |xs| ensures Absorb(xs[i], ms, merge) == xs[i] {
      AbsorbUntouched(xs[i], ms, merge);
    }
  }

  /** Absorbing into two runs of receiver methods is absorbing into each. */
  lemma AbsorbAllSplit<P, C>(xs: seq<Method<P, C>>, ys: seq<Method<P, C>>, ms: seq<Method<P, C>>, merge: (C, C) -> C)
    ensures AbsorbAll(xs + ys, ms, merge) == AbsorbAll(xs, ms, merge) + AbsorbAll(ys, ms, merge)
  {
  }

  /** Absorbing one source run and then another is absorbing both in order. */
  lemma AbsorbAllConcat<P, C>(xs: seq<Method<P, C>>, ys: seq<Method<P, C>>, zs: seq<Method<P, C>>, merge: (C, C) -> C)
    ensures AbsorbAll(AbsorbAll(xs, ys, merge), zs, merge) == AbsorbAll(xs, ys + zs, merge)
  {
    forall i | 0 <= i < |xs| ensures Absorb(Absorb(xs[i], ys, merge), zs, merge) == Absorb(xs[i], ys + zs, merge) {
      AbsorbConcat(xs[i], ys, zs, merge);
    }
  }

  /** `AbsorbIgnoresParent` for every receiver method. */
  lemma AbsorbAllIgnoresParent<P, C>(xs: seq<Method<P, C>>, ys: seq<Method<P, C>>, zs: seq<Method<P, C>>, merge: (C, C) -> C)
    requires |ys| == |zs|
    requires forall k :: 0 <= k < |ys| ==> ys[k].selector == zs[k].selector && ys[k].content == zs[k].content
    ensures AbsorbAll(xs, ys, merge) == AbsorbAll(xs, zs, merge)
  {
    forall i | 0 <= i < |xs| ensures Absorb(xs[i], ys, merge) == Absorb(xs[i], zs, merge) {
      AbsorbIgnoresParent(xs[i], ys, zs, merge);
    }
  }

  /** Disjoint selector sets, seen position by position. */
  lemma DisjointSelectors<P, C>(b: seq<Method<P, C>>, c: seq<Method<P, C>>)
    requires Selectors(b) !! Selectors(c)
    ensures forall i, k :: 0 <= i < |b| && 0 <= k < |c| ==> c[k].selector != b[i].selector
  {
    forall i, k | 0 <= i < |b| && 0 <= k < |c| ensures c[k].selector != b[i].selector {
      assert b[i].selector in Selectors(b);
      assert c[k].selector in Selectors(c);
    }
  }

  /** The grouping-independent result of merging `b` and `c` into `a`: the
      receiver's methods absorb `b` and then `c`, followed by the methods of `b`
      and then those of `c` that nothing before them knew, attached to `parent`. */
  ghost function BothMerged<P, C>(a: seq<Method<P, C>>, b: seq<Method<P, C>>, c: seq<Method<P, C>>,
                                  merge: (C, C) -> C, parent: P): seq<Method<P, C>>
  {
    AbsorbAll(a, b + c, merge) + Unknown(b, Selectors(a), parent) + Unknown(c, Selectors(a) + Selectors(b), parent)
  }

  /** The closed forms of `(a <- b) <- c`, on flat lists. */
  lemma LeftGrouping<P, C>(a: seq<Method<P, C>>, b: seq<Method<P, C>>, c: seq<Method<P, C>>, merge: (C, C) -> C, parent: P)
    requires Selectors(b) !! Selectors(c)
    ensures AbsorbAll(AbsorbAll(a, b, merge) + Unknown(b, Selectors(a), parent), c, merge)
            + Unknown(c, Selectors(a) + Selectors(b), parent)
            == BothMerged(a, b, c, merge, parent)
  {
    DisjointSelectors(b, c);
    var ub := Unknown(b, Selectors(a), parent);
    UnknownSelectors(b, Selectors(a), parent);
    forall i, k | 0 <= i < |ub| && 0 <= k < |c| ensures c[k].selector != ub[i].selector {
      var j :| 0 <= j < |b| && b[j].selector == ub[i].selector;
    }
    AbsorbAllNoMatch(ub, c, merge);
    AbsorbAllSplit(AbsorbAll(a, b, merge), ub, c, merge);
    AbsorbAllConcat(a, b, c, merge);
  }

  /** The closed forms of `a <- (b <- c)`, on flat lists. */
  lemma RightGrouping<P, C>(a: seq<Method<P, C>>, b: seq<Method<P, C>>, c: seq<Method<P, C>>, merge: (C, C) -> C,
                            parent: P, middle: P)
    requires Selectors(b) !! Selectors(c)
    ensures var bc := AbsorbAll(b, c, merge) + Unknown(c, Selectors(b), middle);
            AbsorbAll(a, bc, merge) + Unknown(bc, Selectors(a), parent) == BothMerged(a, b, c, merge, parent)
  {
    DisjointSelectors(b, c);
    var sa, sb := Selectors(a), Selectors(b);
    var cb := Unknown(c, sb, middle);
    AbsorbAllNoMatch(b, c, merge);
    forall k | 0 <= k < |c| ensures c[k].selector !in sb {
      assert c[k].selector in Selectors(c);
    }
    UnknownNoneKnown(c, sb, middle);
    UnknownConcat(b, cb, sa, parent);
    UnknownTwice(c, sb, sa, middle, parent);
    assert sb + sa == sa + sb;
    AbsorbAllIgnoresParent(a, b + cb, b + c, merge);
    ConcatAssociates(AbsorbAll(a, b + c, merge), Unknown(b, sa, parent), Unknown(c, sa + sb, parent));
  }

  /** Merging `b` and then `c` into `a` gives `BothMerged`. */
  lemma MergeThenMerge<P, C>(a: Provider<P, C>, b: Provider<P, C>, c: Provider<P, C>, merge: (C, C) -> C)
    requires Valid(a) && Valid(b) && Valid(c)
    requires IdentityConsistent(Pairs(a.methods) + Pairs(b.methods) + Pairs(c.methods))
    requires Selectors(b.methods) !! Selectors(c.methods)
    ensures MergeDataFromMethodsProvider(MergeDataFromMethodsProvider(a, b, merge), c, merge).methods
            == BothMerged(a.methods, b.methods, c.methods, merge, a.parent)
  {
    ConsistentAfterJoinFirst(Pairs(a.methods), Pairs(b.methods), Pairs(c.methods), Pairs(a.methods));
    var ab := MergeDataFromMethodsProvider(a, b, merge);
    ConsistentAfterJoinFirst(Pairs(a.methods), Pairs(b.methods), Pairs(c.methods), Pairs(ab.methods));
    LeftGrouping(a.methods, b.methods, c.methods, merge, a.parent);
  }

  /** Merging into `a` the merge of `c` into `b` gives `BothMerged`. */
  lemma MergeOfMerge<P, C>(a: Provider<P, C>, b: Provider<P, C>, c: Provider<P, C>, merge: (C, C) -> C)
    requires Valid(a) && Valid(b) && Valid(c)
    requires IdentityConsistent(Pairs(a.methods) + Pairs(b.methods) + Pairs(c.methods))
    requires Selectors(b.methods) !! Selectors(c.methods)
    ensures MergeDataFromMethodsProvider(a, MergeDataFromMethodsProvider(b, c, merge), merge).methods
            == BothMerged(a.methods, b.methods, c.methods, merge, a.parent)
  {
    ConsistentAfterJoin(Pairs(a.methods), Pairs(b.methods), Pairs(c.methods), Pairs(b.methods));
    var bc := MergeDataFromMethodsProvider(b, c, merge);
    ConsistentAfterJoin(Pairs(a.methods), Pairs(b.methods), Pairs(c.methods), Pairs(bc.methods));
    RightGrouping(a.methods, b.methods, c.methods, merge, a.parent, b.parent);
  }

  /** When the two sources share no selector, merging them into `a` one after
      the other and merging into `a` their merge give the same flat list. */
  lemma MergeAssociative<P, C>(a: Provider<P, C>, b: Provider<P, C>, c: Provider<P, C>, merge: (C, C) -> C)
    requires Valid(a) && Valid(b) && Valid(c)
    requires IdentityConsistent(Pairs(a.methods) + Pairs(b.methods) + Pairs(c.methods))
    requires Selectors(b.methods) !! Selectors(c.methods)
    ensures MergeDataFromMethodsProvider(MergeDataFromMethodsProvider(a, b, merge), c, merge).methods
            == MergeDataFromMethodsProvider(a, MergeDataFromMethodsProvider(b, c, merge), merge).methods
  {
    MergeThenMerge(a, b, c, merge);
    MergeOfMerge(a, b, c, merge);
  }
}
