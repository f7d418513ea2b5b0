/** The methods provider: an append-only registry that groups documented
    methods into ordered sections, keeps every method in one flat list in
    registration order and indexes them by selector. */
module MethodsProvider {
  import opened Wrappers
  import opened MethodData

  /** The provider's state. `parent` is the object every registered method is
      attached to; `bySelector` maps each registered selector to its method. */
  datatype Provider<P, C> = Provider(
    parent: P,
    sections: seq<Section<P, C>>,
    methods: seq<Method<P, C>>,
    bySelector: map<string, Method<P, C>>)

  datatype Error =
    | NilParent                          // construction without a parent object
    | DuplicateSelector(selector: string) // another instance already owns the selector

  /** The index holds exactly the selectors of `ms`, each mapped to its method. */
  ghost predicate IndexAgrees<P, C>(index: map<string, Method<P, C>>, ms: seq<Method<P, C>>)
  {
    && index.Keys == Selectors(ms)
    && forall i :: 0 <= i < |ms| ==> ms[i].selector in index && index[ms[i].selector] == ms[i]
  }

  /** What every provider keeps true: the flat list is the sections' lists one
      after another, each instance and each selector is registered once, every
      method carries the provider's parent, and the index agrees with the list. */
  ghost predicate Valid<P, C>(p: Provider<P, C>)
  {
    && Flatten(p.sections) == p.methods
    && UniqueIds(p.methods)
    && UniqueSelectors(p.methods)
    && (forall i :: 0 <= i < |p.methods| ==> p.methods[i].parent == Some(p.parent))
    && IndexAgrees(p.bySelector, p.methods)
  }

  /** Creates an empty provider bound to `parent`; refused when there is none. */
  function New<P, C>(parent: Option<P>): (r: Result<Provider<P, C>, Error>)
    ensures r.Failure? <==> parent.None?
    ensures r.Failure? ==> r.error == NilParent
    ensures r.Success? ==> Valid(r.value) && r.value.parent == parent.value
    ensures r.Success? ==> |r.value.sections| == 0 && |r.value.methods| == 0 && |r.value.bySelector| == 0
  {
    match parent
    case None => Failure(NilParent)
    case Some(obj) => Success(Provider(obj, [], [], map[]))
  }

  /** The outcome of registering a section: the new provider, the section that
      was created, and whether a warning was logged about it. */
  datatype SectionRegistration<P, C> = SectionRegistration(
    provider: Provider<P, C>,
    section: Section<P, C>,
    warned: bool)

  /** Registering a section logs a warning when one of `sections` has the same
      name, or when the unnamed default section is among them. */
  predicate SectionWarning<P, C>(sections: seq<Section<P, C>>, name: Option<string>)
  {
    exists i | 0 <= i < |sections| :: sections[i].name.None? || sections[i].name == name
  }

  /** Appends a new empty section named `name`; later methods go into it. A
      repeated name is still registered; it only sets the warning flag. */
  function RegisterSectionWithName<P, C>(p: Provider<P, C>, name: Option<string>): (r: SectionRegistration<P, C>)
    ensures r.section.name == name && |r.section.methods| == 0
    ensures |r.provider.sections| == |p.sections| + 1
    ensures r.provider.sections[..|p.sections|] == p.sections
    ensures r.provider.sections[|p.sections|] == r.section
    ensures r.provider.methods == p.methods && r.provider.bySelector == p.bySelector
    ensures r.provider.parent == p.parent
    ensures r.warned <==>
              || (exists i :: 0 <= i < |p.sections| && p.sections[i].name == name)
              || (exists i :: 0 <= i < |p.sections| && p.sections[i].name.None?)
    ensures Valid(p) ==> Valid(r.provider)
  {
    var section := Section(name, []);
    var q := p.(sections := p.sections + [section]);
    FlattenAppend(p.sections, section);
    assert q.sections[..|p.sections|] == p.sections;
    SectionRegistration(q, section, SectionWarning(p.sections, name))
  }

  /** Registers a section only when `name` has at least one character. */
  function RegisterSectionIfNameIsValid<P, C>(p: Provider<P, C>, name: Option<string>): (r: Option<SectionRegistration<P, C>>)
    ensures r.None? <==> name.None? || |name.value| == 0
    ensures r.Some? ==> r.value == RegisterSectionWithName(p, name)
  {
    if name.None? || |name.value| == 0 then None
    else Some(RegisterSectionWithName(p, name))
  }

  /** `q` is `p` with `m` registered at the end: appended to the flat list and
      to the last section (a default unnamed section is created first when there
      is none), and entered in the index; nothing else differs. */
  ghost predicate Appended<P, C>(p: Provider<P, C>, q: Provider<P, C>, m: Method<P, C>)
  {
    && q.parent == p.parent
    && q.methods == p.methods + [m]
    && q.bySelector == p.bySelector[m.selector := m]
    && (if |p.sections| == 0 then q.sections == [Section(None, [m])]
        else
          var last := |p.sections| - 1;
          && |q.sections| == |p.sections|
          && q.sections[..last] == p.sections[..last]
          && q.sections[last] == p.sections[last].(methods := p.sections[last].methods + [m]))
  }

  /** Adds `m`, attached to the provider's parent, to the current section (the
      last one, created as the unnamed default when there is none), to the flat
      list and to the index. */
  function Insert<P, C>(p: Provider<P, C>, m: Method<P, C>): Provider<P, C>
  {
    var adopted := m.(parent := Some(p.parent));
    var sections := if |p.sections| == 0 then [Section(None, [])] else p.sections;
    var last := sections[|sections| - 1];
    p.(sections := sections[..|sections| - 1] + [last.(methods := last.methods + [adopted])],
       methods := p.methods + [adopted],
       bySelector := p.bySelector[m.selector := adopted])
  }

  lemma InsertAppends<P, C>(p: Provider<P, C>, m: Method<P, C>)
    ensures Appended(p, Insert(p, m), m.(parent := Some(p.parent)))
  {
    var q := Insert(p, m);
    if |p.sections| > 0 {
      var last := |p.sections| - 1;
      assert q.sections[..last] == p.sections[..last];
    } else {
      var a := m.(parent := Some(p.parent));
      var start: seq<Section<P, C>> := [Section(None, [])];
      assert start[..0] == [];
      assert start[0].methods + [a] == [a];
      assert q.sections == [Section(None, [a])];
    }
  }

  lemma InsertKeepsValid<P, C>(p: Provider<P, C>, m: Method<P, C>)
    requires m.id !in Ids(p.methods) && m.selector !in p.bySelector
    ensures Valid(p) ==> Valid(Insert(p, m))
  {
    if Valid(p) {
      InsertKeepsValidStep(p, m);
    }
  }

  lemma InsertKeepsValidStep<P, C>(p: Provider<P, C>, m: Method<P, C>)
    requires Valid(p) && m.id !in Ids(p.methods) && m.selector !in p.bySelector
    ensures Valid(Insert(p, m))
  {
    var q := Insert(p, m);
    InsertAppends(p, m);
    InsertFlattens(p, m);
    AppendKeepsValid(p, q, m.(parent := Some(p.parent)));
  }

  lemma InsertFlattens<P, C>(p: Provider<P, C>, m: Method<P, C>)
    requires Flatten(p.sections) == p.methods
    ensures Flatten(Insert(p, m).sections) == Insert(p, m).methods
  {
    var a := m.(parent := Some(p.parent));
    var sections := if |p.sections| == 0 then [Section(None, [])] else p.sections;
    var n := |sections| - 1;
    var last := sections[n];
    assert Flatten(sections) == p.methods by {
      if |p.sections| == 0 {
        assert sections[..0] == [];
      }
    }
    assert sections == sections[..n] + [last];
    FlattenAppend(sections[..n], last);
    FlattenAppend(sections[..n], last.(methods := last.methods + [a]));
  }

  /** Appending a fresh method consistently to the list and the index of a
      valid provider, with the sections flattening to the new list, keeps it valid. */
  lemma AppendKeepsValid<P, C>(p: Provider<P, C>, q: Provider<P, C>, a: Method<P, C>)
    requires Valid(p) && a.id !in Ids(p.methods) && a.selector !in p.bySelector && a.parent == Some(p.parent)
    requires q.parent == p.parent && q.methods == p.methods + [a] && Flatten(q.sections) == q.methods
    requires q.bySelector == p.bySelector[a.selector := a]
    ensures Valid(q)
  {
    SelectorsAppend(p.methods, a);
    forall i, j | 0 <= i < j < |q.methods| ensures q.methods[i].id != q.methods[j].id {
      if j == |p.methods| {
        assert p.methods[i].id in Ids(p.methods);
      }
    }
    forall i, j | 0 <= i < j < |q.methods| ensures q.methods[i].selector != q.methods[j].selector {
      if j == |p.methods| {
        assert p.methods[i].selector in Selectors(p.methods);
      }
    }
    forall i | 0 <= i < |q.methods|
      ensures q.methods[i].selector in q.bySelector && q.bySelector[q.methods[i].selector] == q.methods[i]
    {
      if i < |p.methods| {
        assert p.methods[i].selector in p.bySelector;
      }
    }
  }

  /** Registers `m`. The same instance a second time changes nothing; another
      instance with a registered selector is refused; otherwise `m` joins the
      current section and the flat list, attached to the provider's parent. */
  function RegisterMethod<P, C>(p: Provider<P, C>, m: Method<P, C>): (r: Result<Provider<P, C>, Error>)
    ensures m.id in Ids(p.methods) ==> r == Success(p)
    ensures r.Failure? <==> m.id !in Ids(p.methods) && m.selector in p.bySelector
    ensures r.Failure? ==> r.error == DuplicateSelector(m.selector)
    ensures r.Success? && m.id !in Ids(p.methods) ==> Appended(p, r.value, m.(parent := Some(p.parent)))
    ensures r.Success? && Valid(p) ==> Valid(r.value)
  {
    if m.id in Ids(p.methods) then Success(p)
    else if m.selector in p.bySelector then Failure(DuplicateSelector(m.selector))
    else
      InsertAppends(p, m);
      InsertKeepsValid(p, m);
      Success(Insert(p, m))
  }

  /** A method registered right after a section goes into that section. */
  lemma SectionReceivesNextMethod<P, C>(p: Provider<P, C>, name: Option<string>, m: Method<P, C>)
    requires m.id !in Ids(p.methods) && m.selector !in p.bySelector
    ensures var q := RegisterSectionWithName(p, name).provider;
            var r := RegisterMethod(q, m);
            && r.Success?
            && r.value.sections == p.sections + [Section(name, [m.(parent := Some(p.parent))])]
  {
    var q := RegisterSectionWithName(p, name).provider;
    assert q.methods == p.methods && q.bySelector == p.bySelector;
    var r := RegisterMethod(q, m);
    assert r.Success?;
    var a := m.(parent := Some(p.parent));
    assert Appended(q, r.value, a);
    var last := |q.sections| - 1;
    assert q.sections[..last] == p.sections;
    assert r.value.sections[last] == Section(name, [a]);
    assert r.value.sections == q.sections[..last] + [r.value.sections[last]];
  }

  /** The method registered under `selector`; none for an absent or empty
      selector or one nobody registered. */
  function MethodBySelector<P, C>(p: Provider<P, C>, selector: Option<string>): (r: Option<Method<P, C>>)
    ensures Valid(p) ==> (r.Some? <==> selector.Some? && |selector.value| > 0 && selector.value in Selectors(p.methods))
    ensures Valid(p) && r.Some? ==> exists i :: 0 <= i < |p.methods| && p.methods[i] == r.value && r.value.selector == selector.value
  {
    if selector.None? || |selector.value| == 0 || selector.value !in p.bySelector then None
    else Some(p.bySelector[selector.value])
  }

  /** A method just registered is what lookup by its selector returns. */
  lemma RegisterThenLookup<P, C>(p: Provider<P, C>, m: Method<P, C>)
    requires Valid(p) && m.id !in Ids(p.methods) && m.selector !in p.bySelector && |m.selector| > 0
    ensures RegisterMethod(p, m).Success?
    ensures MethodBySelector(RegisterMethod(p, m).value, Some(m.selector)) == Some(m.(parent := Some(p.parent)))
  {
  }

  /** Every registered method with a non-empty selector is found by it. */
  lemma LookupFindsRegistered<P, C>(p: Provider<P, C>, i: nat)
    requires Valid(p) && i < |p.methods| && |p.methods[i].selector| > 0
    ensures MethodBySelector(p, Some(p.methods[i].selector)) == Some(p.methods[i])
  {
  }
}
