/** Concrete registrations and merges, with documented methods whose parent is
    a class name and whose content is a list of comment paragraphs, merged by
    concatenation. */
module ProviderScenarios {
  import opened Wrappers
  import opened MethodData
  import opened MethodsProvider
  import opened ProviderMerge

  type Doc = Method<string, seq<string>>

  function Concat(a: seq<string>, b: seq<string>): seq<string>
  {
    a + b
  }

  /** A section and then a fresh method registered into a valid provider. */
  lemma SectionThenMethod<P, C>(p: Provider<P, C>, name: Option<string>, m: Method<P, C>)
    requires Valid(p) && m.id !in Ids(p.methods) && m.selector !in p.bySelector
    ensures RegisterMethod(RegisterSectionWithName(p, name).provider, m).Success?
    ensures var r := RegisterMethod(RegisterSectionWithName(p, name).provider, m).value;
            var a := m.(parent := Some(p.parent));
            && Valid(r) && r.parent == p.parent
            && r.sections == p.sections + [Section(name, [a])]
            && r.methods == p.methods + [a]
            && Ids(r.methods) == Ids(p.methods) + {m.id}
            && r.bySelector.Keys == p.bySelector.Keys + {m.selector}
  {
    SectionReceivesNextMethod(p, name, m);
    SelectorsAppend(p.methods, m.(parent := Some(p.parent)));
  }

  /** A fresh provider after a section and a method holds that section with that method. */
  lemma FirstSectionAndMethod<P, C>(parent: P, name: Option<string>, m: Method<P, C>)
    ensures RegisterMethod(RegisterSectionWithName(New<P, C>(Some(parent)).value, name).provider, m).Success?
    ensures var r := RegisterMethod(RegisterSectionWithName(New<P, C>(Some(parent)).value, name).provider, m).value;
            var a := m.(parent := Some(parent));
            && Valid(r) && r.parent == parent
            && r.sections == [Section(name, [a])]
            && r.methods == [a]
            && Ids(r.methods) == {m.id}
            && r.bySelector.Keys == {m.selector}
  {
    var p0 := New<P, C>(Some(parent)).value;
    assert Valid(p0) && p0.parent == parent && p0.sections == [] && p0.methods == []
        && Ids(p0.methods) == {} && p0.bySelector.Keys == {};
    SectionThenMethod(p0, name, m);
    var a := m.(parent := Some(parent));
    assert p0.sections + [Section(name, [a])] == [Section(name, [a])];
    assert p0.methods + [a] == [a];
  }

  /** A method registered before any section lands in one default, unnamed section. */
  lemma DefaultSectionScenario()
    ensures
      var p0 := New<string, seq<string>>(Some("Class")).value;
      var foo: Doc := Method(1, "foo", None, []);
      var r := RegisterMethod(p0, foo);
      r.Success? && r.value.sections == [Section(None, [foo.(parent := Some("Class"))])]
  {
    var p0 := New<string, seq<string>>(Some("Class")).value;
    assert Ids(p0.methods) == {};
  }

  /** The same instance twice changes nothing; another instance with its
      selector is refused. */
  lemma ReRegistrationScenario()
    ensures
      var p0 := New<string, seq<string>>(Some("Class")).value;
      var foo: Doc := Method(1, "foo", None, []);
      var other: Doc := Method(2, "foo", None, ["again"]);
      var p1 := RegisterMethod(p0, foo).value;
      && RegisterMethod(p1, foo) == Success(p1)
      && RegisterMethod(p1, other) == Failure(DuplicateSelector("foo"))
  {
    var p0 := New<string, seq<string>>(Some("Class")).value;
    var foo: Doc := Method(1, "foo", None, []);
    var other: Doc := Method(2, "foo", None, ["again"]);
    assert Ids(p0.methods) == {};
    var p1 := RegisterMethod(p0, foo).value;
    assert p1.methods == [foo.(parent := Some("Class"))];
    SelectorsAppend(p0.methods, foo.(parent := Some("Class")));
    assert Ids(p1.methods) == {1};
    assert "foo" in p1.bySelector;
    assert RegisterMethod(p1, foo) == Success(p1);
    assert RegisterMethod(p1, other) == Failure(DuplicateSelector("foo"));
  }

  /** A fresh provider after one registration holds that one method. */
  lemma OneMethodProvider<P, C>(parent: P, m: Method<P, C>)
    ensures RegisterMethod(New<P, C>(Some(parent)).value, m).Success?
    ensures var r := RegisterMethod(New<P, C>(Some(parent)).value, m).value;
            && Valid(r) && r.parent == parent
            && r.methods == [m.(parent := Some(parent))]
            && Selectors(r.methods) == {m.selector}
            && Pairs(r.methods) == {(m.id, m.selector)}
  {
    var e := New<P, C>(Some(parent)).value;
    assert Ids(e.methods) == {};
    SelectorsAppend(e.methods, m.(parent := Some(parent)));
  }

  /** Merging a provider whose `foo` is another instance with more
      documentation: the receiver keeps one `foo`, now holding both, and the
      source is still as it was. */
  lemma RicherDuplicateScenario()
    ensures
      var foo1: Doc := Method(1, "foo", None, ["brief"]);
      var foo2: Doc := Method(2, "foo", None, ["details"]);
      var r1 := RegisterMethod(New<string, seq<string>>(Some("Class")).value, foo1).value;
      var r2 := RegisterMethod(New<string, seq<string>>(Some("Category")).value, foo2).value;
      var merged := MergeDataFromMethodsProvider(r1, r2, Concat);
      && merged.methods == [Method(1, "foo", Some("Class"), ["brief", "details"])]
      && r2.methods == [Method(2, "foo", Some("Category"), ["details"])]
  {
    var foo1: Doc := Method(1, "foo", None, ["brief"]);
    var foo2: Doc := Method(2, "foo", None, ["details"]);
    OneMethodProvider("Class", foo1);
    OneMethodProvider("Category", foo2);
    var r1 := RegisterMethod(New<string, seq<string>>(Some("Class")).value, foo1).value;
    var r2 := RegisterMethod(New<string, seq<string>>(Some("Category")).value, foo2).value;
    assert IdentityConsistent(Pairs(r1.methods) + Pairs(r2.methods));
    var merged := MergeDataFromMethodsProvider(r1, r2, Concat);
    assert merged.methods == AbsorbAll(r1.methods, r2.methods, Concat) + Unknown(r2.methods, {"foo"}, "Class");
    assert Unknown(r2.methods, {"foo"}, "Class") == [];
    AbsorbDetails();
  }

  lemma AbsorbDetails()
    ensures Absorb(Method(1, "foo", Some("Class"), ["brief"]), [Method(2, "foo", Some("Category"), ["details"])], Concat)
            == Method(1, "foo", Some("Class"), ["brief", "details"])
  {
    var m: Doc := Method(1, "foo", Some("Class"), ["brief"]);
    var ms: seq<Doc> := [Method(2, "foo", Some("Category"), ["details"])];
    assert ms[1..] == [];
    assert Concat(["brief"], ["details"]) == ["brief", "details"];
    assert AbsorbOne(m, ms[0], Concat) == Method(1, "foo", Some("Class"), ["brief", "details"]);
  }
}
