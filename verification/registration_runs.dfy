/** Sequences of registrations, as a provider's owner issues them while it
    parses a documented object: sections and methods, in order. */
module RegistrationRuns {
  import opened Wrappers
  import opened MethodData
  import opened MethodsProvider

  datatype Step<P, C> = AddSection(name: Option<string>) | AddMethod(offered: Method<P, C>)

  /** One registration, applied to `p`. */
  function StepOnce<P, C>(p: Provider<P, C>, step: Step<P, C>): Result<Provider<P, C>, Error>
  {
    match step
    case AddSection(name) => Success(RegisterSectionWithName(p, name).provider)
    case AddMethod(m) => RegisterMethod(p, m)
  }

  /** Applies `steps` to `p` in order; the first refused registration ends the run. */
  function Run<P, C>(p: Provider<P, C>, steps: seq<Step<P, C>>): (r: Result<Provider<P, C>, Error>)
    ensures r.Success? ==> r.value.parent == p.parent
    ensures r.Success? && Valid(p) ==> Valid(r.value)
    ensures r.Failure? ==> r.error.DuplicateSelector?
    decreases |steps|
  {
    if |steps| == 0 then Success(p)
    else
      match StepOnce(p, steps[0])
      case Failure(e) => Failure(e)
      case Success(q) => Run(q, steps[1..])
  }

  /** The identities of the method instances `steps` offers for registration. */
  function Offered<P, C>(steps: seq<Step<P, C>>): set<nat>
  {
    set k | 0 <= k < |steps| && steps[k].AddMethod? :: steps[k].offered.id
  }

  lemma OfferedDrop<P, C>(steps: seq<Step<P, C>>)
    requires |steps| > 0
    ensures Offered(steps) == (if steps[0].AddMethod? then {steps[0].offered.id} else {}) + Offered(steps[1..])
  {
    var rest := steps[1..];
    forall d | d in Offered(steps)
      ensures d in (if steps[0].AddMethod? then {steps[0].offered.id} else {}) + Offered(rest)
    {
      var k :| 0 <= k < |steps| && steps[k].AddMethod? && d == steps[k].offered.id;
      if k > 0 { assert rest[k - 1] == steps[k]; }
    }
    forall d | d in Offered(rest) ensures d in Offered(steps) {
      var k :| 0 <= k < |rest| && rest[k].AddMethod? && d == rest[k].offered.id;
      assert steps[k + 1] == rest[k];
    }
  }

  /** A registration that succeeds leaves the instance registered, once. */
  lemma RegisterIds<P, C>(p: Provider<P, C>, m: Method<P, C>)
    requires RegisterMethod(p, m).Success?
    ensures Ids(RegisterMethod(p, m).value.methods) == Ids(p.methods) + {m.id}
  {
    if m.id !in Ids(p.methods) {
      SelectorsAppend(p.methods, m.(parent := Some(p.parent)));
    }
  }

  lemma StepOnceIds<P, C>(p: Provider<P, C>, steps: seq<Step<P, C>>)
    requires Valid(p) && |steps| > 0 && Run(p, steps).Success?
    ensures StepOnce(p, steps[0]).Success?
    ensures Valid(StepOnce(p, steps[0]).value)
    ensures Run(p, steps) == Run(StepOnce(p, steps[0]).value, steps[1..])
    ensures Ids(StepOnce(p, steps[0]).value.methods)
            == Ids(p.methods) + (if steps[0].AddMethod? then {steps[0].offered.id} else {})
  {
    if steps[0].AddMethod? {
      RegisterIds(p, steps[0].offered);
    }
  }

  /** A successful run has registered exactly the instances it was offered
      besides those already there. */
  lemma {:induction false} RunRegistersOffered<P, C>(p: Provider<P, C>, steps: seq<Step<P, C>>)
    requires Valid(p)
    ensures Run(p, steps).Success? ==> Ids(Run(p, steps).value.methods) == Ids(p.methods) + Offered(steps)
    decreases |steps|
  {
    if Run(p, steps).Success? {
      if |steps| == 0 {
        assert Offered(steps) == {};
      } else {
        OfferedDrop(steps);
        StepOnceIds(p, steps);
        RunRegistersOffered(StepOnce(p, steps[0]).value, steps[1..]);
      }
    }
  }

  /** ... and holds each of them once. */
  lemma RunCountsInstances<P, C>(p: Provider<P, C>, steps: seq<Step<P, C>>)
    requires Valid(p)
    ensures Run(p, steps).Success? ==> |Run(p, steps).value.methods| == |Ids(p.methods) + Offered(steps)|
  {
    if Run(p, steps).Success? {
      RunRegistersOffered(p, steps);
      UniqueIdsCount(Run(p, steps).value.methods);
    }
  }

  /** A provider built from nothing holds one method per distinct instance
      registered, however often an instance was offered. */
  lemma FreshProviderCountsInstances<P, C>(parent: P, steps: seq<Step<P, C>>)
    ensures var r := Run(New<P, C>(Some(parent)).value, steps);
            r.Success? ==> |r.value.methods| == |Offered(steps)|
  {
    var p := New<P, C>(Some(parent)).value;
    RunCountsInstances(p, steps);
    assert Ids(p.methods) == {};
  }
}
