/**
 * ValidationProviderServiceTracker as an object: its three fields are updated
 * in place by the two synchronized entry points, modelled as serialized method
 * calls. The service registry the tracker talks to is represented by the id
 * counter `nextId` and the ghost set `live` of registrations still published.
 * Every method is proved to move the object exactly as the functions of
 * TrackerModel move a state value, so the lemmas proved there apply to it.
 */
module ProviderServiceTracker {
  import opened ProviderLists
  import opened TrackerModel

  class Tracker<P(==)> {
    var providers: seq<P>           // validationProviders
    var current: Option<P>          // currentProvider
    var registration: Option<nat>   // factoryRegistration
    var nextId: nat                 // next id the registry hands out
    ghost var live: set<nat>        // registrations made and not yet unregistered

    /** The object's fields as a state value of the functional model. */
    ghost function Snapshot(): State<P>
      reads this
    {
      State(providers, current, registration, live, nextId)
    }

    constructor ()
      ensures Snapshot() == Initial()
    {
      providers, current, registration, nextId := [], None, None, 0;
      live := {};
    }

    /** The list the provider resolver hands to the factory build. */
    method ValidationProviders() returns (r: seq<P>)
      ensures r == providers
    {
      r := providers;
    }

    /** registerFactory: assign currentProvider, build, register the new factory. */
    method RegisterFactory(p: P, buildSucceeds: bool) returns (outcome: Outcome)
      modifies this
      ensures Step(Snapshot(), outcome) == TrackerModel.RegisterFactory(old(Snapshot()), p, buildSucceeds)
    {
      current := Some(p);
      if !buildSucceeds {
        return Threw(BuildFailure);
      }
      registration := Some(nextId);
      live := live + {nextId};
      nextId := nextId + 1;
      outcome := Returned;
    }

    /** addingService: append the provider; register a factory when none is registered. */
    method AddingService(p: P, buildSucceeds: bool) returns (outcome: Outcome)
      modifies this
      ensures Step(Snapshot(), outcome) == TrackerModel.AddingService(old(Snapshot()), p, buildSucceeds)
      ensures providers == old(providers) + [p]
      ensures old(registration).Some? ==>
                current == old(current) && registration == old(registration) && outcome == Returned
      ensures old(registration).None? ==> current == Some(p)
      ensures old(RegistryOk(Snapshot())) ==> RegistryOk(Snapshot())
      ensures old(Invariant(Snapshot())) && buildSucceeds ==> Invariant(Snapshot())
    {
      ghost var before := Snapshot();
      if RegistryOk(before) { RegistryOkPreserved(before, p, buildSucceeds); }
      if Invariant(before) && buildSucceeds { AddPreservesInvariant(before, p); }
      providers := providers + [p];
      if registration.None? {
        outcome := RegisterFactory(p, buildSucceeds);
      } else {
        outcome := Returned;
      }
    }

    /** removedService: remove the first occurrence; on the current provider
        unregister and clear the registration; rebuild whenever the list is non-empty. */
    method RemovedService(p: P, buildSucceeds: bool) returns (outcome: Outcome)
      modifies this
      ensures Step(Snapshot(), outcome) == TrackerModel.RemovedService(old(Snapshot()), p, buildSucceeds)
      ensures providers == RemoveFirst(old(providers), p)
      ensures outcome == Threw(NullPointer) <==> old(current) == Some(p) && old(registration).None?
      ensures outcome != Threw(NullPointer) && providers != [] ==> current == Some(providers[0])
      ensures old(RegistryOk(Snapshot())) ==> RegistryOk(Snapshot())
      ensures old(Invariant(Snapshot())) && buildSucceeds ==> Invariant(Snapshot())
    {
      ghost var before := Snapshot();
      if RegistryOk(before) { RegistryOkPreserved(before, p, buildSucceeds); }
      if Invariant(before) && buildSucceeds { RemovePreservesInvariant(before, p); }
      providers := RemoveFirst(providers, p);
      if current == Some(p) {
        if registration.None? {
          return Threw(NullPointer);
        }
        live := live - {registration.value};
        registration := None;
      }
      if providers != [] {
        outcome := RegisterFactory(providers[0], buildSucceeds);
      } else {
        outcome := Returned;
      }
    }
  }
}
