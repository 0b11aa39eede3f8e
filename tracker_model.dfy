/**
 * The provider-failover state machine of ValidationProviderServiceTracker as
 * functions on a state value. A provider is an opaque token compared by
 * identity (the type parameter P). A factory registration is a number handed
 * out by the service registry from an increasing counter, as OSGi does with
 * service ids; `live` is the set of registrations made and not yet withdrawn.
 * Building the validator factory from a provider is an external step that may
 * throw; each entry point takes its result as `buildSucceeds`.
 */
module TrackerModel {
  import opened ProviderLists

  datatype Option<T> = None | Some(value: T)

  /** What can escape an entry point: the build's exception, or the
      NullPointerException of `factoryRegistration.unregister()` on a null field. */
  datatype Failure = BuildFailure | NullPointer

  datatype Outcome = Returned | Threw(failure: Failure)

  datatype State<P> = State(
    providers: seq<P>,         // validationProviders
    current: Option<P>,        // currentProvider (None is Java's initial null)
    registration: Option<nat>, // factoryRegistration (None is null)
    live: set<nat>,            // registrations the registry still publishes
    nextId: nat                // the registry's next registration id
  )

  datatype Step<P> = Step(post: State<P>, outcome: Outcome)

  /** A fresh tracker: nothing tracked, nothing published. */
  function Initial<P>(): (s: State<P>)
    ensures s.providers == [] && s.current == None && s.registration == None && s.live == {}
  {
    State([], None, None, {}, 0)
  }

  /** The registry hands out fresh ids and the tracker holds a live one, if any. */
  predicate RegistryOk<P>(s: State<P>) {
    (forall id | id in s.live :: id < s.nextId) &&
    (s.registration.Some? ==> s.registration.value in s.live)
  }

  /** A registration is held exactly when the list is non-empty, and then it is
      backed by a provider of the list. */
  predicate Published<P(==)>(s: State<P>) {
    (s.registration.Some? <==> s.providers != []) &&
    (s.registration.Some? ==> s.current.Some? && s.current.value in s.providers)
  }

  predicate Invariant<P(==)>(s: State<P>) {
    RegistryOk(s) && Published(s)
  }

  /** registerFactory: currentProvider is assigned first; then the factory is
      built and, if that succeeded, registered under a new id that replaces
      whatever factoryRegistration held (without unregistering it). */
  function RegisterFactory<P>(s: State<P>, p: P, buildSucceeds: bool): (r: Step<P>)
    ensures r.post.providers == s.providers && r.post.current == Some(p)
    ensures !buildSucceeds ==> r == Step(s.(current := Some(p)), Threw(BuildFailure))
    ensures buildSucceeds ==> r.outcome == Returned && r.post.registration.Some?
    ensures buildSucceeds && RegistryOk(s) ==>
              r.post.registration.value !in s.live && r.post.live == s.live + {r.post.registration.value}
  {
    var s1 := s.(current := Some(p));
    if !buildSucceeds then Step(s1, Threw(BuildFailure))
    else Step(s1.(registration := Some(s.nextId), live := s.live + {s.nextId}, nextId := s.nextId + 1), Returned)
  }

  /** addingService: append the provider, and register a factory for it when
      no registration is held. */
  function AddingService<P(==)>(s: State<P>, p: P, buildSucceeds: bool): (r: Step<P>)
    ensures r.post.providers == s.providers + [p]
    ensures s.registration.Some? ==> r == Step(s.(providers := s.providers + [p]), Returned)
    ensures s.registration.None? ==> r.post.current == Some(p)
  {
    var s1 := s.(providers := s.providers + [p]);
    if s1.registration.None? then RegisterFactory(s1, p, buildSucceeds)
    else Step(s1, Returned)
  }

  /** The rebuild at the end of removedService: whenever the list is non-empty,
      register a factory for its first element. */
  function Rebuild<P>(s: State<P>, buildSucceeds: bool): (r: Step<P>)
    ensures s.providers == [] ==> r == Step(s, Returned)
    ensures s.providers != [] ==> r.post.providers == s.providers && r.post.current == Some(s.providers[0])
    ensures s.providers != [] && buildSucceeds && RegistryOk(s) ==>
              r.outcome == Returned && r.post.registration.Some? &&
              r.post.registration.value !in s.live && r.post.live == s.live + {r.post.registration.value}
  {
    if s.providers != [] then RegisterFactory(s, s.providers[0], buildSucceeds)
    else Step(s, Returned)
  }

  /** removedService: remove the first occurrence of the provider; if it was
      the current one, unregister the held registration and clear it; then rebuild. */
  function RemovedService<P(==)>(s: State<P>, p: P, buildSucceeds: bool): (r: Step<P>)
    ensures r.post.providers == RemoveFirst(s.providers, p)
    ensures r.outcome == Threw(NullPointer) <==> s.current == Some(p) && s.registration.None?
    ensures r.outcome != Threw(NullPointer) && r.post.providers != [] ==>
              r.post.current == Some(r.post.providers[0]) &&
              (buildSucceeds ==> r.outcome == Returned && r.post.registration.Some?)
  {
    var s1 := s.(providers := RemoveFirst(s.providers, p));
    if s1.current == Some(p) then
      if s1.registration.None? then Step(s1, Threw(NullPointer))
      else Rebuild(s1.(registration := None, live := s1.live - {s1.registration.value}), buildSucceeds)
    else Rebuild(s1, buildSucceeds)
  }

  // ---------------------------------------------------------------------------
  // addingService


  /** With no registration held, the new provider becomes current and, when the
      build succeeds, gets a fresh live registration. */
  lemma AddWhenUnregistered<P>(s: State<P>, p: P, buildSucceeds: bool)
    requires RegistryOk(s) && s.registration.None?
    ensures var r := AddingService(s, p, buildSucceeds);
      r.post.current == Some(p) &&
      (buildSucceeds ==> r.outcome == Returned && r.post.registration.Some? &&
                         r.post.registration.value !in s.live &&
                         r.post.live == s.live + {r.post.registration.value}) &&
      (!buildSucceeds ==> r.outcome == Threw(BuildFailure) && r.post.registration == None &&
                          r.post.live == s.live)
  {
  }


  // ---------------------------------------------------------------------------
  // removedService

  /** The first occurrence of the provider leaves the list, order kept; an
      absent provider leaves the list as it was. This holds on every path,
      the exceptional ones included. */
  lemma RemoveDeletesFirst<P>(s: State<P>, p: P, buildSucceeds: bool)
    ensures var after := RemovedService(s, p, buildSucceeds).post.providers;
      (p !in s.providers ==> after == s.providers) &&
      (p in s.providers ==>
         var i := IndexOf(s.providers, p);
         p !in s.providers[..i] && after == s.providers[..i] + s.providers[i + 1..])
  {
  }

  /** Removing the current provider withdraws its registration before any
      replacement is made; when the list is then empty nothing is held, yet
      currentProvider still names the removed provider. */
  lemma RemoveCurrentUnregisters<P>(s: State<P>, p: P, buildSucceeds: bool)
    requires RegistryOk(s) && s.current == Some(p) && s.registration.Some?
    ensures var r := RemovedService(s, p, buildSucceeds);
      s.registration.value !in r.post.live && r.post.registration != s.registration &&
      (RemoveFirst(s.providers, p) == [] ==>
         r == Step(s.(providers := [], registration := None, live := s.live - {s.registration.value}), Returned))
  {
  }

  /** A removal that leaves the list non-empty always rebuilds from its first
      element. When the removed provider was current, its registration is
      replaced by the new one; when it was not, the registration held before is
      dropped from the field while it stays live. */
  lemma RemoveRebuildsFromFirst<P>(s: State<P>, p: P)
    requires RegistryOk(s) && RemoveFirst(s.providers, p) != []
    requires s.current == Some(p) ==> s.registration.Some?
    ensures var r := RemovedService(s, p, true);
      r.outcome == Returned &&
      r.post.current == Some(RemoveFirst(s.providers, p)[0]) &&
      r.post.registration.Some? && r.post.registration.value !in s.live &&
      (s.current != Some(p) ==> r.post.live == s.live + {r.post.registration.value}) &&
      (s.current == Some(p) ==>
         r.post.live == (s.live - {s.registration.value}) + {r.post.registration.value}) &&
      (s.current != Some(p) && s.registration.Some? ==>
         s.registration.value in r.post.live && r.post.registration != s.registration)
  {
  }

  /** Under the invariant, a removal of a listed provider never reaches the
      NullPointerException at the unregister call. */
  lemma RemoveListedNoNullPointer<P>(s: State<P>, p: P, buildSucceeds: bool)
    requires Invariant(s) && p in s.providers
    ensures RemovedService(s, p, buildSucceeds).outcome != Threw(NullPointer)
  {
  }


  // ---------------------------------------------------------------------------
  // The invariant

  /** registerFactory keeps the registry well-formed whether or not the build throws. */
  lemma RegisterFactoryKeepsRegistry<P>(s: State<P>, p: P, buildSucceeds: bool)
    requires RegistryOk(s)
    ensures RegistryOk(RegisterFactory(s, p, buildSucceeds).post)
  {
    var t := RegisterFactory(s, p, buildSucceeds).post;
    if buildSucceeds {
      forall id | id in t.live ensures id < t.nextId {
        assert id in s.live || id == s.nextId;
      }
    }
  }

  /** Both entry points keep the registry well-formed, even when the build throws. */
  lemma RegistryOkPreserved<P>(s: State<P>, p: P, buildSucceeds: bool)
    requires RegistryOk(s)
    ensures RegistryOk(AddingService(s, p, buildSucceeds).post)
    ensures RegistryOk(RemovedService(s, p, buildSucceeds).post)
  {
    var s1 := s.(providers := s.providers + [p]);
    if s1.registration.None? { RegisterFactoryKeepsRegistry(s1, p, buildSucceeds); }
    var s2 := s.(providers := RemoveFirst(s.providers, p));
    var s3 := if s2.current == Some(p) && s2.registration.Some?
              then s2.(registration := None, live := s2.live - {s2.registration.value})
              else s2;
    assert RegistryOk(s3);
    if s3.providers != [] { RegisterFactoryKeepsRegistry(s3, s3.providers[0], buildSucceeds); }
  }

  /** When builds succeed, both entry points keep the invariant: a registration
      is held exactly when the list is non-empty, and its provider is listed. */
  lemma AddPreservesInvariant<P>(s: State<P>, p: P)
    requires Invariant(s)
    ensures Invariant(AddingService(s, p, true).post)
  {
  }

  lemma RemovePreservesInvariant<P>(s: State<P>, p: P)
    requires Invariant(s)
    ensures Invariant(RemovedService(s, p, true).post)
  {
  }

  /** A notification from the service tracker; each is one serialized call. */
  datatype Event<P> = Arrive(provider: P) | Depart(provider: P)

  /** The state after a sequence of notifications whose factory builds all succeed. */
  function Run<P(==)>(s: State<P>, events: seq<Event<P>>): State<P>
    decreases |events|
  {
    if events == [] then s
    else
      var next := match events[0]
        case Arrive(p) => AddingService(s, p, true).post
        case Depart(p) => RemovedService(s, p, true).post;
      Run(next, events[1..])
  }

  /** From a fresh tracker, every sequence of notifications with successful
      builds ends in a state that satisfies the invariant. */
  lemma {:induction false} RunKeepsInvariant<P>(s: State<P>, events: seq<Event<P>>)
    requires Invariant(s)
    ensures Invariant(Run(s, events))
    decreases |events|
  {
    if events != [] {
      match events[0]
      case Arrive(p) =>
        AddPreservesInvariant(s, p);
        RunKeepsInvariant(AddingService(s, p, true).post, events[1..]);
      case Depart(p) =>
        RemovePreservesInvariant(s, p);
        RunKeepsInvariant(RemovedService(s, p, true).post, events[1..]);
    }
  }

  lemma ReachableInvariant<P>(events: seq<Event<P>>)
    ensures Invariant(Run(Initial<P>(), events))
  {
    RunKeepsInvariant(Initial<P>(), events);
  }

  // ---------------------------------------------------------------------------
  // A build that throws

  /** registerFactory assigns currentProvider before building: when the build
      throws, the current provider has changed and the registration has not. */
  lemma BuildFailureAfterAssignment<P>(s: State<P>, p: P)
    ensures var r := RegisterFactory(s, p, false);
      r.outcome == Threw(BuildFailure) && r.post.current == Some(p) &&
      r.post.registration == s.registration && r.post.live == s.live
  {
  }

  /** A failed build on the first arrival leaves the provider listed and
      current with no registration, so its later removal throws at the
      unregister call. */
  lemma FailedFirstBuildThenRemove(p: int)
    ensures var s1 := AddingService(Initial<int>(), p, false);
      s1.outcome == Threw(BuildFailure) &&
      s1.post.providers == [p] && s1.post.current == Some(p) && s1.post.registration == None &&
      RemovedService(s1.post, p, true).outcome == Threw(NullPointer)
  {
  }

  // ---------------------------------------------------------------------------
  // Scenarios

  /** Two arrivals keep the first provider's factory; removing the first
      provider withdraws it and publishes a new one for the second. */
  lemma FailoverToNextProvider(p1: int, p2: int)
    requires p1 != p2
    ensures var s1 := AddingService(Initial<int>(), p1, true).post;
      var s2 := AddingService(s1, p2, true).post;
      var s3 := RemovedService(s2, p1, true).post;
      s2.providers == [p1, p2] && s2.current == Some(p1) && s2.registration == Some(0) &&
      s3.providers == [p2] && s3.current == Some(p2) && s3.registration == Some(1) && s3.live == {1}
  {
  }

  /** Removing the last provider withdraws the factory but keeps it as
      currentProvider; a later arrival publishes again. */
  lemma LastProviderLeaves(p1: int, p2: int)
    ensures var s1 := AddingService(Initial<int>(), p1, true).post;
      var s2 := RemovedService(s1, p1, true).post;
      var s3 := AddingService(s2, p2, true).post;
      s2.providers == [] && s2.registration == None && s2.live == {} && s2.current == Some(p1) &&
      s3.providers == [p2] && s3.current == Some(p2) && s3.registration == Some(1) && s3.live == {1}
  {
  }

  /** A provider added twice is listed twice; each removal drops one copy. */
  lemma DuplicateProvider(p: int)
    ensures var s1 := AddingService(Initial<int>(), p, true).post;
      var s2 := AddingService(s1, p, true).post;
      var s3 := RemovedService(s2, p, true).post;
      s2.providers == [p, p] && s2.registration == Some(0) &&
      s3.providers == [p] && s3.current == Some(p) && s3.registration == Some(1) && s3.live == {1}
  {
  }

  /** Removing a provider that is not current still rebuilds: the first
      provider's factory is registered a second time and the first registration
      is never withdrawn, so two factories are published. */
  lemma RemoveNonCurrentLeaks(p1: int, p2: int)
    requires p1 != p2
    ensures var s1 := AddingService(Initial<int>(), p1, true).post;
      var s2 := AddingService(s1, p2, true).post;
      var s3 := RemovedService(s2, p2, true).post;
      s3.providers == [p1] && s3.current == Some(p1) && s3.registration == Some(1) &&
      s3.live == {0, 1}
  {
  }
}
