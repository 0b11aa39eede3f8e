/**
 * removedService rebuilds the factory after every removal that leaves the
 * list non-empty, also when the removed provider was not the current one; the
 * registration held until then is overwritten without being unregistered, so
 * the registry keeps publishing it. The class comment of the tracker says the
 * next provider is used when the provider of the current factory goes away.
 * This module states the leak for all states and proves that a removal which
 * rebuilds only after withdrawing the current factory keeps at most one
 * registration published.
 */
module CorrectedTracker {
  import opened ProviderLists
  import opened TrackerModel

  /** Exactly the held registration, if any, is published. */
  predicate NoLeak<P>(s: State<P>) {
    s.live == if s.registration.Some? then {s.registration.value} else {}
  }

  lemma NoLeakAtMostOne<P>(s: State<P>)
    requires NoLeak(s)
    ensures |s.live| <= 1
  {
  }

  /** As written: removing a provider that is not current from a list that
      keeps other providers adds a second published registration. */
  lemma AsWrittenLeaks<P>(s: State<P>, p: P)
    requires Invariant(s) && NoLeak(s)
    requires s.current != Some(p) && RemoveFirst(s.providers, p) != []
    ensures var t := RemovedService(s, p, true).post;
      !NoLeak(t) && |t.live| == 2
  {
  }

  /** removedService as intended: withdraw the factory and rebuild only when
      the removed provider was the current one. */
  function RemovedServiceCorrected<P(==)>(s: State<P>, p: P, buildSucceeds: bool): (r: Step<P>)
    ensures r.post.providers == RemoveFirst(s.providers, p)
    ensures s.current != Some(p) ==> r == Step(s.(providers := RemoveFirst(s.providers, p)), Returned)
    ensures r.outcome == Threw(NullPointer) <==> s.current == Some(p) && s.registration.None?
  {
    var s1 := s.(providers := RemoveFirst(s.providers, p));
    if s1.current == Some(p) then
      if s1.registration.None? then Step(s1, Threw(NullPointer))
      else Rebuild(s1.(registration := None, live := s1.live - {s1.registration.value}), buildSucceeds)
    else Step(s1, Returned)
  }

  /** Removing the current provider still fails over to the first remaining one. */
  lemma CorrectedFailsOver<P>(s: State<P>, p: P)
    requires RegistryOk(s) && s.current == Some(p) && s.registration.Some?
    requires RemoveFirst(s.providers, p) != []
    ensures var r := RemovedServiceCorrected(s, p, true);
      r.outcome == Returned && r.post.current == Some(RemoveFirst(s.providers, p)[0]) &&
      r.post.registration.Some? && r.post.live == {r.post.registration.value} + (s.live - {s.registration.value})
  {
  }

  /** addingService never leaks: it registers only when nothing is held. */
  lemma AddKeepsNoLeak<P>(s: State<P>, p: P, buildSucceeds: bool)
    requires NoLeak(s)
    ensures NoLeak(AddingService(s, p, buildSucceeds).post)
  {
  }

  /** The corrected removal keeps at most one registration published and,
      with a successful build, the invariant of the tracker. */
  lemma CorrectedKeepsInvariant<P>(s: State<P>, p: P)
    requires Invariant(s) && NoLeak(s)
    ensures NoLeak(RemovedServiceCorrected(s, p, true).post)
    ensures Invariant(RemovedServiceCorrected(s, p, true).post)
  {
  }

  /** Notifications driving the corrected tracker, all builds succeeding. */
  function RunCorrected<P(==)>(s: State<P>, events: seq<Event<P>>): State<P>
    decreases |events|
  {
    if events == [] then s
    else
      var next := match events[0]
        case Arrive(p) => AddingService(s, p, true).post
        case Depart(p) => RemovedServiceCorrected(s, p, true).post;
      RunCorrected(next, events[1..])
  }

  /** At every reachable state of the corrected tracker exactly the held
      registration is published, and the invariant holds. */
  lemma {:induction false} RunCorrectedNoLeak<P>(s: State<P>, events: seq<Event<P>>)
    requires Invariant(s) && NoLeak(s)
    ensures Invariant(RunCorrected(s, events)) && NoLeak(RunCorrected(s, events))
    decreases |events|
  {
    if events != [] {
      match events[0]
      case Arrive(p) =>
        AddPreservesInvariant(s, p);
        AddKeepsNoLeak(s, p, true);
        RunCorrectedNoLeak(AddingService(s, p, true).post, events[1..]);
      case Depart(p) =>
        CorrectedKeepsInvariant(s, p);
        RunCorrectedNoLeak(RemovedServiceCorrected(s, p, true).post, events[1..]);
    }
  }

  /** The leaking sequence of the as-written tracker publishes one factory here. */
  lemma CorrectedRemoveNonCurrent(p1: int, p2: int)
    requires p1 != p2
    ensures var s1 := AddingService(Initial<int>(), p1, true).post;
      var s2 := AddingService(s1, p2, true).post;
      var s3 := RemovedServiceCorrected(s2, p2, true).post;
      s3.providers == [p1] && s3.current == Some(p1) && s3.registration == Some(0) && s3.live == {0}
  {
  }
}
