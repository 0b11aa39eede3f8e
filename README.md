# Validation provider failover tracker, modelled in Dafny

This project models `ValidationProviderServiceTracker` from the OSGi integration of the
Bean Validation API. The tracker watches `ValidationProvider` services as they come and go.
It publishes a `ValidatorFactory` service, built from a provider it tracks, and rebuilds that
factory when providers are removed. Its state has three parts:

- `validationProviders`: an `ArrayList` of providers, in arrival order.
- `currentProvider`: the provider the published factory was built from.
- `factoryRegistration`: the handle of the published factory service.

Two synchronized callbacks change that state: `addingService` and `removedService`. Both
use the private `registerFactory`.

The model has four modules:

- `ProviderLists` (`provider_lists.dfy`): the list operations. `add` appends and keeps
  duplicates. `remove(Object)` is `RemoveFirst`: it drops the first equal element only, and
  leaves the list unchanged when there is none.
- `TrackerModel` (`tracker_model.dfy`): the state machine as functions on a `State` value,
  with lemmas for each property and for concrete call sequences.
- `ProviderServiceTracker` (`tracker.dfy`): the tracker as a class. Its fields are updated in
  place by methods that are proved to move the object exactly as the `TrackerModel` functions
  move a state value.
- `CorrectedTracker` (`corrected.dfy`): the registration leak described under Findings, and a
  corrected removal proved to keep one published factory at most.

How the model represents the outside world:

- Providers are opaque tokens: the type parameter `P`, compared with Dafny's `==`. In Java,
  `ArrayList.remove` at line 70 compares with `equals()`, while `==` at line 72 compares
  references. The model uses one equality for both, which is right when providers keep the
  identity `equals` of `Object`.
- The service registry is a counter `nextId` that hands out fresh registration ids, as OSGi
  service ids increase. A set `live` holds the registrations published and not yet
  unregistered. In the class, `live` is a ghost field.
- Whether `Validation.byProvider(...)...buildValidatorFactory()` succeeds is a `bool`
  parameter of each entry point. A throwing build is the outcome `Threw(BuildFailure)`.
- `factoryRegistration.unregister()` on a null field (line 73) is the outcome
  `Threw(NullPointer)`. It happens when the removed provider is still `currentProvider` but no
  registration is held, for example after a failed build.

The code does more than its class comment (lines 32-37) says:

- A provider added twice is listed twice.
- Every removal that leaves the list non-empty rebuilds from the list's first element, also
  when the removed provider was not the current one.
- `currentProvider` keeps the removed provider after the last provider leaves.
- A build failure propagates out of the callback after `currentProvider` was reassigned.

## Model

| member | source | states |
|---|---|---|
| ProviderLists.IndexOf | src/main/java/javax/validation/osgi/ValidationProviderServiceTracker.java:70 | the position `remove` deletes: it holds the element, and no earlier position does |
| ProviderLists.RemoveFirst | src/main/java/javax/validation/osgi/ValidationProviderServiceTracker.java:70 | `remove` of an absent provider leaves the list unchanged; otherwise the result is the list with exactly its first occurrence cut out, the others in order |
| ProviderLists.RemoveFirstMultiset | src/main/java/javax/validation/osgi/ValidationProviderServiceTracker.java:70 | removal takes away exactly one copy of the provider when there is one; the length drops by one exactly when it was listed |
| ProviderLists.RemoveFirstKeepsOthers | src/main/java/javax/validation/osgi/ValidationProviderServiceTracker.java:70 | a provider other than the removed one is listed after the removal exactly when it was listed before |
| ProviderLists.RemoveFirstEmpty | src/main/java/javax/validation/osgi/ValidationProviderServiceTracker.java:70-77 | the list is empty after a removal exactly when it was empty or held only the removed provider |
| TrackerModel.Initial | src/main/java/javax/validation/osgi/ValidationProviderServiceTracker.java:43-51 | a new tracker has an empty list, no current provider, no registration, and nothing published |
| TrackerModel.RegisterFactory | src/main/java/javax/validation/osgi/ValidationProviderServiceTracker.java:89-102 | the list is untouched and the provider becomes current; a failed build changes nothing else and throws; a successful one holds a new registration that was not live before and is live now |
| TrackerModel.AddingService | src/main/java/javax/validation/osgi/ValidationProviderServiceTracker.java:54-64 | the provider is appended, duplicates included; with a registration held nothing else changes; without one, the provider becomes current |
| TrackerModel.Rebuild | src/main/java/javax/validation/osgi/ValidationProviderServiceTracker.java:77-79 | an empty list is left as it is; a non-empty one keeps its contents and its first element becomes current; with a successful build a fresh registration is added to the published ones and none is withdrawn |
| TrackerModel.RemovedService | src/main/java/javax/validation/osgi/ValidationProviderServiceTracker.java:67-82 | the list loses the provider's first occurrence; the call throws a NullPointerException exactly when the provider is current and no registration is held; otherwise a non-empty list ends with its first element current, and with a successful build also with a registration |
| TrackerModel.AddWhenUnregistered | src/main/java/javax/validation/osgi/ValidationProviderServiceTracker.java:59-101 | with no registration held, the added provider becomes current; a successful build publishes a fresh registration; a failed one throws and publishes nothing |
| TrackerModel.RemoveDeletesFirst | src/main/java/javax/validation/osgi/ValidationProviderServiceTracker.java:70 | on every path, exceptional ones included, the list afterwards is the old list without its first occurrence of the provider, or is unchanged when the provider was absent |
| TrackerModel.RemoveCurrentUnregisters | src/main/java/javax/validation/osgi/ValidationProviderServiceTracker.java:72-79 | removing the current provider unpublishes its registration and no longer holds it; if the list becomes empty, no registration remains and `currentProvider` still names the removed provider |
| TrackerModel.RemoveRebuildsFromFirst | src/main/java/javax/validation/osgi/ValidationProviderServiceTracker.java:77-101 | a removal leaving the list non-empty makes its first element current with a fresh registration; when the removed provider was current, the published set is the old one without its registration plus the new one; when it was not, the previously held registration stays published but is no longer held |
| TrackerModel.RemoveListedNoNullPointer | src/main/java/javax/validation/osgi/ValidationProviderServiceTracker.java:72-74 | under the invariant, removing a listed provider never throws at the unregister call |
| TrackerModel.RegisterFactoryKeepsRegistry | src/main/java/javax/validation/osgi/ValidationProviderServiceTracker.java:89-102 | registering keeps ids fresh and the held registration published, whether or not the build throws |
| TrackerModel.RegistryOkPreserved | src/main/java/javax/validation/osgi/ValidationProviderServiceTracker.java:54-82 | both entry points keep the held registration published and the issued ids below the counter, even when the build throws |
| TrackerModel.AddPreservesInvariant | src/main/java/javax/validation/osgi/ValidationProviderServiceTracker.java:54-64 | with a successful build, adding keeps the invariant: a registration is held exactly when the list is non-empty, and then the current provider is listed |
| TrackerModel.RemovePreservesInvariant | src/main/java/javax/validation/osgi/ValidationProviderServiceTracker.java:67-82 | with a successful build, removing keeps the same invariant |
| TrackerModel.RunKeepsInvariant | src/main/java/javax/validation/osgi/ValidationProviderServiceTracker.java:54-82 | every sequence of serialized add and remove calls with successful builds keeps the invariant |
| TrackerModel.ReachableInvariant | src/main/java/javax/validation/osgi/ValidationProviderServiceTracker.java:43-82 | every state reached from a new tracker by calls with successful builds satisfies the invariant |
| TrackerModel.BuildFailureAfterAssignment | src/main/java/javax/validation/osgi/ValidationProviderServiceTracker.java:89-101 | when the build throws, `currentProvider` has already changed to the new provider while the registration and the published set have not |
| TrackerModel.FailedFirstBuildThenRemove | src/main/java/javax/validation/osgi/ValidationProviderServiceTracker.java:56-73 | after a failed first build the provider is listed and current with no registration, and removing it then throws at the unregister call |
| TrackerModel.FailoverToNextProvider | src/main/java/javax/validation/osgi/ValidationProviderServiceTracker.java:54-101 | after adding p1 and p2 the factory stays p1's; removing p1 withdraws it, p2 becomes current with a new registration, and only that one is published |
| TrackerModel.LastProviderLeaves | src/main/java/javax/validation/osgi/ValidationProviderServiceTracker.java:54-101 | removing the only provider leaves nothing published while `currentProvider` keeps it; a later arrival publishes again |
| TrackerModel.DuplicateProvider | src/main/java/javax/validation/osgi/ValidationProviderServiceTracker.java:54-101 | a provider added twice is listed twice, and one removal drops one copy and republishes from the remaining copy |
| TrackerModel.RemoveNonCurrentLeaks | src/main/java/javax/validation/osgi/ValidationProviderServiceTracker.java:77-101 | after adding p1 and p2, removing p2 registers p1's factory again, so two registrations are published |
| ProviderServiceTracker.Tracker.constructor | src/main/java/javax/validation/osgi/ValidationProviderServiceTracker.java:43-51 | the new object is the initial state |
| ProviderServiceTracker.Tracker.ValidationProviders | src/main/java/javax/validation/osgi/ValidationProviderServiceTracker.java:104-109 | the resolver returns the tracker's current list |
| ProviderServiceTracker.Tracker.RegisterFactory | src/main/java/javax/validation/osgi/ValidationProviderServiceTracker.java:89-102 | the fields and the outcome become those of `TrackerModel.RegisterFactory` applied to the old fields |
| ProviderServiceTracker.Tracker.AddingService | src/main/java/javax/validation/osgi/ValidationProviderServiceTracker.java:54-64 | the fields and outcome follow `TrackerModel.AddingService`; the list grows by the provider; a held registration and the current provider stay; the registry condition and, with a successful build, the invariant are kept |
| ProviderServiceTracker.Tracker.RemovedService | src/main/java/javax/validation/osgi/ValidationProviderServiceTracker.java:67-82 | the fields and outcome follow `TrackerModel.RemovedService`; the list loses the first occurrence; a null-pointer exception exactly when current with no registration; a non-empty list ends with its first element current; the invariant is kept |
| CorrectedTracker.NoLeakAtMostOne | src/main/java/javax/validation/osgi/ValidationProviderServiceTracker.java:32-37 | when exactly the held registration is published, at most one factory is published |
| CorrectedTracker.AsWrittenLeaks | src/main/java/javax/validation/osgi/ValidationProviderServiceTracker.java:67-101 | as written, in every state with one published factory, removing a non-current provider with others left publishes a second factory |
| CorrectedTracker.RemovedServiceCorrected | src/main/java/javax/validation/osgi/ValidationProviderServiceTracker.java:67-82 | the corrected removal changes only the list when the removed provider is not current, and throws a null-pointer exception in the same cases as the original |
| CorrectedTracker.CorrectedFailsOver | src/main/java/javax/validation/osgi/ValidationProviderServiceTracker.java:72-79 | the corrected removal of the current provider still fails over to the first remaining provider; only the new registration replaces the withdrawn one |
| CorrectedTracker.AddKeepsNoLeak | src/main/java/javax/validation/osgi/ValidationProviderServiceTracker.java:54-64 | adding publishes a factory only when none is held, so it never leaks |
| CorrectedTracker.CorrectedKeepsInvariant | src/main/java/javax/validation/osgi/ValidationProviderServiceTracker.java:67-82 | the corrected removal keeps exactly the held registration published and keeps the invariant |
| CorrectedTracker.RunCorrectedNoLeak | src/main/java/javax/validation/osgi/ValidationProviderServiceTracker.java:32-82 | every sequence of calls to the corrected tracker with successful builds keeps at most one factory published and keeps the invariant |
| CorrectedTracker.CorrectedRemoveNonCurrent | src/main/java/javax/validation/osgi/ValidationProviderServiceTracker.java:67-82 | on the sequence that leaks as written, the corrected tracker keeps p1's original registration as the only published one |

## Findings

| source | as written | input that shows it | evidently intended | confidence | as-written member | corrected member |
|---|---|---|---|---|---|---|
| src/main/java/javax/validation/osgi/ValidationProviderServiceTracker.java:77-79 | after every removal that leaves the list non-empty, a factory is built and registered for the first provider, overwriting `factoryRegistration` without unregistering it | add p1, add p2, remove p2: the factory for p1 is published twice, and the tracker never unregisters the first registration | rebuild only when the removed provider was the current one, as the class comment says | medium, not executed | CorrectedTracker.AsWrittenLeaks | CorrectedTracker.RunCorrectedNoLeak |

The class `ProviderServiceTracker.Tracker` follows the code as written, because that is what
the repository does. The corrected removal is a separate function, used by
`CorrectedTracker.RunCorrected`.

## Left out

- OSGi plumbing: `context.getService`, `context.registerService`, `ServiceRegistration.unregister` and `super.removedService` are framework calls. They are modelled as taking a provider token, handing out a fresh id from `nextId`, and removing an id from `live`.
- The provider bootstrap `Validation.byProvider(...).providerResolver(...).configure().buildValidatorFactory()` and the unchecked cast in `getClass` are foreign calls. Their success or failure is a parameter; what the factory contains is not modelled.
- `registerService` and `unregister` are assumed not to throw. Only the build fails in the model, and `unregister` of a live registration is the only case that arises.
- Providers are assumed to keep the `equals` of `Object` (identity), so that `remove` at line 70 and the `==` at line 72 agree. A provider class that overrides `equals` could make `remove` drop a different, equal provider; the model does not capture that case.
- `synchronized` locking is not modelled. The entry points are serialized method calls.
- The resolver's aliasing is not modelled. It hands out the live mutable list; the model returns the list's current value.
- The value `addingService` returns (the provider itself, used by the service tracker) is not modelled separately. On a normal return it is always the provider that was passed in.
- Nothing of `ConstraintValidatorContext`, `ValidatorContext`, `ParameterNameProvider` or `ParameterDescriptor` is modelled. They are interfaces without executable logic.
- The OSGi `Activator` is not modelled: its `start` and `stop` bodies are commented out.
- `BinaryCompatabilityTest` is not modelled. It exercises a validator implementation that is not part of this model.
