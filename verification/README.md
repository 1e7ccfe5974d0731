# ninja-devx, modelled and proved in Dafny

ninja-devx is a library over Django Ninja. This project models the parts of it that are algorithms or
protocols and proves properties of every input, every interleaving and every run. `dafny verify dfyconfig.toml`
checks everything.

How the files follow the library:

- **Dependency injection** (`src/ninja_devx/dependencies/`). `DependencyGraph` has keys, providers and constructor
  plans; `Resolution` is one resolution as a function; `Checker` is the startup walk and the topological order an
  accepted graph has; `Prediction` connects the two; `Answers` says what each answers and why each refuses, from the
  registrations alone. `Captivity` follows whole runs of registrations, overrides and resolutions, and `AsyncCaptivity`
  runs in which async resolutions are suspended between any two steps; `Provenance` and `AsyncProvenance` account for
  every object of such runs; `Lifetimes` says what the three lifetimes promise; `Container` holds the classes that do
  all this in place and are proved against the functions. `WaitGraph`, `AsyncBuilds` and `SharedBuilds` are the
  single-flight async builds: a state machine of any number of tasks, each section under the container's lock one
  step, and the tables those sections update.
- **Idempotency keys** (`src/ninja_devx/idempotency/`). `Idempotency` has the statements sent to the one row per key
  and what a replay shows; `IdempotencyRuns` interleaves any number of requests and has the classes.
- **Query planning** (`src/ninja_devx/crud/optimization.py`). `QueryPlan` has the planner; `PlanExpansion` says from
  the schemas alone which relations a plan looks up and how a field is rendered; `PlanRendering` has a reference
  rendering from full rows and a rendering from nothing but what a plan loaded; `PlanExactness` says when a plan is
  accepted by the database layer and when it loads what its schema renders; `OrdinarySchemas` has the schemas that are
  always rendered right, and those that are not; `QueryHints` the relations a caller adds; `PlanBuilder` the plan
  object as it is filled; `Ordering` and `RelationCaps` the two ways to keep the first rows of each parent.
- **Streams** (`src/ninja_devx/_internal/streaming.py`): `Stream`.
- **Permissions** (`src/ninja_devx/_permission_eval.py`, and the async file it is generated from): `Permissions`.
- **Response cache** (`src/ninja_devx/http/cache.py`): `ResponseCache`.
- **Bulk writes, imports, write scopes** (`src/ninja_devx/crud/`): `BulkWrites`; **middleware**: `Middleware`;
  **throttling**: `Throttle`; **pagination**: `Pages`; **message catalogs** (`tools/messages.py`): `PoCatalog` and
  `MoCatalog`.

Where a property one would expect is false of the code, the code was kept, a lemma gives an input that shows it, and
another says exactly when the property holds:

- `container.check` does not cover scope values stored under an `Annotated` key without the plain key beside them: an
  optional parameter then looks known, and resolving it is circular or impossible. The promise holds exactly for scopes whose keys
  are closed under unwrapping (`Prediction.ScopeValuesThatKeepThePromise`, `Prediction.BrokenPromise`).
- With a provider registered for `HttpRequest` itself, `container.check` can reject singletons that resolve. It is
  exact in every graph around that provider if and only if the engine cannot use it outside a scope: there is none, it
  is scoped, or it is async and the resolution is not (`Prediction.CheckIsExactExactly`,
  `Prediction.RegisteredRequestIsOverlooked`).
- `instance()` or `override()` of a key that an async task is building is overwritten when the build ends. Single
  flight survives the replacement exactly when the key is idle (`AsyncBuilds.ReplacingIsSafeExactlyWhenIdle`,
  `AsyncBuilds.BuildOverwritesReplacement`).
- A wait edge outlives the build it waits for until the waiter runs again, so a join can be refused although nothing
  would have deadlocked. A refusal is genuine exactly when every edge of the chain is live
  (`AsyncBuilds.RefusalIsGenuineExactlyWhenLive`, `AsyncBuilds.SpuriousRefusal`).
- A resolver's declared relations are recorded unprefixed when its schema is reached through a join. The root query is
  then asked to join a relation of another model and is refused, even when the relation is joined where the resolver
  reads it (`OrdinarySchemas.JoinedHintsAreRefused`).
- A to-many relation that a schema reads twice is looked up twice. That is harmless while both lookups are bare names,
  and refused when the second brings a query of its own, as it does once columns are restricted
  (`OrdinarySchemas.RepeatedRelationsClash`).
- `only` together with caller hints can defer the key a join follows, which the database layer refuses: joining the
  author's team is refused when the author is not rendered, or is rendered through some of its columns, and accepted
  when only its key is (`QueryHints.HintsThroughDeferredKeysAreRefused`). A restricted query runs exactly when every
  join follows keys that are loaded: those that are named, primary keys, keys of relations beyond which something is
  named, and every key of a joined object of which nothing is named (`PlanExactness.PlanRunsExactly`).
- A query plan, hinted or not, runs and renders every object of every store as full rows do if and only if it has none
  of these defects (`PlanExactness.PlanRendersExactlyWhenItServes`).
- The window cap keeps rows without a parent and the correlated subquery drops them; the two are the same query
  exactly when there is no such row or the limit is zero (`RelationCaps.CapsAgreeExactly`). Prefetches cannot tell.
- `invalidate_cache` falls back to the clock when it finds no version. If another invalidation has set one in the
  meantime, that can lower or repeat the version, and stale responses can be served: no stale hits while every fallback
  raises the version, and a stale hit after one that does not (`ResponseCache.NoStaleHits`,
  `ResponseCache.LoweringAllowsStaleHits`, `ResponseCache.LateFallbackIsReachable`).
- An import whose row is rejected with an empty error mapping, or whose error cap is not positive, reports success for
  a part of the file (`BulkWrites.ImportIsAllOrNothing`, `BulkWrites.SilentRejectionCommits`).
- A permission tree that repeats a leaf can be undecided before the object exists although every object would be
  allowed (`Permissions.RepeatedLeafIsOvercautious`); without repetition, undecided means that it can go either way.
- The consumer of a stream can be left waiting for an item that nobody will produce. It is, in a given state, if and
  only if the producer is ending or has been told to, and is not pulling for its demand (`Stream.StrandedExactly`); in
  a given run, if and only if a close found a demand that was not yet taken, a demand was made between a close and the
  producer's end, or the producer ended on its marker while somebody waited (`Stream.SomebodyIsStrandedExactly`).
  `Stream.CloseCanStrandTheConsumer` is such a run; safety is unaffected.
- The page before one reached by hand overlaps it unless a whole page fits before it (`Pages.PreviousMeetsExactly`).
- A catalog with another line break than a newline, or with a NUL, is written to a file that cannot be read back
  (`PoCatalog.SurvivesExactlyWhenClean`).
- A replayed response without a stored content type gets the framework's default one
  (`Idempotency.ReplayShowsTheOriginal`).

Assumptions: factories do not call back into the container; sections under a lock and single cache or database
statements are atomic; digests and tokens do not clash; the version key of the response cache is removed by nobody;
the source of a stream does not swallow cancellation; a throttled hit lands less than a second after its window ends.

## Model

| member | source | states |
|---|---|---|
| DependencyGraph.RoomShrinks | src/ninja_devx/dependencies/engine.py:36-43 | the growing stack of distinct keys bounds every walk, cyclic graphs included |
| Resolution.ResolveBuilds | src/ninja_devx/dependencies/engine.py:61-97 | a key that is neither cached nor refused is built below a longer stack and stored by its lifetime |
| Resolution.Resolve | src/ninja_devx/dependencies/engine.py:55-97 | whatever the outcome, no object already built is lost or replaced, no key still on the stack appears, and without a scope the scope is untouched |
| Resolution.Build | src/ninja_devx/dependencies/engine.py:118-136 | building keeps every object that was there and adds only what it built |
| Resolution.Arguments | src/ninja_devx/dependencies/engine.py:99-116 | collecting arguments keeps every object that was there |
| Checker.CheckDescends | src/ninja_devx/dependencies/engine.py:246-287 | an accepting walk that enters a key found it buildable there and checks all that it needs |
| Checker.AcceptedIsDerived | src/ninja_devx/dependencies/engine.py:246-287 | an accepted key has a topological order of everything it needs, although the walk prunes what it has seen |
| Checker.DerivedIsAccepted | src/ninja_devx/dependencies/engine.py:246-287 | a key with such an order is accepted from any memo of visited keys |
| Checker.ChildIsDeeper | src/ninja_devx/dependencies/engine.py:246-287 | what a key needs comes before it and before every key still being built, at either captivity |
| Checker.DeeperIsFresh | src/ninja_devx/dependencies/engine.py:249-252 | such a key is not on the stack: no circular error |
| Prediction.DerivedResolves | src/ninja_devx/dependencies/engine.py:55-136 | resolving a derived key raises nothing but a factory's own exception, from any objects already built |
| Prediction.CheckedKeyResolves | src/ninja_devx/dependencies/engine.py:246-287 | soundness of container.check for sync and async use, in every request scope with further values |
| Prediction.CheckIsExact | src/ninja_devx/dependencies/engine.py:246-287 | in a fresh request scope a key is accepted if and only if resolving it succeeds, whatever is registered for the request that cannot be used outside a scope |
| Prediction.SingletonsMayNotAskForTheRequest | src/ninja_devx/dependencies/engine.py:254-258 | a singleton whose constructor must be given the request is never accepted, registered or not |
| Prediction.CheckIsExactExactly | src/ninja_devx/dependencies/engine.py:254-287 | the checker is exact in every graph around a provider of the request if and only if there is none, it is scoped, or it is async and the resolution is not |
| Prediction.RegisteredRequestIsOverlooked | src/ninja_devx/dependencies/engine.py:254-260 | for every other provider of the request, a key that is rejected although it resolves |
| Prediction.ResolvedIsDerived | src/ninja_devx/dependencies/engine.py:55-136 | a successful resolution, with its own caching, yields a topological order of what it used |
| Prediction.ScopeValuesThatKeepThePromise | src/ninja_devx/dependencies/container.py:153-162 | a scope honours every check that passed if and only if its keys are closed under unwrapping |
| Prediction.BrokenPromise | src/ninja_devx/dependencies/container.py:287-288 | for every other scope there is a checked key that does not resolve |
| Answers.UnregisteredIsRefused | src/ninja_devx/dependencies/container.py:264-285 | an unregistered key that is not a plain concrete class is refused as unwirable by resolution and check alike, whatever else is registered |
| Answers.UnregisteredClassIsBuilt | src/ninja_devx/dependencies/engine.py:61-65 | an unregistered concrete class is built from its own constructor, a new transient each time |
| Answers.RegisteredIsBuilt | src/ninja_devx/dependencies/engine.py:67-97 | a registered key is built by what was registered for it and kept where its lifetime says, unless it is kept already, needs a scope or is being built elsewhere |
| Answers.ScopeAnswersFirst | src/ninja_devx/dependencies/engine.py:55-59 | a key that is being built is circular, and an object of the scope is used before any registration |
| Answers.ParametersAreResolvedInOrder | src/ninja_devx/dependencies/engine.py:99-116 | parameters are resolved in order and passed under their names; one with a default keeps it when its key is neither registered nor in the scope; the first failure is the result |
| Answers.OptionalIsItsMember | src/ninja_devx/dependencies/introspection.py:30-36 | an optional parameter is looked up by the one type beside `None`, a parameter without a default by what it says |
| Answers.UnionsAreLookedUpWhole | src/ninja_devx/dependencies/introspection.py:30-36 | a union of more than one type beside `None` is looked up as it is |
| Answers.RefusalIsGenuine | src/ninja_devx/dependencies/engine.py:246-287 | every refusal of the check comes with a chain of parameters from the key asked for to a real fault of the kind it names |
| Captivity.FreeReachesNoScope | src/ninja_devx/dependencies/engine.py:91-95 | freedom, defined by constructor arguments, is exactly reaching no scoped object and no scope value |
| Captivity.ResolveKeepsFree | src/ninja_devx/dependencies/engine.py:80-97 | one resolution, in a scope or not, leaves every singleton free, through transients too |
| Captivity.OperationKeepsFreedom | src/ninja_devx/dependencies/container.py:87-136 | each operation keeps it if and only if no scope-bound object is handed in by the caller |
| Captivity.NoCaptiveDependencies | src/ninja_devx/dependencies/engine.py:80-97 | after any run of registrations, overrides, scopes and whole resolutions no singleton reaches an object of a scope |
| AsyncCaptivity.StepKeepsInv | src/ninja_devx/dependencies/engine.py:140-233 | every step of every suspended async resolution keeps singletons, arguments collected outside scopes and shared results free; an operation does if and only if no scope-bound object is handed in |
| AsyncCaptivity.NoCaptivesWhileSuspended | src/ninja_devx/dependencies/engine.py:140-233 | however async resolutions interleave with each other and with registrations, overrides and scopes, no singleton, no result outside scopes and no argument collected for one reaches an object of a scope |
| Provenance.ResolveIsGenuine | src/ninja_devx/dependencies/engine.py:55-136 | one resolution gives an object of the key asked for: handed in for it, or made by a factory registered for it from arguments of which the same is true, parameter by parameter |
| Provenance.EveryObjectIsAccountedFor | src/ninja_devx/dependencies/container.py:87-136 | after any run that is so of everything kept in the container and its scopes, down to the last argument, and of whatever is resolved then |
| Provenance.OperationsTakeEffect | src/ninja_devx/dependencies/container.py:87-136 | a registration drops what was kept, an instance takes its place, an override remembers both and its end restores them, and resolving adds to the container and its own scope only |
| AsyncProvenance.StepKeepsSane | src/ninja_devx/dependencies/engine.py:140-233 | every step of every suspended resolution, and every operation between two of them, keeps everything accounted for |
| AsyncProvenance.EveryAnswerIsAccountedFor | src/ninja_devx/dependencies/engine.py:140-233 | in every interleaving each async resolution that returns gives an object of the key it asked for, and joined builds share one |
| AsyncProvenance.TasksAreHeldUpByBuildsOnly | src/ninja_devx/dependencies/engine.py:140-233 | in every run a task can take its next step unless it has joined a build that is not settled |
| AsyncProvenance.ParametersAreAskedInOrder | src/ninja_devx/dependencies/engine.py:197-216 | what asking for the next key comes to: the object there is, a join, a build announced first, a build of its own, or a failure |
| AsyncProvenance.CallsMakeTheObject | src/ninja_devx/dependencies/engine.py:217-233 | the call makes the object out of the arguments collected |
| AsyncProvenance.ObjectsAreKeptAndShared | src/ninja_devx/dependencies/engine.py:184-189 | the object becomes the instance and the outcome of the build at once |
| AsyncProvenance.ObjectsAreHandedUp | src/ninja_devx/dependencies/engine.py:193-195 | then the pending entry goes and the object is the next argument of whoever asked, or the answer |
| AsyncProvenance.JoinersShareTheOutcome | src/ninja_devx/dependencies/engine.py:178-183 | who joined a build is given its object, and fails when it failed |
| AsyncProvenance.FailuresEndTheirBuilds | src/ninja_devx/dependencies/engine.py:190-195 | a task that fails settles each of its own builds as failed, and only their pending entries go |
| Lifetimes.ResolveGivesWhatWasAsked | src/ninja_devx/dependencies/engine.py:55-97 | whatever is resolved is an object of the key that was asked for, and every object stays under its own key |
| Lifetimes.ArgumentsFollowThePlan | src/ninja_devx/dependencies/engine.py:99-116 | parameters are given objects of their keys in order, by name and kind; only one with a default and no registration may be left alone |
| Lifetimes.SingletonIsOne | src/ninja_devx/dependencies/engine.py:80-97 | a resolved singleton is the same object in every scope, without another call |
| Lifetimes.ScopedIsOnePerScope | src/ninja_devx/dependencies/engine.py:70-79 | a resolved scoped service is the same object throughout its scope |
| Lifetimes.TransientIsNew | src/ninja_devx/dependencies/engine.py:68-69 | a transient comes from a call of its own, later than everything built before |
| Lifetimes.TwoTransientsDiffer | src/ninja_devx/dependencies/engine.py:68-69 | two resolutions of a transient never give the same object |
| Lifetimes.ResolvedSingletonIsShared | src/ninja_devx/dependencies/engine.py:80-97 | a singleton that was resolved in a run is what any later resolution is given, in every scope, without another call |
| Lifetimes.ResolvedServiceIsShared | src/ninja_devx/dependencies/engine.py:70-79 | a scoped service that was resolved in a run is what any later resolution in its scope is given |
| Lifetimes.SingletonStays | src/ninja_devx/dependencies/container.py:87-136 | between its registrations a singleton stays the one object it is, over whole runs |
| Lifetimes.OverrideIsUndone | src/ninja_devx/dependencies/container.py:114-136 | leaving an override restores provider and instance, whatever happened inside it |
| Container.Container.Register | src/ninja_devx/dependencies/container.py:87-98 | the provider is replaced and the instance dropped, nothing else |
| Container.Container.Instance | src/ninja_devx/dependencies/container.py:100-112 | provider and instance are both the given object |
| Container.Container.EnterOverride | src/ninja_devx/dependencies/container.py:114-126 | the replacement is in place and what it replaced is kept for the end |
| Container.Container.ExitOverride | src/ninja_devx/dependencies/container.py:127-136 | provider and instance are as they were before the override |
| Container.Container.PlanOf | src/ninja_devx/dependencies/container.py:217-262 | the cached plan is the inspected one, and caching it changes no answer |
| Container.Container.Wire | src/ninja_devx/dependencies/container.py:264-285 | exactly plain concrete classes are wired, by themselves, whatever was wired before; everything else is unwirable |
| Container.ResolutionEngine.Resolve | src/ninja_devx/dependencies/engine.py:55-65 | the engine's result and every object it leaves behind are those of the resolution function |
| Container.ResolutionEngine.Provided | src/ninja_devx/dependencies/engine.py:67-97 | the three lifetimes, the cached answers and the refusals |
| Container.ResolutionEngine.Inject | src/ninja_devx/dependencies/engine.py:104-115 | one parameter: left alone when it has a default and is not known, else resolved and appended |
| Container.ResolutionEngine.Arguments | src/ninja_devx/dependencies/engine.py:99-116 | the loop computes the arguments of the specification, or its first error |
| Container.ResolutionEngine.Build | src/ninja_devx/dependencies/engine.py:118-136 | async factories are refused, others called with their arguments |
| Container.DependencyChecker.Check | src/ninja_devx/dependencies/engine.py:246-287 | the walk's verdict and the set it has seen are those of the specification |
| Container.DependencyChecker.CheckPlan | src/ninja_devx/dependencies/engine.py:281-287 | parameters are checked in order until one fails |
| WaitGraph.Waiters.TrackWaiter | src/ninja_devx/dependencies/container.py:194-208 | the walk ends, refuses if and only if the recorded chain leads from the owner to the waiter, and keeps the graph acyclic |
| WaitGraph.Waiters.ReleaseWaiter | src/ninja_devx/dependencies/container.py:210-212 | only the waiter's edge goes |
| WaitGraph.EdgeKeepsAcyclic | src/ninja_devx/dependencies/container.py:204-208 | recording an edge keeps the graph acyclic if and only if the owner does not reach the waiter |
| WaitGraph.ChainEnds | src/ninja_devx/dependencies/container.py:198-207 | in an acyclic graph every chain ends at a task that waits for nobody |
| AsyncBuilds.StepKeepsInv | src/ninja_devx/dependencies/engine.py:162-195 | every section of every task keeps: builds in flight are pending once, waits are recorded, no cycle, each slot filled once |
| AsyncBuilds.EveryRunKeepsInv | src/ninja_devx/dependencies/engine.py:162-195 | so does every interleaving of async and sync builds, registrations, cancellations and closed scopes |
| AsyncBuilds.NoDeadlock | src/ninja_devx/dependencies/engine.py:174-183 | every chain of waiting tasks ends at one that is not waiting, and somebody on it can move |
| AsyncBuilds.OutcomeStays | src/ninja_devx/dependencies/engine.py:184-192 | every joiner of a build gets its one value or its one exception |
| AsyncBuilds.BuilderDecides | src/ninja_devx/dependencies/engine.py:184-192 | the value a builder returns is the outcome and the instance, the error it raises is the outcome and no instance, and no other build is settled |
| AsyncBuilds.JoinersShareTheOutcome | src/ninja_devx/dependencies/engine.py:178-192 | whoever joined a build, however many steps of others come in between, can go on and picks up exactly the error its builder raised or the value it returned |
| AsyncBuilds.EnteringDecides | src/ninja_devx/dependencies/engine.py:167-177 | entering uses the instance, starts the one build, joins it as a waiter on its builder, or is refused when the builder waits for the caller |
| AsyncBuilds.LeavingOnlyStopsWaiting | src/ninja_devx/dependencies/engine.py:178-183 | a waiter that resumes or is cancelled ends its own wait and nothing that is shared |
| AsyncBuilds.PoppingEndsTheInnermost | src/ninja_devx/dependencies/engine.py:193-195 | the pending entry of the innermost build goes, and no other |
| AsyncBuilds.RegistrationsTakeEffect | src/ninja_devx/dependencies/container.py:87-136 | registering drops the object of the root, an object given for it replaces it, and a sync build fills its slot |
| AsyncBuilds.ClosingDropsTheScope | src/ninja_devx/dependencies/scope.py:37-61 | closing a scope drops its objects and no others |
| AsyncBuilds.BuildsGoOn | src/ninja_devx/dependencies/container.py:87-136 | builds in flight and waiters go on whatever is registered, given or closed |
| AsyncBuilds.StepsHappenExactly | src/ninja_devx/dependencies/engine.py:162-195 | when each section of a task can run |
| AsyncBuilds.FailureLeavesNothing | src/ninja_devx/dependencies/engine.py:190-195 | a failed build leaves neither an instance nor a pending entry |
| AsyncBuilds.ReplacingIsSafeExactlyWhenIdle | src/ninja_devx/dependencies/container.py:100-136 | replacing an object keeps single flight if and only if its key is not being built |
| AsyncBuilds.BuildOverwritesReplacement | src/ninja_devx/dependencies/engine.py:186-188 | otherwise the build in flight overwrites the replacement |
| AsyncBuilds.RefusalIsGenuineExactlyWhenLive | src/ninja_devx/dependencies/engine.py:174-183 | a refused join would have stopped its whole chain if and only if every edge of it is live |
| AsyncBuilds.SpuriousRefusal | src/ninja_devx/dependencies/engine.py:178-183 | a reachable state in which a join is refused although a task on its chain could move |
| SharedBuilds.Tables.Enter | src/ninja_devx/dependencies/engine.py:167-177 | the tables follow the state machine and change only for a start; cached, joined, started or refused, the last exactly when the machine says so |
| SharedBuilds.Tables.StoreValue | src/ninja_devx/dependencies/engine.py:185-189 | the value becomes the instance and the build's outcome, and nothing else changes |
| SharedBuilds.Tables.StoreError | src/ninja_devx/dependencies/engine.py:190-192 | the exception becomes the outcome, no instance appears and nothing else changes |
| SharedBuilds.Tables.PopPending | src/ninja_devx/dependencies/engine.py:193-195 | the pending entry goes, whatever the outcome |
| SharedBuilds.Tables.Resume | src/ninja_devx/dependencies/engine.py:178-183 | a joiner picks up the settled outcome of the build it joined and its edge goes |
| Idempotency.ReplayShowsTheOriginal | src/ninja_devx/idempotency/store.py:32-60 | a replay has the original status and body and, header by header, the original value unless the header is one that is never stored |
| Idempotency.NeverReplayed | src/ninja_devx/idempotency/store.py:32-60 | cookies, proxy credentials, framing and headers that name the one request are never replayed |
| Idempotency.OthersAreReplayed | src/ninja_devx/idempotency/store.py:32-60 | without a `Connection` header every other header is replayed as it was |
| Idempotency.ConnectionNamesAreNotReplayed | src/ninja_devx/idempotency/store.py:47-47 | no header is replayed that the original named in its `Connection` header, whatever its case and the space around it |
| Idempotency.UntypedIsReplayedAsHtml | src/ninja_devx/idempotency/store.py:102-114 | a response that had no content type is replayed as HTML |
| IdempotencyRuns.StepKeepsInv | src/ninja_devx/idempotency/store.py:63-101 | each statement of each request keeps the chain of claims of every key |
| IdempotencyRuns.ClaimsNeverOverlap | src/ninja_devx/idempotency/store.py:79-101 | in every run a claim is granted only after the one before it was finished and its answer had expired |
| IdempotencyRuns.OneOwner | src/ninja_devx/idempotency/store.py:71-97 | two requests never own a key at once |
| IdempotencyRuns.RunningRowIsLeftByItsOwner | src/ninja_devx/idempotency/store.py:48-60 | a running row is left only by the update that holds its token, however long after the clock was read |
| IdempotencyRuns.ReplayIsCurrent | src/ninja_devx/idempotency/store.py:102-114 | a replay is what an earlier finished claim of the same key and fingerprint stored, and had not expired when it was decided |
| IdempotencyRuns.SnapshotIsCurrent | src/ninja_devx/idempotency/store.py:73-102 | a snapshot stays what some claim of the key left, however stale it is |
| IdempotencyRuns.EnteringDecides | src/ninja_devx/idempotency/store.py:71-78 | a request claims a key that nobody has, and otherwise looks at its row |
| IdempotencyRuns.LookingDecides | src/ninja_devx/idempotency/store.py:79-114 | an expired answer is contended for; else another fingerprint is refused with 422, a running request with 409, and the same request is replayed the answer |
| IdempotencyRuns.ReclaimingDecides | src/ninja_devx/idempotency/store.py:81-101 | who finds the expired answer it saw takes the key over, everyone else is refused with 409 |
| IdempotencyRuns.RespondingDecides | src/ninja_devx/idempotency/store.py:25-60 | what an owner responds is what it will store; a streaming response or an exception stores nothing |
| IdempotencyRuns.FinishedIsReplayedUntilItExpires | src/ninja_devx/idempotency/store.py:48-60 | from the update until its lifetime is over the same request is replayed exactly the response that was stored, another is refused, and after that the key can be taken over |
| IdempotencyRuns.KeysAreEqualExactly | src/ninja_devx/idempotency/policy.py:75-98 | two requests share a row if and only if header, identity, method and path are equal, and count as the same request if and only if path, negotiation and body are |
| IdempotencyRuns.Records.GetOrCreate | src/ninja_devx/idempotency/store.py:71-78 | creates only a missing row and returns the row there is |
| IdempotencyRuns.Records.Reclaim | src/ninja_devx/idempotency/store.py:81-97 | takes an expired row over exactly when it still is the one that was seen |
| IdempotencyRuns.Records.Finish | src/ninja_devx/idempotency/store.py:25-60 | stores the filtered response only for the running row of its own token |
| IdempotencyRuns.Policy.Before | src/ninja_devx/idempotency/policy.py:51-111 | every refusal, the claim and the replay, each under its own condition; a request with another header, identity, method or path is never touched |
| IdempotencyRuns.Policy.TakeOver | src/ninja_devx/idempotency/store.py:80-101 | the winner of an expired row proceeds, a loser is refused and replays nothing, and no other key is touched |
| IdempotencyRuns.Policy.Finish | src/ninja_devx/idempotency/policy.py:117-120 | the claim is handed over exactly once |
| QueryPlan.CollectCovers | src/ninja_devx/crud/optimization.py:301-356 | the plan holds every column, join and prefetch that rendering will ask for, and is inexact where rendering reads whole rows |
| QueryPlan.CollectGrows | src/ninja_devx/crud/optimization.py:301-356 | collecting only ever adds to a plan |
| QueryPlan.HintsOnlyForce | src/ninja_devx/crud/optimization.py:168-180 | hints add their paths as forced joins or forced prefetches, by their first relation, and change nothing else |
| PlanExpansion.PlansLookUpExactly | src/ninja_devx/crud/optimization.py:301-356 | a plan joins and prefetches exactly the relations its schema renders, up to three joins deep, and the expandable ones among them exactly when they are asked for |
| PlanExpansion.RootRelationsAreFetched | src/ninja_devx/crud/optimization.py:341-356 | a to-many relation that is rendered has its own query for its own model, with the column that leads back, looking up what the nested schema renders |
| PlanExpansion.RootColumnsAreLoaded | src/ninja_devx/crud/optimization.py:311-335 | every field that is read has its column, a relation its key's whether it is asked for or not, and what may read whole rows makes the plan inexact |
| PlanExpansion.RestrictedExactly | src/ninja_devx/crud/optimization.py:125-134 | columns are restricted if and only if that was asked for and neither the plan nor a query of it reads whole rows |
| PlanExpansion.ColumnsAreLoadedExactly | src/ninja_devx/crud/optimization.py:125-127 | which columns of an object a restricted query loads |
| PlanExpansion.RowsAreHandedOutExactly | src/ninja_devx/crud/optimization.py:342-348 | prefetched rows can be handed to their parents if and only if the column that leads back is loaded |
| PlanRendering.SuppliedRendersAlike | src/ninja_devx/crud/optimization.py:90-127 | whatever a plan supplies renders as it does from full rows, in every store, columns restricted or not |
| PlanRendering.AlikeIsSupplied | src/ninja_devx/crud/optimization.py:90-127 | a plan that renders one object of one dense store right supplies everything the schema asks for |
| PlanRendering.FaithfulExactlyWhenSupplied | src/ninja_devx/crud/optimization.py:90-127 | any plan, derived or not, renders every object of every store as full rows do if and only if it supplies what rendering asks for |
| PlanExpansion.ForwardIsShown | src/ninja_devx/crud/optimization.py:328-340 | the reference shows a forward relation as an object if it has a schema and is not expandable or was asked for, and as its key otherwise |
| PlanExpansion.ManyIsShown | src/ninja_devx/crud/optimization.py:341-356 | and a to-many relation as one object for each related row, in order, under the same condition |
| PlanExpansion.OtherFieldsAreShown | src/ninja_devx/crud/optimization.py:314-331 | columns show their values, and names that are no fields are computed from the whole row and the declared paths |
| PlanExpansion.PathsAreReadRelationByRelation | src/ninja_devx/crud/optimization.py:146-165 | a declared path is read relation by relation, each related row in order |
| PlanExactness.CollectIsSelfContained | src/ninja_devx/crud/optimization.py:333-340 | every join the planner derives is a chain of forward relations whose keys are among the columns, at every level |
| PlanExactness.PlanRunsExactly | src/ninja_devx/crud/optimization.py:90-127 | the database layer runs a query plan and its prefetches if and only if forced joins are chains of forward relations of the model queried, forced prefetches are paths of relations, no lookup comes back with its own query, and caller hints follow no key that restricting columns defers |
| PlanExactness.SuppliesExactlyWhenServes | src/ninja_devx/crud/optimization.py:301-356 | what a covering plan may still fail to supply: a declared path that is not loaded where it is read, a relation looked up more than once |
| PlanExactness.PlanRendersExactlyWhenItServes | src/ninja_devx/crud/optimization.py:183-202 | a query plan, hinted or not, restricted or not, runs and renders every object of every store as full rows do if and only if what was forced is accepted, caller hints follow no deferred key, and declared and repeated relations are served where they are read |
| OrdinarySchemas.OrdinarySchemasRenderAlike | src/ninja_devx/crud/optimization.py:301-356 | plans run and preserve meaning, recursive schemas included, when no reachable schema renders through a relation twice and resolvers outside joins declare paths that can be loaded |
| OrdinarySchemas.PlainSchemasRenderAlike | src/ninja_devx/crud/optimization.py:301-356 | in particular schemas that name no field twice and whose resolvers declare nothing, whatever they nest and whatever is asked for |
| OrdinarySchemas.ShallowSchemasRenderWhole | src/ninja_devx/crud/optimization.py:333-352 | a schema nested within the depth bound is rendered to its end from what was loaded |
| OrdinarySchemas.CollectIsNeat | src/ninja_devx/crud/optimization.py:341-356 | plans of ordinary schemas have one query for each lookup and force only what leads somewhere, at every level |
| OrdinarySchemas.JoinedHintsAreRefused | src/ninja_devx/crud/optimization.py:314-320 | a resolver below a join whose declared relation makes the root query fail, whether or not the relation is joined where it is read |
| OrdinarySchemas.RepeatedRelationsClash | src/ninja_devx/crud/optimization.py:109-118 | two fields over one to-many relation are rendered right if and only if columns are not restricted |
| QueryHints.CollectIsWellRooted | src/ninja_devx/crud/optimization.py:341-356 | every prefetch of a derived plan starts at the model queried or at one that was joined |
| QueryHints.ForcedMoreServes | src/ninja_devx/crud/optimization.py:97-122 | more forced lookups take nothing away that a schema is served |
| QueryHints.HintsThroughDeferredKeysAreRefused | src/ninja_devx/crud/optimization.py:97-126 | one hint that is refused with restricted columns when the relation is not rendered or is rendered through columns, and renders right when only its key is |
| QueryHints.HintsKeepRendering | src/ninja_devx/crud/optimization.py:183-202 | where the derived plan is right and the hinted one runs, the hinted one is right as well |
| PlanBuilding.PlanBuilder.Collect | src/ninja_devx/crud/optimization.py:301-311 | the plan filled in place is the one of the specification |
| PlanBuilding.PlanBuilder.CollectField | src/ninja_devx/crud/optimization.py:311-356 | one turn of the loop, its nested plan filled before it is appended |
| PlanBuilding.PlanBuilder.ApplyHints | src/ninja_devx/crud/optimization.py:168-180 | each declared path is recorded once, in order, as a forced join or a forced prefetch |
| PlanBuilding.MakePlan | src/ninja_devx/crud/optimization.py:183-202 | the plan built in place is the one the results above are about |
| Ordering.SortAnswers | src/ninja_devx/crud/optimization.py:280-286 | sorting gives a permutation in ascending order |
| Ordering.BeforeIsLexicographic | src/ninja_devx/crud/optimization.py:280-286 | a row comes before another if and only if the first term that tells them apart says so, in its own direction |
| Ordering.AnswerIsUnique | src/ninja_devx/crud/pagination.py:157-157 | without ties a query has one answer |
| Ordering.KeyBreaksTies | src/ninja_devx/crud/pagination.py:139-143 | an ordering that names the primary key ties no two rows |
| RelationCaps.RankIsPlace | src/ninja_devx/crud/optimization.py:272-280 | a row's window rank is its place among its parent's sorted rows |
| RelationCaps.WindowKeepsFirstRows | src/ninja_devx/crud/optimization.py:272-280 | the window cap keeps each parent's first rows, in order |
| RelationCaps.SubqueryKeepsFirstRows | src/ninja_devx/crud/optimization.py:281-286 | so does the correlated subquery, but for rows without a parent |
| RelationCaps.CapsAgreeExactly | src/ninja_devx/crud/optimization.py:264-286 | the two caps are the same query if and only if every row has a parent or nothing is kept |
| RelationCaps.WindowCapCommutes | src/ninja_devx/crud/optimization.py:272-280 | restricting to a set of parents before or after the window cap gives the same rows |
| RelationCaps.SubqueryCapCommutes | src/ninja_devx/crud/optimization.py:281-286 | and so for the correlated subquery |
| RelationCaps.PrefetchesAgree | src/ninja_devx/crud/optimization.py:264-286 | a prefetch is served alike by both caps, always |
| Stream.StreamIsSafe | src/ninja_devx/_internal/streaming.py:52-115 | in every interleaving: what was returned is a prefix of what was pulled, one advance for the marker and at most one per demand, no item before the marker, the source closed exactly once |
| Stream.HistoryGrows | src/ninja_devx/_internal/streaming.py:52-115 | nothing returned changes, and nothing is pulled after the producer ended |
| Stream.DemandsBecomeExactly | src/ninja_devx/_internal/streaming.py:52-80 | the demand being pulled for becomes an item, the end, a failure or cancelled exactly when the source yields it, stops, raises, or somebody cancels |
| Stream.ReadinessBecomesExactly | src/ninja_devx/_internal/streaming.py:52-80 | the stream is ready exactly with its marker, and never ready exactly when it fails before it |
| Stream.ConsumersAreToldTheTruth | src/ninja_devx/_internal/streaming.py:52-115 | in every run what was returned is a prefix of what the source yielded, and a consumer learns the end only of a source that stopped, a failure only of one that raised, a cancellation only when there was one |
| Stream.ConsumerMovesOn | src/ninja_devx/_internal/streaming.py:89-120 | a consumer asks unless the producer is done, and anything but an item makes it close the stream and wait for its end |
| Stream.StepsHappenExactly | src/ninja_devx/_internal/streaming.py:52-120 | when each event of producer, source and consumer can happen |
| Stream.StrandedExactly | src/ninja_devx/_internal/streaming.py:52-115 | the consumer goes on waiting whatever happens, short of its own cancellation, if and only if the producer is ending, or has been told to, and is not pulling for its demand |
| Stream.StepStrandsExactly | src/ninja_devx/_internal/streaming.py:52-120 | which steps bring that about |
| Stream.SomebodyIsStrandedExactly | src/ninja_devx/_internal/streaming.py:52-120 | in every run somebody is left waiting for good if and only if a close found a demand not yet taken, a demand was made between a close and the producer's end, or the producer ended on its marker while somebody waited |
| Stream.CloseCanStrandTheConsumer | src/ninja_devx/_internal/streaming.py:112-120 | such a run, after which the consumer can only be cancelled |
| Stream.PreparedStream.MarkerArrived | src/ninja_devx/_internal/streaming.py:52-60 | the object follows the state machine when the marker arrives or fails to, and readiness says which |
| Stream.PreparedStream.ItemArrived | src/ninja_devx/_internal/streaming.py:63-71 | and when an item settles its demand, with that item |
| Stream.PreparedStream.SourceStopped | src/ninja_devx/_internal/streaming.py:65-68 | and when the source is exhausted: its demand is told the end |
| Stream.PreparedStream.SourceFailed | src/ninja_devx/_internal/streaming.py:72-84 | and when it raises: its demand is told the failure |
| Stream.PreparedStream.CancelNoticed | src/ninja_devx/_internal/streaming.py:72-84 | and when the producer notices its cancellation |
| Stream.PreparedStream.Ask | src/ninja_devx/_internal/streaming.py:89-92 | and when the consumer asks for an item |
| Stream.PreparedStream.Received | src/ninja_devx/_internal/streaming.py:95-110 | and when it receives an item, the end, a failure or a cancellation, telling them apart |
| Permissions.Evaluate | src/ninja_devx/_permission_eval.py:29-63 | the short-circuit loop equals strong-Kleene evaluation, and names a refusal exactly when the verdict is no |
| Permissions.WitnessIsDenied | src/ninja_devx/_permission_eval.py:40-53 | the refusal named is a part of the tree that is itself denied |
| Permissions.ObjectTimeIsBoolean | src/ninja_devx/_permission_eval.py:29-63 | with an object the verdict is that of the Boolean formula over the leaves' own checks |
| Permissions.PreflightOfALeaf | src/ninja_devx/_permission_eval.py:31-37 | before there is one a leaf fails with its request check, and passes for certain only without an object check |
| Permissions.Denied | src/ninja_devx/_permission_eval.py:22-26 | only a certain no is a denial, and it carries such a witness |
| Permissions.PreflightIsStable | src/ninja_devx/_permission_eval.py:32-37 | what is known before the object exists holds of every object |
| Permissions.TwoPhases | src/ninja_devx/_permission_eval.py:22-63 | preflight followed by the object check gives the object-time verdict alone |
| Permissions.UnknownCanGoEitherWay | src/ninja_devx/_permission_eval.py:51-63 | when no leaf repeats, undecided means that some object is allowed and some is not |
| Permissions.RepeatedLeafIsOvercautious | src/ninja_devx/_permission_eval.py:48-52 | a tree that is undecided although every object is allowed |
| ResponseCache.StepKeepsInv | src/ninja_devx/http/cache.py:91-136 | every step of requests, evictions and invalidations keeps: a version read dates the invalidations before it |
| ResponseCache.LookingUpDecides | src/ninja_devx/http/cache.py:91-110 | a request is answered from the entry of the version it read and of its own method, path and varying headers, or goes on under exactly that key |
| ResponseCache.RespondingDecides | src/ninja_devx/http/cache.py:118-136 | a response is stored under that key if and only if its status is one of the six that may be cached |
| ResponseCache.OnlyCacheableIsStored | src/ninja_devx/http/cache.py:27-57 | in no run is any other response, such as an error of the server, stored or served |
| ResponseCache.ReadingDecides | src/ninja_devx/http/cache.py:33-35 | a version is read as it is, and is one where there was none |
| ResponseCache.InvalidatingDecides | src/ninja_devx/http/cache.py:46-50 | an invalidation raises the version by one, or finds none and sets it to its own clock |
| ResponseCache.NoStaleHits | src/ninja_devx/http/cache.py:33-50 | no request that started after an invalidation returned is served what one that started before it produced, however late that one stored it |
| ResponseCache.LoweringAllowsStaleHits | src/ninja_devx/http/cache.py:46-50 | from every state where a fallback does not raise the version a stale hit can follow |
| ResponseCache.LateFallbackIsReachable | src/ninja_devx/http/cache.py:46-50 | such a state is reachable |
| ResponseCache.Invalidate | src/ninja_devx/http/cache.py:38-50 | the version is raised by one, or set to the clock when there was none |
| ResponseCache.Visit.ProcessRequest | src/ninja_devx/http/cache.py:91-110 | a hit is the entry stored under the version just read; a miss remembers that key |
| ResponseCache.Visit.ProcessResponse | src/ninja_devx/http/cache.py:118-136 | a cacheable response is stored under the key remembered before the handler ran |
| Middleware.Serve | src/ninja_devx/http/middleware.py:128-149 | the flat loop with its stack equals the nested onion, for any layers and outcomes |
| Middleware.OutcomeIsCarriedOutward | src/ninja_devx/http/middleware.py:132-149 | the client gets the handler's outcome, or that of the first layer that answers or refuses, carried outward through the response hooks of the layers that were asked |
| Middleware.OnionShape | src/ninja_devx/http/middleware.py:132-149 | a log is requests in order, at most one handler call, then closings in reverse order |
| Middleware.EachLayerIsClosedOnce | src/ninja_devx/http/middleware.py:132-149 | a layer whose request hook began gets exactly one of response hook returned or exception hook called; one that was not reached gets neither |
| Middleware.FirstExceptionSurvives | src/ninja_devx/http/middleware.py:143-149 | failing cleanups never replace the exception |
| BulkWrites.BulkError | src/ninja_devx/crud/bulk.py:205-224 | which failures become an entry, always with at least one error |
| BulkWrites.FailuresReportThemselves | src/ninja_devx/crud/bulk.py:205-224 | the status, code and message every kind of failure is reported with |
| BulkWrites.SuccessesReportThemselves | src/ninja_devx/crud/bulk.py:300-313 | an item that was done is reported with the status of the request and what it returned |
| BulkWrites.Connection.Atomically | src/ninja_devx/crud/bulk.py:300-302 | a savepoint keeps an item's writes exactly when it returns |
| BulkWrites.WriteScope | src/ninja_devx/crud/writes.py:39-51 | nested scopes write where the outermost does, and each restores what it found, exceptions or not |
| BulkWrites.BulkPartial | src/ninja_devx/crud/bulk.py:292-313 | result i reports item i, the table is the fold of the successful items, failed counts the failures; an unmappable failure leaves the table as it was |
| BulkWrites.BulkUpdatePartial | src/ninja_devx/crud/bulk.py:357-407 | the same for updates; repeated keys are refused before any write |
| BulkWrites.UpdatesReportTheirKeys | src/ninja_devx/crud/bulk.py:357-407 | the entry of a key is what its change reports on the rows as they are by then, or that it was not found |
| BulkWrites.UnknownKeysAreReported | src/ninja_devx/crud/bulk.py:357-407 | a key that is not found is reported as that and fails nothing else |
| BulkWrites.FailedUpdatesChangeNothing | src/ninja_devx/crud/bulk.py:357-407 | an unknown key, and a change that fails, leave the rows as they were |
| BulkWrites.PartialIsItsSuccessfulPart | src/ninja_devx/crud/bulk.py:292-313 | a partial request does what the request made of its successful items alone would have done |
| BulkWrites.Import | src/ninja_devx/crud/transfer.py:279-312 | what is reported and what is committed, with errors, dry runs and unknown exceptions |
| BulkWrites.WalkStopsAtTheCap | src/ninja_devx/crud/transfer.py:281-312 | rows are read until one is broken, the file ends or there are enough errors, and exactly what those rows created and said is reported |
| BulkWrites.PrefixShowsTheFirst | src/ninja_devx/crud/transfer.py:306-312 | the first errors up to the cap are shown, and a cap below zero leaves that many out |
| BulkWrites.ImportIsAllOrNothing | src/ninja_devx/crud/transfer.py:281-312 | a successful import created every row if and only if its cap is positive and no row was rejected without an error |
| BulkWrites.SilentRejectionCommits | src/ninja_devx/crud/transfer.py:296-305 | a file of which a part is committed and reported as success |
| Throttle.CounterCounts | src/ninja_devx/http/throttling.py:114-122 | a window's counter never lapses while its hits are counted, and counts each of them |
| Throttle.QuickRequestsLand | src/ninja_devx/http/throttling.py:114-122 | requests that take less than a second count where the results about runs assume |
| Throttle.WindowAllowsExactly | src/ninja_devx/http/throttling.py:163-186 | exactly the first `limit` requests of a window are allowed |
| Throttle.SlidingBound | src/ninja_devx/http/throttling.py:163-186 | at most twice the limit is allowed in any interval as long as a window |
| Throttle.WaitEndsWithTheWindow | src/ninja_devx/http/throttling.py:122-122 | the announced wait ends where the next window begins, and not a tick before |
| Throttle.CacheThrottleStorage.Hit | src/ninja_devx/http/throttling.py:114-122 | one hit adds one to its own live counter, or starts one, and touches no other |
| Throttle.RateThrottle.AllowRequest | src/ninja_devx/http/throttling.py:163-186 | without a rate or identity nothing is counted; otherwise allowed exactly while fewer than `limit` were counted |
| Pages.PagesAreCutFromOneSequence | src/ninja_devx/crud/pagination.py:132-143 | whatever a queryset is ordered by, the ordering used has one answer |
| Pages.OrderingStartsAsDeclared | src/ninja_devx/crud/pagination.py:132-143 | the declared names and directions are kept in order, and the primary key is added only where it is not named, in the direction of the first name |
| Pages.OneAnswerExactlyWithoutTies | src/ninja_devx/crud/pagination.py:132-143 | an ordering has one answer if and only if it ties no rows: what the added key is for |
| Pages.PageIsItsPart | src/ninja_devx/crud/pagination.py:224-269 | a page is its part of the sequence, and has a next one if and only if rows follow |
| Pages.PagesHoldTheirRows | src/ninja_devx/crud/pagination.py:214-269 | which offsets are refused, how many rows a page has, exactly which, and where its links lead |
| Pages.WalksAreExact | src/ninja_devx/crud/pagination.py:198-269 | pages followed from the first concatenate to the ordered rows, without gap or overlap, even if the table is answered anew each time |
| Pages.PreviousUndoesNext | src/ninja_devx/crud/pagination.py:258-262 | `previous` of the next page is the page itself |
| Pages.PreviousMeetsExactly | src/ninja_devx/crud/pagination.py:260-262 | the page before ends where this one starts if and only if a whole page fits before it |
| Pages.NextMovesOnExactlyWhenPositive | src/ninja_devx/crud/pagination.py:224-259 | a walk moves on if and only if its limit is positive |
| Pages.CountIsFlaggedExactly | src/ninja_devx/crud/pagination.py:292-304 | a count that is no estimate is a lower bound, flagged if and only if it is not the number of rows |
| Pages.CountsAreWhatWasAsked | src/ninja_devx/crud/pagination.py:292-304 | the number of rows, nothing, the estimate of an unfiltered table, or the number up to the cap |
| PoCatalog.UnquoteUndoesQuote | tools/messages.py:67-98 | reading a quoted text gives the text |
| PoCatalog.EscapesEach | tools/messages.py:96-98 | the three replacements escape character by character |
| PoCatalog.ReadPo | tools/messages.py:73-93 | the line loop computes the catalog of the specification |
| PoCatalog.RenderPo | tools/messages.py:101-115 | the loop writes the text of the specification |
| PoCatalog.SplitUndoesJoin | tools/messages.py:81-115 | splitting into lines undoes joining them |
| PoCatalog.EveryBreakEndsALine | tools/messages.py:81-82 | each of the ten line breaks ends a line, a carriage return and the line feed after it together, and nothing else does |
| PoCatalog.StripTakesSpace | tools/messages.py:82-82 | the space around a line is taken away, every kind of it, and nothing else |
| PoCatalog.ReadsMore | tools/messages.py:91-92 | a literal on a line of its own goes on with the message or the text it follows |
| PoCatalog.EntriesSayWhatTheyAre | tools/messages.py:109-114 | an entry names each file once, is flagged if and only if the message has placeholders, and ends with the message and its translation |
| PoCatalog.CatalogsBeginWithTheirHeader | tools/messages.py:102-108 | a catalog begins with its title and an empty message whose text holds the header lines |
| PoCatalog.ReadUndoesRender | tools/messages.py:73-115 | reading a rendered catalog gives every message that is not empty its translation, and nothing else |
| PoCatalog.SurvivesExactlyWhenClean | tools/messages.py:73-115 | a catalog survives if and only if no text has a line break but newlines or a NUL; otherwise reading it is an error |
| MoCatalog.Sorted | tools/messages.py:122-122 | the keys in strictly ascending order |
| MoCatalog.LessIsLexicographic | tools/messages.py:122-122 | keys are compared by their first different byte, a proper start coming first |
| MoCatalog.LayOut | tools/messages.py:127-132 | lengths, offsets and bytes of every string, as the loop appends them |
| MoCatalog.CompileMo | tools/messages.py:118-134 | the file, or an error when a number does not fit a word; a reader of the GNU MO format gets the header and every translation that is not empty |
| MoCatalog.EntryReads | tools/messages.py:129-134 | each table entry addresses exactly its NUL-terminated string |
| MoCatalog.StringsTile | tools/messages.py:126-132 | the strings fill the file from the end of the tables to its end, without gap or overlap |
| MoCatalog.FilesBeginWithTheirHeader | tools/messages.py:125-134 | the seven words of the header, with no hash table |
| MoCatalog.SmallFilesFit | tools/messages.py:125-134 | a file of less than 4 GiB is always written, and how long it is |
| MoCatalog.ReadUndoesCompile | tools/messages.py:118-134 | what a reader of the format recovers is the catalog |

## Left out

- Cleanups: generator factories run as plain calls; the order and completeness of exit stacks is not modelled (`Scope.__aexit__` skips the sync stack when an async cleanup raises).
- Type checks of `instance()`, signature inspection and type variables: a plan is given, or its inspection fails.
- Prediction.CheckIsExact: takes factories that do not raise.
- Deadlock is about `AsyncBuilds`, in which a task builds, joins and resumes in any order its stack allows; the frames of a task and the objects they pass are those of `AsyncCaptivity`, which has no wait graph: a refused join is one of the ways a task can fail there.
- IdempotencyRuns.ReplayIsCurrent: is about the time the decision was taken; the response leaves later.
- Operator reconciliation of rows that keep running, the partition of keys by credentials (digests are taken as injective), sync and async wrappers around views.
- Query planning: resolvers of names that are model fields, fields that are named by their column (`author_id`), reverse one-to-one, reverse many-to-many and generic relations, `ExpandRule` filters, prefetches the view has already set, the plan cache, and `lookups()`. Forced prefetches are judged as if there were objects to prefetch for.
- Relation caps with ties inside a parent, where ranks are the database's choice; `limit` below zero.
- Stream.StreamIsSafe: claims no progress, and `Stream.StrandedExactly` only that progress is possible; one consumer, and a producer task that has started. The response that wraps a stream, and `on_cancel`, are not modelled.
- Permission leaves are an identifier, a request check and, for some, an object check that includes it; async leaves are awaited in the same order.
- Cached responses: `Vary`, `Cache-Control` and `X-Cache` headers, expiry of entries other than by eviction at any time, several prefixes, eviction of the version key.
- Bulk writes: `bulk_update` and `bulk_create` without partial results, `get_objects`, `refresh_many`, the size limit and the failed-count header; an import's parsing, limits and upload size. A database router is a parameter.
- Async middleware has the same loop as the sync one; logging of failed cleanups is not modelled.
- Throttling: `parse_rate`, header recording and the subclasses that choose identities; a counter is shared by nobody with another key.
- Pages: `CursorPagination`, reconstruction of URLs, null ordering (cells are ranked integers); walks are over rows that do not change.
- PO files: extraction of messages from code, the order of messages (any order is allowed), Python literals other than those that quoting writes, encodings of files. MO files: UTF-8 encoding (strings are bytes).
- Cursor pagination, nested writes, soft delete, contrib adapters, routers, OpenAPI, schema building and code generators.
