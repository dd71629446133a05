# Verified model of the agent-native microkernel

A Dafny 4.11 model of the parts of the repository whose correctness rests on protocols, histories and recursion,
with proofs of what they promise. `dafny verify dfyconfig.toml` checks all of it.

Code that changes state is modelled by classes and methods with the source's fields, loops and branches, proved
against functions on values; protocols are step systems over those same functions; theorems are about every run.

| file | what it models |
|---|---|
| `Registry.dfy` | the host's registry: providers, health, writer leases, routing and promotion, lease files, and the plugins' write fence |
| `HostHistory.dfy` | what that registry holds, told from the registrations, exits and health reports of a run |
| `ProviderOrder.dfy`, `Routing.dfy` | who is chosen: registration order, priority and promotion; where each request goes and when it is refused |
| `FencedWrites.dfy` | single-writer fencing over whole runs: promotions, delayed requests, health, exits, host restarts, guarded writes |
| `Supervisor.dfy`, `Depth.dfy`, `Boot.dfy` | dependency health as a capped fixed-point iteration, and how deep its cap reaches; the boot loop on top of it |
| `Contracts.dfy`, `ContractPaths.dfy` | the contract compatibility checker, what its verdict means for the values two schemas accept, and what it rests on place by place |
| `Router.dfy`, `CallAuthority.dfy` | delegated authority: nested calls, opaque tokens, scopes, teardown, event provenance; which calls the host policy admits |
| `LogFile.dfy`, `Bytes.dfy` | the append-only log as bytes, and loading it after a crash at any byte |
| `WorkRegistry.dfy`, `Reviews.dfy` | the event-sourced task store and the review store |
| `SharedLog.dfy` | several runtimes over one work log, each answering from what it loaded at its start |
| `Promotions.dfy` | the fenced writes and the shared log as one step system: which promotions keep the log a history |
| `Pipeline.dfy`, `PipelineScript.dfy` | the delivery pipeline as a machine, and the source's control flow proved to follow it; the calls of a run and its outcome, told from the answers |
| `TaskLifecycle.dfy` | any number of pipelines and other clients over one task store and one review store |
| `LineFraming.dfy` | framing, cap and truncation of a provider's output over fragmented reads |
| `AgentStore.dfy`, `AgentRuns.dfy` | agent runs and cancels, interleaved, with plugin restarts |
| `Journal.dfy` | the hash-chained event journal and the paging loop that reads it |

## Assumptions

- One host at a time; runtime, task, context, review, run and token ids are fresh; a rename of a file is atomic.
- Lease files are written by the host. Capability mode is uniform per capability, and stateful exports name their
  service and authority, as manifest admission demands.
- A JSON record printer yields no newline and no blank text, parsing undoes it, and no proper prefix of a printed
  record parses. The journal's digest has no collisions and is never empty.
- The eight annotation keywords of a schema restrict no value, and any other keyword outside `properties`, `required`,
  `additionalProperties` and `items` restricts values by itself (`Contracts.Standard`). Keywords that read their neighbours or another schema (`unevaluatedProperties`, `if`/`then`/`else`, `$ref`,
  `patternProperties` beside `additionalProperties`) are compared as the checker compares them, but fall outside what
  the theorems of `Contracts.dfy` say about values.
- A reconciliation of dependencies runs uninterrupted over a fixed table of runs. The source calls it from several
  goroutines, whose visits may interleave.
- Grants are fixed after boot. Pattern matching, the providers, git, tools and the network are parameters that may
  behave in any way; so is whether a write to disk succeeds, and a failed append leaves no bytes.

## Where the code does less than it says

- `contract_compat.py:20-41` compares `old.get(k)`, so a keyword with value `null` and an absent keyword look alike:
  adding `"const": null` is not reported. `Contracts.ResponseExact` and `Contracts.RequestExact` say for all schemas
  and values, under the assumption on keywords above, when inclusion still holds; `Contracts.NullConstSlips` is the failing family.
- `contract_compat.py:50` looks at `required` only where the type is exactly `"object"` or `properties` is present.
  Elsewhere a new required field is not reported, and accepted steps need not compose.
- The checker is described as preferring false alarms. In request mode with open schemas it does accept an added
  optional field that can refuse a value in use (`Contracts.OpenRequestSlips`).
- `registry.go:106` and `fencing.go:21-28` map distinct authorities to one lease file, and fencing then fails:
  `FencedWrites.FencingNeedsDistinctNames` is an equivalence.
- `supervisor.go:108` speaks of a fixed point. Eight passes reach it up to a depth that
  `Supervisor.ReconcileReachesFixedPoint` states, and no further (`Depth.EightPassesReachDepthEight`).
- `handlers.go:77-90` of the agent harness records a run before it registers it. A cancel that falls in between is
  answered with success while the provider goes ahead (`AgentRuns.ProviderOutlivesEarlyCancelOnly`). A live cancel
  can be answered before its provider has returned by the 30-second timer, and by nothing else
  (`AgentRuns.OnlyTheTimerRepliesEarly`).
- `real_provider.go:144-151` drops empty lines, yet emits an empty frame for a line that is one carriage return
  before its terminator (`LineFraming.EmptyFrames`).
- Each plugin loads its log once, at start (`plugins/work-registry/main.go:9-17`), and the write fence does not make it
  read again. While all earlier writers were up to date, a runtime answers as an up-to-date store if and only if it
  loaded after the last foreign write (`SharedLog.AnswersAreCurrentIff`), and `SharedLog.NextWriteBreaksIff` says
  when its next write can append what no store would have granted. With leases, what counts is the promotion
  (`Promotions.CurrentSincePromotion`): a standby that takes over after another's write can break the shared log
  (`Promotions.TakeoverBreaksHistory`).
- `event-journal/main.go:101-130` likewise appends under the last hash it knows. If another runtime has appended in
  between, the chain is broken whatever the record was (`Journal.StaleAppendBreaksChain`). And the appender writes
  lines of any length, while the reader stops at 16 MiB: one longer record makes every later verification and replay
  fail (`Journal.Journal.Append`, `Journal.SoundBefore`).
- `router.go:354-363` keeps one cancellation entry per consumer and request id. A consumer that uses an id twice at a
  time can be left with an open call that cannot be cancelled (`Router.SharedIdLosesEntry`).

## Model

| member | source | states |
|---|---|---|
| `Registry.PersistRestores` | kernel/internal/registry/registry.go:74-139 | a lease that was written is read back after a restart with its epoch and no holder; another authority's lease survives the write if and only if its file has another name |
| `Registry.WithWriteFence` | kernel/sdk/go/fencing/fencing.go:31-64 | the guarded mutation runs if and only if the request carries full fencing data and the lease file names its runtime and its epoch |
| `Registry.Registry.LoadFences` | kernel/internal/registry/registry.go:74-104 | a restarting host gets back the epoch of every lease file with a complete name, and no holder |
| `Registry.Registry.RegisterRuntime` | kernel/internal/registry/registry.go:251-303 | a runtime is refused, with nothing changed, exactly when an authority it exports is stored under another namespace; otherwise storage and provider lists are the registered ones |
| `Registry.Registry.Observe` | kernel/internal/registry/registry.go:344-488 | one health report updates every entry of the runtime and no other, takes its leases away exactly when an entry trips, and says whether a dependency flag flipped |
| `Registry.Registry.ClearWriter` | kernel/internal/registry/registry.go:309-318 | every lease the runtime holds loses its holder and keeps its epoch; the others stay |
| `Registry.Registry.RemoveRuntime` | kernel/internal/registry/registry.go:325-342 | exactly the runtime's entries disappear, emptied lists with them, and its leases lose their holder |
| `Registry.Registry.MissingHealthyRequired` | kernel/internal/registry/registry.go:620-637 | the required capabilities without a healthy provider, in manifest order |
| `Registry.Registry.Resolve` | kernel/internal/registry/registry.go:499-605 | a request is refused, routed, or promotes a writer as planned; a promotion is in the lease file before it is in memory, and a failed file write changes nothing |
| `Registry.Registry.Decide` | kernel/internal/registry/registry.go:499-575 | the reading part of routing: hints, bindings, the single logical authority, health and the command rule |
| `Registry.Registry.DecideCommand` | kernel/internal/registry/registry.go:560-600 | a command goes to the lease holder while it is a candidate, and otherwise promotes the first candidate allowed, one epoch up |
| `Supervisor.MissingMeans` | kernel/internal/registry/registry.go:620-637 | what is missing of a list of requirements is what is missing of its parts, in order, and a capability is missing if and only if nobody healthy provides it |
| `HostHistory.TableIsInForce` | kernel/internal/registry/registry.go:279-342 | in every run the entries are exactly those of the exports of registrations that no exit or restart has ended, under the plugin and capability they were registered with |
| `HostHistory.HealthIsReported` | kernel/internal/registry/registry.go:305-488 | in every run an entry's circuit is open if and only if three requests have failed since the last that succeeded, its missed beats are those since the last that arrived, its process and its dependencies are as last reported, and it is healthy if and only if none of these speaks against it |
| `HostHistory.LeaseLostIff` | kernel/internal/registry/registry.go:309-450 | in every run a health report takes a lease from its holder if and only if it leaves the holder with an unhealthy entry, and epochs stay |
| `HostHistory.RefusedIfForeign` | kernel/internal/registry/registry.go:251-277 | in every run a registration is refused if and only if it writes an authority that was registered under another namespace since the host started |
| `ProviderOrder.InsertedInPlace` | kernel/internal/registry/registry.go:289-301 | registration is a stable insertion: the entry goes behind everything it does not precede, and the rest keeps its order |
| `ProviderOrder.RunKeepsOrder` | kernel/internal/registry/registry.go:251-342 | in every run of the host each provider list is ordered by priority, then plugin id |
| `ProviderOrder.PromotionTakesBest` | kernel/internal/registry/registry.go:499-605 | no healthy exporter of the authority that the request allows comes before the promoted one |
| `ProviderOrder.StatelessRouteTakesBest` | kernel/internal/registry/registry.go:499-530 | a stateless request with a usable provider is routed, and to one that no usable provider comes before |
| `Routing.QueryGoesToBest` | kernel/internal/registry/registry.go:499-568 | in every run a query, and any request for a stateless capability, goes to a healthy entry that its hints or else the binding allow, to which no such entry is preferred by priority and plugin id; it is refused if and only if there is none or, of a stateful capability, the authority is ambiguous |
| `Routing.CommandGoesToWriter` | kernel/internal/registry/registry.go:531-605 | in every run a stateful command is routed if and only if the lease holder's entry is healthy and allowed, and goes there; it promotes the preferred allowed entry, one epoch up, if and only if no holder is healthy; it names a provider that is not the active writer if and only if the holder is healthy and not allowed |
| `FencedWrites.StepKeepsInv` | kernel/internal/registry/registry.go:499-605 | register, health, exit, route, lease write, promotion, restart and guarded write each keep memory, lease files, in-flight stamps and past writes consistent |
| `FencedWrites.RunKeepsInv` | kernel/internal/registry/registry.go:74-139 | so does every run from an empty host |
| `FencedWrites.WritesInOrder` | kernel/sdk/go/fencing/fencing.go:31-64 | in every run the writes of an authority have non-decreasing epochs, and equal epochs mean the same runtime |
| `FencedWrites.DiskEpochNeverFalls` | kernel/internal/registry/registry.go:110-139 | an authority's epoch on disk never goes back, restarts included |
| `FencedWrites.StaleNeverWrites` | kernel/sdk/go/fencing/fencing.go:31-64 | once an epoch is on disk no request stamped below it is ever written, however long it was delayed |
| `FencedWrites.HolderIsHealthyExporter` | kernel/internal/registry/registry.go:305-488 | a lease with a holder names a registered runtime that exports the authority and is healthy in all its entries, and between promotions the lease file says the same |
| `FencedWrites.CommandCarriesLease` | kernel/internal/router/router.go:317-330 | every stateful command leaves the host with the runtime and epoch of its authority's lease, in memory and on disk |
| `FencedWrites.RoutedToHolder` | kernel/internal/registry/registry.go:571-604 | a stateful command that is routed without promotion goes to the holder under the holder's epoch |
| `FencedWrites.PromotedIsCandidate` | kernel/internal/registry/registry.go:571-604 | a promoted runtime is a healthy exporter of the authority and gets the next epoch |
| `FencedWrites.SharedFileBreaksOrder` | kernel/internal/registry/registry.go:106-112 | two authorities with one lease file name: a reachable run writes an older epoch after a newer one |
| `FencedWrites.FencingNeedsDistinctNames` | kernel/sdk/go/fencing/fencing.go:21-28 | writes stay in order in every run if and only if no two authorities have the same lease file name |
| `FencedWrites.FenceNameHasNoSeparator` | kernel/internal/registry/registry.go:106-113 | a lease file name holds no path separator |
| `FencedWrites.PlainNamesAreDistinct` | kernel/sdk/go/fencing/fencing.go:21-28 | authorities whose names hold neither separators nor dashes have lease files of their own |
| `FencedWrites.FenceNamesCollide` | kernel/internal/registry/registry.go:106-112 | the file name is not injective: two ways in which distinct authorities collide |
| `Supervisor.Supervisor.ReconcileDependencies` | kernel/internal/supervisor/supervisor.go:107-138 | the call makes one to eight passes over all runs in some order, stops after the first that flips nothing, and leaves the registry those passes lead to |
| `Supervisor.Supervisor.ReconcileOnce` | kernel/internal/supervisor/supervisor.go:111-133 | one pass visits every run, and says whether any visit flipped a flag |
| `Supervisor.Supervisor.Start` | kernel/internal/supervisor/supervisor.go:235-253 | a plugin that got ready is registered and reconciled; one that did not, or is refused, leaves no trace |
| `Supervisor.Supervisor.Exited` | kernel/internal/supervisor/supervisor.go:288-303 | an exit marks the runtime down, reconciles without it, and only then drops its entries |
| `Supervisor.ReachableHealthFits` | kernel/internal/registry/registry.go:305-307 | in every run of the host each entry's health is what its flags say |
| `Supervisor.EarlyStopIsFixed` | kernel/internal/supervisor/supervisor.go:134-136 | stopping because a pass changed nothing is stopping at a fixed point, on any graph, cycles included |
| `Supervisor.ReconcileReachesFixedPoint` | kernel/internal/supervisor/supervisor.go:107-138 | from any stale flags and in any visiting order the call ends at a fixed point if dependency depth is at most 7, or 7 above what is settled already |
| `Supervisor.FixedPointIsUnique` | kernel/internal/supervisor/supervisor.go:107-138 | over an acyclic dependency graph two fixed points of the same registry are equal |
| `Supervisor.VisitingOrderIsIrrelevant` | kernel/internal/supervisor/supervisor.go:107-138 | two calls from registries that differ in stale flags only, in any two visiting orders, end alike |
| `Depth.EightPassesReachDepthEight` | kernel/internal/supervisor/supervisor.go:108-109 | when the bottom of a dependency chain dies, eight passes are sure to reach the top if and only if it is at most eight links high |
| `Depth.ChainIsReached` | kernel/internal/registry/registry.go:251-363 | registering the links and reporting the bottom one dead takes an empty host to just that state |
| `Supervisor.RemovalKeepsFixedPoint` | kernel/internal/supervisor/supervisor.go:300-303 | dropping the entries of a runtime that is down leaves the other runs at their fixed point |
| `Supervisor.ExitSettles` | kernel/internal/supervisor/supervisor.go:288-303 | after an exit the registry is at the fixed point of the remaining runs and has no entry of the one that left |
| `Boot.Boot` | kernel/cmd/kernel/main.go:71-97 | the loop ends having started exactly the least set closed under "launches and every requirement is exported by a started plugin"; the blocked ones are exactly those whose requirements it does not supply |
| `Boot.Round` | kernel/cmd/kernel/main.go:72-96 | one round starts only what the least set forces, drops only failed starts, and shortens the list whenever it starts something |
| `Boot.TryStart` | kernel/cmd/kernel/main.go:75-85 | a pending plugin waits, fails or starts according to what is supplied and whether it launches, and everything started stays healthy |
| `Boot.StartKeepsGoing` | kernel/internal/supervisor/supervisor.go:235-253 | a start whose requirements are met leaves all entries healthy, so its reconciliation changes nothing |
| `Boot.ManifestOrderIsIrrelevant` | kernel/cmd/kernel/main.go:70-97 | what boots does not depend on the order of the manifests |
| `Contracts.CompareSchema` | kernel/tools/contract_compat.py:33-68 | the recursive comparison reports nothing exactly when the two schemas are compatible in the mode |
| `Contracts.CompareKeywords` | kernel/tools/contract_compat.py:24-47 | the keyword comparisons report nothing exactly when all constraining keywords agree |
| `Contracts.CompareFields` | kernel/tools/contract_compat.py:50-68 | the field branch reports nothing exactly when required sets, shared fields and added fields pass |
| `Contracts.CompareContracts` | kernel/tools/contract_compat.py:70-83 | the verdict on two contracts: same identity, kind and major version, request and response compatible |
| `Contracts.ResponseExact` | kernel/tools/contract_compat.py:33-68 | for compatible responses, a value the new schema accepts is accepted by the old one if and only if the constraints the checker does not look at hold of it |
| `Contracts.ResponseSound` | kernel/tools/contract_compat.py:57-68 | no report in response mode: every value the new schema accepts is accepted by the old one, at any depth |
| `Contracts.RequestExact` | kernel/tools/contract_compat.py:33-68 | for compatible requests, a value the old schema accepts is accepted by the new one if and only if its added properties and the unseen constraints hold |
| `Contracts.RequestSound` | kernel/tools/contract_compat.py:53-56 | no report in request mode: every old value that uses only declared properties is accepted by the new schema |
| `Contracts.ClosedRequestSound` | kernel/tools/contract_compat.py:46-47 | with additionalProperties false throughout, every value the old request schema accepts is accepted by the new one |
| `Contracts.UpgradeIsSafe` | kernel/tools/contract_compat.py:70-83 | an accepted upgrade: old clients' closed requests are accepted by the new provider, and its replies by the old clients |
| `Contracts.PlainIsSeen` | kernel/tools/generate_contracts.py:17-34 | on schemas without null keywords and with required only where the checker looks, nothing stays unseen |
| `Contracts.CompatibleReflexive` | kernel/tools/contract_compat.py:33-68 | a schema is compatible with itself in both modes |
| `Contracts.CompatibleTransitive` | kernel/tools/contract_compat.py:33-68 | a chain of accepted versions is accepted end to end in both modes, on schemas that keep required where the checker looks |
| `Contracts.ChainExact` | kernel/tools/contract_compat.py:50-50 | on all schemas: when a chain of two accepted steps is accepted end to end |
| `Contracts.CompareAllKeywords` | kernel/tools/contract_compat.py:13-45 | the four rounds over the keyword tables report nothing if and only if every keyword that may restrict values agrees, bounds up to the spelling of a number |
| `ContractPaths.CompatibleIsPathwise` | kernel/tools/contract_compat.py:33-69 | two schemas are compatible if and only if the two nodes that the same path leads to agree, for every path: every keyword but the eight annotations stays, no field goes, a request requires no more and a response the same, a closed response gets no field |
| `ContractPaths.EditsAreAccepted` | kernel/tools/contract_compat.py:13-69 | schemas that differ at any depth only in annotations, in the spelling of bounds, in required names a request drops and in properties added to a request or to an open response are compatible |
| `ContractPaths.EditedUpgradeIsAccepted` | kernel/tools/contract_compat.py:71-83 | a contract edited so under its identity, kind and major version is accepted |
| `Contracts.NullConstSlips` | kernel/tools/contract_compat.py:20-41 | adding or dropping "const": null is never reported; the keyword only takes values away, and takes none away if and only if the schema without it accepts nothing but null |
| `Contracts.UnguardedRequiredSlips` | kernel/tools/contract_compat.py:50-55 | a new required request field under type ["object","null"] without properties is not reported, and refuses a value the old schema accepted |
| `Contracts.UnguardedChainBreaks` | kernel/tools/contract_compat.py:50-55 | for the same reason two accepted steps can compose to a rejected one |
| `Contracts.OpenRequestSlips` | kernel/tools/contract_compat.py:64-68 | an open request schema: an added optional field can refuse a value the old schema accepted |
| `Router.Engine.MatchList` | kernel/internal/authz/authz.go:64-72 | true exactly when some pattern matches |
| `Router.Engine.CanConsume` | kernel/internal/authz/authz.go:48-56 | true exactly when the plugin declares the capability and is granted it |
| `Router.Engine.DelegationScope` | kernel/internal/authz/authz.go:98-113 | the child patterns of exactly the identity's delegations whose trigger matches the root capability |
| `Router.Engine.CanPublish` | kernel/internal/authz/authz.go:73-84 | true exactly when the plugin declares the event and may publish it |
| `Router.Engine.FanOut` | kernel/internal/router/router.go:456-475 | an event goes to exactly the connected runtimes whose plugin declares it and may subscribe to it |
| `Router.RouterObject.Admit` | kernel/internal/router/router.go:241-294 | a call is admitted exactly when its caller's identity, declarations, grants and delegation allow it, with the principal, actors and scope of its context |
| `Router.RouterObject.Identify` | kernel/internal/router/router.go:251-271 | a runtime acts under its token, if that is live and bound to it, or under its own name only with service authority |
| `Router.RouterObject.Begin` | kernel/internal/router/router.go:341-362 | an admitted call gets one fresh token bound to the provider's runtime and is noted for cancellation; a refused call changes nothing |
| `Router.EndUndoesBegin` | kernel/internal/router/router.go:344-363 | a call that opens and closes again leaves the live tokens as they were, and the cancellation entries too if and only if its consumer had none under that request id |
| `Router.RouterObject.Publish` | kernel/internal/router/router.go:427-477 | an event is stamped with the authority its publisher acts under, or refused and sent to nobody |
| `Router.RunKeepsInv` | kernel/internal/router/router.go:241-378 | in every run of calls opening and closing, contexts, paths, live tokens and cancellation entries fit the call forest |
| `CallAuthority.AdmittedIff` | kernel/internal/router/router.go:241-294 | in every run a call is admitted if and only if: an external identity has a matching capability pattern; a plugin declares and is granted the capability, and its runtime either has service authority or serves the open call of its token, whose root is the plugin itself, is granted the capability, or has a delegation whose trigger matches the root call and whose list matches the capability |
| `CallAuthority.NoCallExceedsItsRoot` | kernel/internal/router/router.go:246-294 | every call in a tree rooted at an external identity matches one of its capability patterns, or a pattern of one of its delegations whose trigger matches the root call |
| `CallAuthority.OtherTriggersAddNothing` | kernel/internal/authz/authz.go:98-113 | a delegation whose trigger does not match the root call adds nothing to its scope |
| `CallAuthority.EventsFlow` | kernel/internal/authz/authz.go:73-96 | an event reaches exactly the connected runtimes for which both plugins declare it and the policy grants each its side |
| `Router.ConfusedDeputyFree` | kernel/internal/router/router.go:246-294 | in a call tree rooted at an external identity every call is granted to it or in its delegation list for the root call, the calling plugin declares it and is granted it, and the actors are exactly the path |
| `Router.TokenDiesWithCall` | kernel/internal/router/router.go:261-266 | a token is honoured only from the runtime it was issued to and only while its call is open |
| `Router.CancelReachesOwnCall` | kernel/internal/router/router.go:354-363 | a cancellation entry always names the provider of an open call of that consumer under that request id |
| `Router.EntryIsLastStart` | kernel/internal/router/router.go:354-363 | a cancellation entry stands if and only if the last call of that consumer to start or end under that request id was one that started, and it names that call's provider |
| `Router.DistinctIdsKeepEntries` | kernel/internal/router/router.go:354-363 | while consumers keep the request ids of their open calls distinct, every open call has its cancellation entry |
| `Router.SharedIdLosesEntry` | kernel/internal/router/router.go:354-363 | after two calls under one request id the survivor is alone under it and still has no entry |
| `Router.EventsCarryTheirCall` | kernel/internal/router/router.go:436-455 | an event published under a token carries the principal and path of the open call the token belongs to |
| `LogFile.Load` | plugins/work-registry/store.go:112-156 | loading the file is the specified fold over its lines; a missing file is an empty store |
| `LogFile.CutLines` | plugins/work-registry/store.go:130-155 | from any projection: the lines of a log cut at any byte fold to the records whose text ends by the cut |
| `LogFile.CrashRecovery` | plugins/work-registry/store.go:112-156 | whatever byte the log is cut at, loading succeeds with the fold of exactly the records wholly before the cut |
| `LogFile.LoadExact` | plugins/work-registry/store.go:119-156 | loading succeeds if and only if no line is unreadable but the last that is not blank of a file without a final newline, and the records apply in turn; it yields what they amount to |
| `WorkRegistry.Store.Load` | plugins/work-registry/store.go:112-156 | a store rebuilt from an acknowledged log holds that log's replay |
| `WorkRegistry.Store.ApplyOp` | plugins/work-registry/store.go:158-200 | applying a record in memory is the projection step the replay uses |
| `WorkRegistry.Store.Append` | plugins/work-registry/store.go:202-232 | an acknowledged append adds one record with the next number and applies it; a failed one changes nothing; memory stays the replay of the log |
| `WorkRegistry.Store.CreateTask` | plugins/work-registry/store.go:234-252 | a known idempotency key returns its task and appends nothing; otherwise one task and context are created at version 1 |
| `WorkRegistry.Store.Transition` | plugins/work-registry/store.go:263-281 | not found, version conflict, illegal and failed writes each say so and change nothing; otherwise status and version move by one |
| `WorkRegistry.Store.AttachEvidence` | plugins/work-registry/store.go:283-301 | evidence is appended under compare-and-swap on the context's version, with the same refusals |
| `WorkRegistry.HistoryInvariant` | plugins/work-registry/store.go:158-301 | every acknowledged log replays, with tasks, contexts and keys pointing at each other and all versions counting |
| `WorkRegistry.VersionsCount` | plugins/work-registry/store.go:263-301 | a task's version is 1 plus its accepted transitions and at most 4; a context's is 1 plus its evidence |
| `WorkRegistry.TerminalForever` | plugins/work-registry/store.go:254-261 | a DONE or FAILED task never changes again |
| `WorkRegistry.InputForever` | plugins/work-registry/store.go:158-200 | no record changes what a task or context was created with, and attached evidence stays, in its order |
| `WorkRegistry.MovesGranted` | plugins/work-registry/store.go:254-261 | from any state of the log a task may be moved by exactly one step forward or, while not over, to FAILED |
| `WorkRegistry.DoneIsReachable` | plugins/work-registry/store.go:254-281 | every planned task can be taken to DONE |
| `WorkRegistry.KeyNamesOneTask` | plugins/work-registry/store.go:237-243 | an idempotency key names one task forever |
| `WorkRegistry.VersionSpentOnce` | plugins/work-registry/store.go:271-277 | two transitions of one context never spend the same version |
| `WorkRegistry.StatusIsPath` | plugins/work-registry/store.go:254-261 | a task's status fits the moves its context was taken through, in order |
| `WorkRegistry.FoldIsReplay` | plugins/work-registry/store.go:137-154 | what the loader folds from the file is the replay of its records and the highest sequence number |
| `WorkRegistry.CrashReload` | plugins/work-registry/store.go:112-156 | after a crash at any byte the next load is the projection of the acknowledged records wholly on disk |
| `SharedLog.Serve` | plugins/work-registry/store.go:234-301 | the store appends for a request exactly the record its projection grants |
| `SharedLog.CurrentMeansLoadedSince` | plugins/work-registry/main.go:9-17 | a runtime has read the whole log if and only if it loaded it after the last write of another runtime |
| `SharedLog.CurrentWritersKeepHistory` | plugins/work-registry/main.go:9-26 | if every writer loaded the log after the last foreign write, the shared log is a history in every run of several runtimes |
| `SharedLog.AnswersAreCurrentIff` | plugins/work-registry/store.go:234-301 | while every earlier writer had read the whole log, a runtime answers every request as an up-to-date store would if and only if it loaded the log after the last foreign write |
| `SharedLog.NextWriteBreaksIff` | plugins/work-registry/store.go:234-301 | in every run whose writers had read the whole log so far, the next write of a runtime can leave the shared log no history if and only if what the runtime missed moves a task it knows or spends an idempotency key |
| `SharedLog.StandbyBreaksHistory` | plugins/work-registry/main.go:9-17 | a run of three steps, both runtimes load and one creates a task under a key, after which the other may write what no store would have granted |
| `Promotions.CurrentSincePromotion` | kernel/internal/registry/registry.go:571-604 | in every run of leases and loads, the runtime the lease file names has read the whole log if and only if it had at the last promotion, which named it |
| `Promotions.PromotionsKeepHistory` | kernel/sdk/go/fencing/fencing.go:31-64 | if every runtime promoted for an authority had read the whole log at its promotion, the shared log is a history in every run with delayed requests, health events, exits and host restarts |
| `Promotions.TakeoverBreaksHistory` | plugins/work-registry/main.go:9-26 | in every world with a stateful capability a standby that loads, is promoted after another runtime's write, and writes under its valid lease can leave the shared log no history |
| `Reviews.Store.Request` | plugins/review/store.go:145-149 | a new review is recorded pending; missing context or diff and failed writes change nothing |
| `Reviews.Store.Decide` | plugins/review/store.go:150-170 | only a pending review takes a decision, and only its decision fields change |
| `Reviews.DecidedForever` | plugins/review/store.go:150-170 | a decided review never changes again, and no review changes its diff |
| `Pipeline.DoneGate` | plugins/engineering-workflow/gate.go:14-36 | the gate passes exactly when build and test passed, the review is approved for this diff, and there are criteria, all satisfied |
| `Pipeline.RunPipeline` | plugins/engineering-workflow/pipeline.go:61-202 | the control flow makes exactly the calls of the pipeline machine, in its order, and returns the machine's verdict |
| `Pipeline.PollPhase` | plugins/engineering-workflow/pipeline.go:170-197 | the review loop ends, by a decision, an error or the deadline |
| `Pipeline.Capabilities.Clean` | plugins/engineering-workflow/pipeline.go:86-100 | cleanup seals when there is an agent run, releases the workspace, and ends the run |
| `Pipeline.RunProgress` | plugins/engineering-workflow/pipeline.go:61-202 | at every point of every run the calls made so far are those the stage accounts for |
| `Pipeline.RunIsClean` | plugins/engineering-workflow/pipeline.go:80-202 | for all capability behaviours: the workspaces released are those allocated, each once; the agent runs sealed are those the agent start named, each once; DONE is asked for at most once, and the outcome is DONE if and only if that was granted |
| `Pipeline.SealBeforeRelease` | plugins/engineering-workflow/pipeline.go:91-99 | when the workspace that was allocated is released, the seal attempts due have been made and no release has |
| `PipelineScript.RunIsScripted` | plugins/engineering-workflow/pipeline.go:61-202 | every ended run made the calls of the script, with arguments from the answers before, up to the first whose answer ends it, has the outcome of that answer, and then made exactly the calls of the cleanup |
| `PipelineScript.OutcomeIff` | plugins/engineering-workflow/pipeline.go:61-202 | each outcome is reached if and only if some call was answered accordingly: a passed deadline, an agent that does not answer COMPLETED, a build or test that does not answer, a granted DONE, any other refusal or a decision that does not pass |
| `PipelineScript.WorkNeedsAgent` | plugins/engineering-workflow/pipeline.go:118-197 | no diff is collected, no tool run, no review requested and no move to review or DONE asked for, unless the agent answered COMPLETED |
| `PipelineScript.EventsAreWritten` | plugins/engineering-workflow/pipeline.go:69-78 | the event ids of the result are those answered to its journal calls, in order |
| `Pipeline.DoneOnlyAfterGate` | plugins/engineering-workflow/pipeline.go:187-191 | DONE is requested only after a reply on the run's own review for which the gate held |
| `TaskLifecycle.StepKeepsInv` | plugins/engineering-workflow/pipeline.go:61-202 | a step of a pipeline or of any other client, and a review change, keeps what every run knows and what every DONE task rests on |
| `TaskLifecycle.DoneIntegrity` | plugins/engineering-workflow/pipeline.go:101-197 | if only pipelines ask for DONE, every DONE task went through the three moves by one single run, whose agent answered COMPLETED, whose own build and test passed, and whose diff was approved in a review that this run requested for this context and its own agent run |
| `TaskLifecycle.ApprovalIsFinal` | plugins/review/store.go:157-159 | the approval behind it never changes afterwards |
| `TaskLifecycle.MoversCount` | plugins/work-registry/store.go:263-281 | each accepted transition of a context has exactly one actor |
| `LineFraming.LineReader.ReadLine` | plugins/agent-harness/real_provider.go:153-153 | the buffered reader's contract: a line without its terminator, or a non-empty first part, which ends in a carriage return only when another one follows |
| `LineFraming.Gather` | plugins/agent-harness/real_provider.go:154-167 | of a fragment as much is kept as the cap allows; a line over the cap is cut and marked |
| `LineFraming.Discard` | plugins/agent-harness/real_provider.go:174-179 | the rest of an over-long line is skipped, and nothing of the next |
| `LineFraming.ReadPipe` | plugins/agent-harness/real_provider.go:140-198 | for every stream and every fragmentation the frames emitted are the line specification's, followed by the read-error report, which overtakes the last frame if and only if no newline ends its line, that line is not too long, and its last bytes filled the reader's buffer; a consumer that refuses gets a first part |
| `LineFraming.FramesFit` | plugins/agent-harness/real_provider.go:15-17 | no frame is larger than the cap |
| `LineFraming.OnlyErrorsAreReported` | plugins/agent-harness/real_provider.go:181-191 | only a read error that was not forced is reported, as one frame with its message; otherwise the frames are all there is |
| `LineFraming.LongLineIsMarked` | plugins/agent-harness/real_provider.go:159-171 | a line above one MiB gives one frame of one MiB, its first bytes and the mark at the end, and the stream goes on with the next line |
| `LineFraming.WrittenLinesAreFramed` | plugins/agent-harness/real_provider.go:144-198 | lines written with either terminator come out as their own frames, in order |
| `LineFraming.FittingLinesComeBack` | plugins/agent-harness/real_provider.go:144-166 | non-empty lines up to exactly the cap come back unchanged if and only if none of them ends in a carriage return |
| `LineFraming.EmptyFrames` | plugins/agent-harness/real_provider.go:144-151 | an empty frame is emitted if and only if some line is a single carriage return before its terminator |
| `AgentStore.Store.Load` | plugins/agent-harness/store.go:71-109 | a store rebuilt from its log holds that log's replay |
| `AgentStore.Store.Append` | plugins/agent-harness/store.go:152-182 | an acknowledged append is logged and applied, a failed one changes nothing |
| `AgentStore.Store.RecordCompleted` | plugins/agent-harness/store.go:190-201 | a run is completed exactly when it exists and is still running, with the status, frames and references the provider's return names, and nothing else changes |
| `AgentStore.Store.RecordCancelled` | plugins/agent-harness/store.go:203-214 | a run is cancelled exactly when it exists and is still running |
| `AgentStore.ContextsListTheirRuns` | plugins/agent-harness/store.go:111-150 | a context lists exactly the runs started in it, in order |
| `AgentStore.LoggedEndsOnce` | plugins/agent-harness/store.go:190-214 | the guarded records keep every run to at most one terminal record, the one its state shows |
| `AgentStore.RunEntry.Cancel` | plugins/agent-harness/runreg.go:8-12 | the cancel function is called once however often it is asked for |
| `AgentStore.RunRegistry.Stop` | plugins/agent-harness/runreg.go:32-41 | stopping a registered run fires its cancel function exactly once overall and returns its channel; the run stays registered |
| `AgentRuns.StepKeepsInv` | plugins/agent-harness/handlers.go:91-205 | every step of a run, a cancel or a restart keeps store, live table, goroutines, cancels and given replies consistent |
| `AgentRuns.AtMostOneTerminalRecord` | plugins/agent-harness/store.go:190-214 | in every interleaving a run has at most one terminal record, and exactly one once it has ended |
| `AgentRuns.SuccessIsFinal` | plugins/agent-harness/handlers.go:165-205 | what a successful cancel replied is what the store holds from then on |
| `AgentRuns.ConflictIsFinal` | plugins/agent-harness/handlers.go:161-200 | a conflict reply names the status the run keeps |
| `AgentRuns.RepliesFit` | plugins/agent-harness/handlers.go:150-205 | in every interleaving a reply is Missing exactly when the run is not stored, a conflict names its end, a success carries it, a time-out is the timer's, and a failure is a refused or failed write or a stopped run still running in the store |
| `AgentRuns.LooksGoOn` | plugins/agent-harness/handlers.go:150-163 | a cancel goes on from a lookup if and only if the run is still running |
| `AgentRuns.EndIsReported` | plugins/agent-harness/handlers.go:91-107 | an ended run shows the status its provider returned, or CANCELLED after a cancel's write |
| `AgentRuns.LiveReplyAfterProvider` | plugins/agent-harness/handlers.go:163-177 | on the path of a live run every reply but the time-out comes only after its provider has returned |
| `AgentRuns.OnlyTheTimerRepliesEarly` | plugins/agent-harness/handlers.go:164-177 | a live cancel can be answered while its provider is at work by the 30-second timer, and by nothing else |
| `AgentRuns.ProviderOutlivesEarlyCancelOnly` | plugins/agent-harness/handlers.go:77-107 | success can be replied while the provider is still to start or at work if and only if the cancel looked between the recording of the run and its registration |
| `Journal.Journal.VerifyAndLoadTail` | plugins/foundation/event-journal/main.go:50-86 | verification succeeds if and only if the journal is intact and every line is below the scanner's limit, and yields the last hash; otherwise it names the first bad line and what is wrong with it |
| `Journal.Journal.Append` | plugins/foundation/event-journal/main.go:88-137 | an accepted event becomes one record that names the last hash known; an intact journal stays intact if and only if that is the last hash of the file, and a verifiable one verifiable if and only if the record's line also fits the scanner; a refused or failed one changes nothing |
| `Journal.Journal.Replay` | plugins/foundation/event-journal/main.go:139-184 | a page is the records from the index asked for, up to the effective limit; a broken chain anywhere is an integrity error, unless a line above the scanner's limit stops it first, which is an IO error |
| `Journal.PageExact` | plugins/foundation/event-journal/main.go:143-182 | a page holds the records from the index asked for, or from 0, as many as were asked for if between 1 and 1000 and else 100, as far as there are so many, and next goes on by as many |
| `Journal.TailDeterminesJournal` | plugins/foundation/event-journal/main.go:41-86 | with a collision-free, never-empty digest two intact journals have the same last hash if and only if they are equal record for record |
| `Journal.StaleAppendBreaksChain` | plugins/foundation/event-journal/main.go:101-130 | with such a digest a runtime that last read the first n lines and appends leaves the chain intact if and only if these were all the lines |
| `Journal.SoundBefore` | plugins/foundation/event-journal/main.go:57-84 | what verifies verified at every earlier point, so one broken or over-long line blocks the journal for good |
| `Journal.PrefixIsIntact` | plugins/foundation/event-journal/main.go:50-86 | a truncated journal is still intact: only the last hash tells |
| `Journal.ReplayVia` | plugins/engineering-workflow/handlers.go:298-319 | paging until next stops advancing terminates and returns, without gap or duplicate, the journal as the last page found it, with appends in between; otherwise a page failed |
| `Journal.PageExtends` | plugins/foundation/event-journal/main.go:170-182 | a page continues a prefix without gap or overlap, and next stays put exactly at the end |

## Left out

- Sockets, pipes, process start and kill, git, memory and CPU limits, the command line, token hashing.
- Epochs, versions and sequence numbers are unbounded; 64-bit overflow is not modelled.
- Manifest admission (`AddManifest`): its results are assumptions above; it does not compare modes inside one manifest.
- Registry.Registry.LoadFences: assumes files the host wrote, so unreadable or foreign lease files are not modelled.
- Registry.WithWriteFence: the file lock is the atomicity of the step; a missing fence root and read errors are not told apart.
- Registry.Registry.Resolve: error texts are shortened, and provider, service and authority hints are plain strings.
- Supervisor.Supervisor.ReconcileDependencies: the status table it writes for display, optional capabilities included, is not modelled.
- Supervisor.Supervisor.Start: what precedes the plugin's ready message is one flag; heartbeats and restarts after an exit are other events of the same kinds.
- Convergence on cyclic dependency graphs: some visiting orders oscillate, so only the early-stop result is claimed there.
- Boot.Boot: a start that fails is fixed per plugin, and nothing exits during boot.
- Contracts.CompareSchema: the order and wording of the problems reported; additionalProperties is a boolean, as the code generator demands; patternProperties is an opaque keyword; a version is its parsed major number.
- Router.RouterObject.Begin: provider choice is a parameter here (it is `Registry.Registry.Resolve`); kind mismatch, deadlines, missing clients and streams are not modelled.
- Router.RouterObject.Admit: a capability and its major version are one string; a scope is a set of patterns.
- Router.RouterObject.Publish: the payload, and delivery failures, which the source ignores.
- Router.RouterObject.Identify: a runtime id is never empty; the source treats an empty one as the host's own call on behalf of a plugin, which is `Host` here.
- Closing and sending on external stream channels.
- LogFile.Load: records carry no timestamps. Appending again after a torn tail is not covered, as the source does not cut the torn bytes off first.
- WorkRegistry.Store.Load: starts from an acknowledged log; damaged bytes are `LogFile.Load`. Unknown operations and `active_workspace_ref` are not modelled.
- Pipeline.RunPipeline: payload fields, reason texts and the default provider; the deadline is a finite number of calls, and the one function of the source is split by phase.
- TaskLifecycle.DoneIntegrity: replies of the two stores are truthful or lost, never forged.
- SharedLog.CurrentWritersKeepHistory: the work registry's log stands for the logs of the other stores; the journal, where any missed record matters, is `Journal.StaleAppendBreaksChain`.
- Promotions.PromotionsKeepHistory: lease files have distinct names; one authority is followed, and its guarded writes are the log's.
- LineFraming.ReadPipe: one pipe; the frame index, and the interleaving of the two pipes frame by frame, are not modelled.
- AgentRuns.LiveReplyAfterProvider: the time-out reply after 30 seconds may come before the provider has returned, so it is excepted.
- AgentRuns.SuccessIsFinal: child processes that outlive a plugin restart are not modelled.
- Journal.Journal.Append: identifiers, time and the JSON text are part of the material given.
- Artifact, tool-runner, session and workspace stores, the blob store and Go code generation: the same log pattern again, or easier.
