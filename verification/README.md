# Functions invoker: container lifecycle, firewall and friends, verified

An invoker runs serverless functions in containers. This project models the parts of it in which
state, concurrency or text transformations are hard to get right, and proves what they are for.

**Container lifecycle** (`Lifecycle*.dfy`, `IdleLists.dfy`, `Client.dfy`). The pool, the container
factory and the runner are one transition system. Any number of invocations run beside the deletion
goroutine, the reaper and the prewarm goroutine. Every atomic action is a step of one thread: semaphore
operations, counter updates, critical sections, channel operations, docker and firewall calls. What
docker, the firewall and the function answer is part of the step and therefore arbitrary.
`LifecycleInvariant` states the invariant, `LifecycleSteps` and `LifecycleListSteps` show that every
step keeps it, `LifecycleTheorems` draws the conclusions for all reachable states,
`LifecycleProgress` shows that nobody waits forever. `LifecycleGet` shows that an attempt nobody disturbs
does what `Get` does in one piece, from any state, and what it takes in every interleaving;
`LifecycleReturns` what becomes of a container that cannot be used, is removed or is returned;
`LifecycleFlows` how containers move through the queue and the prewarm lists. `LifecycleCap` and
`LifecycleSchedules` settle when the memory limit is kept, `LifecycleOrder` when the idle lists are sorted,
`LifecyclePauses` joins the pool with the pause handshake. `LifecycleCalls` composes runs of single callers
in any configuration; `LifecycleBound` and `LifecycleRuns` build on them the runs that show bounds and
conditions to be exact.

**The pool operation by operation** (`ContainerPool.dfy`). A class with the pool's fields and its nested
loops, each operation one step. At this level the memory limit is strict, eviction is exactly
least-recently-used and minimal, and reaping is a filter (`IdleLists.dfy`).

**Pausing** (`PauseHandshake.dfy`, `Docker.dfy`). The two-channel handshake between timer, pause
goroutine and pool, the retry loops around docker, and what each failure of the factory does to
addresses.

**One invocation** (`Runner.dfy`, `LogCollection.dfy`). `Invoke` with its exit paths and deferred calls,
its trace, its record, and the collection of logs up to the sentinels.

**Firewall** (`Text.dfy`, `Iptables.dfy`, `Firewall.dfy`, `FirewallTheorems.dfy`, `FirewallMeaning.dfy`,
`Addresses.dfy`, `FirewallNumbers.dfy`). The reconciler rewrites the text of a saved filter table. The text
is given its meaning by an interpreter for declaring, appending and inserting. Idempotence, preservation of
foreign rules and the decision on every packet are proved of the restored table, for every table, every
layout of the saved text and every way of the kernel to store rules that keeps their meaning. Addresses are
read as iptables reads them, so the decision is also stated in numbers.

**Smaller cores.** The single-flight function cache, for arbitrary evictions and for least-recently-used ones
(`FunctionCache.dfy`), the activation batcher (`Batcher.dfy`), and sizes in bytes (`Units.dfy`).

Some statements of the code or its comments hold under a condition only. Each condition is proved to be
exact, and a run or an input that fails it is given:

- The comment at pkg/exec/pool.go:39-40 says the memory limit is not exceeded. It is kept all along
  whenever warm containers are taken by the caller that has waited longest for the idle lock
  (`LifecycleSchedules.NoOvertakingKeepsCap`). In general it is not: the in-flight figure is read before
  that lock is taken. Only making space can raise idle memory and memory in use together
  (`LifecycleCap.OnlyMakingSpaceGrows`), so the limit holds if and only if each time the request still
  fits beside what stays idle and what is in use by then (`LifecycleSchedules.CapIsKeptIff`). What can
  be reached at most is twice the limit less the smallest request, and it is reached
  (`LifecycleBound.BoundIsExact`, `LifecycleBound.CapCanBeExceeded`).
- The comment at pkg/exec/pool.go:487-489 says idle lists are ordered by last use. Stamping and filing
  are separate, so two returns can swap (`LifecycleRuns.ListsCanGetOutOfOrder`); the lists are ordered if
  and only if nothing is filed behind a container used later (`LifecycleOrder.ListsAreOrderedIff`). The
  statements on eviction and reaping in `IdleLists.dfy` and `ContainerPool.dfy` are about ordered lists.
- At most one read per key is in progress if and only if the keys asked for fit the cache
  (`FunctionCache.SingleFlightIff`); then each key is read successfully at most once
  (`FunctionCache.SuccessIsReadOnce`).
- Foreign firewall rules survive if and only if none looks like one of the reconciler's own, by the name
  of its chain or the beginning of its text (`FirewallTheorems.ForeignRulesSurviveIff`,
  `FirewallMeaning.LookAlikeRulesAreLost`). A saved text is read completely if and only if no line is too
  long for the scanner or ends in a carriage return (`Text.ScanGivesLinesBackIff`).
- A parsed size is the size that was meant if and only if it fits 64 bits (`Units.ParsedIsMeantIff`).

## Model

| member | source | states |
|---|---|---|
| LifecycleTheorems.MemorySafety | pkg/exec/pool.go:229-245 | in every reachable state the counter is what the callers account for, at most the held weight, at most the limit; idle memory is the sum over all lists; idle and reserved memory stay within twice the limit; the exit that leaves the mutex locked is never taken |
| LifecycleTheorems.CounterNeverWraps | pkg/exec/pool.go:235-241 | adding and subtracting (by two's complement) on the 64-bit in-flight counter never wraps, and the semaphore never releases more than is held |
| LifecycleTheorems.IdleMemoryNeverWraps | pkg/exec/pool.go:323-352 | the 64-bit sums and differences of idle memory are the true ones |
| LifecycleTheorems.SingleOwnership | pkg/exec/pool.go:247-478 | every created container is in exactly one place, once, and when idle it is in the list of the key it was initialised for |
| LifecycleTheorems.InitialisedOnceForOneKey | pkg/runner/runner.go:260-346 | every container is initialised at most once, successfully before anything runs, and used for one key only |
| LifecycleTheorems.HandedOutForItsKey | pkg/exec/pool.go:257-317 | what a caller uses is bound to its key, charged with its memory, unused if fresh and initialised for the key if reused |
| LifecycleTheorems.NeverForAnotherKey | pkg/exec/pool.go:421-445 | over any continuation of any run, a container once used for a key is never handed out for another |
| LifecycleTheorems.PausesArePaired | pkg/exec/pool.go:456-457 | every idle, queued or about-to-be-unpaused container has exactly one pause scheduled, and one in use or being removed has none |
| LifecycleTheorems.AddressesAreConserved | pkg/exec/docker/container.go:110-130 | free addresses, addresses under creation and addresses of containers not removed are together exactly the initial ones |
| LifecycleTheorems.NoSharedAddress | pkg/exec/docker/container.go:146-149 | no two containers that are not removed share an address, and such an address is not handed out |
| LifecycleTheorems.NoLostWakeup | pkg/exec/pool.go:205-220 | whenever no poke is buffered, nothing is being created or retried and nobody is about to poke, every configured prewarm count is reached |
| LifecycleTheorems.StepKeeps | pkg/exec/pool.go:225-582 | every step of every thread keeps the whole invariant |
| LifecycleTheorems.RunKeeps | pkg/exec/pool.go:225-582 | so does every run |
| LifecycleTheorems.StepRemembers | pkg/exec/pool.go:247-478 | no step forgets what was done with a container, its key once used, or its address |
| LifecycleListSteps.RoomIsFound | pkg/exec/pool.go:339-344 | evicting everything always makes enough room, so the defensive exit is unreachable |
| LifecycleProgress.ThreadCanStep | pkg/exec/pool.go:225-582 | a thread that neither rests nor waits can take its next step |
| LifecycleProgress.LockedGetCompletes | pkg/exec/pool.go:323-355 | the locked section can always complete |
| LifecycleProgress.NoDeadlock | pkg/exec/pool.go:357-364 | while any thread is not at rest, some thread can go on: no deadlock between the semaphore, the bounded channel, the locks and the goroutines |
| LifecycleProgress.InvocationsEnd | pkg/exec/pool.go:229-245 | every step of an invocation brings it closer to its end |
| LifecycleGet.UndisturbedGetSucceedsIff | pkg/exec/pool.go:229-446 | from any reachable state, a caller that nobody disturbs gets a container if and only if it is not canceled, no call fails, and a container that has to be created finds its runtime and a free address |
| LifecycleGet.UndisturbedGetTakesWarm | pkg/exec/pool.go:255-317 | with an idle container of its key it gets exactly the last one, running, with the firewall needed now; the whole state afterwards is given, and nothing else changes |
| LifecycleGet.UndisturbedGetTakesPrewarmed | pkg/exec/pool.go:319-412 | without one it makes room by the minimal evictions, sends them for deletion in order, takes the first prewarmed container of the kind and memory and pokes; the whole state afterwards is given |
| LifecycleGet.UndisturbedGetCreates | pkg/exec/pool.go:414-445 | without either a new container is created at the first free address, bound to the key, with its memory and firewall; the whole state afterwards is given |
| LifecycleGet.UndisturbedGetFails | pkg/exec/pool.go:237-242 | a failed attempt gives back exactly its memory; unless it was canceled while waiting, what it took off the lists is gone from them |
| LifecycleGet.WarmIsTaken | pkg/exec/pool.go:257-265 | in every interleaving a caller at the idle lists takes the last container of its key if there is one, and the list loses exactly that one |
| LifecycleGet.PrewarmedIsTaken | pkg/exec/pool.go:371-380 | and a caller that made room takes the first prewarmed container of its kind and memory if there is one, and goes on to creation only otherwise |
| LifecycleGet.TakingIsFollowedByPoke | pkg/exec/pool.go:382-389 | whose next step leaves the poke buffered |
| LifecycleGet.ColdOnlyWithoutPrewarmed | pkg/exec/pool.go:371-418 | whichever step it is, a creation for a caller starts only from a state without a prewarmed container of its kind and memory |
| LifecycleReturns.UnpausedOrRemoved | pkg/exec/pool.go:266-292 | a warm container that does not unpause is removed, and given up only if its state cannot be fetched |
| LifecycleReturns.AdjustedOrRemoved | pkg/exec/pool.go:294-313 | one that runs has the firewall needed now when it is handed out, or is removed |
| LifecycleReturns.BoundOrRemoved | pkg/exec/pool.go:391-445 | a container that is new to its key is handed out bound to it and with a firewall exactly if one is needed, or is removed |
| LifecycleReturns.CreatedOrReturned | pkg/exec/docker/container.go:146-203 | for callers and prewarming alike, an address goes back to the end of the list if docker creates nothing for it |
| LifecycleReturns.RemovalDecides | pkg/exec/pool.go:84-99 | a container is gone and its address free exactly if its firewall could be taken down and docker removed it, otherwise the address is never free again; whoever removes goes on the same |
| LifecycleReturns.DeletersTakeTheFirst | pkg/exec/pool.go:186-187 | the deletion goroutine takes what has waited longest, and the reaper works off what it collected in order |
| LifecycleReturns.UnpausedThenRemoved | pkg/exec/pool.go:187-196 | what is doomed is unpaused and then removed whatever comes out of unpausing |
| LifecycleReturns.ReaperCollects | pkg/exec/pool.go:484-511 | the reaper collects, list by list in any order of the keys, what was last used no later than the cutoff |
| LifecycleReturns.MissingIsPlanned | pkg/exec/pool.go:536-553 | a reconciliation plans exactly what each configured count lacks |
| LifecycleReturns.PlanIsCarriedOut | pkg/exec/pool.go:565-580 | it creates one planned container after the other and rests only when none is left |
| LifecycleReturns.PokeIsConsumed | pkg/exec/pool.go:209 | a reconciliation starts only on a poke and consumes it |
| LifecycleReturns.FailurePokes | pkg/exec/pool.go:211-219 | after a failure another one is due |
| LifecycleReturns.AnyAnswerCanCome | pkg/exec/pool.go:225-582 | in every reachable state, docker, the firewall and the function can give any answer to whoever waits for it, and any caller can arrive or be canceled |
| LifecycleReturns.OperationsAreRecorded | pkg/runner/runner.go:260-346 | a caller does with its container only what the client protocol allows, it is recorded of that container, and nothing else changes |
| LifecycleReturns.UndisturbedPut | pkg/exec/pool.go:450-463 | a return that nobody disturbs stamps the container, schedules its pause, files it last under its key and takes its memory out of flight; the whole state afterwards is given |
| LifecycleFlows.LinesAreFifo | pkg/exec/pool.go:363-365 | in every run, what waited and what joined the deletion queue, or a prewarm list, is what left it and what still waits, in this order |
| LifecycleFlows.QueueHoldsSixteen | pkg/exec/pool.go:150-154 | never more than sixteen containers wait to be deleted, and sending waits exactly while sixteen do |
| LifecycleFlows.AdmittedIffItFits | pkg/exec/pool.go:232-234 | a request is admitted exactly while its memory fits beside what is held |
| LifecycleFlows.DoomedNeverReturns | pkg/exec/pool.go:184-203 | over any continuation of any run, a container chosen for deletion, removed or given up is never idle, prewarmed or in use again |
| LifecycleFlows.PrewarmIsExact | pkg/exec/pool.go:529-582 | in every reachable state there are never more prewarmed containers of a kind and memory than configured, and whenever prewarming is quiet there are exactly as many |
| LifecycleCap.MakingSpaceKeepsCapIff | pkg/exec/pool.go:323-354 | making space keeps the memory limit if and only if the snapshot is no staler than the slack the guard leaves: staleness is what is in use by now together with the request, less the snapshot |
| LifecycleCap.SpaceCanBeMadeSafelyIff | pkg/exec/pool.go:323-354 | before the step: every way to make space now keeps the limit if and only if that holds for every eviction the guard allows |
| LifecycleCap.GuardAllowsIff | pkg/exec/pool.go:323-352 | the evictions the guard allows are exactly the minimal ones in order of last use that make room beside the snapshot |
| LifecycleCap.OnlyMakingSpaceGrows | pkg/exec/pool.go:257-262 | no other step raises idle memory and memory in use together |
| LifecycleSchedules.CapIsKeptIff | pkg/exec/pool.go:39-40 | a run keeps the limit in all its states if and only if nobody makes space on a snapshot staler than the slack, that is, each request fits beside what stays idle and what is in use by then |
| LifecycleSchedules.NoOvertakingKeepsCap | pkg/exec/pool.go:235-237 | the limit is kept all along if every warm container is taken by the caller that took its snapshot first among those still waiting for the lock |
| LifecycleSchedules.PopsAloneKeepCap | pkg/exec/pool.go:235-262 | so it is if no warm container is taken while another caller is between its snapshot and the lock |
| LifecycleSchedules.FreshSnapshotsKeepCap | pkg/exec/pool.go:235-256 | and so if every snapshot is directly followed by the locked section of the same caller: as one step the limit is strict |
| LifecycleBound.FootprintIsBounded | pkg/exec/pool.go:323-354 | idle memory and memory in use together stay within twice the limit less the smallest request, in every reachable state |
| LifecycleBound.TwiceTheLimitIsApproached | pkg/exec/pool.go:235-262 | for every configuration with two functions of a size that divides the limit there is a run to twice the limit less one request |
| LifecycleBound.BoundIsExact | pkg/exec/pool.go:39-40 | so with no smaller function that is the exact bound: never exceeded, and reached |
| LifecycleBound.CapCanBeExceeded | pkg/exec/pool.go:235-237 | an instance with room for two containers: a reachable state beyond the limit |
| LifecycleOrder.StepKeepsOrderIff | pkg/exec/pool.go:455-462 | a step from lists sorted by last use leads to sorted lists if and only if it does not file a container behind one used later |
| LifecycleOrder.ListsAreOrderedIff | pkg/exec/pool.go:487-489 | the lists are sorted in all states of a run if and only if nothing is ever filed so |
| LifecycleOrder.ReturningInOneGoKeepsOrder | pkg/exec/pool.go:450-463 | they are if stamping and filing follow each other directly and the clock does not go back |
| LifecycleRuns.ListsCanGetOutOfOrder | pkg/exec/pool.go:455-462 | for every function of which two containers fit and any two stamps: a reachable unsorted list, in which the reaper leaves an old container behind a younger one |
| LifecyclePauses.PoolCallsAlternate | pkg/exec/pool.go:456-457 | in every run, the pool's calls on each container alternate between scheduling a pause and unpausing, whoever makes them |
| LifecyclePauses.PoolAndHandshakeAgree | pkg/exec/docker/container.go:528-573 | any run of the pool with any run of the handshake that has the same calls and answers: pauses are paired, at most one goroutine exists, a container in a caller's hands is running with no pause left to fire, and a pause is scheduled in one exactly if it is in the other |
| IdleLists.HeadsSuffice | pkg/exec/pool.go:331-336 | the oldest list head is oldest among all idle containers, and conversely |
| IdleLists.EvictionIsLru | pkg/exec/pool.go:324-353 | evictions come in order of last use, and no survivor is older than what was evicted |
| IdleLists.EvictionsAgree | pkg/exec/pool.go:326-337 | with distinct stamps the order of the map does not matter |
| IdleLists.EvictionIsMinimal | pkg/exec/pool.go:350-352 | evicting starts only if room is missing and stops at the first fit; every other way to make room evicts these containers first |
| IdleLists.EvictsConserves | pkg/exec/pool.go:346-348 | evictions conserve memory and every single container |
| IdleLists.EvictsPartitions | pkg/exec/pool.go:346-348 | what was idle is evicted or survives, and nothing else appears |
| IdleLists.RoomCanBeMade | pkg/exec/pool.go:339-344 | room can always be made when the in-flight memory alone fits |
| IdleLists.PrefixScanIsFilterIff | pkg/exec/pool.go:487-499 | the prefix scan removes exactly what is old, for every cutoff, if and only if the list is sorted |
| IdleLists.ReapsKeeps | pkg/exec/pool.go:486-510 | in any order of the keys, what is young stays in order and empty keys go |
| IdleLists.ReapsRemoves | pkg/exec/pool.go:486-510 | and exactly what is old is removed |
| IdleLists.ReapIsFilter | pkg/exec/pool.go:481-511 | reaping refines a filter over all idle containers and conserves memory |
| ContainerPool.OldestOfHeads | pkg/exec/pool.go:325-337 | one sweep finds an oldest head, or there is nothing idle |
| ContainerPool.ContainerPool.MakeSpace | pkg/exec/pool.go:322-355 | evicts a minimal run in order of last use; fails, leaving the mutex locked, only if the in-flight memory alone exceeds the limit |
| ContainerPool.ContainerPool.TakeWarm | pkg/exec/pool.go:257-317 | takes the most recently used container of the key; the error tells which call failed |
| ContainerPool.ContainerPool.TakePrewarmed | pkg/exec/pool.go:376-410 | takes the first prewarmed container and pokes |
| ContainerPool.ContainerPool.CreateCold | pkg/exec/pool.go:414-445 | creates a container nobody else has |
| ContainerPool.ContainerPool.GetContainer | pkg/exec/pool.go:247-446 | warm before prewarmed before cold; evicted containers are sent for deletion in order; the defensive exit is unreachable |
| ContainerPool.ContainerPool.Get | pkg/exec/pool.go:229-245 | keeps the strict limit and all books; success charges exactly the memory, every error restores counter and semaphore and names the call that failed; a prewarmed container, and only that, causes a poke |
| ContainerPool.ContainerPool.Put | pkg/exec/pool.go:450-463 | files the container last in the list of its key, stamped, and moves its memory from in flight to idle |
| ContainerPool.ContainerPool.PutToDestroy | pkg/exec/pool.go:467-478 | releases the memory whether or not the removal succeeds |
| ContainerPool.ContainerPool.CountOld | pkg/exec/pool.go:490-499 | finds the old prefix of one list and takes exactly its memory off the books |
| ContainerPool.ContainerPool.Reap | pkg/exec/pool.go:481-527 | takes out exactly the idle containers last used no later than the cutoff, tries to remove each of them exactly once whatever fails, and reports in order those that could not be unpaused or removed; not unpausing is no fault of the pool if the user broke the container |
| ContainerPool.ContainerPool.PlanPrewarm | pkg/exec/pool.go:536-551 | plans what is missing for every configured kind and memory, in any order of the runtimes, skipping default ones |
| ContainerPool.ContainerPool.CreatePrewarm | pkg/exec/pool.go:559-580 | adds the missing containers up to the first failure, at the end of a list from whose front others take meanwhile |
| ContainerPool.ContainerPool.ReconcilePrewarm | pkg/exec/pool.go:534-582 | with others taking prewarm containers meanwhile: unless a creation fails, exactly what was missing is added to every list, nothing else is, and then every wanted count is reached or another reconciliation is due |
| ContainerPool.DistinctMemoriesAreWanted | pkg/exec/pool.go:543-549 | with distinct memories every configured count is the wanted one |
| ContainerPool.LastCountIff | pkg/exec/pool.go:543-549 | of several counts configured for a memory exactly the last one is wanted, and none for others |
| ContainerPool.DefaultsInFull | pkg/exec/pool.go:540-542 | exactly the runtimes listed under a name that ends in ":default" are skipped |
| PauseHandshake.OneGoroutine | pkg/exec/docker/container.go:530-545 | exactly one pause goroutine exists from scheduling to the answer, none otherwise |
| PauseHandshake.NilMeansRunning | pkg/exec/docker/container.go:547-573 | after a nil result the container runs and no earlier pause can fire |
| PauseHandshake.ErrorsComeFromDocker | pkg/exec/docker/container.go:554-565 | an error is returned only after docker gave up pausing or unpausing |
| PauseHandshake.ErrorsTellWhatDockerDid | pkg/exec/docker/container.go:549-566 | in every paired run, each result is an error if and only if docker failed, or claimed eleven times, while pausing or unpausing since the last PauseEventually; after a failed pause no unpausing is tried, and a container that was not paused is not unpaused |
| PauseHandshake.AnyAnswerCanCome | pkg/exec/docker/container.go:485-545 | the timer can fire and docker can answer any attempt in any way |
| PauseHandshake.NoDeadlock | pkg/exec/docker/container.go:539-542 | while UnpauseIfNeeded has not returned, the call or its goroutine can act, and nothing else is started |
| PauseHandshake.AnswerArrives | pkg/exec/docker/container.go:549-573 | it returns within 28 steps, in every interleaving of timer, goroutine and pool |
| PauseHandshake.OwnerStands | pkg/exec/docker/container.go:547-573 | the last answer tells where the owner stands, in every interleaving |
| PauseHandshake.AlternatingCallsArePaired | pkg/exec/docker/container.go:528-573 | whoever alternates its calls keeps the pairing, however timers, goroutines and docker interleave with them |
| PauseHandshake.UnpairedPausesFreezeAContainerInUse | pkg/exec/docker/container.go:528-531 | without the pool's pairing of calls a container in use can be paused |
| Docker.ContainerFactory.AcquireIP | pkg/exec/docker/container.go:111-122 | takes the first free address, if any |
| Docker.ContainerFactory.CreateContainer | pkg/exec/docker/container.go:133-250 | for every mix of failures, whether the address is untouched, returned, or held with what docker keeps |
| Docker.Container.Remove | pkg/exec/docker/container.go:576-622 | the address is freed exactly when docker removed the container, even if an error follows |
| Docker.Container.Retry | pkg/exec/docker/container.go:479-526 | the first answer that is no claim decides, among at most eleven attempts |
| Runner.Runner.Diagnose | pkg/runner/runner.go:303-334 | memory exhausted or exited gives that text and no timeout, whatever else happened; a timeout is flagged if and only if the deadline passed and neither applies; otherwise the reported error, if any, or an abnormal end |
| Runner.Runner.RunFunction | pkg/runner/runner.go:339-432 | runs once, breaks the container on every failure but a too large response, and sets status, result, error and times |
| Runner.Runner.Initialize | pkg/runner/runner.go:260-337 | initialises once, grants at least ten seconds, and breaks the container on every failure |
| Runner.Runner.UseContainer | pkg/runner/runner.go:260-431 | status, result, error, timeout flag and times for every outcome of the calls |
| Runner.Runner.AwaitLogs | pkg/runner/runner.go:208-240 | the logs are a collection of the arrived lines, plus one explanation and a broken container on a timeout |
| Runner.Runner.WithContainer | pkg/runner/runner.go:180-240 | calls, then logs, then exactly one return; destroyed exactly when initialisation failed, the run failed other than by its response limit, or the logs timed out |
| Runner.Runner.Perform | pkg/runner/runner.go:128-189 | the trace and the activation on every path, with or without a container |
| Runner.Runner.Invoke | pkg/runner/runner.go:51-432 | always an activation; the record written last, at most once, only if wanted, is the final one; exactly one of result and error is set; a system error only without a container; memory and crash go before the deadline; at least ten seconds are granted to an initialisation; destroyed exactly when initialisation failed, the run failed other than by its response limit, or the logs timed out |
| Runner.OpsKeepTheProtocol | pkg/runner/runner.go:180-189 | what the runner does with its container is a complete run of the pool's client protocol |
| Runner.UseInFull | pkg/runner/runner.go:180-432 | the whole sequence of uses of a container for every outcome of its calls |
| Runner.ResponseInFull | pkg/runner/runner.go:384-432 | result, error and status for every response of a run, null and error properties included, and for responses that are too large |
| Runner.RefusalInFull | pkg/runner/runner.go:128-178 | the record of an invocation that got no container, by what failed |
| Runner.TimesInFull | pkg/runner/runner.go:286-289 | start, end and initialisation time of every record |
| Runner.MessagesInFull | pkg/protocol/messages.go:10-47 | the texts an activation can end with, letter by letter |
| Client.ReadyRunsIff | pkg/runner/runner.go:180-240 | the complete uses of a ready container are exactly: run, collect logs, and put back, or destroy if the run failed or the logs timed out |
| Client.FreshRunsIff | pkg/runner/runner.go:260-337 | those of a fresh one begin with one initialisation, and end in destruction if it fails |
| Runner.ResponseIsSetOnce | pkg/entities/activation.go:73-80 | exactly one of result and error is set |
| Runner.TimesAreOrdered | pkg/runner/runner.go:286-289 | start precedes end, and the initialisation time is not negative |
| LogCollection.CollectLogs | pkg/runner/runner.go:437-473 | consumes exactly through both sentinels, or up to the cancellation; returns the longest prefix of formatted lines within the limit, and one notice exactly if a line did not fit |
| LogCollection.LongestIsLongest | pkg/runner/runner.go:460-467 | every prefix that fits is at most that long |
| LogCollection.CollectionsSplitAtSegments | pkg/runner/runner.go:434-436 | successive collections on one container split the stream exactly at the ends of the invocations |
| LogCollection.SegmentInFull | pkg/runner/runner.go:444-455 | collection ends exactly at the first sentinel of one stream after that of the other |
| LogCollection.FormattedInFull | pkg/runner/runner.go:461-468 | every line that is no sentinel is formatted, in order, and nothing else |
| LogCollection.FormatInFull | pkg/runner/runner.go:475-477 | time filled up to thirty characters, stream, message |
| LogCollection.NoticeInFull | pkg/protocol/messages.go:44-47 | the notice about truncated logs names the limit |
| Firewall.ServiceLine | pkg/firewall/firewall.go:265-267 | the line of a service rule is an append to WHISK-FIREWALL |
| Firewall.ScanRules | pkg/firewall/firewall.go:115-182 | keeps in order the relevant lines that are not written anew, and finds the chains |
| Firewall.AddNodes | pkg/firewall/firewall.go:205-217 | one reject rule per external node address |
| Firewall.AddServices | pkg/firewall/firewall.go:219-232 | one rule per address of every subset |
| Firewall.AddWhiskRules | pkg/firewall/firewall.go:202-245 | all rules of WHISK-FIREWALL, in order |
| Firewall.Reconcile | pkg/firewall/firewall.go:112-250 | the text is what stays, the missing chains, the jumps, the rules and the commit |
| Text.ScanGivesLinesBackIff | pkg/firewall/firewall.go:116-125 | scanning joined lines gives them back if and only if none is too long and none ends in a carriage return |
| Text.ScanStopsAtLongLine | pkg/firewall/firewall.go:124-125 | a line too long for the scanner ends the scan: it and all later lines are lost |
| Text.LinesInFull | pkg/firewall/firewall.go:247-249 | joined lines are each ended by a line break, the last one too |
| Iptables.ParseOfShow | pkg/firewall/firewall.go:23-27 | every command is read back from its line |
| FirewallTheorems.DeclarationIsFound | pkg/firewall/firewall.go:132-135 | a chain's declaration is found exactly when the table has the chain |
| FirewallTheorems.ReconcilingRestoresTarget | pkg/firewall/firewall.go:112-250 | saving in any layout, reconciling and restoring succeeds and gives the target table |
| FirewallTheorems.ReconcilingIsIdempotent | pkg/firewall/firewall.go:69 | doing so again, with the same cluster, changes nothing |
| FirewallTheorems.WhatReconcilingDoes | pkg/firewall/firewall.go:184-249 | the jumps lead FORWARD and INPUT, WHISK-FIREWALL holds exactly the wanted rules, no policy changes |
| FirewallTheorems.ForeignRulesSurviveIff | pkg/firewall/firewall.go:169-178 | in the restored table all foreign rules keep content and order if and only if no foreign rule looks like one of the reconciler's own |
| FirewallTheorems.LookAlikeChainIsEmptied | pkg/firewall/firewall.go:170-172 | a foreign chain whose name extends WHISK-FIREWALL loses all its rules |
| FirewallMeaning.LookAlikeRulesAreLost | pkg/firewall/firewall.go:170-176 | a table in which a rule of a chain WHISK-FIREWALL-LOG and a jump to a chain WHISK-FIREWALL2 are lost |
| FirewallTheorems.LooksRenewed | pkg/firewall/firewall.go:170-176 | which chain names and rules look so |
| FirewallTheorems.RawTextIsNotAFixedPoint | pkg/firewall/firewall.go:194-200 | without restore and save in between, every pass leaves three more jumps in the text |
| FirewallMeaning.ServiceVerdict | pkg/firewall/firewall.go:265-267 | a service rule, read as iptables does, applies its action to what leaves the bridge for its destination, and to nothing else |
| FirewallMeaning.EstablishedVerdict | pkg/firewall/firewall.go:202-203 | established connections are accepted |
| FirewallMeaning.LinkLocalVerdict | pkg/firewall/firewall.go:241-242 | link-local traffic from the container network is rejected |
| FirewallMeaning.NodesVerdict | pkg/firewall/firewall.go:205-217 | external node addresses are rejected, for lists of any length |
| FirewallMeaning.WhiskVerdict | pkg/firewall/firewall.go:202-245 | the first matching rule takes the intended decision on every packet |
| FirewallMeaning.ReconciledFirewallDecides | pkg/firewall/firewall.go:112-250 | so it does in the table restored from the reconciled text |
| FirewallMeaning.FreshHostDecides | pkg/firewall/firewall.go:112-250 | and it does on a fresh host whose kernel stores rules verbatim, for every cluster of plain names and addresses |
| FirewallNumbers.FirewallDecidesInNumbers | pkg/firewall/firewall.go:112-250 | in the restored table, for every packet: answers are accepted, external node and API addresses rejected, DNS accepted, then 10.0.0.0 to 10.255.255.255 and the bridge network rejected, and 169.254.0.0 to 169.254.255.255 for what comes from the bridge network; everything else returns |
| FirewallNumbers.InsideIsRejected | pkg/firewall/firewall.go:234-242 | no packet from the bridge network to these ranges is let through, and only DNS is accepted |
| FirewallNumbers.JumpsLead | pkg/firewall/firewall.go:194-200 | in the restored table FORWARD begins with the jumps to the rules of single containers and to the common ones, and INPUT with that to the common ones |
| FirewallNumbers.ServiceLineInFull | pkg/firewall/firewall.go:265-267 | the line of a service rule, letter by letter |
| FirewallNumbers.FixedLinesInFull | pkg/firewall/firewall.go:23-27 | the chain declarations and the inserted jumps, letter by letter and in order |
| Addresses.NetworkIsRead | pkg/firewall/firewall.go:234-242 | four decimal numbers and a prefix length are read as the network they denote, without a length as one address |
| Addresses.AddressCoversItself | pkg/firewall/firewall.go:215 | a single address covers itself and nothing else |
| Addresses.TenNetwork | pkg/firewall/firewall.go:234-236 | 10.0.0.0/8 covers 10.0.0.0 to 10.255.255.255 |
| Addresses.LinkLocalNetwork | pkg/firewall/firewall.go:241-242 | 169.254.0.0/16 covers 169.254.0.0 to 169.254.255.255 |
| FunctionCache.EachEntryIsReadOnce | pkg/entities/function_cache.go:66-74 | the reader runs at most once per entry, by one call |
| FunctionCache.NoFailureStaysCached | pkg/entities/function_cache.go:68-72 | no completed failure is in the cache |
| FunctionCache.KeysLeaveWhenEvictedOrFailed | pkg/entities/function_cache.go:66-75 | a key leaves the cache only when an added entry pushes it out of a full cache or a read of it failed, and as long as it stays so does its entry |
| FunctionCache.SuccessIsReadOnce | pkg/entities/function_cache.go:47-86 | in every run over keys that fit the cache, a function that was read successfully stays cached with this answer and is never read again: at most one successful read per key |
| FunctionCache.HitsAttach | pkg/entities/function_cache.go:49-61 | whoever finds an entry attaches to it without reading; only who finds none with the lock held adds one |
| FunctionCache.AttachedShareTheAnswer | pkg/entities/function_cache.go:58-86 | all who are attached to an entry get its one answer, success or error, and the first of them reads it |
| FunctionCache.ReadersAnswerIsReturned | pkg/entities/function_cache.go:66-74 | the call that reads returns the answer it got, and after an error the key is gone from the cache first |
| FunctionCache.OrderListsTheCache | pkg/entities/function_cache.go:20 | in every run of the least-recently-used cache the order of use lists exactly the cached keys |
| FunctionCache.UsesMoveToTheEnd | pkg/entities/function_cache.go:49-75 | finding and adding a key move it to the end of that order, and adding pushes out the first |
| FunctionCache.AnswersAreTheReaders | pkg/entities/function_cache.go:47-86 | every answer is the reader's for exactly this name and revision |
| FunctionCache.SingleFlightIff | pkg/entities/function_cache.go:50-75 | for every cache size: at most one read per key is in progress in every run that asks for these keys only, if and only if all keys fit the cache; both for arbitrary evictions and for those of the key not used for longest |
| FunctionCache.EvictionCanDoubleARead | pkg/entities/function_cache.go:63-75 | for every size and more keys than that, a run of a cache that evicts the key not used for longest, with two reads of one key in progress |
| FunctionCache.NoDeadlock | pkg/entities/function_cache.go:47-86 | while a call has not returned, some call can go on |
| Batcher.Worker.Flush | pkg/couchdb/batcher.go:153-163 | hands the batch to one write unless it is empty, and drops it if that fails |
| Batcher.Worker.Collect | pkg/couchdb/batcher.go:134-143 | writes the batch first exactly if the activation would make it exceed 5242880 bytes |
| Batcher.Worker.Run | pkg/couchdb/batcher.go:132-150 | for any arrivals, ticks and failing writes: what was received is written exactly once, in order, in proper batches, with nothing left; all of it arrives if and only if no write fails; greedy without ticks |
| Batcher.NothingIsDroppedIff | pkg/couchdb/batcher.go:158-163 | what arrives is all that was written if and only if every write succeeded |
| Batcher.FewWrites | pkg/couchdb/batcher.go:23-25 | greedy batches number at most twice the total over the limit, plus one |
| Batcher.LeastWrites | pkg/couchdb/batcher.go:23-25 | any batches within the limit number at least the total over the limit |
| Batcher.ActivationBatcher.OnTick | pkg/couchdb/batcher.go:78-86 | a tick flushes every worker and disturbs none |
| Units.RoundTrip | pkg/units/units.go:25-65 | every 64-bit size survives printing and parsing, with no overflow on the way |
| Units.LargestExactUnit | pkg/units/units.go:51-65 | a unit divides the size exactly if it is at most the printed one |
| Units.ParseOfNumberAndUnit | pkg/units/units.go:25-49 | what a number with a unit is parsed to, including rejection and wrap-around |
| Units.EverySpelling | pkg/units/units.go:25-49 | a number, an optional space and letters: exactly ten names are units, in upper and lower case, each with its factor; all other letters are rejected |
| Units.ParsedIsMeantIff | pkg/units/units.go:37-46 | the product is right if and only if it fits 64 bits |
| Units.TooManyGigabytes | pkg/units/units.go:39-40 | the smallest number of gigabytes that is too large is read as zero |

## Left out

- Docker, CouchDB, HTTP and Kubernetes clients: only their outcomes appear, as arbitrary answers.
- Time: the clock is a number that does not decrease, timers fire at any point, timeouts are outcomes.
- Metrics, logging, context events and the warnings about misplaced rules (pkg/firewall/firewall.go:136-167).
- Operations on the pool after its shutdown starts; the command only shuts it down once no invocation runs.
- The order in which the semaphore admits waiting requests: it admits one whenever it fits, so no fairness among waiting callers follows.
- Memory of a container: taken to be a function of its warm key, which is what a request reserves.
- Pooled containers and docker containers in the transition systems: values with an identity rather than objects, so aliasing is not modelled there.
- The function cache and the pause handshake: state machines over immutable states, since their point is interleaving; updates in place are not modelled.
- LifecycleProgress.InvocationsEnd: bounds the steps of an invocation that takes steps, and does not claim that a scheduler picks it.
- Firewall.Reconcile: fetching nodes, endpoints and the saved text and writing the result back are parameters and result.
- Iptables: the existence of jump targets at commit, tables other than filter, and rule options the reconciler never writes.
- Kernel rule storage: a parameter that stores a stored rule unchanged, leaves the plain jumps alone and keeps the meaning of the wanted rules.
- Runner.Runner.Invoke: annotations, limits, wait time and the payloads of the calls; JSON parsing is a parameter.
- LogCollection.CollectLogs: splitting streams into lines; it starts from log lines with formatted times.
- Batcher.Worker.Run: adding the document id to an activation.
- Units.ParseOfNumberAndUnit: letters and white space outside ASCII.
- The Kafka runner (pkg/kafka/runner.go): skips an invocation of a blocked namespace or a blocking one older than ten minutes, and otherwise runs it and writes one completion message, short for a non-blocking invocation and with the activation for a blocking one.
- The HTTP runner (pkg/http/runner.go): reads and parses one request, answers at once that it was received, runs the invocation and writes the same completion message.
- Decryption of parameters (pkg/encryption/decryptor.go): checks the length and the nonce length of a value and hands it to AES-GCM.
- Cluster events (pkg/firewall/events.go): trigger a reconciliation only when the addresses of a node, the DNS service or the two endpoints that matter change.
- Configuration, runtime manifests and the command line: read once at start into the values that are parameters here.
