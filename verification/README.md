# Delta CI: a verified model of its scheduler and planner

Delta CI plans a run from a diff, persists it as jobs with dependencies, and hands job attempts to
runners under leases. This project models the three parts that have to agree for that to be safe and
proves what they promise.

* **The lease-fenced orchestrator.** `Tables` holds the run, job, attempt, lease, queue and dependency
  tables, `Transactions` the store's atomic transactions, `Effects` the net effect of each handler and
  the `Step` of a whole history. `Persistence.Store` and `Orchestrator.Service` are the store and the
  service as classes; each handler is a sequence of store transactions and is proved to have exactly
  the effect `Effects` gives it, error paths with partial commits included. `Invariants` couples the
  tables, `Preservation` and `Evolution` carry the invariant and the allowed moves through every step,
  and `History`, `Verdicts`, `Progress`, `Clock`, `Dispatch` and `Sweeping` draw the conclusions for all
  histories of calls with arbitrary lease ids and timestamps, duplicates included. `Terms` says of each
  call when it is accepted and what the rows hold afterwards, `Visibility` when queued work is handed out,
  `Contents` what a job row tells its runner. `Continuing` and
  `Rehearsal` build histories; `Necessity`, `Hanging` and `Finishing` use them to say exactly which plans
  can make a run hang, that a hang is for good, and which verdicts are still in reach.
* **The same scheduler one transaction at a time.** `Threads` interleaves any number of calls, every
  read a moment of its own that may be stale when it is used; `Interleaving` and `Gating` prove what
  survives that: dependency gating and sound success. `Solo` shows that a call which nothing interrupts does
  exactly what the handler does, so that both models describe one scheduler. `Fences` adds the part of the lease fence that rests
  on the lease table alone, `Judgments` what FAILED rests on.
* **The diff planner.** `Ownership` and `Impact` find the affected projects, `Planner` builds the jobs,
  `Coverage` proves "expand, never shrink", and `Paths` says in terms of path components what each kind of
  path decides. `Waiting` follows a test from the plan to the scheduler: it is not released before its build
  has succeeded. `Bridge` shows that plans, and the recipes learned from
  them, meet what the scheduler's theorems ask of a plan; `Recipes` and `Replay` do the recipe round trip.
* **Idempotent creation.** `Idempotency` models triggers and reruns.

`Strings` holds Go's string order and path helpers, `Plans` the contract between planner and
orchestrator, `States` the transition tables, `Composition` and `Starting` the lemmas that compose
transactions into handler effects.

Conventions: ids are integers of which only the order matters, time is an integer, a handler reads its
clock once, JSON is the identity, and `ListJobsByRun` is creation order. Handlers assume the coupled
invariant, which holds of the empty database and which every step keeps, and that the ids they draw are
unused. Under interleaving neither is assumed.

## What the proofs found

* **Order matters for progress.** By `docs/architecture/state-machines.md:49` a run is FAILED when any
  required job failed. `finalizeRunIfReady` walks the jobs in creation order and returns at the first
  required job that is still pending, so a dependent listed before its failed dependency keeps the run
  RUNNING, with nothing queued and nothing leased, until somebody cancels it.
  `Hanging.MisorderedHangs` is a two-job plan that does so, `Hanging.HungForever` shows that such a hang
  is for good, and `Hanging.NeverHungExactly` gives the exact condition on plans: orderly, or without
  required jobs but with a job to begin with.
* **A recipe can hang where its plan cannot.** `buildRecipeJobs` sorts jobs by name, which may list a
  dependent before its dependency. `Bridge.RecipeNeverHungExactly` says exactly for which plans that
  matters, `Bridge.RecipeMayHang` gives a plan, and `Bridge.PlannedRunsNeverHang` shows that plans of the
  discovery path are safe, since "build" sorts before "lint" and "test".
* **Two modules may share the name "root".** A module directory literally called `root` and the
  repository root get the same project name, and one of them is not built. `Coverage.CoverageExact`
  says exactly when that happens, `Coverage.ClashLosesRepositoryRoot` gives the input.
* **The purge set is closed.** Dropping a queue row never strands work (`States.PurgedHolds`,
  `History.NoLostWork`).

## Model

| member | source | states |
|---|---|---|
| States.OneOutcome | state/states.go:24-36 | along legal run transitions no run has two different outcomes |
| States.PurgedHolds | state/queue.go:43-54 | the run states whose queue rows are purged are closed under run transitions |
| Persistence.Store.GrantLease | state/store.go:117-191 | the grant transaction commits exactly as specified, or changes nothing, including the partial unique index on live leases |
| Persistence.Store.RenewLease | state/store.go:194-310 | acknowledge and heartbeat reactivate an unexpired lease for one more TTL, or change nothing |
| Persistence.Store.CompleteLease | state/store.go:313-365 | a lease ends only before its expiry and along the lease table |
| Persistence.Store.ExpireLeases | state/lease_expiration.go:14-132 | on any tables with sound references the sweep loop expires min(limit, overdue) leases, oldest first, each live and past its expiry, and leaves no live lease past its expiry when it stops early; under the invariant it requeues as Effects.Sweep says |
| Persistence.Store.DequeueJobAttempt | state/queue.go:35-99 | hands out the first visible eligible row by (available_at, attempt_id) and purges the rest |
| Persistence.Store.ListJobDependents | state/job_dependencies.go:22-45 | lists exactly the jobs that wait for a job, each once, ascending |
| Persistence.Store.EnqueueAttempt | state/queue.go:15-33 | the attempt is available from the given time, in flight nowhere, with its delivery count kept; no other row changes |
| Orchestrator.Service.StartRun | orchestrator/service.go:224-386 | an acceptable plan is published in full; any other leaves a run in PLANNING with everything before its first fault, an empty one fails the run |
| Orchestrator.Service.CreateJobs | orchestrator/service.go:263-327 | a job and an attempt per planned job, up to the first repeated name |
| Orchestrator.Service.LinkJobs | orchestrator/service.go:329-346 | one dependency row per named dependency, up to the first that names no other job |
| Orchestrator.Service.QueueRoots | orchestrator/service.go:348-357 | exactly the jobs without dependencies are queued |
| Orchestrator.Service.FailRun | orchestrator/service.go:1280-1297 | both transitions, refusals ignored; a run in PLANNING ends FAILED |
| Orchestrator.Service.QueueJobAttempt | orchestrator/service.go:422-447 | job, then attempt, then dispatch row, up to the first refusal; nothing else changes |
| Orchestrator.Service.TransitionJobAndAttempt | orchestrator/service.go:1035-1040 | attempt, then job, up to the first refusal; together or not at all when they agree |
| Orchestrator.Service.GrantLease | orchestrator/service.go:514-608 | exact reply and new tables of a grant, for every attempt state and run state |
| Orchestrator.Service.AckLease | orchestrator/service.go:630-679 | exact reply and new tables of an acknowledgement, partial commit included |
| Orchestrator.Service.HandleHeartbeat | orchestrator/service.go:681-753 | exact error and new tables of a heartbeat, whatever its timestamp; an accepted one tells the runner to stop exactly when its run is being canceled |
| Orchestrator.Service.CompleteLease | orchestrator/service.go:755-878 | exact reply and new tables of a completion: attempt, job, lease, woken dependents, run verdict |
| Orchestrator.Service.EnqueueReadyDependents | orchestrator/service.go:880-924 | queues exactly the CREATED dependents all of whose dependencies have succeeded |
| Orchestrator.Service.FinalizeRunIfReady | orchestrator/service.go:1063-1113 | the first required job that has not succeeded decides the run |
| Orchestrator.Service.CancelLease | orchestrator/service.go:934-1003 | exact reply and new tables of a cancel acknowledgement |
| Orchestrator.Service.CancelRun | orchestrator/service.go:155-215 | exact reply and new tables of a cancellation request over all jobs of the run |
| Orchestrator.Service.FinalizeCancelIfReady | orchestrator/service.go:1241-1269 | the run is CANCELED as soon as no job waits, runs or is being canceled |
| Orchestrator.Service.ExpireLeases | orchestrator/service.go:615-628 | the service sweep keeps the invariant and expires exactly the oldest overdue leases |
| Orchestrator.Service.BuildRecipeJobs | orchestrator/service.go:1193-1239 | the recipe read off the tables is the run's jobs sorted by name, with sorted dependency names |
| Preservation.StepKeeps | orchestrator/service.go:155-1003 | every step, with any arguments, keeps the coupled invariants of all tables |
| Terms.GrantTerms | orchestrator/service.go:514-608 | a grant is accepted exactly on a QUEUED attempt of an open run with heartbeat below TTL (120 and 30 by default); the new rows in full, or none |
| Terms.AckTerms | orchestrator/service.go:630-679 | an acknowledgement is accepted exactly from a live lease in time whose attempt is LEASED or STARTING; the new rows in full, the error otherwise |
| Terms.HeartbeatTerms | orchestrator/service.go:681-753 | a heartbeat is accepted exactly from an ACTIVE lease in time whose attempt is STARTING, RUNNING or being canceled; the new rows in full |
| Terms.CompleteTerms | orchestrator/service.go:755-826 | a completion is accepted exactly from an ACTIVE lease in time, not being canceled and with a known status; attempt and job take the reported result |
| Terms.CompleteWakes | orchestrator/service.go:880-924 | a success queues exactly the CREATED jobs that waited for this job last, in a run that is neither decided nor being canceled; no other job moves |
| Terms.CancelAckTerms | orchestrator/service.go:934-1003 | a cancel acknowledgement is accepted exactly from an ACTIVE lease in time whose attempt is being canceled; attempt, job and lease are CANCELED |
| Terms.CancelTerms | orchestrator/service.go:155-215 | a cancellation is accepted exactly for an open or canceled run; what each job and attempt of the run becomes, and that the run waits exactly for jobs a runner holds |
| Terms.ReportTerms | internal/vcs/github/reporter.go:165-175 | a report moves exactly decided runs to REPORTED and nothing else |
| Evolution.StepEvolves | state/states.go:24-88 | every step moves runs, jobs, attempts and leases only along the edges handlers use, and freezes dead leases |
| Preservation.GrantFromQueued | state/migrations/0001_initial.sql:134 | under the invariant a grant commits exactly for a QUEUED attempt, in spite of the legal LEASED to LEASED edge |
| History.Fencing | state/store.go:117-191 | in every reachable database: job agrees with attempt, at most one live lease and it is the attempt's current one, held attempts have one, others none |
| History.SupersededLeaseInert | orchestrator/service.go:630-826 | once an attempt is leased again, or a lease ends, no message carrying the old lease id ever changes anything |
| History.OneFinalization | orchestrator/service.go:755-826 | at most one lease of an attempt ends COMPLETED or CANCELED; SUCCEEDED or FAILED exactly when a lease was completed |
| History.FinishedStays | state/lease_expiration.go:52-116 | a finished attempt is never changed, queued or leased again, despite the FAILED to QUEUED edge and the sweeper |
| History.CancelIsFinal | orchestrator/service.go:155-215 | after an accepted cancellation no job of the run is ever QUEUED, LEASED, STARTING or RUNNING again |
| History.CancelRequestedIff | orchestrator/service.go:1241-1269 | a run is CANCEL_REQUESTED exactly while one of its jobs is |
| History.NoLostWork | state/queue.go:15-122 | a QUEUED attempt without a queue row belongs to a purged run, now and ever after |
| Progress.JudgeMeaning | orchestrator/service.go:1063-1113 | what the finalizer's verdict says: passed when all required jobs succeeded, pending when the first other one may still move |
| Progress.NoStuckRun | orchestrator/service.go:755-924 | an open run of an orderly plan always has a required job in the queue or held by exactly one live lease |
| Necessity.NeverStuckExactly | orchestrator/service.go:1063-1113 | in every history, at every moment, an open run of an accepted plan has a required job that can move, if and only if some job is required and every required job lists its dependencies, all required, before itself |
| Hanging.HungForever | orchestrator/service.go:755-924 | a run that is open with nothing queued and nothing under a live lease stays as it is, run row and job rows, in every continuation without its cancellation |
| Hanging.GetsHung | orchestrator/service.go:1078-1096 | a plan that is neither orderly nor free of required jobs with a job to begin with has a history that makes its run hang |
| Hanging.NeverHungExactly | orchestrator/service.go:1063-1113 | an accepted plan never makes a run hang if and only if it is orderly, or requires nothing and has a job without dependencies |
| Hanging.MisorderedHangs | orchestrator/service.go:1078-1096 | a required test listed before its required build: the build FAILED, and the run RUNNING in every continuation without a cancellation |
| Verdicts.FailureSound | orchestrator/service.go:1086-1096 | a FAILED run with jobs has a required job that is FAILED, then and ever after |
| Verdicts.NoSuccessAfterFailure | orchestrator/service.go:1063-1113 | once a required job has failed its run is never SUCCESS |
| Finishing.FailureInReach | orchestrator/service.go:755-924 | from every reachable state of an orderly plan an open run has a continuation to FAILED |
| Finishing.SuccessInReachExactly | orchestrator/service.go:755-924 | from every reachable state of an orderly plan an open run has a continuation to SUCCESS if and only if none of its required jobs has failed |
| Clock.PunctualLeaseSurvives | state/store.go:222-230 | with one clock, messages at most one heartbeat interval apart keep a lease from every sweep, and each one that finds it active is accepted |
| Clock.GrantBound | state/store.go:282-290 | n accepted messages, however stamped, never push expiry past grant + (n + 1) TTL |
| Sweeping.SweepRequeues | state/lease_expiration.go:83-116 | the sweep requeues exactly the attempts that were LEASED, STARTING or RUNNING under an expired lease |
| Sweeping.SweepSpares | state/lease_expiration.go:52-82 | attempts without an expired lease are not touched by a sweep |
| Dispatch.DrainExact | state/queue.go:35-99 | dequeues at one instant return each visible row exactly once, in order, then report empty |
| Dispatch.DrainLength | state/queue.go:35-99 | the drain is over after exactly as many deliveries as there were visible rows |
| Dispatch.NoEarlyRedelivery | state/queue.go:64-99 | no attempt is delivered again within its visibility window unless its row left the queue and came back |
| Visibility.QueuedIsVisible | state/queue.go:15-33 | a row that was put in by a start, a completion or a sweep is available at that time, in flight nowhere, and from then on a dequeue does not come back empty |
| Visibility.RowHistory | state/queue.go:15-99 | in every history a queue row is available since it was put in, counted once per delivery and in flight until the window of its last delivery ends |
| Visibility.InFlightByDelivery | state/queue.go:81-91 | a row in flight until t was put there by its last delivery, whose window ends at t |
| Visibility.VisibleExactly | state/queue.go:60-69 | in every history a queued attempt may be handed out exactly from the time it was queued, outside the window of its last delivery, while it is QUEUED in an undecided run |
| Visibility.PicksExactly | state/queue.go:60-72 | a dequeue hands out the attempt that is due longest, ties by id, and none exactly when none is due |
| Visibility.PurgeExact | state/queue.go:43-54 | a dequeue drops exactly the rows of attempts that are not QUEUED or whose run is decided or being canceled |
| Visibility.OnlyLiveRows | state/queue.go:43-54 | after a dequeue every queue row belongs to a QUEUED attempt of a QUEUED job in an open run |
| Contents.StoredAsPlanned | orchestrator/service.go:289-299 | each job row carries, in every later database, the environment, caches, name, directory and steps of the plan; defaults stand only where the plan gives nothing |
| Contents.ListedAsPlanned | orchestrator/service.go:263-327 | a published run lists exactly the planned jobs, in plan order, for good |
| Contents.AffectedWorkStored | planner/diff_planner.go:673-744 | from the diff to the rows: every affected project has a stored required job that builds it in its directory and, unless only documentation changed, jobs that test and lint it |
| Gating.TurnKeeps | orchestrator/service.go:224-386 | every single transaction of every interleaved call keeps the gate, and stale reads stay true |
| Interleaving.ClearedStays | state/job_dependencies.go:72-87 | a job that may leave CREATED keeps that right, and its recorded dependencies are final |
| Interleaving.TaskStays | orchestrator/service.go:880-924 | whatever a call concluded from its reads is still true when it acts on them |
| Gating.DependencyGating | orchestrator/service.go:880-924 | under any interleaving a job that left CREATED, or whose attempt was queued or leased, has all dependencies it ever gets SUCCEEDED, forever |
| Gating.PlannedGating | orchestrator/service.go:329-357 | under any interleaving a job is not released before each dependency its plan names is SUCCEEDED, and stays so |
| Gating.RowAsPlanned | orchestrator/service.go:263-327 | under any interleaving every job row is a job of its run's plan: name, flag and specification |
| Waiting.TestsWaitForBuild | planner/diff_planner.go:673-744 | each planned job builds and waits for nothing, or tests or lints and waits for exactly the required build of its directory, listed earlier; names, commands, caches and reasons in full |
| Waiting.NoTestBeforeBuild | orchestrator/service.go:880-924 | under any interleaving no test or lint of a planned run is released before the required build of its directory is SUCCEEDED |
| Gating.SuccessSound | orchestrator/service.go:1063-1113 | under any interleaving a run that reached SUCCESS has a final job list and all required jobs SUCCEEDED, then and ever after |
| Gating.OneOutcomeEver | state/states.go:24-36 | under any interleaving no run ever has two different outcomes |
| Judgments.FailureWasRead | orchestrator/service.go:1063-1096 | under any interleaving the turn that fails a RUNNING run rests on a required job that was broken, on the same job list, in the world where that list was read |
| Judgments.FailureSoundInterleaved | orchestrator/service.go:1063-1096 | under any interleaving a run that went from RUNNING to FAILED had a required job that was broken in an earlier world |
| Solo.SoloStart | orchestrator/service.go:224-386 | the turns of one uninterrupted startRun lead to exactly the database the handler leaves, for any acceptable plan, unused ids and clock |
| Solo.SoloWake | orchestrator/service.go:880-924 | the turns of one uninterrupted enqueueReadyDependents wake exactly what the handler wakes, whatever order the dependents are listed in |
| Solo.SoloFinalize | orchestrator/service.go:1063-1113 | the turns of one uninterrupted finalizeRunIfReady decide the run as the handler does |
| Fences.OneLiveAlways | state/migrations/0001_initial.sql:134 | under any interleaving an attempt has at most one live lease |
| Fences.DeadLeaseFrozen | state/states.go:81-88 | under any interleaving a lease that lost its rights never changes again |
| Idempotency.Database.CreateRunWithTrigger | state/run_triggers.go:14-65 | both rows or none; a known key answers with the run it belongs to |
| Idempotency.Database.CreateRunWithRerun | state/run_reruns.go:14-58 | both rows or none; a known key answers with the run it belongs to |
| Idempotency.Database.Handle | orchestrator/service.go:75-152 | the three ways to create a run, with their validation, up to startRun |
| Idempotency.AllOrNothing | state/run_triggers.go:26-51 | a delivery creates its own run and records its key, or changes nothing |
| Idempotency.OneRunPerKey | state/run_triggers.go:53-62 | over any deliveries two accepted ones answer with the same run exactly when their keys are equal, and only the first creates |
| Idempotency.NoOrphanRun | state/run_reruns.go:23-46 | the run rows are exactly the runs reported as created; a rolled-back duplicate leaves none |
| Idempotency.CreatedOnce | state/run_reruns.go:23-46 | no run is reported as created twice |
| Idempotency.AcceptedExactly | orchestrator/service.go:75-152 | which deliveries are answered with a run, field by field, and what each refusal means |
| Idempotency.CreatedAsAsked | orchestrator/service.go:92-152 | a created run is stored with the commit its request names, or the one its original builds, and its key with the run and the event |
| Idempotency.RerunsBuildTheSame | orchestrator/service.go:124-152 | over any deliveries a run reached by any chain of reruns has the repository, ref and commit of the first |
| Idempotency.RerunAnswersOriginal | orchestrator/service.go:124-152 | every answered rerun request, first or repeated, names a run that builds what the original builds |
| Idempotency.TriggerRowStays | state/run_triggers.go:39-51 | the row of a trigger keeps the event that created the run, and the run what the event asked for |
| Idempotency.OneRunPerDemand | state/run_reruns.go:23-46 | accepted deliveries share a run exactly when provider and event key, or original and caller's key, agree |
| Ownership.BuildOwnershipIndex | planner/diff_planner.go:1072-1092 | a permutation of the projects sorted by the comparator |
| Ownership.OwnerIsLongestPrefix | planner/diff_planner.go:1094-1114 | first match after the sort is the longest matching root, "." only as a fallback, nothing exactly when nothing owns the path |
| Ownership.OwnerRootUnique | planner/diff_planner.go:1094-1114 | ties of the unstable sort do not change the owner's root |
| Ownership.DirectoryPrefix | planner/diff_planner.go:1104-1106 | the string test is the prefix order on path components |
| Ownership.OwnsExactly | planner/diff_planner.go:1098-1106 | a project owns exactly the paths, a leading ./ aside, whose components begin with those of its directory |
| Ownership.ArrangedMeans | planner/diff_planner.go:1076-1090 | longest roots first, ties in string order, the repository root last |
| Strings.LexicographicExactly | planner/diff_planner.go:627 | the order used for sorting is decided by the first difference, a prefix coming first |
| Impact.BuildDependencyGraph | planner/diff_planner.go:1120-1140 | the arrows are exactly the requirements that resolve to a project of the repository |
| Impact.TargetExactly | planner/diff_planner.go:1120-1128 | a required module path stands for the last project that declares it |
| Impact.ProjectNames | planner/diff_planner.go:1175-1187 | the sorted, duplicate-free names of all projects |
| Impact.ResolveImpactedProjects | planner/diff_planner.go:1142-1173 | the worklist, in any order, yields the sorted duplicate-free list of the projects the owners reach |
| Impact.AnalyzeImpact | planner/diff_planner.go:625-671 | each field of the summary says what it means for the set of changed paths |
| Paths.DocumentationExactly | planner/diff_planner.go:945-958 | a path is documentation exactly if it lies below docs or is named *.md, ASCII case aside; trailing slashes included |
| Paths.SharedFileExactly | planner/diff_planner.go:960-978 | the files that concern every project are exactly the seven build files and what lies below .github |
| Paths.SourceFileExactly | planner/diff_planner.go:1063-1066 | a path counts as code exactly if its name ends in .go, .mod or .sum |
| Paths.AffectedExactly | planner/diff_planner.go:625-671 | all projects are affected if the change touches a shared file or an ownerless path, or dependencies are unknown; otherwise exactly those the owners reach |
| Paths.WhyExactly | planner/diff_planner.go:1189-1209 | the facts reasons are worded from, each as a statement about the changed paths |
| Planner.PlanForGo | planner/diff_planner.go:673-744 | the jobs and skipped jobs of the target projects, in order |
| Planner.PlanDiff | planner/diff_planner.go:103-108 | analysis and construction together yield the plan, as a function of the diff, and its skipped jobs |
| Planner.BuildSkippedJobs | planner/diff_planner.go:774-797 | a test and a lint entry per target project, and only for docs-only changes |
| Coverage.CoverageExact | planner/diff_planner.go:673-744 | every affected project is built (tested, linted) in its own root if and only if "root" does not name two affected modules |
| Paths.CodeIsTested | planner/diff_planner.go:673-744 | if some changed path is not documentation, every affected project is built, tested and linted in its own directory |
| Paths.DocumentationIsOnlyBuilt | planner/diff_planner.go:703-737 | if all changed paths are documentation, no planned job tests or lints |
| Paths.SharedChangePlansAll | planner/diff_planner.go:625-671 | a change of a shared file, an ownerless path or unknown dependencies plans every project |
| Paths.OnlyAffectedPlanned | planner/diff_planner.go:673-744 | every planned job runs in the directory of an affected project |
| Coverage.ClashLosesRepositoryRoot | planner/diff_planner.go:594-599 | a concrete repository in which the owner of the changed file is not built |
| Coverage.AffectedClosed | planner/diff_planner.go:625-671 | owners of changed paths are affected, and so is every dependent of an affected project |
| Coverage.PlansOnlyExpand | planner/diff_planner.go:673-744 | more changed paths plan every job of fewer, with the same flag, specification and dependencies |
| Coverage.OrderIrrelevant | planner/diff_planner.go:625-671 | permuting or repeating changed paths yields the identical plan |
| Coverage.SkipsAccounted | planner/diff_planner.go:774-797 | a docs-only plan and its skipped jobs together name exactly the full plan |
| Coverage.SkippedInOrder | planner/diff_planner.go:774-797 | one skipped test and one skipped lint per target, in order, each with its name and its own reason |
| Bridge.PlansAreAccepted | planner/diff_planner.go:673-744 | every plan has distinct names and lists required dependencies first, so startRun accepts it |
| Bridge.RecipesAreAccepted | orchestrator/service.go:1235-1238 | the name-sorted recipe of such a plan is accepted and still lists dependencies first |
| Bridge.PlannedRunsNeverStuck | orchestrator/service.go:1063-1113 | an open run planned from a diff, or from the recipe of such a plan, can always move |
| Bridge.PlannedRunsNeverHang | planner/diff_planner.go:673-744 | neither the plans of the discovery path nor their recipes ever make a run hang |
| Bridge.RecipeNeverHungExactly | orchestrator/service.go:1235-1238 | the recipe of an accepted plan never makes a run hang if and only if something is required and names ascend along the dependencies of required jobs, or nothing is required and some job waits for nothing |
| Bridge.RecipeMayHang | orchestrator/service.go:1235-1238 | a concrete plan that never hangs, while the recipe learned from it can |
| Recipes.RecipeIsSamePlan | planner/diff_planner.go:872-880 | a recipe has the plan's jobs up to order, reason and defaults, with the same name-level dependencies |
| Recipes.NormalKeepsWork | orchestrator/service.go:1193-1239 | a recipe has each job of its plan with everything the plan specified, and no other; a full specification comes back as it was |
| Recipes.RecipeAccepted | orchestrator/service.go:263-346 | startRun accepts the recipe of every plan it accepted |
| Recipes.RecipeFixedPoint | orchestrator/service.go:1193-1239 | a second round trip changes nothing |
| Recipes.RecipeLayered | orchestrator/service.go:1235-1238 | a recipe lists dependencies first if and only if names ascend along dependencies |
| Recipes.RecipeOrderlyExactly | orchestrator/service.go:1235-1238 | a recipe lists the dependencies of required jobs first, as required jobs, if and only if something is required and names ascend along them |
| Recipes.JobsFromRecipe | planner/diff_planner.go:872-880 | the recipe's jobs with a new reason and nothing else changed |
| Replay.RecipeOfRun | orchestrator/service.go:1193-1239 | whenever it is read, the recipe of a run is the normal form of the plan the run was started with |
| Replay.RecipeKeepsWork | orchestrator/service.go:1193-1239 | read at any time, the recipe of a run has each planned job with everything the plan specified |
| Replay.RoundTrip | orchestrator/service.go:1193-1239 | startRun, recipe, startRun again: same jobs, accepted again, same recipe |

## Left out

* HTTP handlers, webhook decoding, the GitHub client and reporter, runner processes, caches and artifacts; the reporter is the step from an outcome to REPORTED.
* Database failures, logging, metrics, run plans, failure explanations and timestamps such as started_at, which no transition reads.
* Runner ids and the checks that an id in a request is not empty; unused ids are handed to the model.
* The SQL text of sweeps and dequeues; a sweep picks the oldest overdue lease, a dequeue the first visible row.
* Leases without an expiry: only grants insert leases, and they always set one.
* Forced finalization of a CANCEL_REQUESTED job whose lease expires: the code has none, so nothing is claimed.
* Progress after a completion with an unknown status: it leaves the attempt UPLOADING, and the progress theorems exclude it.
* The coupling of leases and attempts under interleaving: a stale queueJobAttempt may legally take a LEASED attempt back to QUEUED.
* Parsing of go.mod and go.work, fingerprints and cache keys; cache specifications are a function of the project root, reasons a function of the facts they mention.
* The static fallback planner, and planning from a stored recipe as a statement about the diff; recipes are only claimed to replay their plan.
* Case folding beyond ASCII letters in path classes, and the language field of a project.
- Necessity.NeverStuckExactly: speaks of one moment, in which a healthy run may wait for an optional job; the lasting hang is Hanging.NeverHungExactly.
- Orchestrator.Service.GrantLease: leaves out the job specification and runtime limits in the reply, which nothing reads back.
- Orchestrator.Service.BuildRecipeJobs: says nothing of runs whose jobs share a name; Replay.RecipeOfRun shows that no published run has any.
- Orchestrator.Service.StartRun: leaves out the recorded run plan and the returned details, which do not touch the tables of the model.
- Idempotency.Database.Handle: leaves out the run state and the startRun call that follows, because they do not touch the keys.
