# Verification of the pici core

This project models three parts of the CI server pici in Dafny and proves what they are for:

1. **The step scheduler** (`internal/ci/step.go`, with carry-over and verdicts from `internal/ci/runner.go`):
   ordering steps, running them concurrently, retrying an execution from the successes of the attempt before.
2. **The life of attempts** (`internal/stores/sqlite.go`, `internal/stores/postgres.go`, `internal/ci/runner.go`,
   `internal/app/executions/executions.go`): the table, the queue, claims, retries, cancellation, the
   concurrency gate, restarts.
3. **The log pipeline** (`internal/mask/mask.go`, `internal/ci/stream.go`, `internal/sse/sse.go`,
   `client/executions.go`, `internal/workspace/workspace.go`): masking, following growing files, the wire, the
   client.

`dafny verify dfyconfig.toml` checks everything.

## How the program is modelled

**Scheduler.** `Steps` holds steps and their dependency graph. `OrderSteps` is the ordering algorithm with its
loops; each method is proved equal to a function, and `OrderCorrect`, `OrderTies` and `DuplicateNames` prove what
that function computes: for unique names, the one dependency-first order in which steps come by the position of
their last dependency and then by declaration. `Scheduler` is a transition system: a launched step waits for one of
eight slots, decides under the lock whether to skip, runs or is canceled, records its result under the lock,
launches the children that became ready one at a time, and gives its slot back. The sweep over the declared steps
reads the shared statuses one dependency at a time, without the lock, between any two transitions of the goroutines,
as the code does; each single read is atomic. The outcome of a step and the cancellation of the context are left
open, so a statement about every run is about every outcome and every interleaving. `Board` is the shared state in
its own imperative form: arrays by position, and one method for each critical section, proved to be the shared half
of a transition. `SchedulerInvariant`, `SchedulerTermination`, `SchedulerConfluence`, `SchedulerOnce`,
`SchedulerRuns`, `SchedulerExplained`, `Records`, `Snapshots`, `Outcome` and `Plans` prove what every run keeps and
ends with. `SweepRace` and `SingleLaunch` say exactly when a step is launched twice, `RaceVerdict`, `RaceClosure`
and `RaceSnapshots` exactly what that does to the verdict, to the successes an attempt leaves and to what its
snapshots show, and `SeedLoss` and `Retries` exactly when a retry keeps the successes; `Schedules` and `RaceStage`
build the runs that show it. `RunStep` is the loop that tries a step again.

**Attempts.** `Store` is the table as a map from project and id to a row, with a class whose methods are the store's
statements and transactions; those of the two databases have the same effects, so there is one table. They differ in
what a claim selects while another one is under way: PostgreSQL skips rows that are locked
(`internal/stores/postgres.go:492-499`). In `Lifecycle`, where any number of workers and callers interleave
statement by statement, a claim may therefore select any pending row; its select and its guarded update are two
transitions, so are the two statements of the concurrency gate, and a retry is a read, a check of the workspace, and
an insertion. A restart forgets workers and callers and requeues what was running. `Attempts` proves what holds in
every state of every run; `Enqueue` has the operations that queue and cancel attempts.

**Logs.** `Redaction` and `MaskWriter` are the masking; `Lines` cuts streams into lines; `Workspace` names log
files; `Events` and `Stream` follow the files of an execution; `Sse` is the wire and the client's reader, for the
`event` and `data` fields of section 9.2.6 of the WHATWG HTML Living Standard; `Delivery` composes them. A byte,
or a rune in `Workspace`, is one `char`.

## Results that are conditions

Several properties hold on a condition, which is proved to be exact:

- A step *can be launched twice* when a declared position of it races or when it repeats a dependency that can be its
  last one to complete (`SingleLaunch.Doubles`). A position races when its step has a dependency to wait for and
  everything that holds it back is declared earlier; listing steps after their dependencies, the usual way, races
  (`SweepRace.DeclaredInOrderRaces`). A repeated dependency can be the last one unless another dependency of the step
  waits for it. With a closed carried set, no run launches any step twice exactly when no step can be
  (`SingleLaunch.LaunchedOnceIff`); with an atomic sweep, repeated dependencies alone decide
  (`SingleLaunch.AtomicOnceIff`). The results of runs with fixed outcomes and without cancellation, and termination,
  depend on neither (`SchedulerConfluence.ScheduleIndependence`, `SchedulerTermination.RunLengthBound`).
- Where a step can be launched twice, an execution can end as failed with every result a success: the first launch
  fails, and the second one mends the result but not the flag. Then there is nothing to retry
  (`RaceVerdict.FailsWithoutFailure`). Verdicts always agree with the results exactly when no step can be launched twice
  (`RaceVerdict.VerdictAgreesIff`).
- Where a step with a child can be launched twice, the child can succeed on the strength of the first launch while
  the second one fails (`RaceClosure.LeavesOpen`). Four properties hold in every run of a soundly seeded plan
  exactly when only leaves can be launched twice: the results agree with the dependencies
  (`RaceSnapshots.ExplainedIff`), snapshots show nothing as running or run whose dependencies they do not show as
  successful (`RaceSnapshots.SnapshotsIff`), the successes a retry carries over are closed under dependencies
  (`RaceClosure.ClosesIff`), and so is the seed it starts from (`Retries.SoundSeedIff`). Whatever is launched twice,
  the successes are closed when each step has one outcome, however often it is run
  (`RaceClosure.FixedOutcomesClose`).
- Every complete run of a retry keeps every success of its parent exactly when these are closed
  (`Retries.RetryKeepsIff`); otherwise some carried step is run again in every run
  (`SchedulerConfluence.CarriedRelaunchedIff`), and in some run it fails (`SeedLoss.OpenSeedLoses`).
- The ordering algorithm yields an order that lists every step once, dependencies first, exactly for lists with unique
  names, known dependencies and no cycle (`DuplicateNames.OrderingWorksIff`).
- A secret is removed from every output exactly when it does not start or end with the mask's character and does
  not contain the mask (`Redaction.RedactionCompleteIff`), and from the output of the line-buffered writer exactly
  when, in addition, it has no newline before its last byte (`MaskWriter.WriterHidesIff`). Secrets without `*` are a
  special case (`Redaction.StarFreeSafe`).
- Sorting log files by name is step order exactly for at most a thousand steps (`Workspace.StepOrderIff`).
- An event comes back from the wire as it was sent exactly when it is not empty, its name is trimmed and on one
  line, and its data has no newline and no trailing carriage return, both within the scanner's limit
  (`Sse.RoundTripIff`); a trailing carriage return is all that is dropped of an otherwise sendable one
  (`Sse.StreamRead`).
- `logs --follow` prints every line exactly when no step goes by the source `state` or `done`
  (`Delivery.PrintedIff`).
- The insertion of a retry goes through exactly when the attempt it retries is still the latest
  (`Attempts.InsertIff`); the check for a busy workspace only refuses retries that have been overtaken
  (`Attempts.BusyMeansOvertaken`).

## Assumptions

- Step names are unique; parsing does not check it (`internal/ci/config.go:250-260`). `DuplicateNames` shows what
  ordering does without: it may yield an order that repeats a name, or report a cycle that is not there.
- Results about the flags are about runs that launch no step twice, which `SchedulerExplained.RaceFreeRunLaunchesOnce`
  gives for plans in which no step can be. Repeated entries of `depends_on` are not checked; steps that list none are
  not launched twice on their account (`SchedulerOnce.DistinctNoRepeats`).
- Chains of retries are of one workflow, whose attempts leave closed successes (`Retries.SteadyChainCloses` says when).
- One server process, a table that starts empty, and no project that is deleted: deleting one removes its rows
  (`internal/stores/sqlite.go:147`). Orphaned attempts are requeued before workers start (`cmd/pici/main.go:62`,
  `cmd/pici/main.go:115`). Store calls succeed, except for the insertions the unique constraint of
  `docs/adr/0001-execution-attempt-model.md:5` rejects.
- Files only grow while they are followed. The setup log gains lines after the terminal status is stored
  (`internal/ci/runner.go:627`, `internal/ci/runner.go:644-646`), so completeness is relative to what the final sweep
  reads; step logs are complete by then. Both fail for a step that is launched twice, because each launch truncates the
  log (`internal/ci/step.go:197`): what is said about a followed log is about steps launched once.
- Progress is reported outside the lock (`internal/ci/step.go:140`), so the order in which snapshots are persisted
  is not claimed to follow the order in which they were taken.
- The JSON of a state is an arbitrary function of the state. Trimming a name on the wire removes ASCII spaces.

## Model

| member | source | states |
|---|---|---|
| OrderSteps.OrderSteps | internal/ci/step.go:325-368 | The loops of the ordering compute `Order`: the first unknown dependency, a cycle, or the order |
| OrderSteps.BuildGraph | internal/ci/step.go:326-342 | In-degrees count dependency entries; adjacency lists children in declaration order, repetitions included; stops at the first unknown dependency |
| OrderSteps.RelaxChildren | internal/ci/step.go:356-361 | Lowering in-degrees and queueing those that reach zero, entry by entry |
| OrderSteps.DrainQueue | internal/ci/step.go:351-362 | The main loop ends and yields the drained queue |
| OrderCorrect.OrderIsCorrect | internal/ci/step.go:325-368 | For unique names, ordering succeeds iff every dependency is a step and there is no cycle; the order is then a permutation with dependencies first |
| OrderTies.OrderTieBreak | internal/ci/step.go:344-362 | For unique names, of two steps of the order that is yielded the one whose last dependency comes first comes first, steps without dependencies before all others, ties broken by declaration |
| OrderTies.RankedOnce | internal/ci/step.go:344-362 | There is at most one dependency-first order with that property |
| OrderTies.OrderIsRanked | internal/ci/step.go:325-368 | For unique names an order is yielded iff dependencies are known and it is that one |
| OrderCorrect.UnknownReported | internal/ci/step.go:332-338 | The unknown dependency reported is the first one of the first step that has one |
| OrderCorrect.OrderMeansNoCycle | internal/ci/step.go:364-366 | A dependency-first order rules out every cycle, self-loops included |
| OrderCorrect.StuckMeansCycle | internal/ci/step.go:364-366 | Steps left over when the queue runs dry lie on a cycle |
| DuplicateNames.OrderingWorksIff | internal/ci/step.go:325-368 | For every list of steps, an order is yielded that lists each step once, dependencies first, iff names are unique, dependencies known, and there is no cycle |
| DuplicateNames.GoodOrderIff | internal/ci/step.go:364-368 | An order that is yielded, duplicate names or not, lists each step once, dependencies first, iff names are unique |
| DuplicateNames.RepeatedNameAccepted | internal/ci/step.go:344-367 | A list with a name declared twice that is accepted |
| DuplicateNames.RepeatedNameRefused | internal/ci/step.go:364-366 | A list with a name declared twice that is refused for a cycle it does not have |
| Plans.MakePlanValid | internal/ci/step.go:28-55 | Positions, dependencies and children built from an order are mutually consistent, dependencies at smaller positions |
| Plans.ComputedPlanValid | internal/ci/step.go:20-55 | So are those of the computed order |
| Plans.PlanShows | internal/ci/step.go:28-55 | The plan holds each declared step's name at its index, its dependencies as declared, and its position in the order |
| Plans.PlanDistinct | internal/ci/step.go:46-55 | Without repeated dependencies no child is listed twice |
| Board.BuildPositions | internal/ci/step.go:28-31 | The position map of an order |
| Board.BuildLinks | internal/ci/step.go:45-52 | Dependencies and children by name, children once per listing |
| Board.Board.constructor | internal/ci/step.go:33-70 | A fresh board is the scheduler's initial state, carried results seeded at their positions |
| Board.Board.MustSkip | internal/ci/step.go:86-94 | The decision under the lock is the transition's: skip unless every dependency succeeded |
| Board.Board.MarkRunning | internal/ci/step.go:107-110 | Showing a step as running is the transition's effect on the board |
| Board.Board.Complete | internal/ci/step.go:115-139 | Recording a result, the flags and the ready children is the transition's effect on the board |
| Board.Board.AllDone | internal/ci/step.go:152-158 | Whether every dependency has a status |
| Board.Board.Collect | internal/ci/step.go:165-169 | The vector returned has each step's result at its position |
| RunStep.Run | internal/ci/step.go:192-221 | The result is that of the last try, success iff some try succeeds before the retries or the context end, with the notices logged in between |
| RunStep.NoticeAdded | internal/ci/step.go:207-211 | Each try after the first adds a notice with its own number and how many there may be |
| RunStep.ExitCodeTexts | internal/ci/step.go:272-274 | Exit codes as they read in an error |
| RunStep.TryResult | internal/ci/step.go:223-279 | A try succeeds iff its command is built, its context is live, and the engine reports neither an error nor an exit code; it is canceled iff its context was done when it came back; its error is the problem with the command, the engine's, or names the exit code, in that order |
| SchedulerInvariant.StepInv | internal/ci/step.go:72-163 | Every transition keeps: launches only after all dependencies have a status, no launch forgotten, statuses justified, slots bounded |
| SchedulerInvariant.ReachableInv | internal/ci/step.go:20-163 | The invariant holds in every reachable state |
| SchedulerInvariant.FinalHasAllResults | internal/ci/step.go:142-169 | When the scheduler returns, every step has a result |
| SchedulerInvariant.CompletionLaunches | internal/ci/step.go:126-145 | The completion that gives a step its last dependency status is the one that launches it |
| Records.RecordedWhy | internal/ci/step.go:96-125 | In every run, a result that is not carried was recorded by a goroutine of its step: a success or a failure is what running it yielded, it is skipped iff it was to be skipped, and canceled only when the context was done |
| Records.RecordMeans | internal/ci/step.go:98-125 | A goroutine the context stops records its step as canceled and raises that flag; one that skips records it as skipped and raises none; only a failure raises the other |
| Records.StoppedNeverRuns | internal/ci/step.go:96-112 | A step that has not started when the context is done never runs: its goroutine records at most that it was skipped or canceled, and canceled if it had been cleared to run |
| Records.EightAtOnce | internal/ci/step.go:74-84 | At most eight goroutines are past waiting and not done, and while there are fewer, each that waits can go on |
| Records.ShownAtFirst | internal/ci/step.go:33-70 | At first every carried step has its result, an unset status read as success, and every other one is shown pending |
| Records.ShownAtStart | internal/ci/step.go:100-112 | A step is shown running once it starts, and one the context stops is not |
| Records.ReadySplit | internal/ci/step.go:126-138 | The ready children are those listed whose dependencies all have a status, in the order they are listed |
| SchedulerTermination.NoDeadlock | internal/ci/step.go:74-163 | Until it returns, the scheduler can always move without being canceled |
| SchedulerTermination.ChildrenCostLess | internal/ci/step.go:126-145 | Everything a completion launches weighs less than what it completes |
| SchedulerTermination.RunsTerminate | internal/ci/step.go:72-163 | Every transition lowers the measure |
| SchedulerTermination.RunLengthBound | internal/ci/step.go:72-163 | Every run is finite, with a bound computed from the plan |
| SchedulerTermination.CanReturn | internal/ci/step.go:163 | From every reachable state the scheduler can return |
| SchedulerConfluence.SequentialFixpoint | internal/ci/step.go:86-99 | The reference result is the one vector in which each step agrees with its dependencies |
| SchedulerConfluence.ScheduleIndependence | internal/ci/step.go:72-169 | With fixed outcomes and no cancellation, every complete interleaving ends with the results of one fold in order, double launches included |
| SchedulerConfluence.RunsAgree | internal/ci/step.go:72-169 | Two complete runs with the same outcomes end with the same results and flags |
| SchedulerRuns.EveryOracleHasARun | internal/ci/step.go:72-169 | Whatever the outcomes, some complete run with an atomic sweep has them and ends with the sequential results; it launches no step twice unless a repeated dependency can come last |
| SchedulerConfluence.CarriedRelaunchedIff | internal/ci/step.go:57-69 | A complete run launches a carried step iff the carried set is not closed |
| SchedulerOnce.OnceStep | internal/ci/step.go:126-145 | Every transition keeps launches single, exempt leaves aside, provided only exempt steps repeat a dependency that can come last and the sweep launches nothing else again |
| SchedulerOnce.AtomicSweepLaunchesOnce | internal/ci/step.go:115-162 | With an atomic sweep and no repeated dependency that comes last, each step that is not carried is launched exactly once, and carried ones never |
| SingleLaunch.AtomicOnceIff | internal/ci/step.go:115-162 | With an atomic sweep and a closed carried set, no step is ever launched twice iff no step repeats a fresh dependency below which none of its other dependencies lies |
| SingleLaunch.LaunchedOnceIff | internal/ci/step.go:115-162 | With the unlocked sweep, no step is ever launched twice iff, in addition, no declared position races |
| SingleLaunch.RepeatHappens | internal/ci/step.go:126-145 | For a step that repeats such a dependency, an atomic run that launches it twice |
| SingleLaunch.RepeatedDepLaunchesTwice | internal/ci/step.go:126-145 | Where that is the one dependency a step waits for, it is launched twice in every complete run |
| SingleLaunch.RepeatedEntry | internal/ci/step.go:46-52 | A step is a child of a dependency once for each time it lists it |
| SweepRace.RaceHappens | internal/ci/step.go:148-162 | From a racing position, an interleaving that launches its step twice |
| SweepRace.DeclaredInOrderRaces | internal/ci/step.go:148-162 | Steps declared after their dependencies race |
| RaceVerdict.FailsWithoutFailure | internal/ci/step.go:115-125 | For a step that can be launched twice, a complete run that ends failed with every result a success, and nothing to retry |
| RaceVerdict.VerdictAgreesIff | internal/ci/runner.go:543-549 | The verdict of every complete run agrees with its results iff no position races and no step repeats a dependency that can come last |
| RaceClosure.LeavesOpen | internal/ci/step.go:86-99 | For a step with a child that can be launched twice, a complete run in which the child succeeds and the step has failed |
| RaceClosure.LeafDoublesClose | internal/ci/step.go:86-99 | Where only leaves can be launched twice, whatever the outcomes, every complete run leaves closed successes |
| RaceClosure.FixedOutcomesClose | internal/ci/step.go:86-99 | With fixed outcomes, whatever races or repeats, every complete run leaves closed successes |
| RaceClosure.ClosesIff | internal/ci/step.go:86-99 | Every complete run leaves closed successes iff only leaves can be launched twice |
| RaceSnapshots.ExplainedIff | internal/ci/step.go:86-99 | Every complete run ends with each step skipped iff some dependency did not succeed, iff only leaves can be launched twice |
| RaceSnapshots.SnapshotsIff | internal/ci/step.go:107-141 | Every snapshot of every run shows only dependencies as successful of a step it shows running, successful, failed or canceled, iff only leaves can be launched twice |
| RaceSnapshots.SkipsHaveCulprits | internal/ci/step.go:86-99 | Where only leaves can be launched twice, in every complete run each skipped step has a dependency path to a failed or canceled one |
| SchedulerExplained.RunAgreed | internal/ci/step.go:86-141 | In every state of a run that launches nothing but leaves twice, recorded statuses and decisions follow from the dependencies' statuses |
| Snapshots.RunReal | internal/ci/step.go:107-139 | Whatever is launched twice, every snapshot shows a step with its result, as running while it executes, or as pending before it has a result |
| SchedulerExplained.RunExplained | internal/ci/step.go:86-141 | In runs of single launches, each recorded status follows from its dependencies' statuses |
| Snapshots.SnapshotExplained | internal/ci/step.go:107-141 | In every snapshot of a run that launches nothing but leaves twice, a step shown running, successful, failed or canceled has only dependencies shown successful |
| SchedulerExplained.RaceFreeRunLaunchesOnce | internal/ci/step.go:148-162 | Without racing positions and repeated dependencies that come last, every run is one of single launches |
| Outcome.SkippedHasCulprit | internal/ci/step.go:86-99 | In a state that agrees with its dependencies, as `RunAgreed` has them, a skipped step has a dependency path to a failed or canceled one |
| Outcome.FinalFlags | internal/ci/step.go:120-125 | After a run of single launches the returned flags say exactly whether some step failed or was canceled, and all steps succeeded otherwise |
| Outcome.VerdictIff | internal/ci/runner.go:543-549 | After a run of single launches: success iff the context is live and every step succeeded; failed iff it is live and some step failed, and then there is a step to retry |
| Outcome.HasRetryableSteps | internal/ci/runner.go:268-275 | True iff some step failed or was skipped |
| Outcome.FirstFailure | internal/ci/runner.go:693-700 | The failed step reported is the first one |
| Retries.CarryOverSteps | internal/ci/runner.go:671-679 | The loop builds the carried map |
| Retries.CarryOverExact | internal/ci/runner.go:671-679 | For distinct names it holds exactly the successful results, unchanged |
| Retries.SeedIsSuccesses | internal/ci/step.go:57-69 | The seed of a retry is exactly the successes of its parent |
| Retries.SeedClosedIff | internal/ci/runner.go:671-679 | The seed of a retry is closed iff its parent's successes are |
| Retries.SoundSeedIff | internal/ci/runner.go:374-381 | Every attempt that was soundly seeded seeds its retry soundly iff only leaves can be launched twice |
| Retries.SuccessesClosed | internal/ci/runner.go:374-381 | Closed successes and a sound seed, for an attempt with fixed outcomes, or in which only leaves can be launched twice, or with single launches |
| SeedLoss.OpenSeedLoses | internal/ci/step.go:57-69 | From a seed that is not closed, a complete run that loses a carried success |
| SeedLoss.SeedKeptIff | internal/ci/step.go:57-69 | Every complete run keeps every carried result unchanged iff the seed is closed |
| Retries.RetryKeepsIff | internal/ci/runner.go:374-411 | Every complete run of a retry keeps every success of its parent unchanged iff these are closed |
| Retries.RejectedCarriesNothing | internal/ci/step.go:22-26 | An attempt whose steps cannot be ordered can be retried and carries nothing |
| Retries.SteadyChainCloses | internal/ci/runner.go:374-411 | Along a chain of attempts, each with fixed outcomes, or in which only leaves can be launched twice, or with single launches, all leave closed successes |
| Retries.RetryKeepsSuccesses | internal/ci/runner.go:374-411 | Along a chain of retries whose attempts leave closed successes, a retry keeps every success unchanged |
| Retries.SuccessesNeverShrink | internal/ci/runner.go:374-411 | Along such a chain the successes accumulate unchanged |
| Retries.SuccessesKeepPosition | internal/ci/step.go:165-169 | Along such a chain each success keeps its position in every later vector |
| Retries.IndexAgreement | internal/app/executions/executions.go:184-200 | A lookup by name in the plan, a snapshot or the final results yields the index the log is written under |
| Retries.RetryPlanned | internal/ci/runner.go:383-396 | The plan persisted for a retry shows the successes of its parent at their positions, and every other step as pending |
| Retries.CopiedLogIsParents | internal/ci/runner.go:398-410 | The log copied for a carried step is the one its parent wrote |
| Plans.LookupStep | internal/app/executions/executions.go:184-191 | The index of the first step of that name, or none |
| Plans.StepIndexByName | internal/ci/step.go:379-386 | The same index, or zero |
| Plans.FindStep | internal/ci/step.go:370-377 | A step of that name, or an empty one |
| Redaction.RedactSecrets | internal/mask/mask.go:57-65 | The fold over the secrets, empty ones skipped |
| Redaction.SecretMasked | internal/mask/mask.go:9 | A secret on its own comes out as three stars |
| Redaction.NeverRecreated | internal/mask/mask.go:57-65 | Masking one secret never spells another, safe one |
| Redaction.SafeSecretGone | internal/mask/mask.go:57-65 | A safe secret is gone from the result, whatever the other secrets, their order and overlaps |
| Redaction.StarFreeSafe | internal/mask/mask.go:9 | A secret without the mask's character is safe |
| Redaction.UnsafeSurvives | internal/mask/mask.go:57-65 | For every other secret, a text in which it survives |
| Redaction.RedactionCompleteIff | internal/mask/mask.go:57-65 | A secret never survives iff it is safe |
| MaskWriter.Writer.constructor | internal/mask/mask.go:17-25 | Empty secrets are dropped |
| MaskWriter.RedactCleaned | internal/mask/mask.go:17-25 | Dropping them changes no result |
| MaskWriter.Writer.Write | internal/mask/mask.go:27-42 | File and buffer depend only on the bytes written so far; the buffer never holds a newline |
| MaskWriter.Writer.Flush | internal/mask/mask.go:44-51 | The file then holds the redaction of the whole output, line by line |
| MaskWriter.MaskOutput | internal/mask/mask.go:27-51 | Whatever the chunks, the file is the redaction of the lines of their concatenation |
| MaskWriter.OutputHides | internal/mask/mask.go:27-65 | A safe secret without inner newlines appears nowhere in the file, not even across lines |
| MaskWriter.MultiLineSecretShown | internal/mask/mask.go:27-42 | A secret with a newline inside is written out as it is |
| MaskWriter.WriterHidesIff | internal/mask/mask.go:27-65 | A secret never reaches the file iff it is safe and has no newline before its last byte |
| MaskWriter.OutputLines | internal/mask/mask.go:27-42 | With newline-free secrets the file's lines are the output's lines, each redacted |
| Workspace.BuildSource | internal/workspace/workspace.go:120-130 | Rune by rune, whatever is not filesystem-safe becomes an underscore |
| Workspace.SourceMeans | internal/workspace/workspace.go:120-130 | Letters, digits, dashes and underscores stay, anything else becomes an underscore |
| Workspace.StepLogReads | internal/workspace/workspace.go:66-68 | A step's log is named by its index in at least three digits, an underscore and its source |
| Workspace.SourceRoundTrip | internal/workspace/workspace.go:66-68 | The source read off a step's log path is the step's source, for every index and name |
| Workspace.SetupSource | internal/workspace/workspace.go:134-138 | The setup log's source is `setup` |
| Workspace.StepFileInjective | internal/workspace/workspace.go:66-68 | Two steps share a file iff they share index and source |
| Workspace.StepOrderIff | internal/workspace/workspace.go:82-92 | Sorting the files by name is step order iff there are at most a thousand steps |
| Workspace.LogPaths | internal/workspace/workspace.go:71-92 | The setup log first, then the step logs sorted by name |
| Workspace.LogsListed | internal/workspace/workspace.go:82-92 | Of a directory, exactly the files with the suffix are listed, each once, by name |
| Workspace.LogsInStepOrder | internal/workspace/workspace.go:70-92 | However the directory lists them, the logs come out in step order |
| Stream.ReadSound | internal/ci/stream.go:76-97 | Reading on keeps: the lines reported for a file are the complete lines of the part read, and the partial is the rest |
| Stream.Follower.EmitLines | internal/ci/stream.go:88-97 | Every complete line is reported once, in order; the rest is kept |
| Stream.Follower.Visit | internal/ci/stream.go:66-98 | One file of a sweep: its offset moves to what was read, nothing is lost or repeated |
| Stream.Follower.Sweep | internal/ci/stream.go:65-101 | After a sweep every file listed has been read at least up to its size |
| Stream.Follower.FlushPartials | internal/ci/stream.go:135-141 | The unterminated last lines complete the lines of every file, in whatever order files come |
| Stream.DescribeState | internal/ci/stream.go:150-163 | The reported state shows the stored status, and the name, status and exit code of each stored step |
| Stream.ChangesDiffer | internal/ci/stream.go:120-126 | Consecutive states reported differ, and the last one is the state last seen |
| Stream.ChangesGrow | internal/ci/stream.go:120-126 | The states reported so far are the start of those reported in the end |
| Stream.StreamLogs | internal/ci/stream.go:106-148 | For any polls: states are the changes, each showing what some poll found field by field and the last one what the last poll did, the end comes once and last with the terminal status, and each file alone under its source is reported exactly |
| Sse.EventStream.Next | client/executions.go:106-131 | The next event, the end or the scanner's error, as the reference reading has it |
| Sse.ReadEvents | client/executions.go:106-131 | Calling it to the end reads everything |
| Sse.StreamRead | client/executions.go:106-131 | Any list of carriable events is read back in order, each without the carriage return at its end, then a clean end |
| Sse.StreamRoundTrip | internal/sse/sse.go:27-52 | Any list of sendable events is read back exactly, then a clean end |
| Sse.StreamReadAs | client/executions.go:106-131 | Of any carriable event exactly one carriage return at the end of its data is lost, if there is one |
| Sse.ReturnLost | client/executions.go:106-131 | On the wire, data followed by a carriage return is read without it, and data that ends in none is read as it is |
| Sse.LineTooLong | client/executions.go:93 | A line of 65536 bytes ends the reading with an error |
| Sse.MoreData | client/executions.go:119-125 | Further data lines are joined with newlines, with or without a space after the field name |
| Sse.NameLine | client/executions.go:117-118 | The name read is what its line holds but for blanks around it |
| Sse.OtherLines | client/executions.go:116-126 | Lines of other fields are passed over |
| Sse.RoundTripIff | client/executions.go:106-131 | An event comes back as it was sent iff it is sendable |
| Sse.DataRead | client/executions.go:118-123 | Data cannot grow back: further data lines cost more than they add |
| Delivery.Sender.Send | internal/sse/sse.go:27-52 | The bytes of each kind of event, the terminal status in words |
| Delivery.SendAll | internal/sse/sse.go:27-52 | The body is the concatenation of the events' encodings |
| Delivery.EndToEnd | internal/ci/stream.go:65-148 | A client receives under a step's source exactly the redacted lines of its output, in order and once each, but for a carriage return at the end of a line |
| Delivery.FollowStep | internal/ci/stream.go:58-148 | The whole pipeline as one method: chunks masked into a step's log, the logs followed, the events sent and read back; for files, names, states and secrets that are well formed the client has the redacted lines without the carriage returns at their ends, so exactly these lines iff none ends in one, and last of all the end with the execution's status |
| Delivery.WithoutReturnsMeans | client/executions.go:106-131 | A carriage return at the end of a line goes, and nothing else |
| Delivery.WellFormedDelivers | internal/ci/stream.go:65-148 | When lines fit the scanner, names are not empty and fit, states are encoded on one line, and the step's source is its own, every event of the stream can be carried and the step is alone |
| Stream.PartialQuoted | internal/ci/stream.go:135-141 | An unterminated last line that is reported is a stretch of its file |
| Delivery.MaskedTexts | internal/mask/mask.go:27-51 | The lines of a masked file are the lines of the output, each redacted, an unterminated one included |
| Delivery.AloneIff | internal/workspace/workspace.go:132-147 | A step's log is alone under its source iff no other step, nor the setup, shares it |
| Delivery.FollowLogs | cmd/pici-cli/main.go:160-175 | The loop prints the data of what it reads up to the end event, states aside |
| Delivery.PrintedIff | cmd/pici-cli/main.go:169-174 | Every log line is printed, in order, iff no source is `state` or `done` |
| Store.ExecutionStore.CreateExecution | internal/stores/sqlite.go:280-340 | One transaction: the next id, the defaults, a previous attempt before a parent, and the row column by column, or nothing iff the project is unknown, the id taken or the attempt there |
| Store.ExecutionStore.UpdateExecution | internal/stores/sqlite.go:342-360 | Exactly the listed columns of that row change; its identity, claim and cancel request and all other rows stay |
| Store.ExecutionStore.ClaimPendingExecution | internal/stores/sqlite.go:536-577 | Alone, a pending row with the smallest id becomes running, claimed by the worker, and nothing else changes, or there is none |
| Store.ExecutionStore.GetLatestAttempt | internal/stores/sqlite.go:453-472 | The attempt with the largest number |
| Store.ExecutionStore.RequeueOrphanedExecutions | internal/stores/postgres.go:526-533 | No row is running afterwards: those that were are pending and unclaimed with identity, results and cancel request kept, all others are unchanged |
| Store.ExecutionStore.SetCancelRequested | internal/stores/postgres.go:535-538 | The request is set on that row, whose other columns and all other rows stay |
| Store.ExecutionStore.CancelRunningInGroup | internal/stores/postgres.go:558-565 | Every other running row of the group is asked to stop, and no row changes but these |
| Store.ExecutionStore.WorkspaceBusy | internal/stores/sqlite.go:620-627 | False iff every attempt that ever used the workspace has come to an end |
| Lifecycle.StepQuiet | internal/stores/sqlite.go:342-360 | But for insertions, transitions keep the rows, their identity and cancel requests, and follow the status edges |
| Lifecycle.CreateTable | internal/stores/postgres.go:262-312 | Inserting a root or the attempt after a failed one keeps the table sound |
| Lifecycle.WorkersStep | internal/ci/runner.go:90-121 | Every transition keeps: workers own what they run, one each |
| Lifecycle.AttendedStep | internal/stores/sqlite.go:579-586 | Every transition leaves each running attempt in the hands of a worker, a restart by requeuing it |
| Lifecycle.PastGate | internal/ci/runner.go:419-425 | Going past the gate asks every rival to stop |
| Lifecycle.CallsStep | internal/ci/runner.go:214-248 | A retry past its checks still retries an attempt that has failed |
| Lifecycle.StepInv | internal/ci/runner.go:90-121 | Every transition keeps the invariant |
| Lifecycle.RunInv | internal/ci/runner.go:90-121 | The invariant holds in every state of every run |
| Attempts.AttemptStructure | docs/adr/0001-execution-attempt-model.md:5 | Attempts are numbered from one without gaps or repetitions, all but the last have failed, all share the root's workspace |
| Attempts.RetryMeans | internal/ci/runner.go:250-263 | In every reachable state exactly the attempts after the first are retries, of an execution from the repository, each naming the attempt before it, which failed |
| Attempts.WorkspaceExclusive | internal/ci/runner.go:241-247 | No two pending or running attempts ever share a workspace |
| Attempts.InsertIff | internal/stores/sqlite.go:331-340 | The insertion of a retry goes through iff the attempt it retries is still the latest |
| Attempts.BusyMeansOvertaken | internal/ci/runner.go:241-247 | A busy workspace means another retry came first |
| Attempts.NothingUndone | internal/stores/sqlite.go:579-591 | As long as no project is deleted, between any two states of a run no row is lost or renumbered, terminal statuses and cancel requests stay, restarts included |
| Attempts.TerminalOnce | internal/ci/runner.go:613-627 | An attempt becomes terminal at most once |
| Attempts.RowsConserved | internal/stores/sqlite.go:579-586 | Pending, running and terminal rows are conserved; only queuing adds one, pending |
| Attempts.ClaimExclusive | internal/stores/sqlite.go:556-568 | No attempt is ever run by two workers at once |
| Attempts.RunningIffHeld | cmd/pici/main.go:62 | An attempt is running iff some worker runs it: none is forgotten, whatever restarts come in between |
| Attempts.OnePastGate | internal/ci/runner.go:419-425 | At most one running attempt of a project and group is past the gate without a request to stop |
| Enqueue.LatestFailedIsFree | internal/ci/runner.go:241-247 | A latest attempt that has failed has a free workspace and a free next number |
| Enqueue.EnqueueRetry | internal/ci/runner.go:214-266 | Alone, a retry is queued iff the attempt is the latest, from the repository, failed with a step to run again, and its workspace is there; the new row is a retry of the same commit, the next attempt in the same workspace, naming the one it retries |
| Enqueue.FirstRefusal | internal/ci/runner.go:219-239 | Each reason to refuse is given iff the checks before it pass and its own does not |
| Enqueue.EnqueueRebuild | internal/ci/runner.go:198-212 | A rebuild is a new execution of the same commit, from the repository, with its own workspace, that names the one it rebuilds |
| Enqueue.CancelExecution | internal/app/executions/executions.go:128-138 | A cancel request goes to the latest attempt and to no other row |

## Left out

- SchedulerOnce.AtomicSweepLaunchesOnce: assumes an atomic sweep and no repeated dependency that comes last, because the code can launch a step twice without them, as `SingleLaunch` shows.
- Outcome.VerdictIff: assumes single launches, because without them it can fail, as `RaceVerdict.FailsWithoutFailure` shows; `RaceVerdict.VerdictAgreesIff` has the exact condition.
- Retries.SuccessesNeverShrink: assumes that the attempts retried leave closed successes, because without that a retry can lose a success, as `SeedLoss.OpenSeedLoses` shows.
- Attempts.NothingUndone: does not model the deletion of a project, which removes its rows.
- SchedulerConfluence.ScheduleIndependence: claims nothing for runs in which the context is canceled, because which steps a cancellation reaches depends on the schedule.
- Stream.StreamLogs: polls end when the viewer leaves; tickers and wall-clock time are not modelled, and `emit` does not fail.
- Delivery.EndToEnd: takes the file of the step as read to its end, which for the setup log depends on the final sweep.
- Workspace.LogPaths: sorting stands for the library's sort; an unreadable directory is an empty listing.
- Store.ExecutionStore.UpdateExecution: times are not columns of the model.
- RunStep.Run: building the command and running the container are outcomes here; creating the log file, which can fail a step before its first try, and the writes of its container are not modelled.
- MaskWriter.Writer.Write: the underlying file accepts every write.
- Sse.EventStream.Next: trims ASCII spaces only around names; names on this wire are made of letters, digits, dashes and underscores.
- The goroutines of a run are transitions of a state machine and not code; only the critical sections are written as methods.
- Cancellation as seen by a running worker (`watchCancel`, `Runner.Cancel`), so nothing is said about when a cancel request ends in a canceled attempt.
- Draining workers at shutdown, and a claim that races it.
- Claims across projects are ordered by ids that are per project, so no global order of claims is stated.
- Cloning, archives, image builds, sandboxes, notifications, schedules, artifacts and caches: foreign calls, which here only decide whether and how an attempt finishes.
- Parsing of workflows, matching of triggers, HTTP handlers, the web interface, authentication, secrets at rest, garbage collection, and the other tables of the stores.
- `ListExecutions`, `ListAttempts`, `SetCheckRunID`, `CountPendingExecutions` and `WorkspaceRetained`: reads and single-column writes that would add easy members.
