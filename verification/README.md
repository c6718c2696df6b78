# A model of the rewrite inspector

The inspector edits held HTTP responses and WebSocket frames. A request waits in a bounded pool
with a deadline; a worker takes it, picks the groups of modifiers that are active for it, loads the
body from the object store, rewrites it under a shared match budget, stores the result and replies.
Its profiles are rolled out as whole generations, and its events leave in batches.

This project models those five parts and proves what they are for.

| part | files |
|---|---|
| deadline pool | `PoolQueue`, `PoolMachine`, `Books`, `PoolOwnership`, `PoolFrames`, `PoolSleep`, `PoolLedger`, `PoolTheorems`, `PoolHistory`, `PoolDrain`, `PoolObject`, `PoolSections`, `PoolAnswers` |
| rewrite engine | `Config`, `Splice`, `Rewrite`, `RewriteLaws`, `RewriteSize`, `RewriteHeaders`, `RewriteMeaning`, `ConfigMeaning` |
| generation rollout | `Names`, `Profiles`, `Rollout`, `RolloutApply`, `RolloutRuns`, `RolloutWatch`, `RolloutWitness`, `RolloutMeaning` |
| audit batcher | `Audit`, `AuditRuns`, `AuditMeaning` |
| decision path | `Prior`, `PriorMeaning`, `Bodies`, `Handler`, `HandlerLaws`, `HandlerMeaning`, `HandlerWitness`, `EndToEnd` |

The files called *Meaning* say what the definitions of a part amount to in plain numbers, words and
fields, so that each definition is fixed by something other than itself. `Seqs` holds facts about
sequences. `dafny verify dfyconfig.toml` checks everything.

**The pool** is a step machine: each critical section is one step of a submitter, a worker, the
sweeper or `Close`; the condition variable is a set of sleeping threads of which `Signal` wakes any
one; the clock and the timers are steps of the environment; all handler calls are logged. The main
results quantify over every legal run. The code under the mutex is also written as a class over an
array that is filtered in place, proved against the functions the steps of the machine are made of.

**The rewriter** takes the regular expression library as a parameter (`Engine`). What is assumed of
it (`Lawful`): matches are in bounds, ordered and disjoint, at most as many as asked for, and asking
for fewer gives a prefix. A literal matcher that satisfies this is defined and proved lawful.
Expansion of a replacement template is an arbitrary function.

**The rollout** works on directories as maps from path to tree. Every file access may fail, also the
rename that puts the old tree back; only removing a tree always succeeds. Reading a tree may also end
the program, as validation dereferences an empty entry in a list of operations; a run therefore
includes crashes and restarts. A ghost history records every intermediate state of the disk.

**The decision path** takes the object store, decryption, digest, header decoder and writer as
arbitrary functions, and returns the reply together with what was handed to the store.

## What the code does not promise

Each of these has its exact condition and a concrete case.

- After a failed update the reported generation need not be the live tree: if the rename that puts it
  back fails, it is only parked, and the next update that stages its files removes the parked copy even
  when that update fails too. The tree is then nowhere on disk while the report still names it and its
  profiles are still served. `Rollout.LiveLostIff` and `RolloutRuns.FailuresPlace` say exactly which
  faults do that, `RolloutRuns.ReportedIsLive` that no others do, `RolloutWitness.ReportCanOutliveTree`
  shows a run.
- A manifest is not always applied or rolled back: an empty entry in a group's list of body operations
  (`body: [~]`) that validation comes upon ends the program, after the new tree has become the live one.
  Bootstrap reads that tree at the next start and ends the program again, so no later manifest is ever
  received. `Config.Validate` and `Rollout.CrashIff` say exactly when, `RolloutRuns.CrashLoop` and
  `RolloutWitness.ManifestCanWedge` what follows, `RolloutRuns.SaneRunsLive` that nothing else does it.
- A failed update can change what is served: if the store fell back to its base directory at start
  while a readable live tree exists, a later failed Apply puts that tree back *and reads it*. It also
  can drop a probe profile lent by the base directory. `Rollout.FailureKeepsServedIff` gives the exact
  condition, `Rollout.FailureCanSwitch` a case. Once one generation has been applied, what is served is
  that generation up to the lent probe (`RolloutRuns.EveryRun`).
- The reload ticker compares one directory; a changed probe profile in the base directory is not
  noticed while another directory is served (`Profiles.ReloadIsFreshIff`,
  `RolloutWitness.ReloadCanMissProbe`).
- An enforcing profile lets a message through unrewritten when the request gives no address for the
  body at all (`HandlerLaws.PassesWithoutBodyIff`, `HandlerWitness.EnforcedCanPass`); an announced but
  unavailable body is denied.
- The documentation says that an observing profile answers `REWRITE_NOOP` when there is nothing to
  apply. On frames it answers `REWRITE_OBSERVE` as soon as a group matches, also when none of its
  patterns is found (`HandlerLaws.ObserveForetellsIff`, `HandlerWitness.ObserveCanMislead`), and on a
  missing body it answers `REWRITE_BODY_UNAVAILABLE` (`HandlerLaws.ObserveUnavailableIff`,
  `HandlerWitness.ObserveCanMissBody`). The model follows the code.
- The audit sink accepts events after Close has returned and never sends them (`AuditRuns.CloseFlushes`,
  `AuditRuns.LateEventIsStranded`).

## Model

| member | source | states |
|---|---|---|
| `PoolQueue.Cap` | internal/queue/queue.go:54-61 | the capacity in force is the configured depth, and one if that is less |
| `PoolQueue.Partition` | internal/queue/queue.go:185-210 | taking the expired tasks is a stable partition: kept and dead keep their order, are separated exactly by the remaining time, and are a permutation of the old queue |
| `PoolQueue.HeadIsFirstLive` | internal/queue/queue.go:274-282 | the head after expiry is the first live task, and all tasks before it had expired |
| `PoolQueue.LiveLater` | internal/queue/queue.go:173-210 | sweeping early and again later keeps the same tasks as sweeping once later |
| `PoolQueue.SweepsAreInvisible` | internal/queue/queue.go:173-210 | over any history of enqueues, takes and sweeps in time order, deleting all sweeps changes neither the tasks handed out nor what any later moment finds live |
| `PoolOwnership.StepOwn` | internal/queue/queue.go:86-161 | every step of every thread keeps each task in one place only, as the books say |
| `PoolSleep.StepTiming` | internal/queue/queue.go:118-145 | every step keeps the timers right: a waiting submitter has its timer set or fired |
| `PoolSleep.StepSleep` | internal/queue/queue.go:134-143 | every step keeps the sleeping discipline of submitters and workers that share one condition variable |
| `PoolLedger.StepLedger` | internal/queue/queue.go:163-167 | every step keeps acceptances equal to popped plus taken plus queued, in order, and the counters equal to the answers given |
| `PoolLedger.StepHonest` | internal/queue/queue.go:296-324 | every step keeps all logged answers deserved |
| `PoolTheorems.StepInv` | internal/queue/queue.go:86-324 | one step of any thread, timer or Close keeps the whole invariant |
| `PoolTheorems.Reached` | internal/queue/queue.go:86-324 | every state of every interleaving satisfies the invariant |
| `PoolTheorems.ExactlyOnePlace` | internal/queue/queue.go:86-161 | in every interleaving a submitted task is in exactly one of queue, one thread's hands, answered; its handler is never called twice |
| `PoolTheorems.QuietMeansAnswered` | internal/queue/queue.go:248-324 | when nothing can move, every submitted task was answered exactly once and submitted = run + shed + expired |
| `PoolTheorems.NoLostWakeup` | internal/queue/queue.go:134-167 | a submitter sleeps only on a full queue of an open pool with its timer pending, so Signal can only wake a worker; while a worker sleeps, queued tasks never outnumber woken workers |
| `PoolTheorems.CountersAgree` | internal/queue/queue.go:96-167 | the queue never exceeds the depth, Accepted = popped + taken + queued, Expired and Shed count their answers, and wait mode never sheds |
| `PoolTheorems.ServedInOrder` | internal/queue/queue.go:270-282 | the tasks popped over any run are a subsequence of the acceptance order |
| `PoolTheorems.PopTakesFirstLive` | internal/queue/queue.go:270-294 | a pop yields the first live task; all expired tasks leave the queue for its batch, and the live ones behind the first stay in order |
| `PoolSections.PopStepIsSection` | internal/queue/queue.go:274-293 | the pop step is the section of the pool object: same queue, same outcome, exactly the sleepers it wakes move, nothing else changes |
| `PoolSections.EnterStepIsSection` | internal/queue/queue.go:96-115 | the same for the second section of Submit |
| `PoolSections.RecheckStepIsSection` | internal/queue/queue.go:134-160 | the same for a pass of the wait loop and what follows it, with its timer |
| `PoolSections.GatherStepIsSection` | internal/queue/queue.go:178-210 | the same for collecting expired tasks, by a submitter or the sweeper |
| `PoolSections.CloseStepIsSection` | internal/queue/queue.go:225-228 | the same for Close: everybody is woken |
| `PoolAnswers.AnswersAreDeserved` | internal/queue/queue.go:248-324 | for every answer of every run there is the step that gave it, and what that step owes at that moment: a worker runs the task it holds, with all its time up to the reserve, exactly if that is the minimum budget, closed or not; a batch is answered with the deadline for tasks that are out of time; a submitter passes on its refusal |
| `PoolAnswers.LimitMeansFull` | internal/queue/queue.go:96-115 | a task answered with the queue limit was turned away earlier in the run by a full queue of an open pool that drops |
| `PoolAnswers.RefusalMoment` | internal/queue/queue.go:86-161 | for every submitter that answers its own task there is the step that refused it: out of time, closed, or a full queue with the drop policy or the waiting time up |
| `PoolAnswers.CheckMeans` | internal/queue/queue.go:86-92 | the first check refuses exactly a task that is out of time |
| `PoolAnswers.EnterMeans` | internal/queue/queue.go:96-115 | accepted exactly if open with room; else refused, made to wait or shed |
| `PoolAnswers.ArmMeans` | internal/queue/queue.go:118-132 | a submitter that is out of time does not wait; else its timer is set for the end of its time |
| `PoolAnswers.RecheckMeans` | internal/queue/queue.go:134-160 | a waiting submitter that finds the pool open and room is accepted, whatever its timer says; when exactly it sleeps and is refused; its timer is stopped |
| `PoolAnswers.PopMeans` | internal/queue/queue.go:274-293 | what a worker does after a pass of pop, by live and expired tasks and the closed flag |
| `PoolAnswers.LiveMeans` | internal/queue/queue.go:173-201 | a task is kept exactly while it has the minimum budget left up to its deadline less the reserve |
| `PoolHistory.StepPlays` | internal/queue/queue.go:163-210 | every step of the machine does to the queue what its event (enqueue, sweep or take) says, and the clock never goes back |
| `PoolHistory.RunPlays` | internal/queue/queue.go:86-294 | the queue and the popped tasks of every run are what its history leaves behind |
| `PoolHistory.RunSweepsAreInvisible` | internal/queue/queue.go:173-282 | over every interleaving: with the same acceptances and pops but no sweeping, the workers take the same tasks and the same live work is queued |
| `PoolDrain.CloseDrains` | internal/queue/queue.go:223-294 | once Close has returned, workers and sweeper are gone, the queue is empty, and each task is answered or held by a Submit still in progress |
| `PoolDrain.ClosedNeverGrows` | internal/queue/queue.go:96-101 | after the closed flag is set, every step leaves a subsequence of the queue and the flag stays |
| `PoolDrain.RankFalls` | internal/queue/queue.go:223-294 | in a closed pool every productive step uses up a bound and no other step of the pool raises it |
| `PoolDrain.ProductiveBound` | internal/queue/queue.go:223-294 | the productive steps of a closed pool are bounded over any continuation without new calls |
| `PoolDrain.StuckIsDrained` | internal/queue/queue.go:223-294 | a closed pool in which nothing productive is possible is drained: no deadlock |
| `PoolDrain.CloseTerminates` | internal/queue/queue.go:223-230 | from every state of every run in which the pool is closed: boundedly many productive steps, and in the end state of every continuation in which none is left Close has returned and all tasks are answered |
| `PoolObject.Compact` | internal/queue/queue.go:190-203 | the in-place filter leaves the live tasks in order at the front of the same buffer and returns the expired ones in order |
| `PoolObject.Pool.constructor` | internal/queue/queue.go:54-84 | a new pool is empty, open and has counted nothing |
| `PoolObject.Pool.TakeExpired` | internal/queue/queue.go:185-210 | queue and dead batch are the partition, and everyone is woken exactly if something expired |
| `PoolObject.Pool.Enqueue` | internal/queue/queue.go:163-167 | the task is appended, counted, and one thread is signalled |
| `PoolObject.Pool.PopOnce` | internal/queue/queue.go:274-293 | outcome, dead batch, queue and wake-up of one pass of pop |
| `PoolObject.Pool.TryEnter` | internal/queue/queue.go:96-115 | refused when closed, accepted when there is room, else wait or shed by policy; only an acceptance changes the queue |
| `PoolObject.Pool.WaitOnce` | internal/queue/queue.go:134-160 | one pass of the wait loop: collect the dead, sleep, or leave accepted (and counted) or refused |
| `PoolObject.Pool.Close` | internal/queue/queue.go:225-228 | the flag is set, the queue is untouched and everyone is woken |
| `Config.CompileOp` | internal/config/profile.go:369-415 | an operation is accepted exactly if it is well formed, and gets the default match limit |
| `Config.CompileOps` | internal/config/profile.go:354-358 | the operations in order: all compiled, or stopped at the first that is refused; a crash exactly if the first that is not good is empty |
| `Config.CheckGroups` | internal/config/profile.go:265-286 | the loop over the groups: an empty group, a bad or repeated name or a bad group is refused; a crash exactly if one is reached |
| `Config.CheckSelectors` | internal/config/profile.go:301-338 | selectors and header operations fit the phase of the group; phase and opcode defaults are filled in |
| `Config.CheckGroup` | internal/config/profile.go:296-367 | a group is accepted exactly if it is well formed, with its defaults filled in; a crash exactly if its front is good and an empty operation is reached |
| `Config.Validate` | internal/config/profile.go:250-294 | a decoded profile is accepted exactly if it is well formed, with no empty entry; validation ends the program exactly if everything it looks at before an empty operation is good |
| `Config.CrashNeedsHole` | internal/config/profile.go:369-371 | only a profile with an empty entry can end the program |
| `Config.ValidatedIsSound` | internal/config/profile.go:250-481 | a validated profile has what its users rely on, and validating it again changes nothing |
| `ConfigMeaning.ProfileIff` | internal/config/profile.go:250-294 | which profiles are accepted, in plain terms |
| `ConfigMeaning.GroupIff` | internal/config/profile.go:296-367 | which groups are accepted, in plain numbers |
| `ConfigMeaning.SelectorsIff` | internal/config/profile.go:301-338 | which selectors fit a phase, in plain words |
| `ConfigMeaning.BodyOpIff` | internal/config/profile.go:369-415 | which body operations are accepted, in plain numbers |
| `ConfigMeaning.HeaderOpIff` | internal/config/profile.go:417-451 | which header operations are accepted, with the forbidden names spelled out |
| `ConfigMeaning.RuleIff` | internal/config/profile.go:453-481 | which rules are accepted: a named sender, and only mutate and skip |
| `ConfigMeaning.NameIff` | internal/config/profile.go:46 | which group names are accepted, by their characters |
| `ConfigMeaning.FilledMeans` | internal/config/profile.go:301-410 | the defaults that are filled in, and that nothing else changes |
| `ConfigMeaning.ResponseMeans` | internal/config/profile.go:135-152 | a response group is for the statuses and types it lists, and for all where it lists none |
| `ConfigMeaning.TypeMeans` | internal/config/profile.go:156-184 | whatever blanks, case and parameters it comes with, a content type is allowed exactly if its media type is wanted or ends with a wanted suffix |
| `ConfigMeaning.FrameMeans` | internal/config/profile.go:97-113 | a frame group is for the directions and opcodes it lists in any case, and for all where it lists none |
| `ConfigMeaning.LowerMeans` | internal/config/profile.go:161 | exactly the capital letters become small |
| `Splice.Emit` | internal/decide/apply.go:120-141 | one turn of the splice loop adds the gap and the rewritten match |
| `Splice.SpliceLoop` | internal/decide/apply.go:113-146 | for every ordered match list the loop interleaves untouched gaps with rewritten matches |
| `Splice.RemoveIsComplement` | internal/decide/apply.go:126-128 | remove leaves exactly the bytes outside all matches |
| `Splice.InsertThenErase` | internal/decide/apply.go:132-141 | after either insert the copies of the text are where they should be, one per match, and erasing them gives the body back |
| `Splice.SpliceSize` | internal/decide/apply.go:113-146 | size after inserts and removals from match count, text length and matched bytes |
| `Splice.LiteralIsLawful` | internal/decide/apply.go:113 | a literal matcher satisfies everything assumed of the library |
| `Rewrite.ApplyBodyOp` | internal/decide/apply.go:102-147 | an operation makes at most its own limit and the remaining budget of matches, pays for them, and changes nothing without one (which matches: RewriteMeaning.ActsOnFirst) |
| `Rewrite.ApplyHeaderOp` | internal/decide/apply.go:149-171 | one header operation on the accumulated changes |
| `Rewrite.ApplyOps` | internal/decide/apply.go:73-88 | the operations of a group run on each other's output until the budget is gone |
| `Rewrite.ApplyGroup` | internal/decide/apply.go:57-97 | one group: passed over, or its operations, headers, row and name |
| `Rewrite.Apply` | internal/decide/apply.go:28-100 | the whole is the fold of the group step from the full budget, for responses and for frames |
| `RewriteLaws.BudgetConserved` | internal/decide/apply.go:54-118 | matches in the rows plus remaining budget is the budget, "spent" means all used, and the body changed exactly if there was a match |
| `RewriteLaws.BudgetUnobservable` | internal/decide/apply.go:52-118 | a run that ends with budget left is identical under any larger budget, across all nested operations |
| `RewriteLaws.GroupsCompose` | internal/decide/apply.go:56-100 | applying a concatenation is applying the second list to the state of the first |
| `RewriteLaws.RowsAreAppended` | internal/decide/apply.go:56-100 | earlier rows never influence the rest of the run |
| `RewriteLaws.PassedOverIsInert` | internal/decide/apply.go:59-71 | deleting a group that was passed over changes nothing but its own row |
| `RewriteLaws.ChangedIff` | internal/decide/apply.go:73-88 | a run changes the body exactly if an operation of a matching group finds something in the body as it came |
| `RewriteMeaning.ActsOnFirst` | internal/decide/apply.go:103-118 | an operation acts on exactly the first matches of its pattern, as many as it may make and the budget allows |
| `RewriteMeaning.OneOperation` | internal/decide/apply.go:102-147 | matches made, body left and budget paid by one operation, from the library's matches |
| `RewriteMeaning.OneMatch` | internal/decide/apply.go:123-142 | what each kind of operation makes of one match between what stands before and after it |
| `RewriteMeaning.MoreMatches` | internal/decide/apply.go:123-144 | the first of several matches is dealt with like one, and the rest after it |
| `RewriteMeaning.OpsCompose` | internal/decide/apply.go:73-88 | operations work on the body and budget the ones before them leave |
| `RewriteMeaning.SpentIff` | internal/decide/apply.go:74-79 | a group runs out of budget exactly if one of its operations finds none left |
| `RewriteMeaning.OneGroup` | internal/decide/apply.go:57-97 | body, budget and matches a group leaves, and that the run is out of budget exactly from the first group that could not carry out an operation |
| `RewriteMeaning.RowsMean` | internal/decide/apply.go:56-97 | one row for each group, with the reason it was skipped, by selector, operations and body |
| `RewriteMeaning.AppliedMeans` | internal/decide/apply.go:59-97 | exactly the groups that match and have their body if they work on one are applied |
| `RewriteSize.BodyIsReplay` | internal/decide/apply.go:73-88 | the body of a run over all groups is the replay of its trace of operations and matches |
| `RewriteSize.ReplaySize` | internal/decide/apply.go:120-146 | removals and inserts change the size by exactly what they add and cut |
| `RewriteSize.SizeBound` | internal/decide/apply.go:52-146 | with removals and inserts only, the output is longer by at most 4096 times the longest text, over all groups together |
| `RewriteHeaders.HeadersIgnoreBudget` | internal/decide/apply.go:90-97 | header changes and applied names depend on the groups alone, not on budget or body contents |
| `RewriteHeaders.HeadersMean` | internal/decide/apply.go:149-171 | Set is last writer wins; Unset is the duplicate-free list in order of first mention; no operation means no header section |
| `Profiles.ReadingIsValidated` | internal/config/profiles.go:171-246 | whatever is read has `default` and only validated profiles |
| `Profiles.OwnIgnoresTrouble` | internal/config/profiles.go:181-197 | failing file accesses can make a tree unreadable but never make it mean something else |
| `Profiles.PanicIgnoresTrouble` | internal/config/profiles.go:181-197 | nor can they cause a crash |
| `Profiles.TakenIsHealthy` | internal/config/profiles.go:171-224 | every snapshot has `default`, an ascending duplicate-free list of exactly its names, and validated profiles |
| `Profiles.ReloadIsFreshIff` | internal/config/profiles.go:118-136 | with an unchanged directory, however it was first read, a reload leaves what a fresh reading gives exactly if no probe is borrowed or the base directory lends the very probe that is served |
| `Profiles.Store.constructor` | internal/config/profiles.go:76-87 | a new store serves its base directory |
| `Profiles.Store.ReadOwn` | internal/config/profiles.go:179-197 | the loop over the entries in name order: all readable profiles and their names once each; the first bad one decides between failure and crash |
| `Profiles.Store.Read` | internal/config/profiles.go:171-224 | a read succeeds exactly if the directory can be served and gives the one snapshot of it; it ends the program exactly if it reaches a profile that does; only success counts a generation |
| `Profiles.Store.ReloadFrom` | internal/config/profiles.go:98-116 | success serves the new directory, failure leaves directory and snapshot as they were |
| `Profiles.Store.Reload` | internal/config/profiles.go:118-136 | nothing is read while the fingerprint is the same, failure changes nothing, otherwise the directory is served anew |
| `Names.AscendingUnique` | internal/config/profiles.go:213 | a set of names has one ascending list, so a snapshot's name list is determined by its profiles |
| `Names.BeforeMeans` | internal/config/profiles.go:213 | names are in byte order |
| `RolloutMeaning.LookupMeans` | internal/config/profiles.go:31-43 | a request gets the profile of its own name, none if there is none, and `default` for the empty name |
| `RolloutMeaning.OwnMeans` | internal/config/profiles.go:181-246 | a tree can be read exactly if all its profile texts open, decode and validate, and then holds exactly those profiles |
| `RolloutMeaning.ReadingMeans` | internal/config/profiles.go:171-224 | what a directory serves: its own profiles, `default` among them, and the base directory's probe if it has none |
| `RolloutMeaning.ReloadMeans` | internal/config/profiles.go:118-136 | a reload reads exactly if the digest is new, serves what it reads, and counts one more |
| `Rollout.Transaction` | internal/desired/desired.go:143-199 | for every choice of failing steps: success means the live tree is the manifest's and is served; failure means the live tree is the old one, or it could not be put back and is still parked; a crash leaves one of the two live and the old one not lost; no other directory changes |
| `Rollout.LiveLostIff` | internal/desired/desired.go:174-192 | a live tree is gone after an Apply exactly if the new tree was staged and the old one parked, the new one was not promoted or not servable, and the old one could not be put back |
| `Rollout.CrashIff` | internal/desired/desired.go:184-191 | an Apply ends the program exactly if it reaches its reload and its own tree crashes it, or that fails and the old tree does |
| `Rollout.ManifestCanCrash` | internal/desired/desired.go:184 | a manifest with an empty operation does so with no fault at all, its tree being live then |
| `Rollout.FailureKeepsServedIff` | internal/desired/desired.go:184-194 | all failing Applies keep the served profiles exactly if there is no live tree, it cannot be served, or it is what is served without a lent probe |
| `Rollout.FailureCanSwitch` | internal/desired/desired.go:187-191 | a concrete state in which a failed Apply switches the served profiles |
| `Rollout.LastFileWins` | internal/desired/desired.go:213-218 | of several files with one name in a manifest the last one is on disk |
| `Rollout.ServesTheManifest` | internal/desired/desired.go:184-198 | after a success every profile with a text in the manifest is served, validated from the last such text |
| `Rollout.ServesNothingElse` | internal/desired/desired.go:184-198 | and nothing else is served but a borrowed probe |
| `RolloutApply.WriteProfile` | internal/desired/desired.go:207-218 | one profile's files are all written, or the failure is reported; no other directory changes at any moment |
| `RolloutApply.Write` | internal/desired/desired.go:201-222 | complete exactly if every access works, and then the directory is the manifest's tree |
| `RolloutApply.Stage` | internal/desired/desired.go:152-158 | staging leaves the full new tree or nothing, and touches only the staging directory |
| `RolloutApply.Park` | internal/desired/desired.go:160-172 | the live tree is parked, was absent, or is left alone with staging cleaned up |
| `RolloutApply.Promote` | internal/desired/desired.go:174-182 | the staged tree becomes live, or the parked one is put back |
| `RolloutApply.Settle` | internal/desired/desired.go:184-198 | the new tree is served and the old given up last, or the old one is put back and read, or the program ends |
| `RolloutApply.Apply` | internal/desired/desired.go:143-199 | the whole is the transaction of the specification; in every intermediate state live is absent, wholly old or wholly new, and a live tree it found exists until the last step of a success (what becomes of a tree that was only parked is in RolloutRuns.FailuresPlace) |
| `RolloutRuns.NextServing` | internal/desired/desired.go:302-326 | every event keeps a healthy snapshot served |
| `RolloutRuns.NextTruthful` | internal/desired/desired.go:302-326 | every event keeps the report truthful and the tree of the applied generation where the faults put it |
| `RolloutRuns.EveryRun` | internal/desired/desired.go:252-363 | over every run of starts, ticks, manifests and edits with any failures and crashes, while the program is alive: healthy snapshot; reported hash, rev and names are of the last applied generation, which is served and whose tree is where the faults put it |
| `RolloutRuns.ReportedIsLive` | internal/desired/desired.go:309-326 | if putting a parked tree back never fails, the reported generation is the live tree in every run, whatever else fails |
| `RolloutRuns.OnDiskIff` | internal/desired/desired.go:160-198 | the reported generation is live, parked or nowhere on disk exactly as the faults say |
| `RolloutRuns.FailuresPlace` | internal/desired/desired.go:160-192 | after a live generation and any failing updates: its tree is live exactly if no update parked it without being able to put it back, and nowhere exactly if a later one staged its files |
| `RolloutRuns.SaneRunsLive` | internal/desired/desired.go:252-363 | without an operation that crashes validation, in any tree: over every run with any starts, the program is alive exactly if its last start found a base directory it can serve |
| `RolloutRuns.RestartFailsIff` | internal/desired/desired.go:342-363 | a start fails exactly if the base directory cannot be served or Bootstrap looks at a live tree that ends the program |
| `RolloutRuns.CrashLoop` | internal/desired/desired.go:349-353 | a live tree that ends the program keeps it from ever starting again while its files can be read, whatever manifests arrive |
| `RolloutRuns.AppliedIff` | internal/desired/desired.go:143-199 | a manifest is applied exactly if its own steps work, its own tree can be served and reading it does not end the program, whatever happened before; then report, disk and store are all its |
| `RolloutRuns.PassedOverIsLive` | internal/desired/desired.go:309-313 | a manifest that is passed over as known is already live and served |
| `RolloutMeaning.PassedOverIff` | internal/desired/desired.go:309-315 | exactly the manifest that is reported as applied, by hash and revision, is passed over |
| `RolloutMeaning.UpdateReports` | internal/desired/desired.go:315-326 | what is reported of a manifest that is tried, word for word |
| `RolloutMeaning.NothingStaysStaged` | internal/desired/desired.go:152-181 | no tree stays staged |
| `RolloutWatch.Reporter.Set` | internal/desired/desired.go:243-250 | the report is replaced as a whole |
| `RolloutWatch.Reporter.Snapshot` | internal/desired/desired.go:232-241 | the report is read as a whole |
| `RolloutWatch.Reporter.Step` | internal/desired/desired.go:309-326 | a manifest that arrives does to disk, store and report what the run model says |
| `Names.InOrder` | internal/desired/desired.go:131-141 | the ascending list of the manifest's profile names, and of a directory's entries |
| `RolloutWatch.Bootstrap` | internal/desired/desired.go:342-363 | the live tree of an earlier run is served if it is there and can be; otherwise nothing changes, or the program ends |
| `RolloutWatch.StartUp` | internal/config/profiles.go:76-87 | a program starts with its base directory served, and then the live tree if Bootstrap finds one |
| `RolloutMeaning.BootMeans` | internal/desired/desired.go:342-363 | a start serves the live tree exactly if it is there with a `default` profile, can be looked at and served, and the base directory otherwise |
| `RolloutMeaning.RestartServesAgain` | internal/desired/desired.go:342-363 | after an applied generation that is still live, a restart without trouble serves its profiles again |
| `RolloutWatch.KilledAnywhere` | internal/desired/desired.go:143-199 | if the program is killed after any step of an Apply, a start that succeeds on the disk it left serves the base directory, the old tree or the new tree, each entire |
| `RolloutWitness.ReportCanOutliveTree` | internal/desired/desired.go:160-192 | a run after which the reported generation is not live, and one after which it is nowhere on disk |
| `RolloutWitness.ManifestCanWedge` | internal/desired/desired.go:342-363 | one manifest after which the program is never alive again, whatever happens but trouble with reading files |
| `RolloutWitness.ReloadCanMissProbe` | internal/config/profiles.go:118-136 | a probe that appears in the base directory and is not served after a reload |
| `Audit.GroupBySubject` | internal/audit/sink.go:170-183 | subjects in order of first appearance, each with its events in order |
| `Audit.Publish` | internal/audit/sink.go:156-168 | the one-event fast path and the general path hand the same messages to send |
| `Audit.GroupedKeeps` | internal/audit/sink.go:156-183 | grouping keeps every event of every subject, once and in order |
| `Audit.GroupedGood` | internal/audit/sink.go:140-168 | each message holds 1 to 256 events, all of its own subject |
| `Audit.ComputeSize` | internal/audit/sink.go:207-215 | the recomputed size of a list |
| `Audit.Sink.constructor` | internal/audit/sink.go:51-63 | a new sink is empty and has dropped nothing |
| `Audit.Sink.Add` | internal/audit/sink.go:79-92 | append, drop the oldest beyond 50000, count them, keep the cached size right, ask for a flush when full |
| `Audit.Sink.Take` | internal/audit/sink.go:132-150 | the oldest chunk leaves, the cached size stays right |
| `Audit.Sink.AddAll` | internal/audit/sink.go:79-89 | what others add while a chunk is being sent: the newest stay, the overflow is counted |
| `Audit.Sink.Flush` | internal/audit/sink.go:130-154 | with any batches added by others while its chunks are being sent: everything is handed to send chunk by chunk until nothing is pending, and exactly the overflow is dropped |
| `Audit.FlushKeeps` | internal/audit/sink.go:130-154 | whatever others add meanwhile, a flush delivers for each subject, in order, what was pending and what arrived, all but dropped events, and all if none was dropped |
| `Audit.Sink.Kick` | internal/audit/sink.go:101-106 | the flusher has a token |
| `Audit.Sink.Stop` | internal/audit/sink.go:222-223 | the stop channel is closed |
| `AuditRuns.Reached` | internal/audit/sink.go:65-226 | every interleaving of callers, flusher loop and Close keeps the invariant |
| `AuditRuns.NothingLost` | internal/audit/sink.go:79-183 | in every interleaving each event is pending, in hand, sent once under its own subject, or counted as dropped with only the oldest dropped; per subject the order is the order of Add; the cached size is right and the list bounded |
| `AuditRuns.FlushedMeansSent` | internal/audit/sink.go:130-154 | when nothing is pending or in hand, sent plus dropped is everything, in order for each subject |
| `AuditRuns.NoLostKick` | internal/audit/sink.go:91-128 | while the flusher waits beside a list that asks for a flush, its token is there or a caller is about to leave it |
| `AuditRuns.CloseFlushes` | internal/audit/sink.go:108-128 | when Close has returned, every event added before the flusher ended was sent or dropped, and nothing is pending exactly if none was added after that |
| `AuditRuns.CloseSendsAll` | internal/audit/sink.go:217-226 | without an Add since Close was called, everything was sent under its subject in order or counted as dropped when Close returns |
| `AuditRuns.Stranded` | internal/audit/sink.go:108-128 | nothing is ever sent after the flusher has ended |
| `AuditRuns.LateEventIsStranded` | internal/audit/sink.go:65-99 | an event added after Close is accepted, stays pending and is never sent |
| `AuditRuns.DriveStep` | internal/audit/sink.go:79-154 | one critical section of the sink object, one receive of its flusher or one message sent is one step of the run |
| `AuditRuns.Drive` | internal/audit/sink.go:65-226 | the sink object, its flusher and Close, driven through any interleaving, are in the state of the run |
| `AuditMeaning.AddMeans` | internal/audit/sink.go:79-92 | only the oldest event is dropped and only beyond 50000; a flush is asked for from 256 events or 512 KiB on |
| `AuditMeaning.TakeMeans` | internal/audit/sink.go:140-149 | the oldest 256 events are taken, or all if fewer |
| `AuditMeaning.SizeMeans` | internal/audit/sink.go:207-215 | an event counts with its bytes and two more |
| `AuditMeaning.SubjectsInOrder` | internal/audit/sink.go:170-183 | subjects come in the order of their first mention |
| `AuditMeaning.RunLimits` | internal/audit/sink.go:79-168 | in every run at most 50000 events are pending and messages hold 1 to 256 |
| `Prior.Deliver` | internal/decide/prior.go:92-139 | one action against all rules: it counts once however many rules hear it, and its outcome records it with one signed group name for each rule that hears it |
| `Prior.EvaluatePrior` | internal/decide/prior.go:70-90 | Skip, on and off are what the requests ask for as a set; one outcome per action, in order; nothing without a profile |
| `Prior.Active` | internal/decide/prior.go:48-68 | the active groups in the order of the profile |
| `Prior.OrderDoesNotMatter` | internal/decide/prior.go:48-139 | permuting or repeating requests and rules changes neither Skip nor the active groups |
| `Prior.WishesMembers` | internal/decide/prior.go:82-87 | the requests delivered are exactly the actions of the entries |
| `Prior.ShuffledSays` | internal/decide/prior.go:82-87 | permuting the entries and the actions inside them leaves the same requests |
| `Prior.OthersDoNotMatter` | internal/decide/prior.go:92-139 | deleting every action that was not obeyed changes nothing |
| `Prior.PrunedWishes` | internal/decide/prior.go:82-139 | deleting inside the entries every action that is not obeyed deletes exactly those requests |
| `Prior.OffDominates` | internal/decide/prior.go:48-68 | a group is active exactly if it is not asked off and is on by default or by request |
| `PriorMeaning.HeardIff` | internal/decide/prior.go:98-112 | a request is heard exactly if a rule names its sender, accepts its verb and wants its code, and it is for this request |
| `PriorMeaning.UnheardIsIgnored` | internal/decide/prior.go:98-112 | any other request changes nothing and is recorded with "no rule" |
| `PriorMeaning.OneRuleIsEnough` | internal/decide/prior.go:112-139 | one rule that fits is enough, for each verb and setting |
| `PriorMeaning.MarksMean` | internal/decide/prior.go:118-133 | the signed group names recorded for a heard mutate |
| `PriorMeaning.RecordedMeans` | internal/decide/prior.go:92-98 | an outcome records its action's own words |
| `PriorMeaning.WishesInOrder` | internal/decide/prior.go:82-87 | requests are delivered entry by entry |
| `PriorMeaning.WishesOfOne` | internal/decide/prior.go:82-87 | and in each entry in the order of its actions |
| `PriorMeaning.ActiveInOrder` | internal/decide/prior.go:48-68 | the active groups keep the order of the profile |
| `Bodies.LoadedDataIsAddressed` | internal/body/body.go:58-111 | data comes only from an address with a key, and has the promised digest |
| `Bodies.NothingLoadedIff` | internal/body/body.go:58-84 | with a store that never takes an object for a missing one, nothing is loaded and nothing is wrong exactly if the request gives no address |
| `HandlerMeaning.LoadMeans` | internal/body/body.go:58-111 | an addressed object is loaded, in plain, exactly if it can be had and has the demanded digest; else the load is at fault |
| `Handler.ForPhase` | internal/decide/apply.go:40-50 | the groups of one phase in order |
| `Handler.Inspect` | cmd/inspector/handler.go:103-274 | reply and stored objects of the whole decision |
| `Handler.InspectResponse` | cmd/inspector/handler.go:146-293 | the part for responses |
| `Handler.InspectFrame` | cmd/inspector/frame.go:15-152 | the part for frames |
| `Handler.ChangedIsLoaded` | cmd/inspector/handler.go:231-232 | a changed body was loaded through a locator, so building the output key is safe |
| `HandlerMeaning.DecidedByItsProfile` | cmd/inspector/handler.go:107-113 | a request is decided by the profile it names; for one that is not served the reply is an error and nothing is stored |
| `HandlerMeaning.ReplyMeans` | cmd/inspector/handler.go:103-293 | verdict and code of every reply for a profile, in the wire's own words |
| `HandlerMeaning.AppliedReply` | cmd/inspector/handler.go:216-259 | what an applied reply carries: group names, header changes, and a new body exactly if a pattern was found |
| `HandlerMeaning.HandedToStore` | cmd/inspector/handler.go:190-259 | when the store is handed a body, under which key, and that it is the whole replay of the matching operations on the loaded body, with 4096 matches to spend |
| `HandlerMeaning.OtherReply` | cmd/inspector/handler.go:276-293 | any other reply carries nothing but the deny response of a denial |
| `HandlerMeaning.LoadedMeans` | cmd/inspector/handler.go:168-188 | the body is loaded for every frame, and for a response exactly if an active group works on it |
| `HandlerMeaning.WantedMeans` | cmd/inspector/handler.go:354-362 | a body is wanted exactly if an active group matches and works on it |
| `HandlerMeaning.ContentTypeMeans` | cmd/inspector/handler.go:295-342 | where the content type comes from |
| `HandlerMeaning.FirstValueMeans` | cmd/inspector/handler.go:314-318 | the first header of a name, whatever its case |
| `HandlerMeaning.HitMeans` | cmd/inspector/handler.go:153-161 | responses are selected by status and content type, frames by direction and opcode |
| `HandlerMeaning.PhaseInOrder` | internal/decide/apply.go:40-50 | the groups of a phase keep their order |
| `HandlerLaws.NamedBodyIsStored` | cmd/inspector/handler.go:231-255 | a reply names a new body exactly if the store took one object, and names that very object, under the non-empty key of the loaded one |
| `HandlerLaws.DeniesIff` | cmd/inspector/handler.go:198-247 | the exact condition of a denial: enforcing, not skipped, and a wanted body announced as missing or a changed body not stored |
| `HandlerLaws.MutedReplies` | cmd/inspector/handler.go:276-293 | only an applied reply carries headers or rewrite; observing, skipped and switched-off profiles store and change nothing; frames carry no headers |
| `HandlerLaws.EndingIff` | cmd/inspector/handler.go:198-247 | what an observing profile says and what an enforcing one does, by the matching groups, the loaded body and the patterns found in it |
| `HandlerLaws.ObserveForetellsIff` | cmd/inspector/frame.go:83-102 | observing says "would apply" exactly when enforcing would rewrite or fail to store, unless it is a frame whose groups apply while no pattern is found in the payload |
| `HandlerWitness.ObserveCanMislead` | cmd/inspector/frame.go:83-102 | such a frame, with a validated profile |
| `HandlerLaws.ObserveUnavailableIff` | cmd/inspector/handler.go:198-202 | an observing profile answers that the body is unavailable exactly if it was not asked to skip, the store did not fail, and a matching group works on a body that is missing or cut short |
| `HandlerWitness.ObserveCanMissBody` | cmd/inspector/handler.go:198-202 | such a response, with a validated profile |
| `HandlerLaws.ReplyIgnoresOrder` | cmd/inspector/handler.go:103-274 | requests whose prior entries say the same things and profiles with the same rules, in any order and repetition, get the same reply and hand the same object to the store |
| `HandlerLaws.ReplyIgnoresShuffling` | cmd/inspector/handler.go:103-274 | in particular for every permutation of the prior entries, of the actions inside them, and of the rules |
| `HandlerLaws.ReplyIgnoresUnobeyed` | cmd/inspector/handler.go:103-274 | deleting inside the prior entries every action that is not obeyed changes neither reply nor stored object |
| `HandlerLaws.ActiveForMembers` | cmd/inspector/handler.go:146 | exactly the groups of the phase that are on are active |
| `HandlerLaws.HeadersArePermitted` | internal/config/profile.go:417-451 | whatever groups combine, a reply of a validated profile never sets or unsets one of the forbidden headers, never sets Set-Cookie, never unsets Content-Type, and never sets a value with CR, LF or NUL |
| `HandlerLaws.StoredSizeBound` | cmd/inspector/handler.go:231-247 | with removals and inserts only, the stored object is at most 4096 times the longest text longer than the loaded one |
| `HandlerLaws.PassesWithoutBodyIff` | cmd/inspector/handler.go:163-202 | a message with a matching body group is allowed without its body having been seen exactly if the request gives the body no address, or the store gives no content for it |
| `HandlerWitness.EnforcedCanPass` | cmd/inspector/handler.go:168-202 | such a request, with a validated profile |
| `HandlerLaws.ServedProfilesAreSound` | internal/config/profiles.go:31-43 | a lookup in a healthy snapshot gives a validated profile, and an empty name always finds one |
| `EndToEnd.EveryReplyIsSafe` | cmd/inspector/handler.go:103-293 | after any run of rollouts with any failures, every parsed request gets a reply with all of these guarantees |

## Left out

- NATS, Redis, JetStream, the heartbeat, logging and process wiring; loading, storing and publishing only succeed or fail.
- RE2 matching and template expansion, SHA-256, AES-GCM, JSON and YAML decoding are parameters or arbitrary functions.
- `receive`, `send` and the recovery of panics in cmd/inspector/handler.go, engine timing and the audit detail maps.
- Environment and file configuration; of it only "at least one worker" is used, where a result needs it.
- Manifest parsing and hashing, and the settings a manifest carries: a manifest is taken as parsed, and its hash is data.
- Fingerprints beyond "a function of the tree": modification times are not modelled.
- The race between the reload ticker and ReloadFrom: the rollout is sequential, as snapshot order is not guaranteed there.
- Errors of RemoveAll, which the code ignores: removing a tree always works in the model.
- Nesting of directories: paths are independent, and the base directory is not one of the staging and parking directories.
- Profiles are validated by value: the defaults that the code writes into the groups in place are fields of the returned value.
- Case folding and trimming treat ASCII letters and blanks only.
- PoolMachine steps: bumping a counter and calling the handler are one step, and a submitter that finds the queue full may be preempted before it sets its timer, which allows more runs than the code has.
- The durations recorded per handler call, and the sweeper's period: it may sweep at any time.
- Audit.Sink.Add: the early returns without connection or subject, and the encoding of an event, are not modelled.
