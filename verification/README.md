# Keziah, modelled and proved in Dafny

Keziah is a single-process job queue for small decision models. Jobs are submitted
alone or in batches, claimed under a lease by workers that share slots per model,
and settled, retried, recovered or cancelled. Three stores implement one contract:
memory, SQLite, and a hybrid in which an index in memory proposes and SQLite
decides. This project models that machinery and proves what it guarantees.

`dafny verify dfyconfig.toml` checks everything.

How the parts fit together:

- **Scheduler.** `Picker.dfy` is one pick, loops included. `CreditRuns.dfy`,
  `ClassFairness.dfy`, `Majority.dfy` and `ClientFairness.dfy` follow whole runs of
  picks in which candidates, classes, weights and claim outcomes change at every step:
  credit is conserved and bounded, no class and no client starves, shares are
  proportional, and it is said exactly when backlogs cannot take the majority.
  `PickerOrder.dfy` and `TieBreak.dfy` show the choice is deterministic and when one
  head per lane is enough.
- **Tables.** `JobTable.dfy` gives every transition of the job and batch tables as a
  function, with the invariant all of them keep. `QueueRuns.dfy` lets the steps of
  both stores interleave in any order; `LeaseRuns.dfy`, `Idempotency.dfy` and
  `BatchRuns.dfy` prove lease tokens, final records, the attempt budget, idempotency
  keys and batch atomicity over such runs, `LeaseKeeping.dfy` exactly when a lease ends.
  `Outcomes.dfy` and `RowChoices.dfy` say in the fields of the rows what a transition
  leaves and which job a claim takes; the methods of the stores promise it.
- **Memory.** `ReadyIndex.dfy` is the index with lazy deletion, refining a plain map.
  `MemoryBackend.dfy` is the backend class; each method is proved equal to its
  transition and keeps the index in agreement with the table (`IndexAgreement.dfy`),
  so an empty claim means there was no work (`ClaimRuns.dfy`).
- **SQLite and hybrid.** `SqliteBackend.dfy` models each transaction as one method
  over rows and unique indexes, `SqlTable.dfy` says where its transitions differ from
  memory and exactly when they do not, `Recovery.dfy` relates the two recovery passes,
  `DiskPicks.dfy` the disk pick. `HybridBackend.dfy` adds the hint index,
  `BackendsAgree.dfy` proves that the three stores claim alike, and `HintRuns.dfy` says
  when the hint keeps up.
- **Models.** `ModelCatalog.dfy` validates the alias graph and follows names;
  `Registry.dfy` resolves, retargets and proves a job stays on what its caller named.
- **Service.** `ServiceRuns.dfy` is the run protocol as a transition system in which
  workers act on notes that may be out of date, and `SlotRuns.dfy` adds the tasks and
  their slots; `Service.dfy` is slots, dispatch and the life of a task, `TaskRuns.dfy`
  what a task does with its jobs, `Submission.dfy` batch submission in chunks, and
  `WaitProtocol.dfy` waiting for a result.

Conventions. An instant is a whole number of milliseconds, which is what the queue's
fixed-width timestamps hold, and `now` never runs backwards. Floats are `real`, so
rounding of credits and scores is not part of the statements. Payloads, errors,
results, hashes and fallback notes are opaque tokens. Ids and lease owners are never
used twice; the service draws both from random UUIDs. Health probes, inference and
the payload hash are answers from outside, free to differ at every call. A method body
follows the source step by step; the function it is proved equal to says what the step
means, and the lemmas are about that function.

Findings, with the conditions under which the promises hold:

- The comment that a backlog cannot take the majority holds against one lower class,
  and against all of them together, exactly under conditions on the weights
  (`InteractiveOutweighs`, `BacklogsCannotTakeTheMajority`). The default weights meet
  the first for every class but not the second (`DefaultsLoseTheMajority`).
- The documented promise that the boost stays below every higher class depends on the
  base weights being in order (`BoostStaysBelowHigherClass`).
- One head per client and class is picked as all jobs would be exactly when the head
  stands for its whole lane (`HeadsSufficeExactly`); with mixed priorities it can hide
  an older job and its boost (`HeadHidesBoost`).
- A batch submitted under the empty key is dropped by SQLite in favour of the first
  batch of the client that used it, while memory keeps both; asked to activate an
  active batch again under another batch's key, SQLite drops its rows. Everywhere else
  the stores activate alike (`ActivationAgrees`).
- One recovery pass in memory can leave a late or flagged job queued that SQLite would
  finish in the same pass (`OnePassIsEnoughWhen`); two passes always suffice.
- The hybrid hint does not learn of released jobs before the next reconcile, and a
  refused claim takes a ready but late or cancelled row out of it; nothing else makes
  it inexact (`HintKeepsUp`).
- A wakeup can be lost exactly when several waiters share a job, or when a single
  waiter's job ends without a delivery, as when its batch is cancelled
  (`WakeupIsLostExactlyWhen`); the waiter then sleeps until another delivery for the
  job, or a requeue (`StuckUntilDelivered`).
- A claim that raises between reserving a slot and starting its task keeps the slot:
  the dispatch loop logs the exception and goes on. SQLite raises there after six
  locked attempts, on any other operational error, and when closed. All slots can come
  back exactly when no claim has raised (`AllSlotsComeBackExactlyWhen`); a model with
  as many raised claims as slots, four by default and a single one where the cap is
  one, is never served again (`ModelIsServedExactlyWhen`,
  `RaisingClaimsCloseTheModel`).
- The active-job limit of a client is checked for the client of a chunk's first job
  alone, so a batch that mixes clients can take another past its limit
  (`MixedBatchSlipsPast`); for the jobs of one client it holds
  (`OneClientNeedsRoomForAll`).
- A native batch answered with too few responses leaves the jobs past the last one
  held until their lease ends (`SettleEach`).
- The SQLite window picks as all claimable rows would exactly when each row has a
  stand-in of its lane in it (`WindowSufficesExactly`). A client buried behind a
  window's worth of others of its class is not chosen there, however long it waits
  (`BuriedClientIsNotChosen`), so client fairness holds for pools, not for truncated
  windows.

## Model

| member | source | states |
|---|---|---|
| `TieBreak.InvertReverses` | src/keziah/scheduler.py:99-101 | inverting two ids reverses their code-point order exactly when neither is a proper prefix of the other, so always for ids of one length |
| `Picker.Select` | src/keziah/scheduler.py:29-96 | one pick, by the loops of the source. Each class earns its base weight plus one for every `starvationSeconds` its oldest job has waited, up to the cap, but when it has outgrown its own base weight and three quarters of the lowest above it, only the larger of those two; nothing below zero. The class picked had the most credit, ties to the higher, and pays for all; no job of it scores more than the one chosen |
| `Picker.GroupByClass` | src/keziah/scheduler.py:40-43 | the grouping loop: each class gets its candidates, in order |
| `Picker.RaiseCredits` | src/keziah/scheduler.py:47-67 | the crediting loop: every class with work gains its capped weight, and the total is the sum of what was added |
| `Picker.ChooseClass` | src/keziah/scheduler.py:69-74 | the winner has the most credit, ties to the higher class, and pays the whole total |
| `Picker.Winner` | src/keziah/scheduler.py:69-73 | a class with work that every other class with work trails, by credit and then rank |
| `Picker.CountLoop` | src/keziah/scheduler.py:90-95 | the winner's client starts over, every other client of the pool counts one more skip, whatever the visiting order |
| `Picker.BestOf` | src/keziah/scheduler.py:79-89 | no candidate of the pool scores above the chosen one, inverted ids breaking ties |
| `Picker.OldestAge` | src/keziah/scheduler.py:50-50 | some candidate has this age and none is older |
| `CreditRuns.CeilingAttained` | src/keziah/scheduler.py:50-67 | the bound used for a class weight is the weight at some backlog age, so the bounds below are the least the settings allow |
| `CreditRuns.BoostStaysBelowHigherClass` | src/keziah/config.py:74-78 | for any settings, the documented promise that the boost stays below every higher class holds at all ages if and only if the lowest higher weight is positive and above the class's own, taken with a negative boost where the cap is one |
| `CreditRuns.ChargeKeepsBounds` | src/keziah/scheduler.py:66-74 | one pick keeps, for every set of k classes, the sum of credits at most 5w, 8w, 7w, 0 for k = 1, 2, 3, 4 |
| `CreditRuns.CreditsFollowRounds` | src/keziah/scheduler.py:29-96 | over any run of picks and claim outcomes the credits of a model are the play of its rounds; other models and lost claims do not touch them |
| `CreditRuns.CreditStaysBounded` | src/keziah/scheduler.py:47-74 | from an empty state, for any candidates, ages and claim outcomes, credits sum to 0 and each stays in [-7w, 5w] |
| `ClassFairness.CreditIsEarnedMinusPaid` | src/keziah/scheduler.py:66-74 | credit after a run is credit before, plus what the class earned, minus what it paid |
| `ClassFairness.PaymentsTrackCredit` | src/keziah/scheduler.py:66-74 | after any history, what a class pays in any later run is within 12w of what it earns |
| `ClassFairness.NoClassStarves` | src/keziah/scheduler.py:47-74 | a class worth at least `least` whenever it has work wins in any stretch holding floor(12w/least) + 1 chances |
| `ClassFairness.ClassIsServed` | src/keziah/scheduler.py:29-96 | the same about the picks themselves: one of the jobs claimed is of that class, whatever happens in between |
| `ClassFairness.ClaimsAreProportional` | src/keziah/scheduler.py:29-96 | after any history, over a run whose picks offer steady weights, jobs claimed of a class times the pot stay within 12w of jobs claimed in all times its weight |
| `ClassFairness.HeavierClassIsServedMore` | src/keziah/scheduler.py:29-96 | then the heavier of two classes has strictly more jobs claimed once its lead in weight exceeds 24w |
| `Majority.InteractiveOutweighs` | src/keziah/scheduler.py:55-65 | interactive outweighs a lower class at every pick, whatever the backlogs, if and only if fresh interactive work outweighs that class at its ceiling |
| `Majority.InteractiveOutweighsAll` | src/keziah/scheduler.py:55-65 | it outweighs the three lower classes together at every pick if and only if their ceilings sum to at most its fresh weight |
| `Majority.BacklogsCannotTakeTheMajority` | src/keziah/scheduler.py:62-65 | the comment that a backlog cannot take the majority, over any history and any run that always offers interactive work: the lower classes never pay more than 24w above what interactive pays, if and only if that same sum holds |
| `Majority.BacklogsOutnumber` | src/keziah/scheduler.py:62-65 | where it does not, some such run claims more jobs of the lower classes than interactive ones |
| `Majority.DefaultsLoseTheMajority` | src/keziah/config.py:60-78 | under the default weights every single lower class is outweighed, but not all of them together |
| `ClientFairness.ClientWinsInTime` | src/keziah/scheduler.py:89-95 | the pigeonhole argument over any sequence of skip-counting rounds |
| `ClientFairness.NoClientStarves` | src/keziah/scheduler.py:76-96 | from any skip counts, a client in every pool, at most `lead` skips behind on score, is picked within lead + number of clients turns |
| `ClientFairness.ClientIsServed` | src/keziah/scheduler.py:76-96 | the same about the picks themselves: one of the jobs claimed is of that client, lost claims and other models in between |
| `ClientFairness.SkipsFollowTurns` | src/keziah/scheduler.py:76-96 | over any run of picks the skip counts of a model are those of its turns |
| `PickerOrder.ChoiceIgnoresOrder` | src/keziah/scheduler.py:69-101 | any order of the same candidates gives the same choice and the same next state |
| `PickerOrder.SelectionSufficesExactly` | src/keziah/scheduler.py:29-96 | any selection that keeps back no job of higher priority than one it shows of the same lane is picked as all candidates would be, in every state and under all settings that value age and do not penalise priority, if and only if each candidate has a stand-in of its lane in it |
| `PickerOrder.HeadsSufficeExactly` | src/keziah/queue/ready.py:50-69 | with one head per lane, the pick over heads equals the pick over all candidates, state included, in every state and under all settings that value age and do not penalise priority, if and only if each head has at least the priority of every job of its lane and is older, or as old and ahead by id |
| `PickerOrder.HeadsSuffice` | src/keziah/scheduler.py:29-96 | so it does when lanes are queued in priority order at distinct times |
| `PickerOrder.HeadHidesBoost` | src/keziah/queue/ready.py:50-69 | wherever an urgent head hides an older job whose boost counts, the two picks leave different credits behind |
| `PickerOrder.HeadsCanHideTheBacklog` | src/keziah/queue/ready.py:50-69 | a concrete case under the default settings |
| `ReadyIndexes.PushSorted` | src/keziah/queue/ready.py:28-28 | pushing an entry with a new sequence number keeps a heap ordered |
| `ReadyIndexes.ReadyIndex.Add` | src/keziah/queue/ready.py:25-31 | adds or replaces one candidate of the abstract index; an id added again must keep its priority and creation time |
| `ReadyIndexes.ReadyIndex.Remove` | src/keziah/queue/ready.py:33-35 | removes one id from the abstract index, leaving its heap entries behind |
| `ReadyIndexes.ReadyIndex.PopDead` | src/keziah/queue/ready.py:71-78 | drops dead entries only: the abstract index is unchanged, and the head returned precedes every live job of the lane |
| `ReadyIndexes.ReadyIndex.Heads` | src/keziah/queue/ready.py:50-60 | exactly one candidate per lane of the model with live jobs: its highest priority, then oldest |
| `ReadyIndexes.ReadyIndex.Propose` | src/keziah/queue/ready.py:62-69 | the pick over such heads |
| `ReadyIndexes.ReadyIndex.Rebuild` | src/keziah/queue/ready.py:43-48 | holds exactly the given candidates |
| `ReadyIndexes.ViewOfHas` | src/keziah/queue/ready.py:43-48 | every candidate given to a rebuild is in the rebuilt index |
| `MemoryBackends.MemoryBackend.ExtendLease` | src/keziah/queue/memory.py:243-250 | succeeds exactly for the holder of the lease and moves only its expiry |
| `MemoryBackends.MemoryBackend.MarkRunning` | src/keziah/queue/memory.py:252-262 | leased to running, for the lease owner only; the first start time is kept |
| `MemoryBackends.MemoryBackend.Complete` | src/keziah/queue/memory.py:264-292 | stores the result and ends the lease, for the owner of the running job only |
| `MemoryBackends.MemoryBackend.Fail` | src/keziah/queue/memory.py:294-308 | failed or dead letter, for the owner of the running job only |
| `MemoryBackends.MemoryBackend.Retry` | src/keziah/queue/memory.py:310-335 | back to waiting, on the given model and not before the given time, for the owner of the running job only |
| `MemoryBackends.MemoryBackend.FinishCancel` | src/keziah/queue/memory.py:337-343 | cancelled, for the holder of the lease only |
| `MemoryBackends.MemoryBackend.ReleaseToQueue` | src/keziah/queue/memory.py:533-579 | back in the queue and in the index, the attempt restored when asked, for the holder of the lease only |
| `MemoryBackends.MemoryBackend.Cancel` | src/keziah/queue/memory.py:345-355 | a staged, queued, waiting or leased job is cancelled at once and its lease ends; a running one keeps its lease and is flagged; finished jobs and unknown ids are left alone |
| `MemoryBackends.MemoryBackend.CancelBatch` | src/keziah/queue/memory.py:357-370 | the same for every job of the batch and no other, and the number changed |
| `MemoryBackends.MemoryBackend.Maintenance` | src/keziah/queue/memory.py:372-393 | one recovery pass over all jobs, told in their fields: a lease that still runs is left alone; one that ran out ends as a cancellation, a dead letter or a queued job by the flag and the attempts left; due retries are queued, late queued jobs fail, flagged idle ones are cancelled |
| `MemoryBackends.MemoryBackend.ExpireLease` | src/keziah/queue/memory.py:695-719 | an expired lease ends in cancellation, dead letter or the queue, in that order of precedence |
| `MemoryBackends.MemoryBackend.ReleaseLeases` | src/keziah/queue/memory.py:520-531 | every lease whose owner has the prefix is given back with its attempt, and exactly those jobs are reported |
| `MemoryBackends.MemoryBackend.Requeue` | src/keziah/queue/memory.py:469-492 | a failed or dead-letter job starts over; any other state is refused |
| `MemoryBackends.MemoryBackend.Enqueue` | src/keziah/queue/memory.py:59-70 | replay, conflict, full queue, full client or stored, in that order; nothing changes unless stored |
| `MemoryBackends.MemoryBackend.ExistingJob` | src/keziah/queue/memory.py:588-602 | none exactly when no retained job carries the key; otherwise the answer is about the job that does, a replay or a conflict by payload |
| `MemoryBackends.MemoryBackend.CountUnfinished` | src/keziah/queue/memory.py:621-631 | the counting loop yields the number of unfinished jobs, in all or of the client |
| `MemoryBackends.MemoryBackend.ReserveCapacity` | src/keziah/queue/memory.py:620-634 | none exactly when both limits would hold; the queue limit is reported before the client limit |
| `MemoryBackends.MemoryBackend.FindBatchIdempotency` | src/keziah/queue/memory.py:72-77 | an active batch with exactly that key, or proof that there is none |
| `MemoryBackends.MemoryBackend.BeginBatch` | src/keziah/queue/memory.py:79-93 | a staging record without a key, or the replay, conflict or size error |
| `MemoryBackends.MemoryBackend.StageJobs` | src/keziah/queue/memory.py:95-119 | jobs up to the first bad one are kept even when the chunk raises |
| `MemoryBackends.MemoryBackend.AbortBatch` | src/keziah/queue/memory.py:163-182 | drops every job, key and listing of a staging batch and nothing else |
| `MemoryBackends.MemoryBackend.ActivateBatch` | src/keziah/queue/memory.py:121-161 | activates and queues a staging batch, or aborts it in favour of the batch that has the key |
| `MemoryBackends.MemoryBackend.Cleanup` | src/keziah/queue/memory.py:455-467 | forgets exactly the finished jobs past their cutoff, with their keys |
| `Outcomes.CallInFields` | src/keziah/queue/memory.py:243-343 | each lease call succeeds exactly for the owner of a job in the state the call needs; what it leaves of the row, field by field, and that no other row changes |
| `Outcomes.RequeueInFields` | src/keziah/queue/memory.py:469-492 | exactly failed and dead-lettered jobs start over, with everything of the last life but their identity and model gone |
| `Outcomes.ReleaseInFields` | src/keziah/queue/memory.py:520-579 | exactly the leases whose owner has the prefix are given back, each with its attempt |
| `Outcomes.CleanupInFields` | src/keziah/queue/memory.py:455-467 | a finished job is forgotten exactly when it finished before the bound of its kind |
| `Outcomes.EnqueueInFields` | src/keziah/queue/memory.py:59-70 | a key in use by the same client is answered by its job or refused for another payload; otherwise the job is stored exactly when the unfinished jobs, in all and of the client, leave room |
| `MemoryBackends.MemoryBackend.ClaimNext` | src/keziah/queue/memory.py:184-210 | a claim run over the index. The job claimed may be claimed by its fields, is leased to the owner with one attempt charged and no other row changes; no claimable job of its model, class and client has a higher priority, or the same and is older; none that heads a queue of its class scores more. An empty answer before 64 rejections means no job of the model could be claimed |
| `MemoryBackends.MemoryBackend.ClaimCompatible` | src/keziah/queue/memory.py:212-241 | claims jobs of the model and questions that may be claimed and are not excluded, as many as the limit lets, oldest first, and passes none over for a younger one |
| `IndexAgreement.PutKeepsGood` | src/keziah/queue/memory.py:184-355 | a transition of one job keeps table, index and births in agreement when the job's own listing is right |
| `IndexAgreement.ActivatedKeepsGood` | src/keziah/queue/memory.py:148-159 | activation keeps the agreement: exactly the newly queued jobs join the index |
| `IndexAgreement.LaterStillGood` | src/keziah/queue/common.py:43-52 | time passing never makes the index miss a job |
| `IndexAgreement.ListedOrNever` | src/keziah/queue/memory.py:203-206 | a listed job found unclaimable can never be claimed later without moving first, so dropping its listing is safe |
| `ClaimRuns.ClaimIsSafe` | src/keziah/queue/memory.py:196-210 | whatever the index lists, a claim run claims only what can be claimed, never a rejected id, and the picker state moves only with a claim |
| `ClaimRuns.EmptyHandedMeansNoWork` | src/keziah/queue/memory.py:196-202 | a run that gives up early proves no listed job of the model can be claimed |
| `ClaimRuns.ClaimRunsAgree` | src/keziah/queue/memory.py:196-210 | without ties, two claim runs over the same listings claim the same job and commit the same state |
| `JobOrder.Sort` | src/keziah/queue/memory.py:233-233 | the sort by creation time and id |
| `JobOrder.WideWindowSuffices` | src/keziah/queue/sqlite.py:425-442 | selecting limit plus excluded rows and dropping the excluded gives the first limit of the rest |
| `JobTables.LeaseOpKeepsOk` | src/keziah/queue/memory.py:243-343 | every lease operation keeps lease fields, states, batches and lookups consistent |
| `JobTables.ActivateKeepsOk` | src/keziah/queue/memory.py:121-161 | activation keeps the tables consistent, replay and conflict included |
| `JobTables.StageEach` | src/keziah/queue/memory.py:109-116 | staging keeps the tables consistent even when it stops at a bad job |
| `Idempotency.KeysAreExact` | src/keziah/queue/memory.py:636-645 | in every state of every run the lookup finds a key exactly when one retained job carries it, and then that job |
| `Idempotency.SubmissionIsIdempotent` | src/keziah/queue/memory.py:59-70 | once a keyed job is stored and for as long as it is retained, whatever else runs, every submission under its key leaves the queue unchanged and is answered with that job or a conflict |
| `Idempotency.KeyIsStoredOnce` | src/keziah/queue/memory.py:59-70 | two submissions under one key are both stored only if the first job was removed in between |
| `Idempotency.OneBatchPerKey` | src/keziah/queue/memory.py:121-161 | in every state of every run at most one batch has a key, and it is active |
| `Idempotency.BatchSubmissionIsIdempotent` | src/keziah/queue/memory.py:121-161 | once a batch is active under a key and for as long as it is, in both stores and whatever else runs, another batch under it is refused, or dropped with nothing left and the first is the answer |
| `Idempotency.InactiveJobsWait` | src/keziah/queue/memory.py:647-651 | in every state of every run a job of a batch that is not active is staged or cancelled and cannot be claimed |
| `QueueRuns.RunsStayOk` | src/keziah/queue/memory.py:59-579 | every run of queue steps, of either store, keeps the tables consistent |
| `QueueRuns.StepMovesJob` | src/keziah/queue/memory.py:59-579 | what each step does to one job, for all steps of both stores |
| `QueueRuns.StepMovesBatch` | src/keziah/queue/memory.py:79-182 | what each step does to one batch: no step revives an aborted one, and only its own submission or a restart changes one being staged |
| `BatchRuns.AllOrNothing` | src/keziah/service.py:264-336 | batch atomicity in both stores, with any steps of others in between and afterwards: a completed submission has every input as a row of the active batch and no other rows, but for finished jobs retention removed; one given up or replayed has no job, job key or batch key left |
| `BatchRuns.ActivatedInOneStep` | src/keziah/service.py:316-320 | the activating step queues every input as it was built, except those cancelled or forgotten on the way |
| `BatchRuns.NobodyClaimsEarly` | src/keziah/queue/memory.py:647-651 | until then nobody can claim a job of the batch, and after a restart on the way nothing of it is left |
| `BatchRuns.RowsAreInOrder` | src/keziah/service.py:278-297 | numbered inputs are at ordinals 0 to N - 1, one row each |
| `LeaseRuns.LostForGood` | src/keziah/service.py:983-984 | a lease once lost is never held again by that owner |
| `LeaseRuns.AtMostOneSettles` | src/keziah/queue/memory.py:264-343 | for each job and fresh owner at most one settling call succeeds; every later call of that owner fails and changes nothing |
| `LeaseRuns.ExpiredOwnerIsPowerless` | src/keziah/queue/memory.py:695-719 | after recovery at or past the expiry of its lease, every call of the old owner fails and changes nothing |
| `LeaseKeeping.LeaseEndsExactlyWhen` | src/keziah/queue/memory.py:243-393 | for any step of anybody, the holder of a lease has it afterwards if and only if the step is not its own settling call, recovery at or past the expiry, a cancellation before the job runs, a release under a prefix of its name, or the SQLite activation that drops the job's batch; and then attempts and model are as they were and only its own call has moved the expiry |
| `LeaseKeeping.KeptLeaseCommits` | src/keziah/queue/memory.py:252-292 | so in any run, as long as no such step comes, the holder can start the job and, once it runs, commit a result |
| `LeaseRuns.ReleaseUndoesClaim` | src/keziah/queue/memory.py:557-579 | a voluntary return restores the job as it was before the claim, attempts included |
| `LeaseRuns.FinalRecordStays` | src/keziah/queue/memory.py:264-292 | a succeeded or cancelled record never changes until retention removes it, and its id never comes back |
| `LeaseRuns.BudgetKept` | src/keziah/queue/common.py:55-60 | queued and waiting jobs have attempts left, held jobs have spent between one and all of them |
| `LeaseRuns.ChangesBurnFuel` | src/keziah/service.py:890-923 | without release or requeue, four times the attempts left plus the state's rank falls with every state change |
| `LeaseRuns.ChangesAreBounded` | src/keziah/service.py:890-923 | so a job changes state at most 4 max + 2 times, as long as retries keep to the budget |
| `ServiceRuns.ServiceChangesAreBounded` | src/keziah/service.py:890-923 | which the service's retries do: the same bound in any run of the service |
| `Recovery.TwoPassesAreOneSweep` | src/keziah/queue/sqlite.py:640-697 | for every job two memory passes do what one SQLite transaction does, and report the same events |
| `Recovery.SweptIsSettled` | src/keziah/queue/sqlite.py:640-697 | after that neither store changes the job or reports anything |
| `Recovery.OnePassIsEnoughWhen` | src/keziah/queue/memory.py:372-393 | one memory pass differs from a SQLite pass if and only if a lease ran out with attempts left, no cancellation and a past deadline, or a retry fell due late or cancelled |
| `Recovery.RecoveryAgrees` | src/keziah/queue/memory.py:372-393 | the same for whole tables and reports |
| `SqliteBackends.SqliteBackend.Maintenance` | src/keziah/queue/sqlite.py:640-697 | the four sweeps in order, told in the fields of the rows: a lease that still runs is left alone; one that ran out, and a retry that is due, is cancelled, dead, failed for its deadline or queued by flag, attempts and deadline; nothing late or flagged stays queued |
| `SqliteBackends.SqliteBackend.ExpireLeases` | src/keziah/queue/sqlite.py:643-651 | the first sweep, over expired leases |
| `SqliteBackends.SqliteBackend.UpdateRows` | src/keziah/queue/sqlite.py:641-695 | one UPDATE over selected rows changes those rows only |
| `SqliteBackends.SqliteBackend.StageJobs` | src/keziah/queue/sqlite.py:221-256 | a chunk is staged whole or not at all |
| `SqliteBackends.SqliteBackend.ActivateBatch` | src/keziah/queue/sqlite.py:258-343 | activation as one transaction, the unique-index clash on an empty key included |
| `SqliteBackends.SqliteBackend.AbortBatch` | src/keziah/queue/sqlite.py:345-360 | drops a staging batch |
| `SqliteBackends.SqliteBackend.Open` | src/keziah/queue/sqlite.py:132-154 | opening a file aborts every batch left staging |
| `SqliteBackends.SqliteBackend.AbortOrphanStaging` | src/keziah/queue/sqlite.py:1290-1304 | the loop over orphaned batches drops exactly those |
| `SqliteBackends.SqliteBackend.ClaimById` | src/keziah/queue/sqlite.py:362-376 | claims the row if and only if it can be claimed |
| `SqliteBackends.SqliteBackend.Candidates` | src/keziah/queue/sqlite.py:991-1011 | for each class the first rows by priority, age and id, up to the limit |
| `SqliteBackends.SqliteBackend.ClaimNext` | src/keziah/queue/sqlite.py:378-409 | up to eight picks over the window. The row claimed may be claimed by its fields, is leased with one attempt charged, no other row changes, and no row among the first `disk_candidates_per_class` of its model and class, by priority, age and id, scores more |
| `SqliteBackends.SqliteBackend.ClaimCompatible` | src/keziah/queue/sqlite.py:411-460 | the same rows as in memory, through a wider window: the oldest that fit, none passed over |
| `SqliteBackends.SqliteBackend.ExtendLease` | src/keziah/queue/sqlite.py:462-473 | one UPDATE, where the owner holds the lease: the transition of the in-memory store |
| `SqliteBackends.SqliteBackend.MarkRunning` | src/keziah/queue/sqlite.py:475-491 | the same, the first start time kept by COALESCE |
| `SqliteBackends.SqliteBackend.Complete` | src/keziah/queue/sqlite.py:493-533 | the same, where the owner runs the job |
| `SqliteBackends.SqliteBackend.Fail` | src/keziah/queue/sqlite.py:1053-1088 | the same, failed or dead letter |
| `SqliteBackends.SqliteBackend.Retry` | src/keziah/queue/sqlite.py:549-592 | the same, waiting on the given model |
| `SqliteBackends.SqliteBackend.FinishCancel` | src/keziah/queue/sqlite.py:594-602 | the row is read and checked, then written by id: the same transition |
| `SqliteBackends.SqliteBackend.ReleaseToQueue` | src/keziah/queue/sqlite.py:938-965 | attempts and model computed from the row read, then written by id: the same transition |
| `SqliteBackends.SqliteBackend.Enqueue` | src/keziah/queue/sqlite.py:161-171 | the same answers and rows as in memory |
| `SqliteBackends.SqliteBackend.Cancel` | src/keziah/queue/sqlite.py:604-618 | leaves of the row what the in-memory store does, but a job already flagged is not touched again |
| `SqlTables.ActivationAgrees` | src/keziah/queue/sqlite.py:258-343 | both stores give the same jobs, lookups, statuses and answer, for any batch, key and payload, if and only if the batch is not staging while another of the client holds the same empty key, nor active while another has the key and payload |
| `SqlTables.EmptyKeyReplaysTheFirst` | src/keziah/queue/sqlite.py:296-327 | what SQLite does in the first case: the second batch is dropped for the first, or refused when its payload differs |
| `SqlTables.ReactivationDropsRows` | src/keziah/queue/sqlite.py:269-293 | in the second: SQLite drops the active batch's rows, memory keeps them |
| `SqlTables.CancelAgreesWhen` | src/keziah/queue/sqlite.py:604-618 | cancelling agrees with memory if and only if the job was not already flagged at another instant |
| `SqlTables.BeginAgrees` | src/keziah/queue/sqlite.py:185-219 | a new batch begins alike in both stores |
| `SqlTables.SqlActivationRecords` | src/keziah/queue/sqlite.py:294-341 | the record an activation writes: active, with the rows of the batch counted and the key and payload as given |
| `SqlTables.RestartLeavesNoOrphans` | src/keziah/queue/sqlite.py:1290-1304 | after a crash and restart exactly the jobs of active batches, and of none, remain, unchanged |
| `DiskPicks.DiskRunIsOnePick` | src/keziah/queue/sqlite.py:388-407 | the window is read in the claim's own transaction, so its first pick is always claimed |
| `DiskPicks.DiskPickIsHeadPick` | src/keziah/queue/sqlite.py:991-1011 | over an untruncated window of orderly lanes the disk pick equals the pick over index heads, state included |
| `DiskPicks.RowIsShownExactlyWhen` | src/keziah/queue/sqlite.py:991-1011 | a claimable row is in the window of any limit if and only if fewer than limit rows of its class and model come before it, by priority, age and id |
| `DiskPicks.BuriedClientIsNotChosen` | src/keziah/queue/sqlite.py:991-1011 | a client all of whose rows of a class are behind limit others of that class is in no pool there and is not chosen, in any picker state and under any settings |
| `DiskPicks.WindowSufficesExactly` | src/keziah/queue/sqlite.py:388-407 | a window of any limit is picked as all claimable rows would be, state included, in every state and under all settings that value age and do not penalise priority, if and only if each claimable row has in the window itself or a job of its lane with at least its priority that is older, or as old and ahead by id |
| `HybridBackends.HybridBackend.Reconcile` | src/keziah/queue/hybrid.py:33-38 | the index lists exactly the ready rows |
| `HybridBackends.HybridBackend.ClaimNext` | src/keziah/queue/hybrid.py:73-96 | whatever the hint lists, only a claimable row is claimed and no other changes; when it lists the claimable rows, as after a reconcile, the row claimed is the first of its queue and no head of a queue of its class scores more |
| `HybridBackends.HybridBackend.ClaimCompatible` | src/keziah/queue/hybrid.py:98-121 | claims the rows of the database and drops exactly their listings |
| `HybridBackends.HybridBackend.Maintenance` | src/keziah/queue/hybrid.py:123-134 | the rows are left as the SQLite sweeps leave them; every reported job's listing is brought in line with its row, no other |
| `HybridBackends.HybridBackend.Enqueue` | src/keziah/queue/hybrid.py:47-52 | the stored job is listed if queued |
| `HybridBackends.HybridBackend.ActivateBatch` | src/keziah/queue/hybrid.py:60-68 | a successful activation rebuilds the index |
| `HybridBackends.HybridBackend.Cancel` | src/keziah/queue/hybrid.py:136-141 | a cancelled or flagged job loses its listing |
| `HybridBackends.HybridBackend.Requeue` | src/keziah/queue/hybrid.py:148-153 | a requeued job is listed |
| `BackendsAgree.AgreedViewIsReady` | src/keziah/queue/sqlite.py:862-877 | with no late or flagged queued row, an index in agreement lists exactly the ready rows, and those are the claimable ones |
| `BackendsAgree.SweptHasNoDeadWood` | src/keziah/queue/memory.py:372-393 | which is how a recovery pass of either kind leaves the table |
| `BackendsAgree.HybridFollowsMemory` | src/keziah/queue/hybrid.py:73-96 | then the hybrid store claims the same job and commits the same state as the memory store |
| `BackendsAgree.DiskFollowsHybrid` | src/keziah/queue/sqlite.py:378-409 | and the disk store too, over an untruncated window of orderly lanes |
| `BackendsAgree.StoresClaimAlike` | src/keziah/queue/hybrid.py:73-96 | all three stores at once |
| `BackendsAgree.MaintenanceKeepsTheHint` | src/keziah/queue/hybrid.py:123-134 | a hint that lists exactly the ready rows still does after recovery |
| `HintRuns.HintKeepsUp` | src/keziah/queue/hybrid.py:47-156 | after any operation of the hybrid store an exact index is still exact, if and only if the operation released no job and was no claim refused to a ready row |
| `HintRuns.HintStaysExact` | src/keziah/queue/hybrid.py:33-45 | so over any run without those |
| `BackendsAgree.ReleaseLeavesTheHintBehind` | src/keziah/queue/hybrid.py:155-156 | a released job is ready but not listed until the next reconcile |
| `ModelCatalogs.Follow` | src/keziah/registry.py:36-44 | ends at the name the aliases lead to, or reports a cycle exactly when there is one |
| `ModelCatalogs.ValidateGraph` | src/keziah/config.py:269-304 | accepts exactly the configurations where aliases end at models or groups, names do not collide, groups name known models and adapters are usable |
| `ModelCatalogs.FollowIsTotal` | src/keziah/registry.py:36-44 | in an accepted configuration following never fails and every alias means exactly one of a model and a group |
| `Registries.ResolveGroup` | src/keziah/registry.py:96-125 | the first enabled healthy member, else the enabled primary, else an error |
| `Registries.Resolve` | src/keziah/registry.py:49-67 | a group is its first member that is enabled and healthy, else its enabled primary, else an error; a model is itself, if enabled; anything else is an error that names it |
| `Registries.ResolveIsFaithful` | src/keziah/registry.py:49-67 | whatever the probes answer, a name resolves to the model it means or a member of the group it means |
| `Registries.PickExecutionTarget` | src/keziah/service.py:815-837 | a healthy model keeps its job; otherwise the job of a group moves to the best member if that is another and answers healthy, is refused when no member can serve or either model is permanently down, and else stays; the job of a single model is refused exactly when that is permanently down; what the caller named is never left |
| `Registries.PickRetryTarget` | src/keziah/service.py:925-941 | a retried job of a group waits for the best member, where one serves, and every other for the model it is on |
| `Registries.RetargetsAreFaithful` | src/keziah/service.py:815-837 | neither retargeting leaves what the caller named |
| `Registries.OnlyGroupsMove` | src/keziah/registry.py:3-6 | a job not named for a group has one possible model |
| `ServiceRuns.HolderKeepsRecord` | src/keziah/service.py:709-729 | while an owner holds the lease, attempts and models of its job stand still |
| `ServiceRuns.PerformKeepsSound` | src/keziah/service.py:683-766 | every act of the service keeps the invariant |
| `ServiceRuns.ServiceStaysSound` | src/keziah/service.py:683-941 | in every state of every run each job is within its attempts, with nothing assumed of how failures are settled but the rule of the source, and on a model its caller named, and a worker's note is current while it holds the lease |
| `ServiceRuns.JobsStayOnTheirModels` | src/keziah/service.py:815-941 | in every state of every run a job named for a model is on that model, a job named for a group on a member of it |
| `ServiceRuns.OwnersDoNotComeBack` | src/keziah/service.py:983-984 | an owner that lost a job never holds it again, and every call it makes afterwards fails |
| `Services.Service.TryReserve` | src/keziah/service.py:960-968 | takes a slot if and only if the model is below its cap |
| `Services.Service.Release` | src/keziah/service.py:970-973 | one slot less, never below zero; for a holder of the slot exactly one less |
| `Services.Service.DispatchAvailable` | src/keziah/service.py:637-681 | slots held equal tasks started; every claim made is for an enabled model and is a claim run from the state the one before left, under an owner of its own; afterwards every enabled model is at its cap, has no claimable job, or one of those runs used up its 64 tries on it |
| `Services.GivingUpTookTries` | src/keziah/queue/memory.py:196-210 | such a run rejected 64 different listed jobs, none of them claimable, and unlisted them |
| `Services.TurnTakesInOrder` | src/keziah/service.py:648-670 | a turn that takes something takes the first of its queue, no head of a queue of its class scoring more, and with native batches the oldest that ask the same, up to the batch size; each is leased with one attempt charged and no other row changes |
| `Services.Service.DispatchOne` | src/keziah/service.py:648-677 | a task holds its slot and leased jobs of its model, or the slot is given back and the claim found no work or gave up |
| `Services.Service.ClaimGroup` | src/keziah/service.py:650-670 | one claim and, for native batches, exactly the oldest compatible jobs with it |
| `Services.Service.Execute` | src/keziah/service.py:683-766 | whatever the probes say, and however inference ends, the slot is given back once. Every job leased to the task that is not flagged, has time left and whose own model is healthy and the task's goes to inference; every other is cancelled, failed, settled or sent on as its row and the probes say; of those handed over, an answered one succeeds with its own response unless reported lost, a raise settles all by the failure rule, and those past the last answer stay running under the lease |
| `SlotRuns.MoveKeepsOk` | src/keziah/service.py:637-766 | every move of every task, claims that raise included, and everything else the service does, keeps the slots counted |
| `SlotRuns.SlotsAreAccounted` | src/keziah/service.py:960-973 | in every state of every interleaving: live tasks of a model are at most its slots taken, those at most its cap; slots in all are the sum over models and the number of reservations not given back; none of those, no slots |
| `SlotRuns.EachSlotIsReturnedOnce` | src/keziah/service.py:648-677 | a slot reserved is given back exactly once, when its claim finds nothing or its task ends, by a return or an exception in the task, and the floor at zero then does nothing; it is stranded if and only if its claim raised |
| `SlotRuns.BusyIsLiveOrRaised` | src/keziah/service.py:960-973 | in every state of every interleaving the slots taken on a model are its live tasks, its claims under way and every claim for it that ever raised |
| `SlotRuns.HandsAreOnOwnSlot` | src/keziah/service.py:709-729 | what a task has in hand is to run on the model whose slot it holds, one its caller named; no two tasks hold the lease of one job |
| `SlotRuns.TaskCanEndExactlyWhen` | src/keziah/service.py:752-766 | in any state of any run a reservation can still end and give its slot back if and only if its claim has not raised |
| `SlotRuns.TaskComesToAnEnd` | src/keziah/service.py:683-766 | a task started with n jobs makes at most 2 n + 4 moves of its own in any run, whatever others do in between, and none once it has left |
| `SlotRuns.AllSlotsComeBackExactlyWhen` | src/keziah/service.py:611-625 | from any state of any run all slots can come back if and only if no claim has raised, an exception the dispatch loop swallows |
| `SlotRuns.ModelIsServedExactlyWhen` | src/keziah/service.py:960-968 | from any state of any run a model can be served again if and only if fewer of its claims have raised than it has slots |
| `SlotRuns.NeverServedAgain` | src/keziah/service.py:648-659 | once as many claims for a model have raised as it has slots, no slot of it is ever reserved again in that run |
| `SlotRuns.RaisingClaimsCloseTheModel` | src/keziah/queue/sqlite.py:1321-1334 | the input: as many reservations as the model has slots, each followed by a claim that raises, close it although no task is live |
| `TaskRuns.PrepareJob` | src/keziah/service.py:689-727 | what becomes of a leased row: cancelled when flagged, failed when late, settled as a failure when refused, queued for its target with the attempt restored when that is another model, and otherwise running under the lease and handed over |
| `TaskRuns.Prepare` | src/keziah/service.py:688-730 | the same for each job of the group, and no other row changes |
| `TaskRuns.SettleFailure` | src/keziah/service.py:890-923 | failed, dead letter or retried, by error, attempts left and deadline |
| `TaskRuns.SettleOne` | src/keziah/service.py:731-751 | a running row succeeds with the response, or is cancelled when flagged; without a response it fails, dies or waits for a retry by the error, the attempts used and the deadline; one reported lost is left alone |
| `TaskRuns.SettleEach` | src/keziah/service.py:731-751 | the same for each job of the group with its own response, as far as the answers go; the jobs past the last answer stay held, where the strict `zip` raises, and no other row changes |
| `Submissions.StageAll` | src/keziah/service.py:270-315 | chunks of 500: every input is staged in order if and only if there is one, all could be built, they are not too many, their keys are free and distinct, and there is room for each chunk when it is staged; otherwise only rows of the batch have been added |
| `Submissions.SubmitBatch` | src/keziah/service.py:218-336 | every input becomes a queued row of an active batch at its ordinal if and only if they can all be staged and no batch of the client has the key; the earlier batch is the answer if and only if it has the key and the payload; otherwise no job and no key of the batch is left |
| `Submissions.OneClientNeedsRoomForAll` | src/keziah/queue/memory.py:620-634 | for the jobs of one client there is room for every chunk if and only if both limits hold for all of them together |
| `Submissions.MixedBatchSlipsPast` | src/keziah/queue/memory.py:105-114 | a batch of two clients is accepted although it takes the second past its limit, because the limit is checked for the client of a chunk's first job |
| `Submissions.AbortRestores` | src/keziah/queue/memory.py:168-182 | aborting a partly staged batch restores jobs and keys exactly |
| `WaitProtocol.NoLostWakeup` | src/keziah/service.py:338-360 | one waiter and a delivery after every final transition: no interleaving leaves the waiter blocked on a finished job |
| `WaitProtocol.WaiterReturns` | src/keziah/service.py:338-360 | and pending deliveries plus two actions of the waiter always bring it back |
| `WaitProtocol.WakeupIsLostExactlyWhen` | src/keziah/service.py:338-360 | some interleaving leaves some waiter stuck if and only if two or more wait on the job, or one does and a final transition may go undelivered |
| `WaitProtocol.SharedEventLosesOne` | src/keziah/service.py:986-1005 | the interleaving, for any number of waiters from two up |
| `WaitProtocol.UndeliveredLosesOne` | src/keziah/service.py:402-407 | cancelling a batch delivers nothing: the interleaving for one waiter |
| `WaitProtocol.StuckUntilDelivered` | src/keziah/service.py:338-360 | a stuck waiter stays so until a delivery comes without a transition or the job is requeued |

## Left out

- HTTP API, CLI, client, logging, metrics, benchmark: input, output and presentation.
- Adapters and inference: foreign calls; a response or a classified failure is an input. Timed-out threads keep running, so nothing is claimed about adapter calls, only about tasks.
- SQL text, WAL, busy retries and schema migrations: a transaction is one atomic method that either returns or leaves the tables as they were.
- Events, stats, timings, `get_*` readers, `Batch.completion` and the counts it reads: descriptive. `next_wake_s` and `_backoff` jitter: delays only.
- `close` of either backend: it ends the process's use of the queue.
- Question normalisation, wall-clock parsing and `_normalise_deadline`: instants are integers here.
- Scheduling classes outside the four configured ones: submission refuses them.
- The order of dictionaries: sweeps and reports are over sets, so the order of a report's entries is not modelled; the picker is proved not to depend on it.
- The array layout of `heapq`: a heap is the sorted sequence of its entries, with the same minimum and the same effect of push and pop.
- Provenance of a fallback chosen just before execution: the release does not store it, so there is nothing to state.
- SQLite `cancel_batch`, `release_leases`, `cleanup` and the hybrid `cancel_batch`: the same row updates as in memory; the hybrid one only adds a reconcile.
- `wait_batch` and waiting with a timeout: polling, and a last look before giving up.
- SqliteBackends.SqliteBackend.Enqueue: a job key is never empty here, because the service strips keys and drops empty ones before storing.
- Services.Service.Execute: one call after another; what others may do between them is in `SlotRuns.dfy` and `ServiceRuns.dfy`, where every backend call is a step of its own.
- Services.Service.DispatchAvailable: the backend is the in-memory one, whose claims do not raise; a claim that raises is the move `ClaimRaises` in `SlotRuns.dfy`, and what the other stores' claims do is proved in their own modules.
- Submissions.StageAll: has the backend to itself, as has SubmitBatch; submission with any steps of others in between is `BatchRuns.AllOrNothing`.
- Submissions.SubmitBatch: inputs the service refuses to build, or that exceed the byte limit, are absent inputs; why they are refused is not modelled.
- TaskRuns.PrepareJob: the exceptions `_execution_target` raises are one refusal, classified by an answer from outside.
