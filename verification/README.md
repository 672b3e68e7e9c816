# Verified models of the run, queue, budget and hardening protocols

This project models, in Dafny 4.11, the parts of the repository in which state, concurrency
or parsing is subtle, and proves what they promise over every input or every run. Where the
source is a protocol between processes, the model is a state machine whose steps are the
source's own atomic commands (one Redis command, one system call, one conditional UPDATE); a
run is any interleaving of such steps, with operations stopping for good between any two of
them. Where the source changes an object step by step, the model also has a class whose
methods are proved against those steps. Methods of a class that run beside other operations
call `Await` between their steps. Its contract is all they may rely on there: the invariant,
what others cannot take back and, where the method speaks of a run, that the run went on by
steps of others; nothing else is known about what the others did. Each machine has a lemma
`OthersMayStep` saying that any step of another operation meets that contract.

`dafny verify dfyconfig.toml` checks everything.

## The modules

| file | models |
|---|---|
| `CharSets.dfy` | character sets as lists of ranges, their complement, disjointness and run building |
| `RegexScanner.dfy` | the one-pass stack scanner of `findCatastrophicRegexShape` and its parsers |
| `RegexSyntax.dfy` | syntax trees of the pattern fragment and their printed form |
| `RegexEval.dfy`, `RegexRefinement.dfy` | a bottom-up evaluation of trees, and the scanner's agreement with it |
| `RegexSemantics.dfy`, `RegexShape.dfy`, `RegexSoundness.dfy` | the words a tree matches, and what acceptance by the scanner says about them |
| `RegexPrecision.dfy`, `RegexAcceptance.dfy`, `RegexBlame.dfy` | the converse: exact first sets, exactly when a pattern is accepted in terms of matched words, and what a rejection blames |
| `TaskQueue.dfy` | the task record and the retry convention shared by both queue drivers |
| `RedisQueue.dfy` | the Redis Streams driver as single commands on a stream, its pending list and its dead letters |
| `RedisPayload.dfy` | what the entries of that queue hold, from the enqueued task through every copy |
| `InMemoryQueue.dfy` | the in-memory driver |
| `BudgetLock.dfy` | the budget lockfile: a directory of names and inodes, and processes inside acquire and release |
| `BudgetLockFile.dfy` | acquire and release as methods, with others running between their system calls |
| `BudgetLedger.dfy` | the ledger of spend and reservations that the lock protects |
| `BudgetFile.dfy` | the ledger file under its lock: processes that lock, read, change, write and release |
| `Outbox.dfy` | the notification outbox: rows claimed by lease, overlapping sweeps, manual retries |
| `OutboxSweeps.dfy` | one delivery sweep as a method, with others running between its updates |
| `StopGate.dfy` | the stop and finalize gate of a run: task deliveries, runners, stoppers, finalizers and reapers, and what each step does |
| `GateRules.dfy` | the same steps one by one, as equations |
| `GateRuns.dfy` | runs of the gate: what reopens rows, what its calls decide under interleaving, stops and claims |
| `GateSafety.dfy` | the gate's invariant, and the steps that keep tasks of ended rows out of reach |
| `GateExact.dfy` | exactly when the gate holds, at every moment of every run |
| `GateTasks.dfy` | tasks between queue and runners: who ends a row, and why ordinary runs are safe |
| `GateAccounts.dfy` | where the task of a model is: acked tasks and their rows, forgotten models, recovery |
| `GateRaces.dfy` | runs in which something is not as documented |
| `RunGate.dfy` | the operations as methods, with others doing anything between their steps |
| `Hardening.dfy` | escaping, scanning and enveloping of tool results |
| `TokenUsage.dfy`, `TurnLoop.dfy`, `Pricing.dfy`, `RunSpend.dfy`, `Compaction.dfy` | the turn loop, the billing of its calls, the spend the limit check sees, and message compaction |

## What is proved, in short

- **Regex analyser.** Scanning the printed form of any tree of the fragment gives exactly the
  verdict of a bottom-up evaluation, with a stack one higher than the nesting at every position
  visited and positions strictly increasing. The group record the scanner computes is sound for
  the words the group matches: its first set holds the first character of every non-empty word,
  and a group not marked nullable never matches the empty word. In an accepted pattern a
  repeated group with its own alternation offers, at any input position, at most one branch
  that matches a non-empty stretch; no unbounded repeat stands inside a repeated group; and an
  optional leading piece is taken or skipped by looking at one character. Conversely, without
  dots and anchors, and where nested branches share no first character, first sets are exact,
  and the scanner accepts if and only if the pattern meets a condition on the words that its
  pieces and groups match. Every rejection reports the text of a group that has the fault
  named, or a long run of pieces that may be left out.
- **Redis queue.** In every interleaving of single commands, with crashes, no written task is
  lost before it is acknowledged and none is stranded behind the group cursor; attempts stay
  bounded; the script, its fallback and reclaim dead-letter exactly on the terminal attempt.
  What a worker gets is the stored task in every field, and copies differ from the enqueued task
  in attempts and due time only, by exactly what the step that wrote them charges.
- **In-memory queue.** Pending, in-flight, dead and acknowledged tasks partition the accepted
  ones in every run that uses an id once at a time. An operation conserves tasks if and only if
  it does not hand out a task whose id is in flight; a run that loses a task otherwise is
  given. Tasks without a due time leave in the order they came, as do waiting dequeues, and no
  operation leaves a dequeue waiting beside a task that it made available.
- **Budget lock.** The lock path is never overwritten and no token is returned twice, in every
  run. At most one live process owns the lock in every run in which a lock outlives the stale
  window only if its creator crashed and stale breaks do not overlap. For a single step the
  condition is exact: exclusion is lost precisely when a stale break renames the file of a
  live owner. A run with overlapping breaks and two holders is given. With others running, an
  acquire succeeds exactly when its create finds the path free and breaks exactly what it has
  seen to be stale; a release frees the lock it owns and leaves any other alone.
- **Budget ledger.** Days, months, models and the global totals agree after any operations, and
  the ledger holds exactly what was recorded; what is spent plus what is reserved stays within
  the cap for any disciplined sequence, and exactly when any sequence of operations does so is
  proved, with three ways past the cap; reserving and releasing undo each other. Lock and
  ledger together lose no update: under the lock's two conditions the file is always what the
  operations written back give one after the other.
- **Outbox.** With sweeps that start at distinct instants, at most one sweep can resolve a row,
  each claim is resolved at most once, counts rise by one per recorded failure, and no row is
  stranded. What a sweep counts is what its sends returned, and a send goes unrecorded only
  when the row was retried by hand or its lease had run out. Exactly when a claim creates a
  second owner is proved, with a run that does so.
- **Stop gate.** A task's way from the queue through its runner and back is modelled step by
  step, with failing updates and acks, crashes, reclaimed and hand-retried deliveries. Over
  every run, a row that has ended is reopened if and only if some task passed the signal check
  although its row had ended, or its row was ended between that check and a write of 'claimed'
  or 'running'. A finalizer is admitted only when every row is terminal. From then on all rows
  stay so, and a cancel signal that a stop has set is clear only when every row is terminal,
  under exactly stated conditions on such writes. Both are also proved from conditions on
  single steps (when rows may be ended, the signal cleared, a task requeued), which are exactly
  what keeps tasks of ended rows out of reach; and for every run with one task per model in
  which nothing goes wrong between queue and runners and recovery stays out, whoever stops it
  and whatever fails and is retried. What one call decides is stated exactly over
  interleavings: for `prepareRunFinalization` by the three reads it made, for the reaper by the
  signal it saw and the stops since; so is when a second finalizer gets in. A stop is never
  extended, and its signal is set once. After its patch a finalizer's index says of every row
  whether its model has a result, unless somebody else has written the row since. A model is
  forgotten, its row open and its task nowhere, under an exact condition too, and the stale-run
  reaper recovers it.
- **Hardening.** The ten replacement passes are one simultaneous pass; no control marker is
  left; hardening is idempotent and leaves a marker-free payload, plain or enveloped. Exactly
  when a wrapped file survives hardening unchanged is proved, for every content.
- **Loops.** The transcript pairs every call with its result, the tallies add up, the stop
  reason says how the transcript ends, each kind of token is billed at its own price, the spend
  of cumulative-usage deltas is the bill of the calls, and compaction drops as few messages as
  do.

## Where the code and its documentation differ

The model follows the code.

- `src/orchestrator/run-lifecycle.ts:431-436` says that a late runner cannot overwrite a
  force-stopped row because 'stopped' is terminal in the transition guard. The guard
  (`src/db/query/runs.ts:47-49`) protects a terminal row only from another terminal status:
  'claimed' and 'running' are written over it. "Terminal rows stay terminal" is therefore false
  as it stands; `GateRuns.ReopensExactlyWhenOvertaken` says exactly when it fails.
  `GateRaces.RedeliveryReopens` gives a run in which an ack is lost, and
  `GateRaces.TwoModelsReopen` one without any redelivery: a stop outlasts its grace with both
  tasks queued, recovery forces the rows and finalizes the run, the first task delivered
  acknowledges the stop for both, and the second starts on a completed run.
- The same run shows that forced rows count as acknowledgements: `src/runner.ts:925-929` says
  that a sibling's ack must not release the run while another model still has a delivery
  pending. `acknowledgeStop` clears the signal if and only if it was set and the rows it read
  were complete (`RunGate.Operation.AcknowledgeStop`), and deliveries play no part in that: in
  `GateRaces.RunAcknowledged` it is clear with the task of the other model still queued.
- `src/dashboard-server/live.ts:93-95` says that runs with a live cancel signal are untouched
  by the reaper. That holds exactly as long as no stop lands between the reaper's look at the
  signal and its last step (`GateRuns.ReapsUnderSignal`): the result of `markRunReaped` is not
  used, and the rows are failed under a live signal (`GateRaces.ReapRacesStop`).
- `src/orchestrator/finalize/aggregate.ts:60-70` says that one finalizer at a time owns a run. The
  index patch (`:124-138`) reads the record and writes it back, with the time of the claim it
  read; when a finalizer does so after its claim has gone stale, a third one can claim the run
  in the instant of the second (`GateRaces.StalePatchAdmitsSecondClaim`). Within two minutes of
  a claim another one takes effect if and only if the last change to the record is such a patch
  that has put back a claim gone stale (`GateRuns.SecondClaimExactly`).
- A file that is itself an envelope, with nothing suspicious in its data but in its path, is
  wrapped without the marker that hardening then adds (`Hardening.WrappedEnvelopeUnstable`).
- Two notification sweeps of different processes that start in the same millisecond share a
  lease deadline; with a manual retry in between both own the row
  (`Outbox.SameInstantTwoOwners`). The claims at `src/notifications/outbox.ts:55-64` hold for
  distinct start instants.
- The in-memory queue keys in-flight tasks by task id: delivering a second task with an id in
  flight replaces the first (`InMemoryQueue.DuplicateIdLosesTask`).

## Model

| member | source | states |
|---|---|---|
| `CharSets.ComplementCharSet` | src/tools/executors.ts:290-300 | the sorting and gap-collecting loop computes the complement for any list of ranges |
| `CharSets.ComplementExact` | src/tools/executors.ts:290-300 | the complement holds exactly the code units the ranges do not, even for overlapping or inverted ranges |
| `CharSets.ComplementAscending` | src/tools/executors.ts:290-300 | proper ranges have a complement of proper ranges in increasing order, no two of which touch |
| `CharSets.BranchFirstSetsDisjoint` | src/tools/executors.ts:397-404 | the nested loop answers true exactly when all pairs of sets are disjoint |
| `CharSets.DisjointExact` | src/tools/executors.ts:393-395 | on proper sets the overlap test decides whether the intersection is empty |
| `CharSets.DisjointNeedsProper` | src/tools/executors.ts:393-395 | on inverted ranges it does not: two sets without a common character can fail it |
| `CharSets.PointsToRanges` | src/tools/executors.ts:423-431 | the runs hold exactly the given points and are maximal and ascending |
| `RegexScanner.ParseCharClass` | src/tools/executors.ts:361-391 | the class loop, with negation, the empty class, spans and items not understood, computes the same ranges and end as a recursive reading |
| `RegexScanner.FindCatastrophicRegexShape` | src/tools/executors.ts:575-750 | the whole loop over a mutable stack returns the outcome of the recursive scan on every pattern |
| `RegexEval.QuantAt` | src/tools/executors.ts:529-549 | a printed quantifier, with any spelling of its numbers and an optional laziness mark, is read back with its bounds and its end |
| `RegexEval.EscapeAt` | src/tools/executors.ts:302-340 | a printed escape is read back as its character set and end |
| `RegexEval.ClassAt` | src/tools/executors.ts:361-391 | a printed class of single characters, escapes and spans, negated or not, is read back as its set and end |
| `RegexRefinement.ScannerRefinesEvaluation` | src/tools/executors.ts:575-750 | on the printed form of any tree of the fragment the stack scanner returns the verdict of the bottom-up evaluation, and never fails |
| `RegexRefinement.StackFollowsNesting` | src/tools/executors.ts:626-748 | the positions visited are those of the tree in order, with a stack one higher than the nesting depth; all of them on acceptance, a prefix otherwise |
| `RegexRefinement.TraceIncreases` | src/tools/executors.ts:626-748 | the index strictly increases on any pattern whatever |
| `RegexRefinement.AtomTurnAt` | src/tools/executors.ts:630-647 | in front of a printed quantifier, an atom is counted with the quantifier noted, nullable when it is an anchor or may be left out, and the scan goes on right behind the quantifier or stops with the long run it ends |
| `RegexRefinement.CloseTurnAt` | src/tools/executors.ts:664-720 | in front of a printed quantifier, a closing parenthesis reports the finding of the closed record under it, or replaces the two topmost records by the parent with the child folded in and goes on right behind the quantifier |
| `RegexRefinement.ScanPiece` | src/tools/executors.ts:630-720 | scanning one quantified atom or group has the effect of evaluating it and goes on right behind it |
| `RegexRefinement.ScanBranch` | src/tools/executors.ts:626-748 | the same for a sequence of pieces |
| `RegexRefinement.ScanAlt` | src/tools/executors.ts:664-728 | the same for an alternation, up to its closing parenthesis |
| `RegexSemantics.PerlSetExact` | src/tools/executors.ts:282-288 | the sets of the letter escapes hold exactly the digits, word characters and white space of ECMA-262, or their complements |
| `RegexSemantics.EscapeSetExact` | src/tools/executors.ts:302-340 | the set of an escape is exactly the characters it matches |
| `RegexSemantics.ClassSetExact` | src/tools/executors.ts:361-391 | the set of a class is exactly the characters it matches |
| `RegexShape.EvalPieceAttributes` | src/tools/executors.ts:585-624 | the running fields of a group record after an atom are determined by attributes of the tree |
| `RegexShape.EvalBranchAttributes` | src/tools/executors.ts:585-624 | the same after a sequence |
| `RegexShape.EvalAltAttributes` | src/tools/executors.ts:664-728 | the same after an alternation: acceptance and the record depend on the attributes only |
| `RegexShape.ClosedIsSummary` | src/tools/executors.ts:665-679 | what closing a group computes is the summary of its tree |
| `RegexSoundness.AcceptsExactlySafe` | src/tools/executors.ts:681-708 | the scanner accepts if and only if every repeated group is fit for its bounds and no required atom follows a run of eight nullable ones |
| `RegexSoundness.NullableAltSound` | src/tools/executors.ts:669-671 | a body that matches the empty word is nullable |
| `RegexSoundness.FirstAltSound` | src/tools/executors.ts:672-679 | the first set of a body, when it has one, holds the first character of every non-empty word it matches |
| `RegexSoundness.FirstBranchSound` | src/tools/executors.ts:600-613 | the same for one branch, whose set grows through its nullable prefix |
| `RegexSoundness.GroupRecordSound` | src/tools/executors.ts:664-679 | the record the running scanner has on its stack at the closing parenthesis is sound for every word of the group |
| `RegexSoundness.UniqueBranchChoice` | src/tools/executors.ts:672-695 | in an accepted pattern a group with its own alternation under a quantifier of max at least 2 has, at any position of any input, at most one branch that matches a non-empty stretch |
| `RegexSoundness.NoNestedUnbounded` | src/tools/executors.ts:689-692 | an accepted pattern has no unbounded repeat anywhere inside a repeated group |
| `RegexSoundness.OptionalPrefixDecided` | src/tools/executors.ts:600-613 | in a repeated group of an accepted pattern the next character decides whether an optional leading piece is taken |
| `RegexPrecision.NullablePieceExact` | src/tools/executors.ts:575-624 | a piece is nullable for the scanner if and only if it matches the empty word |
| `RegexPrecision.NullableAltExact` | src/tools/executors.ts:665-670 | a group is nullable for the scanner if and only if it matches the empty word |
| `RegexPrecision.FirstAtomPrecise` | src/tools/executors.ts:302-340 | the first set of an atom without dots and anchors is known, and every character in it starts a word of the atom |
| `RegexPrecision.FirstBranchPrecise` | src/tools/executors.ts:600-613 | the first set of such a branch is known, and every character in it starts a word of the branch, if need be behind a nullable prefix that is left out |
| `RegexPrecision.FirstAltPrecise` | src/tools/executors.ts:671-678 | the first set of a body whose branches share no first character is known, and every character in it starts a word of the body |
| `RegexAcceptance.LongRunExact` | src/tools/executors.ts:585-598 | the scanner finds a long run if and only if a piece that must not be left out follows eight in a row that may be |
| `RegexAcceptance.OverlapExact` | src/tools/executors.ts:393-409 | two plain pieces overlap for the scanner if and only if some character starts words of both |
| `RegexAcceptance.ClashesExact` | src/tools/executors.ts:600-613 | the scanner marks a split as ambiguous if and only if a leading piece may be left out and the next one may be too or shares a first character |
| `RegexAcceptance.FitExact` | src/tools/executors.ts:681-708 | a body may stand under a quantifier for the scanner if and only if it is fit in terms of the words it matches |
| `RegexAcceptance.AcceptedExactly` | src/tools/executors.ts:575-750 | a pattern without dots and anchors whose nested alternations share no first character is accepted if and only if, in terms of matched words, every group is fit for its quantifier and no body has a long run |
| `RegexBlame.RejectionBlamesRightly` | src/tools/executors.ts:585-708 | the construct a rejection reports is the text of a repeated group of the pattern with its quantifier, and that group has the fault its kind names; or an ambiguous repeat is reported and some body has a long run |
| `TaskQueue.BackoffDoubles` | src/queue/redis.ts:395 | the first retry waits for the base delay and each further one twice as long as the one before, up to five minutes |
| `RedisQueue.CommandKeepsInv` | src/queue/redis.ts:100-536 | every single command keeps the invariant: entries are copies of enqueued tasks, the last copy of an unacknowledged one is live, attempts are bounded, and each operation knows what it may delete |
| `RedisQueue.RunInv` | src/queue/redis.ts:100-536 | the invariant holds after every interleaving of commands with operations stopping anywhere |
| `RedisQueue.NoTaskLost` | src/queue/redis.ts:100-536 | every enqueued task whose XADD completed and that was not acknowledged has a copy ahead of the cursor, pending, or dead-lettered, even when task ids repeat |
| `RedisQueue.NothingStranded` | src/queue/redis.ts:307-313 | an entry behind the cursor and not pending belongs to an acknowledged task or has a later copy |
| `RedisQueue.EnqueuedStaysOnRecord` | src/queue/redis.ts:259-262 | an enqueued task is on record from its XADD on, for good and under its own task id |
| `RedisQueue.AckedByHolder` | src/queue/redis.ts:327-335 | a task becomes acknowledged only by a worker that holds a copy of it |
| `RedisQueue.AttemptsBounded` | src/queue/redis.ts:150-167 | attempts stay below the limit in the stream and in the hands of workers, and at most the limit in the dead letters |
| `RedisQueue.DeadLettersExactlyWhenTerminal` | src/queue/redis.ts:378-441 | script, fallback and reclaim dead-letter if and only if the attempt before the bump is terminal |
| `RedisQueue.MovesChargeOneFailure` | src/queue/redis.ts:378-441 | a nack writes one copy of the task with one more attempt, due only after its delay; reclaim charges one attempt unless it dead-letters |
| `RedisQueue.LuaMoveIsNackMove` | src/queue/redis.ts:378-441 | the script, which bumps first, and the fallback, which decides first, write the same copy |
| `RedisQueue.FallbackIsScript` | src/queue/redis.ts:410-442 | undisturbed, the four commands of the fallback have the effect of the script |
| `RedisQueue.RotateIsMove` | src/queue/redis.ts:220-236 | deleting and re-adding a not-due entry in one script is adding its copy and then dropping it |
| `RedisQueue.RedisStreamQueue.Dequeue` | src/queue/redis.ts:266-325 | a returned task was due, is the task its entry held in every field when the group read handed it out as the lowest entry not handed out before, this worker is working on it and its entry joins its in-flight set, after at most eight rotations; otherwise at most nine entries were rotated and nothing joins the set |
| `RedisPayload.HeldIsStored` | src/queue/redis.ts:244-325 | in every run what a worker, nack, reclaim or retry holds of an entry is the task that was stored in it, in every field |
| `RedisPayload.CopiesKeepPayload` | src/queue/redis.ts:220-264 | in every run an entry never changes, and every copy of a job is the enqueued task in everything but attempts and due time |
| `RedisPayload.OrderedWasAsked` | src/queue/redis.ts:238-264 | the task of a job is exactly the task of some call of enqueue |
| `RedisPayload.StepStores` | src/queue/redis.ts:220-536 | every step of every run stores nothing, or the enqueued task, or one copy of its source: equal for a rotation, with one failure and delay more for a nack, one failure more for a reclaim, and no failures for a retry |
| `RedisQueue.RedisStreamQueue.NextEntry` | src/queue/redis.ts:282-287 | the group read hands out the lowest entry not handed out before, if there is one |
| `RedisQueue.RedisStreamQueue.AckTask` | src/queue/redis.ts:327-335 | the task is acknowledged, off the pending list and out of the in-flight set |
| `RedisQueue.RedisStreamQueue.Nack` | src/queue/redis.ts:337-445 | with others running in between, a nacked entry is replaced by a later copy unless someone else had handled it |
| `RedisQueue.RedisStreamQueue.NackScript` | src/queue/redis.ts:349-411 | the script path of nack |
| `RedisQueue.RedisStreamQueue.NackFallback` | src/queue/redis.ts:412-441 | the fallback path of nack, command by command |
| `RedisQueue.RedisStreamQueue.ReclaimPage` | src/queue/redis.ts:126-168 | every message of a claimed page ends with a later copy of its task written |
| `RedisQueue.RedisStreamQueue.ReclaimMessage` | src/queue/redis.ts:150-167 | one message: the copy is written before the old entry is deleted and acknowledged |
| `InMemoryQueue.StepConservesUnlessOverwriting` | src/queue/in-memory.ts:20-144 | for any queue and operation: tasks are conserved if and only if the operation does not hand out a task whose id is in flight |
| `InMemoryQueue.DuplicateIdLosesTask` | src/queue/in-memory.ts:69-73 | two accepted tasks with one id, one delivered while the other is in flight: one is lost |
| `InMemoryQueue.DeliverConserves` | src/queue/in-memory.ts:28 | a delivery conserves if and only if the id is not already a key of the in-flight map |
| `InMemoryQueue.StepKeepsInv` | src/queue/in-memory.ts:20-144 | every operation keeps the partition, distinct live ids, attempt bounds and waiters |
| `InMemoryQueue.RunPartitions` | src/queue/in-memory.ts:20-144 | after any run with ids used once at a time, pending, in flight, dead and acknowledged partition the accepted tasks, live ones failed fewer than five times and dead ones exactly five, and no dequeue is answered twice |
| `InMemoryQueue.NackMirrorsRedis` | src/queue/in-memory.ts:95-114 | a nack dead-letters exactly on the terminal attempt and otherwise leaves the copy the Redis driver writes |
| `InMemoryQueue.NackedTaskIsHidden` | src/queue/in-memory.ts:107-109 | a nacked task is not due before its delay is over, and is from then on |
| `InMemoryQueue.RetriedGoesFirst` | src/queue/in-memory.ts:132-144 | a retried dead letter is the next task handed out, at once and with no attempts |
| `InMemoryQueue.FirstInFirstOut` | src/queue/in-memory.ts:38-88 | in every run without a retried dead letter the tasks handed out that have no due time, and then those pending, are the accepted ones in that order |
| `InMemoryQueue.StepInOrder` | src/queue/in-memory.ts:20-144 | one operation puts a retried dead letter in front and an accepted task behind, and hands out the first of all these or a task with a due time |
| `InMemoryQueue.WaitersInOrder` | src/queue/in-memory.ts:20-88 | waiting dequeues are answered in the order they came |
| `InMemoryQueue.NobodyLeftWaiting` | src/queue/in-memory.ts:20-144 | no operation leaves a dequeue waiting beside a due task, unless one waited beside a task that had become due by itself |
| `InMemoryQueue.TasksStayWhatTheyWere` | src/queue/in-memory.ts:20-144 | in every run each task that is pending, in flight, dead or handed out is one that was accepted, with its id and key |
| `InMemoryQueue.KeyOncePerDay` | src/queue/in-memory.ts:56-66 | after an accepted task another one with its key is accepted if and only if a day has passed |
| `InMemoryQueue.StepIsChangeThenDeliver` | src/queue/in-memory.ts:38-46 | what an operation hands out is the first due task, to one waiting dequeue |
| `InMemoryQueue.InMemoryDriver.FindDue` | src/queue/in-memory.ts:38-46 | the loop takes out the first due task and nothing else |
| `InMemoryQueue.InMemoryDriver.Notify` | src/queue/in-memory.ts:20-35 | the longest waiting dequeue gets the first due task; without one it keeps its place |
| `InMemoryQueue.InMemoryDriver.EnqueueTask` | src/queue/in-memory.ts:56-66 | enqueue with its duplicate check, on the fields |
| `InMemoryQueue.InMemoryDriver.DequeueTask` | src/queue/in-memory.ts:68-88 | a due task is returned at once; otherwise the caller waits and nothing was due |
| `InMemoryQueue.InMemoryDriver.FireTimer` | src/queue/in-memory.ts:77-83 | a dequeue still waiting when its timer fires is taken out and answered with nothing |
| `InMemoryQueue.InMemoryDriver.AckTask` | src/queue/in-memory.ts:90-93 | the task leaves the in-flight map |
| `InMemoryQueue.InMemoryDriver.NackTask` | src/queue/in-memory.ts:95-114 | nack, on the fields |
| `InMemoryQueue.InMemoryDriver.RetryDeadLetter` | src/queue/in-memory.ts:132-144 | the first dead letter of the id comes back to the front with no attempts and no due time; true if and only if there was one |
| `BudgetLock.PathNeverOverwritten` | src/cost-tracking/budget.ts:97-110 | a step that finds the lock path occupied leaves that file there or frees the path by rename; only an exclusive create or a link fills it; no written file changes |
| `BudgetLock.CommandKeepsInv` | src/cost-tracking/budget.ts:213-291 | every system call keeps tokens unique and side files accounted for |
| `BudgetLock.RunInv` | src/cost-tracking/budget.ts:213-291 | in every run no token is returned by two acquires and a live process has a side file only while it verifies one |
| `BudgetLock.RestoreOccupiesPath` | src/cost-tracking/budget.ts:97-110 | whatever others do in between, the link of a mismatched break or release leaves the path occupied, by the newer lock if there is one; that file stays until somebody renames it away, and the unlink takes only the side file |
| `BudgetLock.OwnedMeansExclusive` | src/cost-tracking/budget.ts:206-211 | when every owner has its file at the lock path there is one owner at most |
| `BudgetLock.ExclusionLostOnlyByRename` | src/cost-tracking/budget.ts:213-291 | exactly one kind of step loses exclusion: a stale break that renames away the file of a process that still owns it |
| `BudgetLock.CalmKept` | src/cost-tracking/budget.ts:213-291 | with timely locks and no overlapping breaks every step keeps exclusion and what each verification expects |
| `BudgetLock.MutualExclusion` | src/cost-tracking/budget.ts:213-291 | in every run with timely locks and no overlapping breaks at most one live process is between its exclusive create and its release |
| `BudgetLock.VerifyFindsToken` | src/cost-tracking/budget.ts:246-285 | in such a run every rename-then-verify finds its token; a break that had read an unwritten lock finds a dead one |
| `BudgetLock.OverlapLosesExclusion` | src/cost-tracking/budget.ts:203-211 | a run with two overlapping breaks, all locks timely, that ends with two holders |
| `BudgetLockFile.LockFile.TryAcquireLock` | src/cost-tracking/budget.ts:213-261 | with others running: a token is returned if and only if the create found the path free, then with the file put there and never one returned before; otherwise no side file is left, and the lock is renamed aside if and only if it was seen to be stale |
| `BudgetLockFile.LockFile.BreakIfStale` | src/cost-tracking/budget.ts:224-261 | the lock is renamed aside if and only if its creation time, or for a lock without a token the time it was last written, was more than the window ago |
| `BudgetLockFile.LockFile.BreakLock` | src/cost-tracking/budget.ts:238-256 | a file renamed aside that has the token seen before loses the lock path and its side name and gains none; any other is linked back |
| `BudgetLockFile.LockFile.VerifyAside` | src/cost-tracking/budget.ts:244-251 | the side file is removed if and only if it has the expected token, and linked back otherwise |
| `BudgetLockFile.LockFile.RestoreSideFile` | src/cost-tracking/budget.ts:97-110 | no side file is left |
| `BudgetLockFile.LockFile.ReleaseLock` | src/cost-tracking/budget.ts:272-291 | with others running: when the file of this process is at the lock path and nobody else renames it away, that file loses the path and its side name and gains no name; when another file is there, or none, no name changes |
| `BudgetLockFile.PathStays` | src/cost-tracking/budget.ts:213-291 | in every run a file at the lock path that nobody renames away stays there and gets no new name |
| `BudgetLockFile.SideStays` | src/cost-tracking/budget.ts:238-291 | in every run a file renamed aside stays under its side name until its process acts, and gets no new name |
| `BudgetFile.ActionKeepsInv` | src/cost-tracking/budget.ts:316-357 | with timely locks and no overlapping breaks, what a process in the locked section has read is still what the file holds, whatever the others do |
| `BudgetFile.NoUpdateLost` | src/cost-tracking/budget.ts:316-357 | in every such run of concurrent read-modify-write sections the file is what the written operations give one after the other, so its totals agree and it holds all recorded spend |
| `BudgetLedger.StepConserves` | src/cost-tracking/budget.ts:359-391 | every operation keeps global totals equal to the sum over models and months to the sum of their days, and records exactly its spend |
| `BudgetLedger.LedgerConserved` | src/cost-tracking/budget.ts:359-723 | after any operations from the empty ledger the same holds, and the ledger holds exactly the spend that was recorded |
| `BudgetLedger.OverExact` | src/cost-tracking/budget.ts:469-488 | the percentage test blocks exactly when the projection exceeds block percent of the limit, also for a zero limit |
| `BudgetLedger.RefusedExactly` | src/cost-tracking/budget.ts:455-490 | a reservation is refused if and only if with it the exposure would exceed block percent of a limit that binds the model: its own, or the global one when it has none |
| `BudgetLedger.RemovesOneEntry` | src/cost-tracking/budget.ts:404-433 | a release takes out exactly one entry of today and of that amount when there is one, and nothing otherwise |
| `BudgetLedger.ReleaseAccounting` | src/cost-tracking/budget.ts:520-546 | exposure changes by what was paid minus the reservation found, matching or not |
| `BudgetLedger.ReserveAccounting` | src/cost-tracking/budget.ts:440-514 | a reservation that is granted leaves spend plus reservations within both caps |
| `BudgetLedger.StepKeepsCap` | src/cost-tracking/budget.ts:440-546 | any disciplined operation, on this or another model, keeps the caps |
| `BudgetLedger.CapNeverExceeded` | src/cost-tracking/budget.ts:393-546 | for one model and one day spend plus live reservations never exceed block percent of the daily or monthly limit over any disciplined sequence |
| `BudgetLedger.CapKeptExactly` | src/cost-tracking/budget.ts:393-546 | after one operation, of any kind and on any model, the cap holds if and only if the exposure before plus what the operation adds is within it, in any ledger |
| `BudgetLedger.CapThroughoutExactly` | src/cost-tracking/budget.ts:393-546 | over any operations, disciplined or not, the cap holds after each of them if and only if the exposure at the start plus every sum of what the first few add is within it |
| `BudgetLedger.DirectSpendExceeds` | src/cost-tracking/budget.ts:359-391 | spend that nobody reserved goes past a daily limit |
| `BudgetLedger.OverrunExceeds` | src/cost-tracking/budget.ts:520-546 | so does work that costs more than was reserved for it |
| `BudgetLedger.ExpiredReservationExceeds` | src/cost-tracking/budget.ts:393-546 | and work whose reservation has expired and been given away |
| `BudgetLedger.ReserveThenRelease` | src/cost-tracking/budget.ts:440-546 | an unused reservation leaves no trace |
| `BudgetLedger.ReleaseAllOnce` | src/cost-tracking/budget.ts:693-723 | releasing a run releases the recorded amount of each of its models once and touches no other model |
| `BudgetLedger.LedgerFile.ApplySpendInPlace` | src/cost-tracking/budget.ts:359-378 | spend is added to the day and the month, globally and for the model |
| `BudgetLedger.LedgerFile.AddSpendFor` | src/cost-tracking/budget.ts:380-391 | spend of a reserved name is ignored |
| `BudgetLedger.LedgerFile.TodayReservedTotal` | src/cost-tracking/budget.ts:393-402 | the loop sums the entries of today that have not expired |
| `BudgetLedger.LedgerFile.RemoveReservationEntry` | src/cost-tracking/budget.ts:404-433 | the first matching entry is spliced out; true if and only if there was one |
| `BudgetLedger.LedgerFile.ReserveBudgetFor` | src/cost-tracking/budget.ts:440-514 | the reservation is appended if and only if neither limit blocks it |
| `BudgetLedger.LedgerFile.ReleaseReservationFor` | src/cost-tracking/budget.ts:520-546 | release on the fields |
| `BudgetLedger.LedgerFile.RecordRunReservations` | src/cost-tracking/budget.ts:670-689 | the amounts of a run are summed by model |
| `BudgetLedger.LedgerFile.ReleaseRunReservationsFor` | src/cost-tracking/budget.ts:693-723 | the loop over a run releases model after model against the recorded amounts and forgets the run |
| `Outbox.CommandKeepsInv` | src/notifications/outbox.ts:42-296 | every update of every sweep and every manual retry keeps the invariant while starts are distinct |
| `Outbox.RunInv` | src/notifications/outbox.ts:42-296 | in every such run pending rows have failed fewer than five times and dead ones at least five, and a lease is held only by a sweep that works on the row or has crashed |
| `Outbox.OneOwner` | src/notifications/outbox.ts:37-48 | at most one sweep satisfies the ownership condition of a row |
| `Outbox.ResolvedOnce` | src/notifications/outbox.ts:237-267 | a sweep resolves a row only while it owns it and had not resolved it before |
| `Outbox.SettledNeverOwnsAgain` | src/notifications/outbox.ts:237-243 | a sweep that has resolved a row never owns it again |
| `Outbox.OnlyOwnersAndRetries` | src/notifications/outbox.ts:237-296 | a row leaves sending only through its owner or a manual retry; attempts change only by one for a failure the owner records, or to zero by a retry |
| `Outbox.ClaimRespectsDeadlines` | src/notifications/outbox.ts:65-79 | a claim takes a row if and only if it is due at the start of the sweep |
| `Outbox.NeverStranded` | src/notifications/outbox.ts:28-35 | whoever crashes, an unfinished row is due again within fifteen minutes |
| `Outbox.SecondOwner` | src/notifications/outbox.ts:55-79 | a claim creates a second owner if and only if another sweep that started at the same instant still works on the row |
| `Outbox.SameInstantTwoOwners` | src/notifications/outbox.ts:131-142 | two sweeps of one millisecond and a manual retry: both own the row |
| `OutboxSweeps.OutboxSweep.DeliverDue` | src/notifications/outbox.ts:124-175 | every row of the batch is claimed, sent and resolved; the counts are of distinct rows, each once and exactly those whose outcome was recorded: as delivered only if its send went well, as failed only if it did not |
| `OutboxSweeps.OutboxSweep.DeliverRow` | src/notifications/outbox.ts:141-173 | one row, with others running: claimed if due, counted if and only if the lease still stood at its resolution, then delivered without a deadline after a good send, or with one more attempt and then waiting or dead after a bad one, unless the lease was lost in between |
| `OutboxSweeps.LeaseLost` | src/notifications/outbox.ts:42-79 | in every run a sweep keeps its row while others act, unless the row is retried by hand or claimed by a sweep that started after the lease had run out |
| `OutboxSweeps.UncountedLostLease` | src/notifications/outbox.ts:141-173 | a claimed row goes uncounted only if in between it was retried by hand or its lease had run out |
| `OutboxSweeps.RetryDelays` | src/notifications/outbox.ts:256-262 | the first retry waits a minute and each further one twice as long, up to fifteen minutes |
| `StopGate.RowStep` | src/db/query/runs.ts:44-54 | the steps that end a row and the steps that reopen one, and no others change whether a row has ended |
| `StopGate.TerminalUnlessReopened` | src/db/query/runs.ts:44-54 | rows that are all terminal stay so if and only if the step is not a claimed or running write over an ended row |
| `StopGate.EndedRowsKeepStatus` | src/db/query/runs.ts:44-54 | an ended row keeps its very status but for such a write and the index patch of the finalizer |
| `GateRuns.ReopensExactlyWhenOvertaken` | src/runner.ts:352-381 | over every run, an ended row is reopened if and only if some task passed the signal check although its row had ended, or its row was ended between that check and its claimed or running write |
| `GateRuns.PrepareDecides` | src/orchestrator/run-lifecycle.ts:407-429 | over every interleaving, a step admits its caller if and only if the record and the signal it read show no stop awaiting its runner and the rows it read were complete, or the grace of the record was over and the rows are forced by that step |
| `GateRuns.ReconcileDecides` | src/dashboard-server/live.ts:97-107 | whoever fails rows has found the run stale and, later, the signal clear |
| `GateRuns.ReapsUnderSignal` | src/dashboard-server/live.ts:93-105 | a reaper that found the signal clear fails rows under a live signal if and only if a stop set the signal since and nobody cleared it again; it changes rows if and only if some row had not ended |
| `GateRuns.SignalSetOnce` | src/orchestrator/run-lifecycle.ts:704-716 | the signal of a run is set at most once |
| `GateRuns.GraceNeverExtended` | src/orchestrator/run-lifecycle.ts:704-716 | as long as a run is stopped its record, with the time of the stop, does not change |
| `GateRuns.GraceExactly` | src/orchestrator/run-lifecycle.ts:407-430 | in every run a stopped run awaits its runner for ten minutes from the stop under the signal, and after them its grace is over |
| `GateRuns.StaleExactly` | src/orchestrator/run-lifecycle.ts:464-473 | in every run it looks stale if and only if nobody has stopped or claimed it and the window has passed since the start known at its launch |
| `GateRuns.SecondClaimExactly` | src/orchestrator/finalize/aggregate.ts:60-104 | within two minutes of an effective claim another one takes effect if and only if the last change to the record is an index patch that has put back a claim gone stale |
| `GateRuns.ClaimsExclude` | src/orchestrator/finalize/aggregate.ts:60-104 | in particular, two effective claims lie two minutes apart unless a finalizer in between writes back a record from before the first |
| `GateSafety.NoStraysExactlyWhenOrderly` | src/runner.ts:352-366 | a step leaves no task of an ended row within reach of a reopening write if and only if it ends rows only while their task is not there, clears the signal only when no ended row has its task outstanding, and requeues the task of an ended row only under the signal |
| `GateSafety.StepKeepsInv` | src/orchestrator/run-lifecycle.ts:358-526 | every step that reopens no ended row keeps the gate invariant |
| `GateSafety.OrderlyNeverReopens` | src/runner.ts:352-381 | in an orderly run no claimed or running write meets an ended row |
| `GateSafety.SafeUnlessOvertaken` | src/orchestrator/run-lifecycle.ts:507-526 | the gate holds in every run that overtakes no task |
| `GateSafety.GateSafety` | src/orchestrator/run-lifecycle.ts:507-526 | in every orderly run an admitted finalizer sees only terminal rows, a signal once set is clear only if every row is terminal, and a finalizing or finished run has only terminal rows |
| `GateSafety.AdmittedStaysTerminal` | src/orchestrator/run-lifecycle.ts:507-526 | in every orderly run, from the moment the gate admits a finalizer every row is terminal and, but for the index patch, unchanged |
| `GateExact.StaysTerminalExactly` | src/orchestrator/run-lifecycle.ts:507-526 | over every run, once every row is terminal, all stay so if and only if no task makes an overtaken write from then on |
| `GateExact.TerminalAgainExactly` | src/orchestrator/run-lifecycle.ts:507-526 | at a later moment every row is terminal if and only if each overtaken write since has been followed by a step that ends its row |
| `GateExact.GateHoldsExactly` | src/orchestrator/run-lifecycle.ts:507-526 | at every moment of every run the gate holds if and only if it is not open, or every overtaken write since somebody has seen the rows terminal has been caught |
| `GateExact.AdmittedStaysExactly` | src/orchestrator/run-lifecycle.ts:507-526 | every row is terminal at an admission, and stays so if and only if no task makes an overtaken write |
| `GateExact.ClearedExactly` | src/runner.ts:174-183 | the signal is cleared after a look at complete rows; every row is terminal at the clearing if and only if each overtaken write since that look has been caught, and all along if and only if there was none |
| `GateTasks.OrdinaryRunsAreSafe` | src/runner.ts:313-981 | with one task for each model, no lost runner, ack or delivery and no recovery, every run is orderly and the gate holds, whoever stops it and whatever fails and is retried |
| `GateTasks.RetryableFailuresLeaveRows` | src/runner.ts:925-982 | whoever writes the end of a row has come back from the turn loop, has seen the stop, or is on the last attempt |
| `GateAccounts.EndBeforeAck` | src/runner.ts:857-914 | whoever acks a task has written the end of its row before, and nothing but acknowledgeStop lies in between |
| `GateAccounts.AckedExactly` | src/runner.ts:857-914 | at an ack the row of the task has ended if and only if the write of its end went through or met an ended row and nobody reopened it since, or another step ended it since for good |
| `GateAccounts.AckedHasEnded` | src/runner.ts:857-914 | in particular, it has ended if the write went through and no ended row is reopened |
| `GateAccounts.CopyStep` | src/runner.ts:925-982 | the steps that lose the last copy of a task and those that bring one back, and no others |
| `GateAccounts.ForgottenExactly` | src/runner.ts:925-982 | over every run, a row is open with its task neither queued, dead-lettered nor carried by a runner if and only if some step has lost it (a terminal write that failed before an ack, or a reopening without a copy) and none since has recovered it |
| `GateAccounts.NoModelForgotten` | src/runner.ts:925-982 | in particular, no model is forgotten if no ended row is reopened and the terminal writes go through |
| `GateAccounts.ReaperRecovers` | src/dashboard-server/live.ts:97-107 | a call of the reaper on a stale run without a signal ends every open row, forgotten or not, and marks the run |
| `GateAccounts.GateOpens` | src/orchestrator/run-lifecycle.ts:516-530 | an undisturbed call on a run whose rows have all ended, or which was stopped ten minutes ago, is admitted unless a stop awaits its runner, and stops exactly the rows left open |
| `GateRaces.TwoModelsReopen` | src/runner.ts:174-183 | a run without any redelivery in which a runner writes claimed over a row of a completed run, after another delivery has acknowledged the stop |
| `GateRaces.RedeliveryReopens` | src/db/query/runs.ts:47-49 | a run in which a redelivered task reopens the row of a completed run |
| `GateRaces.ReapRacesStop` | src/dashboard-server/live.ts:102-105 | a stop that lands between its look at the signal and its mark is not noticed: rows are failed under a live signal inside the grace |
| `GateRaces.StalePatchAdmitsSecondClaim` | src/orchestrator/finalize/aggregate.ts:124-138 | a finalizer that wakes up after its claim has gone stale writes its old record back, and the run is claimed twice in one instant |
| `RunGate.Operation.PrepareRunFinalization` | src/orchestrator/run-lifecycle.ts:516-526 | with others doing anything in between, true if and only if its three reads say so, and then every row is terminal at its return |
| `RunGate.Operation.StopRun` | src/orchestrator/run-lifecycle.ts:704-716 | stops exactly a running run, stamps it, and then sets the signal; otherwise it changes nothing |
| `RunGate.Operation.AcknowledgeStop` | src/runner.ts:174-183 | clears the signal if and only if it was set and the rows read afterwards were complete; in an orderly run every row is terminal then |
| `RunGate.Operation.ReadStopState` | src/runner.ts:850-856 | the row is going to be stopped if and only if the signal, or else the record read after it, shows the stop |
| `RunGate.Operation.EndTask` | src/runner.ts:850-893 | a terminal write that goes through leaves the row ended, and a row that had ended before as it was |
| `RunGate.Operation.SettleTask` | src/runner.ts:909-981 | a nack returns the task with one more attempt or dead-letters it after its last, unless the queue has handed it to somebody else |
| `RunGate.Operation.RunTask` | src/runner.ts:313-981 | one round of the runner, wherever it throws and with others doing anything in between: the signal is read before any write, unless the run id is bad, and the round ends its row if and only if it saw the stop there, the turn loop returned or the attempt was the last |
| `RunGate.Operation.ReconcileStaleRunningRun` | src/dashboard-server/live.ts:97-107 | reaps if and only if the run looked stale and the signal read afterwards was clear, and leaves only terminal rows |
| `RunGate.Operation.FinalizeRun` | src/orchestrator/run-lifecycle.ts:540-669 | a run settled by this call was claimed by this call, is errored if and only if it was reaped and no model has a result, and in an orderly run has only terminal rows; every row is patched, with completed if and only if its model has a result, and shows that afterwards unless somebody else has written it since |
| `RunGate.Operation.SettleRun` | src/orchestrator/run-lifecycle.ts:540-600 | under a claim: the run is completed or errored as above if and only if it was still being finalized, after every row has been patched |
| `RunGate.Operation.PatchIndex` | src/orchestrator/finalize/aggregate.ts:125-187 | every row of the run is patched by this call, and every patch by it says completed if and only if the model has a result |
| `RunGate.IndexShowsResults` | src/orchestrator/finalize/aggregate.ts:125-187 | after such patches a row is completed or errored as its model has a result or not, unless a task has reopened it or another finalizer has patched it since |
| `RunGate.Operation.AttemptFinalizeCandidate` | src/dashboard-server/live.ts:118-125 | one watcher tick settles a run only under its own claim and, in an orderly run, only with every row terminal |
| `Hardening.ReplaceAll` | src/security/prompt-injection.ts:45-52 | the left-to-right replacement of one pattern, skipping whole matches, puts a backslash after every opening bracket that starts a match |
| `Hardening.EscapeControlMarkers` | src/security/prompt-injection.ts:45-52 | the loop over the ten patterns comes to one simultaneous pass and leaves no control marker |
| `Hardening.EscapeMore` | src/security/prompt-injection.ts:45-52 | escaping one more marker afterwards is escaping it together with the others |
| `Hardening.EscapedHasNoMarkers` | src/security/prompt-injection.ts:27-52 | no marker is left, for any well-formed list of markers |
| `Hardening.UnchangedIffNoMarkers` | src/security/prompt-injection.ts:45-52 | a text is left as it is if and only if it has no marker |
| `Hardening.EscapeIdempotent` | src/security/prompt-injection.ts:45-52 | escaping twice is escaping once |
| `Hardening.EscapeAddsNoFlag` | src/security/prompt-injection.ts:122-138 | escaping never makes a text suspicious |
| `Hardening.FlaggedMeans` | src/security/prompt-injection.ts:122-138 | a text is flagged if and only if a pattern occurs somewhere in it, the last one as a whole word |
| `Hardening.ParseExact` | src/security/prompt-injection.ts:59-65 | the envelope expression matches exactly the texts of its shape, with one path and one body |
| `Hardening.EnvelopePathIs` | src/security/prompt-injection.ts:67-69 | the path found is the path attribute, unless that starts with a closing bracket |
| `Hardening.EscapedAttribute` | src/security/prompt-injection.ts:54-57 | an escaped attribute has no quote and no bracket |
| `Hardening.SanitizeIdempotent` | src/security/prompt-injection.ts:84-106 | hardening a hardened result changes nothing |
| `Hardening.PayloadHasNoMarkers` | src/security/prompt-injection.ts:77-106 | the payload of a hardened result has no control marker, plain or enveloped, and an envelope stays one |
| `Hardening.FlaggedIsMarked` | src/security/prompt-injection.ts:77-106 | whatever is flagged is marked, right before its escaped data |
| `Hardening.PlainUntouched` | src/security/prompt-injection.ts:103-105 | a plain text passes untouched if and only if it has no marker and is not suspicious or is marked already |
| `Hardening.WrappedIsStable` | src/security/prompt-injection.ts:71-75 | every wrapped file is an envelope with marker-free data and its own path; hardening leaves it alone if and only if the content is no envelope, its data is suspicious, or its escaped text is not |
| `Hardening.WrappedEnvelopeUnstable` | src/security/prompt-injection.ts:71-75 | an envelope with a suspicious path is wrapped without a marker and gets one when hardened |
| `TurnLoop.Conversation.RunTurnLoop` | src/agent-loop/turn-loop.ts:143-290 | messages, tallies, errors, usage, stop reason and turn count of the whole loop, for any scripted model, executors and hooks |
| `TurnLoop.Conversation.TakeTurn` | src/agent-loop/turn-loop.ts:163-285 | one iteration, with its stop conditions in order |
| `TurnLoop.Conversation.TakeReply` | src/agent-loop/turn-loop.ts:193-262 | one reply: its message, its usage and its calls |
| `TurnLoop.Conversation.ExecuteCall` | src/agent-loop/turn-loop.ts:218-261 | one call: its result message and its place in the tallies |
| `TurnLoop.Conversation.RunTool` | src/agent-loop/turn-loop.ts:223-244 | an unknown, failing or throwing tool yields a result and one error |
| `TurnLoop.TranscriptPaired` | src/agent-loop/turn-loop.ts:193-262 | the appended messages pair every assistant message with one tool message per call, in order, with matching ids |
| `TurnLoop.OneAssistantPerTurn` | src/agent-loop/turn-loop.ts:193-262 | there is one assistant message per turn that got a reply |
| `TurnLoop.TalliesAddUp` | src/agent-loop/turn-loop.ts:218-261 | the number of calls is the sum of the tool counts over the names used, and the sum of successes plus failures |
| `TurnLoop.UnknownOnlyFromHook` | src/agent-loop/turn-loop.ts:292-296 | the remapped stop reason is unknown if and only if a hook returned that string |
| `TurnLoop.StopReasonMeans` | src/agent-loop/turn-loop.ts:163-287 | unless a hook named a reason: the loop ends for lack of calls if and only if the transcript ends in a reply, with an API error if and only if the last send failed, complete if and only if a completion call was answered and no hook stopped it, over budget if and only if a hook stopped it otherwise; and the turns used are those with a reply and the one that failed |
| `TurnLoop.CutAtTheLimit` | src/agent-loop/turn-loop.ts:246 | a tool result within the limit is kept, a longer one is its beginning up to the limit and the suffix |
| `TurnLoop.SortCounts` | src/agent-loop/turn-loop.ts:287 | the tool counts are listed in descending order, each once |
| `Pricing.EveryTokenBilledOnce` | src/cost-tracking/pricing.ts:99-120 | when cache counts are part of the prompt count every prompt token is billed once |
| `Pricing.CachingChangesBillBy` | src/cost-tracking/pricing.ts:98-127 | against the same call without caching, each cached token with a cache price pays the difference to the input price, at the same tier |
| `Pricing.CostAddsUp` | src/cost-tracking/pricing.ts:116-127 | the parts of a bill add up, and a call without tokens is free |
| `Pricing.TokenPrices` | src/cost-tracking/pricing.ts:84-127 | n tokens more of one kind cost n times the first price known for that kind, at the tier price over two hundred thousand tokens, less the input price for cached tokens, whichever model serves the call |
| `Pricing.ComputeTotalCost` | src/cost-tracking/pricing.ts:147-162 | the loop sums the calls, each at its own tier and model, and falls back to the aggregate for an empty list |
| `Pricing.SpendTelescopes` | src/runner.ts:727-741 | after any turns the cost of the cumulative-usage deltas is the total cost of the calls so far |
| `Pricing.SpendIsBill` | src/runner.ts:727-741 | the same against the whole bill, with its fallback for runs that reported nothing |
| `Pricing.PerCallSums` | src/agent-loop/turn-loop.ts:196-208 | the cumulative usage is the component-wise sum of the calls listed for billing |
| `Pricing.SpendGrows` | src/runner.ts:742 | with non-negative prices the spend of an attempt never goes down |
| `Pricing.SpendTracker.OnTurnComplete` | src/runner.ts:727-742 | the hook adds the cost of the delta and keeps the larger spend |
| `Pricing.SpendTracker.RunAttempt` | src/runner.ts:654-742 | at the end of an attempt the limit check sees the seed plus the bill of its calls, or the higher spend of an earlier attempt |
| `Pricing.PricingCache.GetModelPricing` | src/cost-tracking/pricing.ts:34-45 | the cache never changes an answer of the catalog |
| `RunSpend.LimitCheckSeesBill` | src/runner.ts:723-742 | for any run of the turn loop the spend the limit check sees is the total cost of the calls the loop lists for billing |
| `Compaction.Window.CompactMessages` | src/agent-loop/loop.ts:71-94 | in place, the window loses exactly the promised number of messages after its head |
| `Compaction.Window.CountDropped` | src/agent-loop/loop.ts:83-89 | the inner walk stops at the first message that brings the window within the limit |
| `Compaction.HeadAndSuffix` | src/agent-loop/loop.ts:75-77 | what is left is the protected head followed by a suffix that keeps the protected tail |
| `Compaction.DropsOnce` | src/agent-loop/loop.ts:79-93 | the promise fixes the number of messages dropped: dropping one fewer would not have reached the limit |
| `Compaction.WithinOrNothingLeft` | src/agent-loop/loop.ts:79-93 | afterwards the window is within the limit or nothing with content can be dropped |

## Left out

Regex analyser

- Lookaround, `\b`, backreferences, inline modifiers and a literal `{` are not in the fragment of trees; the scanner itself is modelled on every pattern, where an unbalanced `)` gives the outcome `Malformed` for the source's exception.
- Case-insensitive folding: the scanner is modelled for case-sensitive patterns, and `PointsToRanges` is the part of folding that is proved.
- RegexAcceptance.AcceptedExactly: speaks of patterns without dots, anchors, empty branches, classes that match nothing and pieces repeated zero times, whose nested branches share no first character; elsewhere a first set may be unknown and the scanner, by design, rejects more than it has to.
- Quantifier numbers are exact; the source rounds digit strings above 2^53.
- Ambiguity inherited through a parent group that has its own alternation, which line 675 of `src/tools/executors.ts` recomputes, and any statement about matching time.

Queues

- RedisQueue.CommandKeepsInv: does not model the duplicate key of enqueue, so a crash between setting it and the XADD is not covered, nor quarantined malformed payloads.
- The idle time and paging of XAUTOCLAIM, the heartbeat, the scan cap of 1000 dead letters, metrics, and exactly-once delivery, which a reclaim racing a nack does not give.
- Every operation reads the clock once; the in-memory queue reads it once per pending task.
- Prompt wake-up of waiters in the in-memory queue: a task that becomes due later waits for the next operation, which is the exception in `InMemoryQueue.NobodyLeftWaiting`.

Budget

- BudgetLock.MutualExclusion: holds for runs with timely locks and without overlapping breaks, because the source promises no more; `BudgetLock.OverlapLosesExclusion` shows why.
- BudgetLockFile.LockFile.ReleaseLock: a side name that another process still holds for the file just after linking it back is left, and that process, unless it crashes, removes it next (`BudgetLock.RunInv`).
- BudgetLock.RunInv: no system call fails for a reason other than a present or missing name, tokens never collide, and process ids are not reused.
- The retry loops around `tryAcquireLock`, their deadlines and the clamping of the stale window.
- BudgetLedger.CapNeverExceeded: direct spend on the same model, an actual cost above its reservation, and expired reservations are outside its discipline, since each of them can exceed the cap: `BudgetLedger.DirectSpendExceeds`, `BudgetLedger.OverrunExceeds` and `BudgetLedger.ExpiredReservationExceeds` give the inputs, `BudgetLedger.CapThroughoutExactly` the exact condition for any operations.
- Floating-point rounding, the text of the ledger file and its reset when it does not parse, `checkBudget`, a cap across models, a model listed twice in one run, and model names that are members of the JavaScript object prototype beyond the three that are filtered.

Outbox

- What a send does, the error text of a row, and the listing of rows. An unparsable payload is a failed send. A database error ends the sweep like a crash.

Stop gate

- GateSafety.GateSafety: holds for orderly runs, because the source's guard lets a task overwrite an ended row (see above); `GateExact.GateHoldsExactly` is the exact condition, over every run.
- GateSafety.AdmittedStaysTerminal: holds for orderly runs, for the same reason; `GateExact.AdmittedStaysExactly` is the exact condition.
- GateAccounts.NoModelForgotten: assumes that terminal writes go through, because the source only logs a failed one and goes on to ack; `GateAccounts.ForgottenExactly` is the exact condition, and `GateAccounts.ReaperRecovers` the recovery.
- `restartRun`, which reopens rows on purpose, the CLI timeout path, the cancel check inside the turn loop, the kill switch, several runs at once, database reads that fail, and failures or expiry of the signal in Redis, where a failed read counts as clear.
- What a finalizer does besides its claim, its index patch and its completion; the patch is modelled row by row, the notifications and ledgers are not.
- A nack that fails is a crash of its runner, and a returned delivery is back in the queue at once, without its delay (see the queue modules).

Hardening and loops

- Strings are sequences of characters; the source works on UTF-16 code units. `detectInjection` on prompts.
- Hooks, events or executors that change the messages or the usage while the loop runs, tool arguments, request durations, and tool names that are members of the JavaScript object prototype.
- The database queries behind prices and their failures; prices are a table.
- Pairing of calls and results after compaction, which counts messages and not turns.
- Circuit breaker, fallback chain, catalog, rate limiter, path checks and every HTTP, provider and telemetry wrapper.
