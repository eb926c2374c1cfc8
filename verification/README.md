# Verification model of Absurd

Absurd runs durable tasks on Postgres: a handler is replayed against checkpoints held in the
database, runs are leased to workers, results are polled for, and the Habitat dashboard pages
through, searches and displays the runs.  This project models those four parts in Dafny and proves
what they promise, for every input, every interleaving and every run of the system.
`dafny verify dfyconfig.toml` checks all of it.

## Contents

The replay protocol (one task, any number of worker processes):

- `Names.dfy`: checkpoint names in the Go, TypeScript, Python and Java task contexts.
- `Store.dfy`: one task in the store (runs, checkpoints, events) and the stored procedures of
  `sql/absurd.sql` as functions, one atomic step each: `SetCheckpoint` 1395-1480, `AwaitEvent`
  1627-1812, `ScheduleRun` 1059-1103, `CompleteRun` 997-1057, `FailRun` 1105-1259, `ExtendClaim`
  1482-1541, `CheckpointsFor` 1574-1625, `Claim` and `Sweep` 832-994, `CancelTask` 1911-1975,
  `RetryTask` 1270-1393, `EmitEvent` 1814-1906.
- `Replay.dfy`: the protocol as a state machine.  A handler is a function from the values it has
  observed to its next action (step, sleep, event wait, return, throw).  A script of events
  interleaves any number of sessions, alive or not: crashes, lost requests, lost replies, requests
  that arrive after their sender has gone, heartbeats, lease expiry, takeover, cancellation, retry,
  event delivery and the passing of time.
- `History.dfy`: the one history a deterministic handler can have, the rows it stands for, and which
  histories can happen.
- `Invariant.dfy`, `Steps.dfy`: the invariant, kept by every event: the store holds exactly the rows
  of one history, every session has observed a prefix of it, only the newest run is not failed, and
  at most one session or late request can still write for it.
- `Safety.dfy`: an invariant that needs no history and so holds for every handler, whatever its step
  names: no row ever changes, at most one session can still write, and every cache is a part of the
  store.
- `Durable.dfy`: the promises, for every script.  `Collisions.dfy`: exactly when the store is one
  history, for every handler.  `RoundTrip.dfy`: handlers that first see a step's value in memory and
  on replays its decoded JSON.  `Parting.dfy`: exactly when the promises carry over to them.
- `TaskContext.dfy`: the Go `TaskContext` as a class; on success each method has taken the protocol's
  steps on its own fields, and its failures say what the store and the handler's memory hold.

Workers and polling (Go):

- `ExecuteTask.dfy`: `executeTask` as a method, under every handler, hook, store and driver outcome,
  and its equality with the moves of a session of the protocol.
- `RunWorker.dfy`: the claim loop, its semaphore, signal channel and wait group as a state machine.
- `Watchdog.dfy`: the lease watchdog as a class, refining a machine that keeps every timer callback
  ever armed.  `Durations.dfy`: 64-bit durations and whole-second leases.
- `Polling.dfy`: the polling loop of `AwaitTaskResult` with backoff, deadline and heartbeats, in the
  order of calls of the Go loop and of the TypeScript and Python loops.

Habitat:

- `Paging.dfy`: `handleTasks` from the window computation on.  `TaskRuns.dfy`: the page's loop.
- `NamesCache.dfy`: the cache of recent task names, under concurrent requests and aliasing.
- `JsonViewer.dfy`: the token stream, the foldable paths and JSON.stringify with a two-space gap
  (section 25.5.2 of ECMA-262).  `FoldPaths.dfy`: which sets of keys give every container a path of
  its own.  `Highlight.dfy`: the search splitter.

`Prelude.dfy` holds what several modules share.

## Findings

Laws that hold under a condition only, each proved with its exact condition:

- Step names: `name#2` and the second use of `name` share a checkpoint.  For every handler the store
  stays one history, with no session ahead of it, if and only if no action of a history that can
  happen gets the name of an earlier one, except a sleep that finds a text which is no time and so
  fails (`Collisions.FaithfulIffHarmless`).  Names without `#` never collide.  Whatever the names, no
  row and no result ever changes (`Durable.RowsNeverChange`, `Durable.ResultNeverChanges`).
- A step's value is handed over as computed the first time and decoded from JSON on replays.  For
  every handler with names that are free of `#` and not blank, the store stays one history with the
  handler's result on it, and every session acts on a prefix of it as the handler does, if and only
  if the handler acts on values in memory as on the decoded ones, or fails
  (`Parting.FollowsIffTolerant`).  For handlers of steps alone the store by itself shows it
  (`Parting.ReplayableIffTolerant`).
- The TypeScript and Python polling loops compute the remaining time before the heartbeat and can
  ask for a sleep past the deadline; they never do if and only if they send no heartbeats or the
  first one is due no earlier than the deadline (`Polling.ScriptDeadlineExact`).  The Go loop never
  does.
- With calls that take no time and a fresh claim of whole seconds, a wait without a deadline keeps
  its claim if and only if the claim is two seconds or more (`Polling.WholeSecondsExact`).
- `handleTasks` answers with the right page on every database if and only if the window, and the
  one extra row it asks for, fit in 64 bits (`Paging.PagingExact`).
- The fatal timer waits for two leases if and only if twice the lease fits in 64 bits; beyond that
  it passes its guard at once (`Watchdog.FatalDelayExact`, `Watchdog.HugeLeaseFiresAtOnce`).
- `executeTask` makes a second terminal call if and only if the database driver panics inside the
  first, and leaves no report in exactly five cases (`ExecuteTask.Worker.ExecuteTask`).
- The viewer shows what Copy takes if and only if every number is finite: a literal like `1e999`
  parses to an infinity, which JSON.stringify writes as `null` (`JsonViewer.ShownIsCopied`).
- Fold paths: in all documents with keys from a given set no two containers share a path if and only
  if no text reads in two ways as one of the keys followed by names from the set and indices, with
  different first keys (`FoldPaths.PathsDistinctForKeys`).  With one key that holds a `.` or `[` this
  means that the key does not read as a path from its first separator on
  (`FoldPaths.PathsDistinctExactly`): `a.b` and `a[0]` do, `a[` and `a[x]` do not.  Two such keys can
  meet although neither does so alone: `{"a[": {"b": [null]}, "a[.b": [null]}`
  (`FoldPaths.TwoKeysMeet`).
- For every search the marked parts are occurrences of it in lower case if and only if no character
  of the text grows when it is lowered and the lowered text does not contain what some other
  character grows to (`Highlight.MarksFitExactly`): searching for U+0130 in an i with a combining
  dot marks the i alone (`Highlight.DottedIMisleads`).

While `AwaitTaskResult` polls with calls that take time, its claim is kept under a sufficient
condition on the latencies (`Polling.LeaseNeverLapses`); no converse is claimed for it.

## Model

| member | source | states |
|---|---|---|
| Names.CollisionLaw | sdks/go/absurd/context.go:150-159 | two uses of step names get one checkpoint name exactly when they are the same use, or one is the first use of a name that spells out the other's `name#count` |
| Names.HashFreeInjective | sdks/typescript/src/index.ts:428-433 | on names without `#` the numbering is injective in name and count |
| Names.NamesOfAt | sdks/python/src/absurd_sdk/__init__.py:904-908 | in a run the k-th use is numbered by how often its name was used before |
| Names.RunNamesDistinct | sdks/go/absurd/context.go:150-159 | any two uses of `#`-free names within one run get different checkpoint names |
| Names.HashNamesCollide | sdks/go/absurd/context.go:155-158 | the second use of `a` and the first use of `a#2` share a checkpoint |
| Names.JavaKeyInjective | sdks/java/src/main/java/io/absurd/sdk/internal/TaskContextImpl.java:106-211 | a Java key determines kind, counter and name, so keys of one run are always distinct, whatever the names contain |
| Store.EndedRunCallsChangeNothing | sql/absurd.sql:997-1057 | no procedure called for a failed or cancelled run changes the task; writes and terminal calls are told AB001 or AB002 |
| Durable.OneGrowingHistory | sdks/go/absurd/context.go:273-316 | for a handler without harmful name collisions, over every script the committed checkpoints are the rows of one growing history of the handler: no committed value changes, and what every session, zombies included, has observed is a prefix of it |
| Durable.HistoryIsUnique | sdks/go/absurd/context.go:161-206 | the checkpoint rows determine that history |
| Durable.ResultIsFinal | sdks/go/absurd/absurd.go:833-843 | a completed task's result is the handler's own return value on the whole history, and neither ever changes again |
| Durable.RowsNeverChange | sql/absurd.sql:1454-1478 | for every handler, over every script: a committed checkpoint is never changed or lost |
| Durable.ResultNeverChanges | sql/absurd.sql:1014-1050 | for every handler: a completed task stays completed with the same result |
| Durable.ResultOnlyWhenCompleted | sql/absurd.sql:1034-1050 | for every handler: a result exists exactly when the task is completed |
| Safety.DoSound | sql/absurd.sql:1395-1480 | for every handler, every event of the protocol keeps the invariant that all runs but the newest have failed, at most one session can still write, the row it is about to write is not there yet, and what was cached, granted or slept through is in the store; and it keeps every row |
| Durable.CachedLookupIsDirect | sdks/go/absurd/context.go:161-183 | for every handler, in every reachable state: each session's cache is a part of the store and a cached lookup answers as a direct read would |
| Durable.SleepHolds | sdks/go/absurd/context.go:324-359 | for every handler: a session that is past a sleep saw its local clock at or after the wake time it goes on with; the row is that time, or, under a colliding name only, the empty text, and it is the same in every later state although each replay proposes a new time |
| Durable.ZombiesChangeNothing | tests/test_checkpoints.py:82-115 | for every handler: all runs but the newest have failed, and any request, early or late, for a failed or cancelled run leaves the store as it was |
| Invariant.InitInv | sql/absurd.sql:682-830 | a fresh task satisfies the protocol invariant with the empty history |
| Invariant.LookupIsNext | sdks/go/absurd/context.go:161-183 | before the end of the history a session's lookup finds its next value, at the end nothing, unless the name is an earlier one |
| Steps.CommitKeeps | sql/absurd.sql:1395-1480 | an accepted write by the current session extends the history by exactly its value and leaves at most one writer |
| Steps.ServePersist | sdks/go/absurd/context.go:185-206 | serving a checkpoint write, however late, keeps the invariant with the history unchanged or longer |
| Steps.ServeWait | sql/absurd.sql:1627-1812 | serving an event wait keeps it: answered from the checkpoint, from the event, by parking the run, or refused |
| Steps.ServeSchedule | sql/absurd.sql:1059-1103 | serving a reschedule keeps it: no session can write for the parked run |
| Steps.ServeComplete | sql/absurd.sql:997-1057 | serving a completion keeps it: the stored result is the handler's return value on the history |
| Steps.ServeFail | sql/absurd.sql:1105-1259 | serving a failure report keeps it, with or without a next attempt |
| Steps.GiveUpKeeps | sdks/go/absurd/absurd.go:845-863 | a call given up while its request is still under way keeps it, although both go on |
| Steps.ClaimKeeps | sql/absurd.sql:932-994 | claiming an available run keeps it: the claimer becomes its one writer |
| Steps.FailKeeps | sql/absurd.sql:901-930 | an expired lease fails its run and may open the next attempt; the old holder can write no more |
| Steps.CancelKeeps | sql/absurd.sql:1911-1975 | cancelling keeps it |
| Steps.RetryKeeps | sql/absurd.sql:1359-1391 | retrying a failed task in place keeps it |
| Steps.EmitKeeps | sql/absurd.sql:1814-1906 | emitting an event keeps it, extending the history when a run was waiting for that event |
| Steps.HeartbeatKeeps | sql/absurd.sql:1482-1541 | a heartbeat, even a zombie's, keeps it and the history |
| Steps.DoKeeps | sdks/go/absurd/context.go:150-206 | every event of the protocol keeps the invariant for a history that extends the old one |
| History.HashFreeNeverCollides | sdks/typescript/src/index.ts:428-433 | a handler whose step names contain no `#` meets the condition of the durability theorems |
| History.RowAt | sdks/go/absurd/context.go:161-183 | looking up an action of the past, under its own name, finds the value it observed |
| History.SameRowsSameHistory | sdks/go/absurd/context.go:66-80 | two histories with the same rows are equal |
| Collisions.FaithfulIffHarmless | sdks/go/absurd/context.go:150-159 | for every handler: all scripts are faithful to one history if and only if no action of a history that can happen gets the checkpoint name of an earlier one, except a sleep that cannot read what it finds |
| Collisions.Build | sdks/go/absurd/context.go:273-425 | a worker left alone reaches every history with distinct names, names the store takes and one payload per event |
| Collisions.HarmlessCollision | sdks/go/absurd/context.go:335-346 | a handler that collides and is faithful all the same: its sleep meets a text that is no time |
| Collisions.CollidingIsUnfaithful | sdks/go/absurd/context.go:155-158 | a concrete handler with steps `a`, `a`, `a#2` whose third step is answered with the second one's value |
| RoundTrip.TolerantIsPlain | sdks/go/absurd/absurd.go:254-268 | when the handler acts on values in memory as on decoded ones, or fails, every run with in-memory values leaves the store of a run of the plain protocol, and each session's values decode to what the plain session observed |
| Parting.ReplayableIffTolerant | sdks/go/absurd/context.go:289-316 | for handlers of plain steps the store stays one history with the handler's result on it if and only if the handler is like that |
| Parting.PartingShows | sdks/go/absurd/absurd.go:254-268 | otherwise one worker alone commits a row or a result that belongs to no history |
| Parting.FollowsIffTolerant | sdks/go/absurd/context.go:273-425 | for handlers of steps, sleeps and waits with usable names: the store stays one history with the result on it, and every session acts on a prefix of it as the handler does, if and only if the handler is like that |
| TaskContext.Context.Load | sdks/go/absurd/context.go:66-83 | the preload is the protocol's preload step on this object |
| TaskContext.Context.NextCheckpointName | sdks/go/absurd/context.go:150-159 | counters and name as the naming scheme gives them |
| TaskContext.Context.LookupCheckpoint | sdks/go/absurd/context.go:161-183 | answers from the cache, else from the store, and remembers what it read; an error changes nothing |
| TaskContext.Context.PersistCheckpoint | sdks/go/absurd/context.go:185-206 | the cache follows, with the encoded value, exactly when the store accepted; on a rejection the store is unchanged, on a lost reply it holds the write or not; the lease is announced once per success |
| TaskContext.Context.BeginStep | sdks/go/absurd/context.go:289-316 | a done handle carries the stored value and observes it, an open one means that the store has no such row; both are the protocol's begin step |
| TaskContext.Context.CompleteStep | sdks/go/absurd/absurd.go:254-268 | a done handle writes nothing; otherwise the handler goes on with the value in memory, and store, cache and the protocol's session with its decoding; on an error nothing is observed |
| TaskContext.Context.Step | sdks/go/absurd/context.go:273-286 | the step function is used exactly when the store has no row for this use; a computed value is returned as it is and stored encoded, a stored one is returned decoded |
| TaskContext.Context.RecordWake | sdks/go/absurd/context.go:329-351 | the wake time in force is the stored one, else the proposed one, which is stored first; the object holds what the protocol's session holds then |
| TaskContext.Context.PassWake | sdks/go/absurd/context.go:352-358 | at or after the wake time the handler goes on, before it the run is put to sleep until exactly then |
| TaskContext.Context.SleepUntil | sdks/go/absurd/context.go:324-359 | both together: the counters move on by one use, and on return or suspension the object has taken the protocol's steps for a sleep |
| TaskContext.Context.AwaitEvent | sdks/go/absurd/context.go:362-425 | the counters move on by one use; it returns the stored payload, or the one the store delivers and checkpoints, having taken the protocol's steps for a wait; suspends exactly when the store parked the run |
| TaskContext.Context.Heartbeat | sdks/go/absurd/context.go:213-221 | after a success the store's claim runs exactly as long as the lease announced to the watchdog, which covers the request; a failure announces nothing; checkpoints are untouched |
| TaskContext.MapError | sdks/go/absurd/absurd.go:1026-1037 | AB001 and only AB001 becomes the cancelled signal, AB002 and only AB002 the failed signal |
| ExecuteTask.Worker.ExecuteTask | sdks/go/absurd/worker.go:316-386 | at most one terminal call, a second exactly when the driver panics in the first; none once a signal surfaces; a completion exactly for a marshalled return value; the endings without a report; a panic escapes only from the report of a panic; a run that is over is left as it was |
| ExecuteTask.WorkerIsSession | sdks/go/absurd/worker.go:365-385 | when the handler runs, whether it returns, errs, panics or exits, inside a step or after it, the store it leaves and its calls are those of a session of the replay protocol whose handler ends the same way |
| ExecuteTask.ReportsAreDurable | sdks/go/absurd/absurd.go:833-863 | so in every reachable world the store after its reports is one history, and a result it stores is the handler's on it |
| ExecuteTask.Worker.Defer | sdks/go/absurd/worker.go:99-108 | a deferral puts a running run to sleep until the given time, or changes nothing |
| ExecuteTask.Worker.Terminal | sdks/go/absurd/worker.go:234-239 | no error exactly when the reply came and the run has ended, by this call or before it; the call ends a running run, for fail_run also a sleeping one, and leaves the store alone otherwise |
| RunWorker.CapacityRespected | sdks/go/absurd/worker.go:177-209 | in every reachable state at most `concurrency` tasks are in flight and the semaphore send can go ahead |
| RunWorker.EachTaskOnce | sdks/go/absurd/worker.go:207-225 | every claimed task is executed at most once, and exactly once and to its end when RunWorker has returned |
| RunWorker.NoLostWakeup | sdks/go/absurd/worker.go:75-86 | while the loop waits after seeing no capacity, a free slot implies a token in the channel or a releaser about to send it |
| RunWorker.IdleWorkerHasToken | sdks/go/absurd/worker.go:212-218 | a loop that waits with all tasks finished has its token |
| Watchdog.LeaseWatchdog.Schedule | sdks/go/absurd/worker.go:260-299 | the object takes the machine's schedule step; non-positive leases and a stopped watchdog arm nothing |
| Watchdog.LeaseWatchdog.StopTimers | sdks/go/absurd/worker.go:301-314 | the object takes the machine's stop step and drops its timers |
| Watchdog.LeaseWatchdog.Fire | sdks/go/absurd/worker.go:289-298 | a callback acts exactly when its guard passes |
| Watchdog.GuardSound | sdks/go/absurd/worker.go:260-314 | a callback that passes its guard, however late it runs, belongs to the latest positive-lease schedule, stop was not called, and its lease, or for the fatal one twice its lease, has elapsed |
| Watchdog.GuardComplete | sdks/go/absurd/worker.go:289-298 | with no reschedule or stop since, the fatal callback may fire from two leases on and passes its guard |
| Watchdog.NoFatalWithoutFlag | sdks/go/absurd/worker.go:286-288 | without the flag no fatal callback is ever armed |
| Watchdog.FatalDelayExact | sdks/go/absurd/worker.go:289-289 | the fatal delay is two leases exactly for leases up to half the 64-bit range, and negative beyond |
| Watchdog.HugeLeaseFiresAtOnce | sdks/go/absurd/worker.go:289-295 | beyond it the fatal callback passes its guard as soon as it is armed |
| Durations.DurationSeconds | sdks/go/absurd/absurd.go:1012-1017 | the least number of whole seconds that covers the duration |
| Durations.NormalizeLeaseCovers | sdks/go/absurd/absurd.go:1004-1010 | the normalized lease covers the request by less than a second more, and normalizing is idempotent, exactly when rounding up stays within 64 bits |
| Polling.AwaitTaskResultWithBackoff | sdks/go/absurd/absurd.go:753-797 | the loop as written equals the round-by-round run that the laws below are about |
| Polling.DelayFormula | sdks/go/absurd/absurd.go:790-795 | the k-th unclipped delay is min(50 * 2^k, 1000) ms, and doubling with the cap steps through these |
| Polling.BackoffLengths | sdks/go/absurd/absurd.go:775-795 | the k-th sleep asked for has that length; only the last may be shorter, and then it reaches the deadline |
| Polling.FetchesBounded | sdks/go/absurd/absurd.go:753-797 | a timeout of T allows at most T/1s + 6 fetches, in all three loops, and the wait ends |
| Polling.DeadlineRespected | sdks/go/absurd/absurd.go:776-784 | the Go loop never asks for a sleep past the deadline |
| Polling.ScriptDeadlineExact | sdks/typescript/src/index.ts:1540-1555 | the TypeScript and Python loops never do so if and only if they send no heartbeats or none is due before the deadline |
| Polling.LeaseNeverLapses | sdks/go/absurd/context.go:249-262 | when lease/2 + 1 s and the call latencies fit in the lease, in the Go loop without the reply of the heartbeat, the claim never expires while the loop polls and still covers the checkpoint write at the end |
| Polling.AwaitKeepsLease | sdks/go/absurd/context.go:224-270 | the same for the whole wait, from a claim of whole seconds that covers the first window |
| Polling.WhichLeasesFit | sdks/go/absurd/context.go:249-252 | leases of two seconds and more can meet the condition, shorter ones cannot |
| Polling.OneSecondLeaseLapses | sdks/go/absurd/context.go:249-262 | a one-second lease is expired after the first full-second sleep even if calls take no time |
| Polling.WholeSecondsExact | sdks/go/absurd/context.go:249-262 | with instant calls and a fresh claim of whole seconds, a wait without a deadline keeps its claim if and only if the claim is two seconds or more |
| Polling.GoTimeouts | sdks/go/absurd/absurd.go:767-784 | Go's option: a positive timeout bounds fetches and sleeps, a negative one fetches at most once and never sleeps, zero never times out |
| Paging.HandleTasks | habitat/internal/server/handlers.go:379-451 | window, per-queue cuts, merge, filter, sort and slice compute the response that the laws below are about |
| Paging.FetchAll | habitat/internal/server/handlers.go:392-419 | the loop over the queues skips those whose query fails and notes truncation |
| Paging.PageOfEverything | habitat/internal/server/handlers.go:440-451 | whenever the window fits in 64 bits: the items are the page of the globally sorted union over all queues that answered, hasMore is exact, the total is exact or -1 |
| Paging.MergedTop | habitat/internal/server/handlers.go:711-757 | the merged, sorted cuts start with the first `limit` rows of the union and contain nothing else |
| Paging.TruncationTells | habitat/internal/server/handlers.go:751-755 | a truncated cut means more rows than the window; without one the merge is the whole union |
| Paging.OverflowBreaksPaging | habitat/internal/server/handlers.go:379-383 | outside that range some database gets a wrong answer or a crash |
| Paging.PagingExact | habitat/internal/server/handlers.go:379-451 | the paging law holds on every database if and only if the window fits in 64 bits |
| Paging.SortRows | habitat/internal/server/handlers.go:431-433 | the result is a permutation in descending order of run id |
| Paging.EverythingOk | habitat/internal/server/handlers.go:421-433 | the whole result holds every wanted row of every answering queue once, newest first |
| TaskRuns.FetchRunsForTask | habitat/ui/src/views/TaskRuns.tsx:61-99 | returns the whole run history, each run once and in order, when it has at most 200,000 runs, the page-limit error exactly otherwise, never the stalled error; it ends; an empty id gives no runs |
| TaskRuns.PageContinues | habitat/ui/src/views/TaskRuns.tsx:74-96 | each page continues the rows read so far, and one that promises more is full |
| NamesCache.ReturnedIsRecent | habitat/internal/server/handlers.go:516-542 | over all interleavings a request returns what the store held for its queue at some instant less than a minute before the request began, or later |
| NamesCache.AgeBoundIsTight | habitat/internal/server/handlers.go:476-539 | an answer can be one clock tick short of a minute old |
| NamesCache.TaskNames.Lookup | habitat/internal/server/handlers.go:519-524 | a hit hands out a fresh copy that the cache does not own |
| NamesCache.TaskNames.Remember | habitat/internal/server/handlers.go:531-539 | the cache stores a copy of its own, with the expiry counted from the start of the request |
| NamesCache.TaskNames.GetCached | habitat/internal/server/handlers.go:516-542 | hit, miss and failure; the array returned is never one the cache owns |
| NamesCache.AnswersAreNotShared | habitat/internal/server/handlers.go:516-542 | a caller that overwrites its answer changes neither the cache nor the next answer |
| JsonViewer.TokenizeJSON | habitat/ui/src/components/JSONViewer.tsx:198-310 | the recursion with its two loops builds the token stream that the laws below are about |
| JsonViewer.ShownIsCopied | habitat/ui/src/components/JSONViewer.tsx:48-54 | with nothing toggled or folded the token values spell JSON.stringify(data, null, 2) if and only if every number is finite |
| JsonViewer.TokensText | habitat/ui/src/components/JSONViewer.tsx:198-310 | the same for every value at every depth; otherwise the two texts differ at a position both have |
| JsonViewer.TokensBalanced | habitat/ui/src/components/JSONViewer.tsx:223-303 | whatever is folded or toggled, start and end tokens match like brackets of the right kind |
| JsonViewer.StartsAreVisible | habitat/ui/src/components/JSONViewer.tsx:223-303 | for every fold set the start tokens are, in order, the containers that lie strictly inside no folded one |
| JsonViewer.OutlineIsCollected | habitat/ui/src/components/JSONViewer.tsx:312-341 | those containers are the collected paths, in order |
| JsonViewer.UnfoldedStarts | habitat/ui/src/components/JSONViewer.tsx:312-341 | with nothing folded the start paths are exactly the collected ones, in order |
| JsonViewer.CollapseAll | habitat/ui/src/components/JSONViewer.tsx:32-44 | folding all collected paths leaves the root's three tokens |
| FoldPaths.PathsDistinct | habitat/ui/src/components/JSONViewer.tsx:312-341 | with distinct keys free of `.` and `[` no two containers share a path |
| FoldPaths.PathsDistinctForKeys | habitat/ui/src/components/JSONViewer.tsx:312-341 | for each set of keys: in all documents with these keys no two containers share a path if and only if no text reads in two ways that part at two of the keys |
| FoldPaths.PathsDistinctExactly | habitat/ui/src/components/JSONViewer.tsx:312-341 | for one key beside keys free of `.` and `[` this means that it does not read as a path from its first separator on |
| FoldPaths.TwoKeysMeet | habitat/ui/src/components/JSONViewer.tsx:334-340 | two keys that are harmless alone give a document with one path twice |
| FoldPaths.TwinsCollide | habitat/ui/src/components/JSONViewer.tsx:334-340 | two readings of one text give a document in which two containers share a path |
| FoldPaths.DottedKeysCollide | habitat/ui/src/components/JSONViewer.tsx:334-340 | the smallest case, a dotted key |
| Highlight.SplitBySearch | habitat/ui/src/components/Highlight.tsx:13-41 | it ends; the parts spell the text; with length-preserving lowering the marked parts are the leftmost non-overlapping matches, and every match begins inside one |
| Highlight.LeftmostIsUnique | habitat/ui/src/components/Highlight.tsx:25-34 | these conditions determine the marks |
| Highlight.MarksAreMost | habitat/ui/src/components/Highlight.tsx:25-34 | no choice of non-overlapping matches has more of them |
| Highlight.NoMatchUnmarked | habitat/ui/src/components/Highlight.tsx:26-38 | with lengths kept, no match begins in an unmarked part |
| Highlight.UnmarkedIsClear | habitat/ui/src/components/Highlight.tsx:26-38 | in any list of parts no mark reaches into an unmarked part |
| Highlight.SplitKeepsText | habitat/ui/src/components/Highlight.tsx:18-40 | the parts spell the text, whatever lowering does to lengths |
| Highlight.MarksFitExactly | habitat/ui/src/components/Highlight.tsx:18-34 | for every search the marked parts are occurrences of it in lower case, if and only if no character of the text grows when lowered and the lowered text does not contain what some other character grows to |
| Highlight.DottedIMisleads | habitat/ui/src/components/Highlight.tsx:18-34 | the search U+0130 in an i with a combining dot marks the i alone |

## Left out

- Store procedures are atomic steps. `absurd.set_task_checkpoint_state` reads the run's state without locking its row (sql/absurd.sql:1419-1427), so under read committed another attempt could commit between its read and its write; that interleaving is not modelled.
- Store.EndedRunCallsChangeNothing: the store also accepts checkpoint writes for sleeping, pending and completed runs (sql/absurd.sql:1433-1439); that no such write happens is part of the protocol invariant, not of the procedure.
- Timed-out event waits: they leave no checkpoint, so a later replay may branch differently; event waits have no timeout in the model.
- Parallel steps inside one handler, and handlers that swallow the suspend signal: they have no single history. Handlers that catch an ordinary error of a step, a sleep or a wait and go on: an error always leads to the end of the session.
- Parting.FollowsIffTolerant: step and event names are free of `#` and not blank. Among other names memory and store may part at an action that fails either way, and nobody sees it; `RoundTrip.TolerantIsPlain` has no such restriction. A second round trip is assumed to change nothing more, and recorded times to survive; results and event payloads are what is stored.
- Durable.OneGrowingHistory: `AwaitTaskResult` inside a task is a step whose value is the snapshot; its polling is modelled on its own in `Polling.dfy`.
- TaskContext.Context.Step: the outcome of the step function is an argument, and the store does not change between the calls of one method; interleavings with other writers are the subject of `Replay.dfy`.
- TaskContext.Context.SleepUntil: a stored wake time that is not a time or a text is an error; times are numbers and their text form is not modelled.
- TaskContext.Context.PersistCheckpoint: values that cannot be encoded at all are not modelled; the call then fails before the store is asked.
- Which runs a claim picks, priorities and batch order: a claim may take any available run. `RunWorker.dfy` assumes that a claim returns at most the number of tasks asked for (sql/absurd.sql:932-994).
- The retry strategy and the cancellation policy that decide what a failure leads to: an arbitrary outcome in `Store.dfy`.
- Other tasks, and tasks spawned by a retry: one task is modelled; its event wake-up concerns only its newest run, because all earlier ones have failed.
- ExecuteTask.Worker.ExecuteTask: the handler's own writes are an arbitrary new store state; logging and the text of failure reports are not modelled.
- RunWorker.EachTaskOnce: that every executing task ends is not claimed, because a handler may run for ever.
- Watchdog.GuardSound: for fewer than 2^64 schedule and stop calls, after which the epoch counter would wrap; for the fatal callback the two leases need `Watchdog.FatalDelayExact`.
- Durations.DurationSeconds: computed exactly; the rounding of Go's floating-point seconds is not modelled.
- Polling.LeaseNeverLapses: one time line for worker and database; clock drift between them is not modelled. Rounds that end with a rejected heartbeat are excluded, because the claim is already lost then.
- Paging.PageOfEverything: run ids are distinct numbers in their order as text; the column filters are applied before the model starts, and a request whose context was cancelled gets an error instead of a page.
- TaskRuns.FetchRunsForTask: the database does not change between the pages.
- NamesCache.ReturnedIsRecent: a query sees the database at one instant; the limit on recent runs and the merge over queues are not modelled.
- JsonViewer.ShownIsCopied: for values that JSON.parse can produce; undefined, functions, big integers and toJSON methods do not occur, and characters are Unicode scalar values, so lone surrogates do not occur.
- Highlight.MarksFitExactly: lowering is character by character there; the context-dependent final sigma is not modelled. `Highlight.SplitBySearch` allows any lowering that leaves a non-empty search non-empty.
- The Java sleep and worker loop: sleep stores a flag without a time, and the loop claims without subtracting tasks in flight, so the sleep and capacity laws are not its contract. Only its checkpoint keys are modelled.
- The TypeScript and Python worker loops (sdks/typescript/src/index.ts, sdks/python/src/absurd_sdk/__init__.py) with their set of executing tasks: the worker laws are about the Go loop. Their task contexts number names, look up and store checkpoints as Go's does; `Replay.dfy` also covers their habit of reporting a failed completion. They differ on a stored wake time that is not a time: TypeScript's sleepUntil stores the proposed time again over a falsy state and otherwise ignores a state that is no text, Python takes the proposed time for such a state, and Go returns an error.
- HTTP parsing and encoding, hooks, logging, the process exit itself, rendering, spawn options, queue-name checks, jitter, migrations, partitions, cron and cleanup: input and output, or easy.
