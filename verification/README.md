# Coroutine runtime, its services and its game: a verified model

The repository holds a small coroutine library (`async_lib`), two executors for it (a queue that a game
drains once a frame, and a gRPC completion queue that runs what it is given at once), and programs on top:
an echo server, a client with retries, a variable store, and a game whose character lives on that store.
This project models them and proves what no single function of theirs states.

## The runtime

A task body is data: a finite decision tree of the library's operations (create a task, `co_await` it, start
it as a subroutine, await a completion-queue operation, cross-await a task on another executor, spawn one
detached), with arbitrary functions for its tests and its result (`Programs`). `Machine` is the runtime as a
transition system: the heap of coroutine frames, the game executors' queues with the batch in hand, the
outstanding tags, and the native call stack of the segment that runs. Its events are the steps of that
segment and whatever the outside may do between two segments: spawn a root, deliver a completion with
either flag, or drive an `Update`. A step that would use a destroyed frame, use an empty `Task`, resume
a finished or running frame, or fail one of the library's assertions, answers `Fault`.

`Invariants` says what every reachable state satisfies; `HeapLemmas`, `CallLemmas`, `StackLemmas`, `Steps`,
`CallSteps`, `FirstSegments` and `Events` prove that every event keeps it, for an unbounded heap and all programs.
`Theorems`, `Segments`, `Weights`, `Meaning`, `Trips` and `Crossing` hold the results:

- exactly one wake source for every frame alive between two segments, and none for any other;
- exactly one owner for every promise, destruction only of finished frames and only once, and an empty heap
  exactly when no completion and no queue entry is outstanding;
- greedy `Resume` terminates and leaves nothing waiting for anything but a completion or a queue entry; all
  work of any run is bounded by the programs it was given;
- every task's result is what plain recursive evaluation of its body gives, however it was awaited and in
  whatever order completions arrived, and a subroutine runs when it is started, not when it is joined;
- parent links form a forest within one executor, and the batch-swapping `Update` is a first-in first-out queue;
- native calls change executor only by a `Resume` for a completion queue, so a game-bound body runs only in a
  segment that the `Update` of its own executor began;
- over every run each cross-await is followed by exactly one hand-over and exactly one resumption, with the
  child's value and on the parent's executor;
- a root's cross-await is safe, for any child and any rest of the root, if and only if the two executors differ
  and, if both run what they are given at once, the child parks before it finishes or the root parks after it.
  Which it is can be read off the bodies (`Programs.First`), because no operation has answered in a first segment.

`Scheduler.Runtime` is the library in its own form: recursive `Resume`, the awaitables and the executors as
methods that update the frames in place. Each method is proved to leave exactly the state that the transition
system reaches, so everything above holds of it; the entry points name the events they are made of, and no others.

The model rests on these assumptions:

- A segment (from a resumption to the next return of the outermost `Resume`) is atomic, and a completion is not
  delivered while the segment that asked for it still runs. `Resume` reads `done()` after `resume()` and
  `await_suspend` sets `parent` after `await_ready`, so several threads on one queue would break it.
- `Resume` has its own copy of the job it is given; in the source the reference may point into an awaitable
  that the resumption destroys.
- Bodies do not throw, are finite, and keep their tasks in local variables: a `Task` does not travel
  to another frame.
- Programs keep the library's demands on their callers (`Programs.WellFormed`): a `Task` variable is assigned only
  while empty, used only while full and on the executor it is typed for, and empty when its body returns, and a
  cross-await joins two executors that differ, of which one is a game's or the child parks (`CanCross`).
  `Crossing` says exactly what happens elsewhere in a first segment.
- In `Frame`, `role`, `home`, `owner` and `types` are bookkeeping; no step decides on them. The `launcher` and
  `body` of `AtCross` are too, and so is `young` in `State`: the frames entered for the first time in the running
  segment, with what `First` says of them.
- The source compares a pointer with a reference in the assertion at `async_lib/async_lib.hpp:230`. The model
  takes it to mean that the two executors differ.

## The programs on top

- `Echo`: the bidirectional echo handler, its reader and its writer, as a state machine over completions, and as
  the class `Handler` whose methods are the segments of the two coroutines. The service is compared with a plain
  fold over the commands that arrive, and where its coroutines stand with what the events brought. Every request
  carries a command; the source asserts that.
- `RoundRobin`: the executor and channel selectors over a counter of 64 bits that wraps, and exactly when they
  are even.
- `Listen`: all listen loops of a server together, drawing executors from one selector.
- `Retry`: `AutoRetryUnary` with the default policy, for all sequences of replies and alarms.
- `Services`: the character service in memory and on the variable store, under every combination of failing
  remote operations, and any two calls under any interleaving of their operations on the store.
- `Game`: the frame loop and its character with the memory service, compared with what its log says, and with what
  its frames alone say.

Where the code and its documentation disagree the model follows the code: the store's `GiveXp` and `LevelUp`
answer with the old value although `game/character_service.hpp:31-36` promises the new one
(`Services.CallAgreesIff`), and the echo handler's status never reaches its client, since `Finish` is called
without it (`async_grpc/server/echo_service_impl.cpp:118-119`).

## Model

| member | source | states |
|---|---|---|
| Theorems.NothingFaults | async_lib/async_lib.hpp:41-53 | in every reachable state every enabled event goes through: no destroyed frame is used, no empty task, no assertion of the library fails |
| Theorems.ExactlyOneWakeSource | async_lib/async_lib.hpp:42-53 | between segments a frame that is started and not done has exactly one queue entry, tag, live child or LaunchChild to wake it; any other frame has none |
| Theorems.AtMostOneWakeSource | async_lib/async_lib.hpp:151-166 | no double wakeup, also in the middle of a segment: two wake sources of a frame are the same one, and the frame is alive and not running |
| Theorems.WakeSourceExists | async_lib/async_lib.hpp:201-207 | no lost wakeup, also in the middle of a segment: a live frame outside it has a wake source |
| Theorems.TagsAreOperations | async_grpc/async_grpc/async_grpc.hpp:101-129 | outstanding tags and suspended completion-queue awaitables are in bijection in every run |
| Theorems.TickDelivers | async_grpc/async_grpc/async_grpc.cpp:22-34 | the flag that await_resume reads is the one delivered for that operation; no other frame or tag changes |
| Theorems.ExactlyOneOwner | async_lib/async_lib.hpp:105-131 | each promise is held by exactly one variable or awaitable, or is detached and then has neither holder nor parent; nothing holds a destroyed one |
| Theorems.DestroyedOnce | async_lib/async_lib.hpp:147-149 | no event destroys a frame that is not finished or brings a destroyed one back |
| Theorems.DestroyedForGood | async_lib/async_lib.hpp:44-48 | over any run a destroyed frame stays destroyed |
| Theorems.RestIsEmpty | async_lib/async_lib.hpp:65-71 | between segments the heap is empty if and only if no tag and no queue entry is outstanding |
| Theorems.WaitsForSomethingReal | async_lib/async_lib.hpp:41-53 | when the outermost Resume has returned, every live frame waits, through a finite chain of tasks, for one parked on a completion or in a ready queue |
| Theorems.FrameLeftMeansWorkLeft | async_lib/async_lib.hpp:151-166 | as long as any frame is left, a completion or a queue entry is outstanding |
| Theorems.ParentsFormForest | async_lib/async_lib.hpp:153-166 | no frame is its own ancestor, and all links join frames bound to the same executor |
| Theorems.ExecutorChangesBySpawn | async_lib/async_lib.hpp:204-207 | in every reachable state two neighbouring native calls belong to the same executor, unless the upper one is a Resume, and then it is for a completion queue |
| Theorems.GameCallsRunInsideUpdate | game/async_game.cpp:13-27 | a native call about a frame of game executor n occurs only in a segment that Update's loop on n began, and every call below it belongs to n |
| Theorems.GameBodiesRunInsideUpdate | game/async_game.cpp:13-27 | a game-bound body runs only in a segment begun by its own executor's Update: none runs inside a completion or an outside spawn, or inside another executor's Update |
| Segments.StepKeepsThread | async_grpc/async_grpc/async_grpc.cpp:47-49 | a step adds no Resume for a game executor above the bottom of the stack |
| Segments.StepKeepsBottom | async_lib/async_lib.hpp:42-53 | as long as a segment runs, the call at its bottom keeps its executor |
| Segments.GameCallsReachBottom | game/async_game.cpp:24 | from a call about a game executor's frame down to the bottom Resume all calls are that executor's |
| Segments.NeighboursShareExecutor | async_lib/async_lib.hpp:153-166 | an awaited or started child runs on its parent's executor |
| Segments.StepKeepsKind | async_lib/async_lib.hpp:105-131 | a step changes no frame's task or executor, does not take a detached frame back, and moves a frame on in its cross-await only by SpawnCrossTask or by LaunchChild's hand-over |
| Theorems.HandOverIsExact | async_lib/async_lib.hpp:227-257 | a cross-awaiting frame stays alive on its own executor; before the result is stored one LaunchChild has it and no queue; after, its value is the child's and its own executor has it queued once |
| Trips.EveryCrossComesBackOnce | async_lib/async_lib.hpp:217-257 | over every run a frame's cross-awaits follow one another, and each is followed by exactly one hand-over, on the other executor, of the value that evaluation of its task gives, and then by exactly one resumption, with that value and on the frame's own executor; only the latest may be under way |
| Trips.EventTravels | async_lib/async_lib.hpp:227-257 | one event moves a frame through its cross-await just as far as what it is seen to do says |
| Theorems.FinishedTaskHasItsValue | async_lib/async_lib.hpp:168-173 | in every run a finished task holds what recursive evaluation of its body gives, for all programs, answers and orders of delivery |
| Theorems.StartEnters | async_lib/async_lib.hpp:203-207 | StartSubroutine runs the task at once, on its parent's executor and on top of it |
| Theorems.StartedIsEntered | async_lib/async_lib.hpp:203-211 | over every run, a task whose Start is done is never met unentered again, whether or not anybody awaits it |
| Meaning.RunMeans | async_lib/async_lib.hpp:133-177 | at every moment of every run, what a frame has collected and has still to do evaluates to the value of its whole body |
| Meaning.EventMeans | async_lib/async_lib.hpp:201-211 | one event keeps that, whether the child finished inline, later, before its join or on another executor |
| Theorems.RunIsFifo | game/async_game.cpp:8-27 | over any run, jobs queued plus jobs marked ready are jobs resumed followed by jobs still queued, in order |
| Theorems.QueueIsFifo | game/async_game.cpp:13-27 | one event of the batch loop removes the oldest entry or appends the job MarkReady got; the swap disturbs nothing |
| Weights.StepIsLighter | async_lib/async_lib.hpp:42-53 | every step of a segment strictly reduces the work left in live frames |
| Weights.SegmentEnds | async_lib/async_lib.hpp:154-166 | greedy Resume terminates after at most that many steps |
| Weights.WorkIsBounded | game/async_game.cpp:13-27 | over any run the steps, completions and resumptions are bounded by the programs it began with and those spawned from outside, however many batches there are |
| Crossing.CrossIsSafeIff | async_lib/async_lib.hpp:227-233 | for every child and every rest of the parent, a cross-await faults in nothing that may follow if and only if the executors differ and, if both are immediate, the child parks before it finishes or the parent parks after it |
| Crossing.BothImmediateSafeIff | async_grpc/async_grpc/async_grpc.cpp:47-49 | between two immediate executors it is safe if and only if the parent does not finish in its first segment; otherwise the parent is destroyed inside its own await_suspend |
| Crossing.SameExecutorFaults | async_lib/async_lib.hpp:229-231 | with the same executor on both sides the library's assertion fails |
| Crossing.ChildFinishesFaults | async_grpc/async_grpc/async_grpc.cpp:47-49 | a child and a parent that both finish at once fault between two completion queues |
| Crossing.ParentParksIsSafe | async_grpc/async_grpc/async_grpc.cpp:47-49 | the same child is safe there if the parent then parks |
| Crossing.StepShadow | async_lib/async_lib.hpp:42-53 | a call at the bottom of the stack does not matter to what runs above it |
| Crossing.YoungHasParked | async_lib/async_lib.hpp:153-166 | a body that is still there when its first segment is over is one of which `First` says that it parks |
| FirstSegments.StepKeepsInv | async_lib/async_lib.hpp:42-53 | every step of a segment goes through and keeps the invariant |
| CallSteps.StepKeepsCore | async_lib/async_lib.hpp:42-53 | so does all of it but the part on first segments, if no hand-over finds its waiter still on the stack |
| Events.ApplyKeepsInv | async_grpc/async_grpc/async_grpc.cpp:22-34 | every event, from inside or outside, goes through and keeps the invariant |
| Scheduler.Runtime.AwaitResume | async_lib/async_lib.hpp:168-173 | the pending await_resume hands over the value, task or flag and its awaitable goes away, with the task it owns |
| Scheduler.Runtime.Resume | async_lib/async_lib.hpp:42-53 | recursive Resume leaves the state that the transition system reaches when its call is back |
| Scheduler.Runtime.WhenResumed | async_lib/async_lib.hpp:44-52 | done(), destroy and the parent's Resume, likewise |
| Scheduler.Runtime.RunBody | async_lib/async_lib.hpp:74-77 | a body runs, operation by operation, to its suspension or its end, likewise |
| Scheduler.Runtime.Execute | async_lib/async_lib.hpp:179-182 | one operation of a body leads where the transition system leads, with less work left |
| Scheduler.Runtime.ExecutePlain | async_lib/async_lib.hpp:79-82 | the operations that call nothing else |
| Scheduler.Runtime.ExecuteCall | async_lib/async_lib.hpp:179-182 | the operations that enter other bodies |
| Scheduler.Runtime.ReturnValue | async_lib/async_lib.hpp:77-82 | co_return stores the result in the promise and suspends for the last time |
| Scheduler.Runtime.CreateTask | async_lib/async_lib.hpp:75-76 | a call of a coroutine makes a suspended frame owned by the variable |
| Scheduler.Runtime.CoAwait | async_lib/async_lib.hpp:151-173 | await_ready, await_suspend and await_resume of a task: taken at once, run inline, or joined |
| Scheduler.Runtime.AwaitSuspend | async_lib/async_lib.hpp:153-166 | the parent link is set; a fresh child is started on the parent's executor, a started one only joined |
| Scheduler.Runtime.RunChild | async_lib/async_lib.hpp:159-161 | the child runs inline; the parent goes on at once if and only if it finished |
| Scheduler.Runtime.AwaitVariable | async_lib/async_lib.hpp:179-182 | the task leaves its variable when it is awaited |
| Scheduler.Runtime.StartSubroutine | async_lib/async_lib.hpp:201-211 | the child runs on the parent's executor, without a parent link, until it parks; then the parent goes on with the task in its variable |
| Scheduler.Runtime.RunStarted | async_lib/async_lib.hpp:204-207 | the rest of that: always back to the parent |
| Scheduler.Runtime.SpawnOn | async_grpc/async_grpc/async_grpc.cpp:47-49 | a game executor queues the job, a completion-queue executor resumes it |
| Scheduler.Runtime.SpawnCrossTask | async_lib/async_lib.hpp:227-233 | the parent parks with the task in its awaitable and a LaunchChild is spawned on the other executor |
| Scheduler.Runtime.MakeLauncher | async_lib/async_lib.hpp:249-257 | that LaunchChild's frame: detached, destroyed when done, holding the parent |
| Scheduler.Runtime.LaunchChild | async_lib/async_lib.hpp:250-255 | it awaits the task held by the awaitable |
| Scheduler.Runtime.HandOverResult | async_lib/async_lib.hpp:254-256 | it stores the result in the awaitable, then re-spawns the parent on the parent's executor |
| Scheduler.Runtime.SpawnTask | async_lib/async_lib.hpp:63-71 | Spawn from a body detaches the task, binds it and gives it to the executor |
| Scheduler.Runtime.Spawn | async_lib/async_lib.hpp:63-71 | Spawn from outside is a run that begins with a new root and ends idle |
| Scheduler.Runtime.PostOperation | async_grpc/async_grpc/async_grpc.hpp:103-113 | the frame parks on one new tag of its own |
| Scheduler.Runtime.Tick | async_grpc/async_grpc/async_grpc.cpp:22-34 | a delivered completion is a run that begins with it and ends idle |
| Scheduler.Runtime.Update | game/async_game.cpp:13-27 | Update terminates and returns only with its queue empty; between its beginning and its end there are only swaps and jobs of its own executor and the segments these begin: no completion is delivered, no root spawned, no other executor driven |
| Scheduler.UpdateIsDetermined | game/async_game.cpp:13-27 | from a given state there is one run of that kind: two Updates do the same and end the same |
| Scheduler.Runtime.ResumeBatch | game/async_game.cpp:23-25 | the inner loop resumes the whole batch, uses up work, and lets nothing else happen |
| Scheduler.Runtime.ResumeNext | game/async_game.cpp:24 | one turn of it removes the batch's first job and runs it to the end of its segment, with nothing else in between |
| Scheduler.KeysKept | game/async_game.cpp:13-27 | no segment touches the batches of the updates in progress |
| Scheduler.RunToTwice | async_lib/async_lib.hpp:42-53 | running a segment down to an outer call passes through the inner calls' returns |
| Echo.StreamDiscipline | async_grpc/server/echo_service_impl.cpp:45-121 | in every run at most one Read, Write and alarm are outstanding; Finish only when nothing else is and no writer lives; an ended handler leaves nothing behind |
| Echo.EventKeepsDiscipline | async_grpc/server/echo_service_impl.cpp:53-68 | each coroutine has outstanding exactly what it is parked on, and the handler outlives its writer |
| Echo.AgreesWithCommands | async_grpc/server/echo_service_impl.cpp:71-111 | the commands taken up are exactly those that the Reads delivered, in order; status, message and delay are their fold; every alarm and Write uses the latest accepted message, non-empty and with a delay; no Read follows a rejection |
| Echo.HandlerFollowsEvents | async_grpc/server/echo_service_impl.cpp:53-120 | from the events of a run alone: the handler leaves its loop if and only if a Read failed or a command was rejected, else it reads again after each command or joins after a Stop; once out of the loop and with no writer left it has called Finish, exactly once; alarms set are accepted Starts plus Writes that went through, Writes are alarms that expired |
| Echo.WriterLives | async_grpc/server/echo_service_impl.cpp:53-68 | the writer begins exactly with an accepted Start and ends exactly with an alarm or a Write that reports false; the handler ends exactly with the answer to Finish |
| Echo.RunTakesUp | async_grpc/server/echo_service_impl.cpp:71-73 | over any stretch of a run every delivered command is taken up once |
| Echo.EventKeepsInv | async_grpc/server/echo_service_impl.cpp:71-119 | one event keeps that agreement |
| Echo.FrozenWhileRunning | async_grpc/server/echo_service_impl.cpp:74-83 | from an accepted Start to the end of its join message and delay do not change |
| Echo.JoinsIff | async_grpc/server/echo_service_impl.cpp:97-117 | a Read's completion makes the handler cancel and join if and only if its writer is alive |
| Echo.CancelInTime | async_grpc/server/echo_service_impl.cpp:97-107 | a cancel that finds the alarm armed leaves one possible event, which ends the writer without a Write and resumes the handler once |
| Echo.CancelTooLate | async_grpc/server/echo_service_impl.cpp:112-117 | a cancel after the alarm fired, or during a Write, changes neither alarm nor writer |
| Echo.JoinEndsIff | async_grpc/server/echo_service_impl.cpp:57-65 | a joining handler goes on if and only if a cancelled alarm or a failed Write reports false |
| Echo.StaysParked | async_grpc/server/echo_service_impl.cpp:53-68 | until then it issues no Read and no Finish, and the log grows only by the writer's alarms and Writes |
| Echo.StopCanBeDelayed | async_grpc/server/echo_service_impl.cpp:54-66 | and that may take any number of rounds |
| Echo.Handler.OnRead | async_grpc/server/echo_service_impl.cpp:71-120 | the reader's segment after a Read is the event of the state machine |
| Echo.Handler.OnAlarm | async_grpc/server/echo_service_impl.cpp:57-62 | the writer's segment after its alarm is |
| Echo.Handler.OnWrite | async_grpc/server/echo_service_impl.cpp:54-66 | the writer's segment after its Write is |
| Echo.Handler.HandleCommand | async_grpc/server/echo_service_impl.cpp:73-110 | the three commands with their rejections |
| Echo.Handler.ReadLoop | async_grpc/server/echo_service_impl.cpp:71 | the loop's head: read again only while the status is fine |
| Echo.Handler.LeaveLoop | async_grpc/server/echo_service_impl.cpp:112-119 | the end: cancel and join a subroutine, then Finish |
| Echo.Handler.JoinWriter | async_grpc/server/echo_service_impl.cpp:104 | the join is over at once if and only if the writer has ended |
| Echo.Handler.EndWriter | async_grpc/server/echo_service_impl.cpp:67-68 | the writer's end resumes a joining handler and no other |
| RoundRobin.BalancedBeforeWrap | async_grpc/async_grpc/server.cpp:46-50 | in a window without a wrap no two targets differ in use by more than 1 |
| RoundRobin.BalancedAcrossWrap | async_grpc/async_grpc/server.cpp:46-50 | in any window up to 2^64 long they differ by at most 2 |
| RoundRobin.BalancedAlways | async_grpc/async_grpc/server.cpp:49 | by at most 1 in any window at all when the number of targets divides 2^64 |
| RoundRobin.EvenIff | async_grpc/async_grpc/client.cpp:20-22 | and that is the exact condition: every window is even if and only if the number of targets divides 2^64 |
| RoundRobin.UnevenAtWrap | async_grpc/async_grpc/client.cpp:20-22 | otherwise the window around the wrap uses one target twice and another never |
| RoundRobin.UsesStraight | async_grpc/async_grpc/server.cpp:49 | a window uses a target as often as its counter values leave that remainder |
| RoundRobin.BelowDiffers | async_grpc/async_grpc/server.cpp:49 | below any counter value all remainders are met equally often, but for the round under way |
| RoundRobin.StretchIsWindow | async_grpc/async_grpc/server.cpp:49 | any stretch of what a selector chose is such a window |
| RoundRobin.NextTarget | async_grpc/async_grpc/server.cpp:49 | neighbouring counter values choose the same target only at a wrap, or if there is just one |
| RoundRobin.SelectionsGoRound | async_grpc/async_grpc/server.cpp:49 | before the counter wraps the k-th selection is the first counter value plus k, modulo the number of targets; after 2^64 selections they begin again |
| RoundRobin.ExecutorSelector.SelectNextExecutor | async_grpc/async_grpc/server.cpp:46-50 | the post-increment selector has chosen consecutive counter values from 0: before the wrap the k-th is k modulo the number of executors |
| RoundRobin.ChannelSelector.SelectNextChannel | async_grpc/async_grpc/client.cpp:20-22 | the pre-increment selector has chosen consecutive counter values from 1: before the wrap the k-th is k + 1 modulo the number of channels |
| Listen.ListenersServe | async_grpc/async_grpc/server.hpp:291-302 | in every run each listener has at most one tag out and has spawned one handler for each true completion, in order, on the executor whose queue that Listen was given; executors are drawn round robin by all, and the one the listener is bound to just before that of its first call |
| Listen.ListenersStart | async_grpc/async_grpc/server.hpp:258-302 | from the events of a run alone: one listener for each StartListening, with a Listen out until its first false completion; one Listen for each start and each true completion, one handler for each of the latter, and no executor drawn for anything else |
| Listen.HomeStays | async_grpc/async_grpc/server.hpp:258-262 | a listener stays on the executor it is bound to, wherever its calls go |
| Listen.FirstHandlerElsewhere | async_grpc/async_grpc/server.hpp:294-301 | a listener's first handler runs on the listener's own executor if and only if there is one executor or the draw wrapped onto executor 0 in between |
| Listen.NothingAfterRefusal | async_grpc/async_grpc/server.hpp:297-299 | after its first false completion a listener gets no completion and spawns nothing |
| Listen.SpawnsAreAccepted | async_grpc/async_grpc/server.hpp:294-301 | handlers spawned equal true completions |
| Listen.EventKeepsInv | async_grpc/async_grpc/server.hpp:291-302 | each event keeps one tag a listener and calls paired with handlers |
| Listen.Server.StartListeningUnary | async_grpc/async_grpc/server.hpp:290-296 | a new listener is bound to one draw and asks with the next |
| Listen.Server.OnCompletion | async_grpc/async_grpc/server.hpp:297-300 | a true completion spawns the handler on the call's executor, then asks again; a false one ends the loop |
| Listen.Server.AskForCall | async_grpc/async_grpc/server.hpp:295-297 | one turn of the loop draws an executor and passes its queue |
| Retry.AutoRetryUnary | async_grpc/async_grpc/client.hpp:270-287 | calls, alarms and result are those of the first decisive call, with one channel drawn for each call |
| Retry.LastCall | async_grpc/async_grpc/client.hpp:271-286 | the first call that is not followed by another is at most the sixth |
| Retry.RetryBound | async_grpc/async_grpc/client.cpp:24-32 | at most 6 calls and 5 alarms of at most 19 s in all, reached exactly for five UNAVAILABLE with four good alarms between |
| Retry.ResultIff | async_grpc/async_grpc/client.hpp:273-285 | false if and only if the last call or alarm reported false; true if and only if the last status is final or the sixth UNAVAILABLE |
| Retry.RetriesMoveOn | async_grpc/async_grpc/client.hpp:259-261 | consecutive calls go out on different channels, unless there is one or the counter wraps |
| Retry.DefaultRetryPolicy.Decide | async_grpc/async_grpc/client.cpp:24-32 | the next delay of the table, or none |
| Services.CharacterServiceGrpc.GetPlayer | game/character_service_grpc.cpp:14-28 | it sees the player if and only if each read arrives or its default is right |
| Services.CharacterServiceGrpc.GiveXp | game/character_service_grpc.cpp:30-37 | its read and its write, under any failures; it answers with what it read |
| Services.CharacterServiceGrpc.LevelUp | game/character_service_grpc.cpp:39-47 | its read and its two writes, likewise |
| Services.CharacterServiceGrpc.Reset | game/character_service_grpc.cpp:49-57 | its two deletes, likewise |
| Services.StoreSimulatesMemory | game/character_service_grpc.cpp:30-57 | after any sequence of calls without failures the store, read with its defaults, is the player kept in memory |
| Services.CallAgreesIff | game/character_service_grpc.cpp:30-57 | under any failures a call has the memory's effect if and only if each operation that fails was not needed; the answer is the memory's only for an amount of 0, and a level too low |
| Services.SerialIff | game/character_service_grpc.cpp:30-57 | two calls whose operations interleave act, for every store, like one after the other if and only if no change falls between the other's read and write of the same value |
| Services.TornIsNot | game/character_service_grpc.cpp:33-34 | otherwise there is a store for which the result is that of neither order |
| Services.UntornIsSerial | game/character_service_grpc.cpp:41-43 | if none does, the result is that of the order in which the level was changed or, if only one changed it, the experience |
| Services.ToldIs | game/character_service_grpc.cpp:30-57 | at every moment of an interleaving each value is told from who has changed it, and who has read it too early |
| Game.GameConserves | game/main.cpp:47-102 | after every frame's PreUpdate experience is 100 for each EarnXp since the last Reset, xp is below 1000, time left plus a second for each EarnXp spawned is the time fought since "fight", and every job is finished once, in order |
| Game.GameFollowsFrames | game/main.cpp:47-102 | from the frames alone: the phase (uninitialised, initialising after the first frame, idle after the second, fighting from a "fight" heard in it until a "rest"); the jobs spawned (Init once, one Reincarnate for each heard, one EarnXp for each full second of a fight, at most one a frame); which of them are finished; and the experience they add up to |
| Game.FrameKeepsInv | game/main.cpp:178-201 | each part of a frame keeps that |
| Game.EarnedAddsUp | game/main.cpp:87-96 | levelling up loses no experience, because it comes in hundreds |
| Game.SpawnsKeepUp | game/main.cpp:67-74 | while no frame is longer than a second, EarnXp spawned are the whole seconds fought |
| Game.SlowFrameLags | game/main.cpp:67-74 | a frame leaves them behind if and only if two seconds or more are due in it |
| Game.Character.OnInput | game/main.cpp:47-58 | the three inputs, each only in its state |
| Game.Character.Update | game/main.cpp:60-78 | starts Init once, counts fighting time, spawns at most one EarnXp |
| Game.Character.RunJobs | game/main.cpp:81-102 | PreUpdate runs every queued job to its end |
| Game.Character.Gain | game/main.cpp:87-96 | EarnXp with the memory service |
| Game.Loop.Update | game/main.cpp:178-201 | input, PreUpdate, then Update with the time since the last frame; "quit" stops before them |

## Left out

- gRPC, protobuf, channels, alarms and clocks: the outside answers each posted tag once, with any flag, reply or status.
- Threads inside a segment, locks, and the shutdown of executors and server: a segment is atomic, a push or a swap is one step.
- Exceptions: `unhandled_exception` swallows them and leaves no result (`async_lib/async_lib.hpp:84`); bodies do not throw here.
- Endless bodies in the runtime: its programs are finite, so the listen loops and the echo handler are modelled on their own, on the runtime's terms.
- Tasks that travel between frames other than as children, and assigning to a Task variable that is still full.
- The move of `m_result` out of a completion-queue awaitable that returns a value: operations answer with their flag alone.
- Theorems.NothingFaults: leaves out programs with a cross-await between two immediate executors whose child finishes at once, also those in which the parent then parks: whether it does depends on the answers it has had by then. Crossing.CrossIsSafeIff decides it for a root's first segment, where there are none.
- Crossing.CrossIsSafeIff: the unsafe cross-await is a root's first one, on tasks that are well formed otherwise; well-formed programs with any number of them anywhere are Theorems.NothingFaults.
- The width of int64 for levels, experience and nanoseconds: overflow is undefined in the source, the model's integers do not overflow.
- Retry policies other than the default one: AutoRetryUnary takes any.
- A remote write that was applied although its client saw a failure counts as one that reached the store; repeated delivery of the same write changes nothing.
- Services.SerialIff: two calls without failures that overlap, not three or more; operations that fail are covered for calls that do not overlap.
- ServerStreamEchoImpl, UnaryEchoImpl, ClientStreamEchoImpl, the three other listen loops and the streaming calls: repeated or simpler forms of what is modelled.
- The input thread, sleeping, logging, iostream, the client demo, `utils::expected` and the concepts.
