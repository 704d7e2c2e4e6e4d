# asyncio-tasks-talk: verified model of the task handlers

The repository demonstrates, in four small web applications, how a
long-running job reports progress over a websocket. This project models
their sequential logic in Dafny:

- **sync_task**: `WSHandler` runs `long_computation` on an executor thread.
  A `'start'` message launches it only when no future exists. A `'stop'`
  message sets a shared stop flag, which the worker checks before every
  write. The done callback forgets the future and clears the flag.
- **async_task_v2**: `WSHandler` runs the coroutine `long_task` as an
  asyncio task. A `'stop'` message calls `task.cancel()`. Cancellation takes
  effect only at the `await` that follows each write. The done callback
  forgets the task.
- **async_task_v1**: the handler awaits each run of `long_task` (100
  records) before it reads the next message, so runs never overlap.
- **websocket_task**: `fetch(page)` returns six consecutive integers for
  pages below 10 and `None` from page 10 on. The handler streams pages 1, 2, …
  until `fetch` runs out or the socket closes. The index page shows page 0.

Layout, one module per file:

- `Channel` (channel.dfy): the records a writer sends, and a `Writer` whose
  ghost `sent` sequence is everything written, in order.
- `Progress` (progress.dfy): `Ramp(n, total)`, the records 1..n, and what
  counts as the output of one run (a prefix of the complete ramp).
- `Supervisor` (supervisor.dfy): the event alphabet `Start | Stop |
  Other(raw) | Done` and an abstract single-flight state machine, with
  lemmas over arbitrary event traces. Both `WSHandler` classes refine to
  it: `OnMessage(data)` ensures `Abstract() == Step(old(Abstract()),
  Decode(data))` and `Complete` ensures the same for `Done`. The done
  callbacks are called only from `Complete`, after the run's output has
  been recorded. Each handler's `Valid()` implies the single-flight
  invariant `Inv(Abstract())`, so the trace lemmas apply to the classes.
- `SyncTask`, `AsyncTaskV2`, `AsyncTaskV1`, `WebsocketTask`: one module
  per application file. Handlers are classes, and the write loops are
  methods with loop invariants.

Concurrency is turned into explicit events and oracles:

- A handler's `Complete` method is the `Done` event. It runs the emitter
  to its return and then the done callback.
- A `'stop'` that arrives during a run is a `Stop` event delivered before
  `Complete`.
- An oracle parameter says where the emitter noticed the stop. In
  sync_task it is `firstSeen`, the first iteration at which `is_set()`
  reads true. In async_task_v2 it is `cancelAt`, the number of writes
  before `CancelledError` is raised. In websocket_task it is
  `closedAtPage`, the first page for which `ws.closed` reads true.
- The oracle is constrained only by the state at the end of the run. If the
  flag is unset, or no cancellation was requested, it was never observed.

Behaviour of the code worth noting:

- sync_task reuses one `threading.Event` for every run and clears it in the
  done callback. No fresh signal is allocated per run.
- async_task_v2 checks for cancellation at the suspension after each write,
  not before it. A task cancelled before its first step writes nothing.
- `long_computation` returns nothing. Only the v2 task has an outcome
  (`Completed` or `Cancelled`).

## Model

| member | source | states |
|---|---|---|
| `Channel.Writer.constructor` | async_task_v2/app.py:14 | a new writer has sent nothing |
| `Channel.Writer.Write` | async_task_v2/app.py:32 | a write appends exactly one record; nothing already sent is lost or reordered |
| `Progress.Ramp` | async_task_v2/app.py:30-32 | the first n records of a run have length n, and record i is (progress, i+1, total) |
| `Progress.RampPrefix` | sync_task/app.py:37-40 | a run cut off after k writes is a prefix of any longer run with the same total |
| `Progress.RunPrefixIsRamp` | sync_task/app.py:37-40 | an output is a prefix of the complete run iff it is at most `total` long and equals the ramp of its own length: no value repeated or skipped, `total` in every record |
| `Progress.FlattenSnoc` | sync_task/app.py:23-25 | finishing a run appends its output after everything earlier runs wrote, never rewriting it |
| `Progress.RepeatAdd` | async_task_v1/app.py:17-23 | m complete runs followed by n complete runs are m + n complete runs |
| `Progress.RepeatBlock` | async_task_v1/app.py:17-23 | in n back-to-back copies of a run, copy k occupies positions k·len .. (k+1)·len, whole and unmixed |
| `Supervisor.Decode` | sync_task/app.py:21-26 | text 'start' is exactly the Start event, 'stop' exactly Stop, anything else is Other; a message is never Done |
| `Supervisor.DecodeText` | async_task_v2/app.py:21-25 | decoding loses nothing: the message text is recoverable from the event |
| `Supervisor.TextDecode` | async_task_v2/app.py:21-25 | an inbound event round-trips through its text iff it is canonical (an Other never carries 'start' or 'stop') |
| `Supervisor.Step` | sync_task/app.py:19-32 | one event keeps the single-flight invariant; a Start on an idle handler launches one run and is the only way to become busy; a Stop on a running handler raises the cancellation request and is the only way to raise it; a Done on a running handler makes it idle with one more run finished and the request cleared, and is the only way to become idle |
| `Supervisor.InitialInv` | sync_task/app.py:14-17 | a freshly opened connection satisfies the single-flight invariant |
| `Supervisor.RunKeepsInv` | sync_task/app.py:21-32 | under every event sequence, at most one launched run is unfinished, and a stop request only stands against a run in flight |
| `Supervisor.RunSnoc` | async_task_v2/app.py:19-26 | a trace followed by one event is the trace's state stepped by that event |
| `Supervisor.RunPair` | async_task_v2/app.py:19-26 | two events in a row step the state twice, in order |
| `Supervisor.DuplicateStart` | sync_task/app.py:21-25 | a start while a run is in flight changes nothing; two starts in a row launch exactly what one does |
| `Supervisor.IgnoredMessages` | sync_task/app.py:26-27 | a stop with no run in flight, and any unrecognised text, leave the state unchanged |
| `Supervisor.NoStartNoLaunch` | async_task_v2/app.py:21-26 | a trace without a start launches nothing and cannot make an idle handler busy |
| `Supervisor.OthersChangeNothing` | async_task_v2/app.py:19-26 | any sequence of unrecognised messages leaves the state exactly as it was |
| `Supervisor.RestartAfterDone` | async_task_v2/app.py:16-24 | after a run ends, completed or cancelled, a later start is accepted and launches one new run with no cancellation pending |
| `SyncTask.WrittenBeforeStop` | sync_task/app.py:37-40 | at most 150 records, and iteration i in 1..150 writes exactly when the flag does not yet read set at its check |
| `SyncTask.LongComputation` | sync_task/app.py:35-42 | if the flag is first seen set at iteration k, exactly the records 1..k-1 are written, and all 150 if it is never seen |
| `SyncTask.UnstoppedRunIsComplete` | sync_task/app.py:36-40 | a computation that never sees the flag writes values 1..150 with total 150 |
| `SyncTask.StoppedRunIsPrefix` | sync_task/app.py:37-40 | every run's output is a prefix of 1..150; a flag first seen at iteration k leaves exactly the records 1..k-1 and nothing after |
| `SyncTask.StopEvent.constructor` | sync_task/app.py:17 | the flag starts unset |
| `SyncTask.StopEvent.Set` | sync_task/app.py:27 | after `set()` the flag reads set |
| `SyncTask.StopEvent.Clear` | sync_task/app.py:32 | after `clear()` the flag reads unset |
| `SyncTask.Future.constructor` | sync_task/app.py:23-24 | a launched future carries the number of its launch |
| `SyncTask.WSHandler.Valid` | sync_task/app.py:21-32 | the handler invariant implies the single-flight invariant of its abstract state: the flag is set only while a future exists, and at most one launch is unfinished |
| `SyncTask.WSHandler.OnOpen` | sync_task/app.py:14-17 | a new connection has no future, an unset flag, a fresh writer, and is in the initial supervisor state |
| `SyncTask.WSHandler.OnMessage` | sync_task/app.py:19-27 | takes exactly the supervisor step of the decoded message; a start with no future creates one fresh future, and otherwise the future is unchanged; nothing is written |
| `SyncTask.WSHandler.FutureDoneCallback` | sync_task/app.py:29-32 | the future is forgotten and the flag cleared, so the next run starts with it unset |
| `SyncTask.WSHandler.Complete` | sync_task/app.py:23-32 | the Done step: the connection receives exactly the run's truncated ramp, the handler returns to idle with the flag unset, and the invariant (runs back to back, each a prefix of 1..150) is kept |
| `AsyncTaskV2.WrittenBeforeCancel` | async_task_v2/app.py:31-34 | at most 150 records, and write i in 1..150 happens exactly when the CancelledError has not been raised before it |
| `AsyncTaskV2.LongTask` | async_task_v2/app.py:29-34 | with cancellation delivered after k writes, exactly records 1..min(k,150) are written; the outcome is Cancelled iff a cancellation is delivered |
| `AsyncTaskV2.CancelledRunIsPrefix` | async_task_v2/app.py:31-34 | every task's output is a prefix of 1..150; a cancellation delivered after k writes leaves exactly the records 1..k, none repeated or skipped |
| `AsyncTaskV2.Task.constructor` | async_task_v2/app.py:23 | a new task has no cancellation requested |
| `AsyncTaskV2.Task.Cancel` | async_task_v2/app.py:26 | after `cancel()` a cancellation is requested |
| `AsyncTaskV2.WSHandler.Valid` | async_task_v2/app.py:21-26 | the handler invariant implies the single-flight invariant of its abstract state: a cancellation request stands only against an existing task, and at most one launch is unfinished |
| `AsyncTaskV2.WSHandler.OnOpen` | async_task_v2/app.py:12-14 | a new connection has no task, a fresh writer, and is in the initial supervisor state |
| `AsyncTaskV2.WSHandler.OnMessage` | async_task_v2/app.py:19-26 | takes exactly the supervisor step of the decoded message; a start with no task creates one fresh task, and otherwise the task is unchanged; nothing is written |
| `AsyncTaskV2.WSHandler.TaskDoneCallback` | async_task_v2/app.py:16-17 | the task is forgotten whatever its outcome |
| `AsyncTaskV2.WSHandler.Complete` | async_task_v2/app.py:22-24 | the Done step, for completed and cancelled tasks alike: the connection receives the task's ramp prefix, the handler returns to idle, and the invariant is kept |
| `AsyncTaskV1.LongTask` | async_task_v1/app.py:28-33 | a run writes values 1..100 in order with total 100 |
| `AsyncTaskV1.Websocket` | async_task_v1/app.py:11-25 | after a message sequence with n 'start's, the connection has received exactly n complete runs back to back; other messages write nothing |
| `AsyncTaskV1.StartCountAppend` | async_task_v1/app.py:17-19 | the number of 'start' messages in two streams read one after the other is the sum of the two counts |
| `AsyncTaskV1.SessionsCompose` | async_task_v1/app.py:17-23 | serving messages a then b writes what serving a writes followed by what serving b writes |
| `AsyncTaskV1.RunsAreWhole` | async_task_v1/app.py:17-23 | runs never interleave: each 100-record block of the output is one complete run |
| `AsyncTaskV1.NoStartNoOutput` | async_task_v1/app.py:19 | messages other than 'start' produce no writes |
| `WebsocketTask.Range` | websocket_task/app.py:48 | `range(start, end)` lists start, start+1, …, end-1, and is empty when end ≤ start |
| `WebsocketTask.RangeSplit` | websocket_task/app.py:45-48 | adjacent ranges concatenate into one range |
| `WebsocketTask.PageValues` | websocket_task/app.py:45-48 | a page has 6 integers, the i-th being page·6+1+i |
| `WebsocketTask.Fetch` | websocket_task/app.py:42-48 | `None` exactly when page ≥ 10; otherwise the 6 integers page·6+1 … page·6+6 in increasing order |
| `WebsocketTask.PagesContiguous` | websocket_task/app.py:45-46 | page p ends one below where page p+1 starts, and the two together form one range |
| `WebsocketTask.Index` | websocket_task/app.py:11-14 | the index page is given page 0, the integers 1..6 |
| `WebsocketTask.PageStream` | websocket_task/app.py:25-31 | the j-th page written is page j+1 carrying `fetch(j+1)` |
| `WebsocketTask.PagesStreamed` | websocket_task/app.py:26-29 | fewer than 10 pages, and page p in 1..9 is written exactly when the socket does not yet read closed at its check |
| `WebsocketTask.Websocket` | websocket_task/app.py:17-36 | the handler writes pages 1, 2, … in order until `fetch` returns `None` or the socket is seen closed, and never more than 9 records |
| `WebsocketTask.StreamedValues` | websocket_task/app.py:25-31 | the first n streamed pages carry exactly 7 … 6n+6, in order |
| `WebsocketTask.FullCoverage` | websocket_task/app.py:13-31 | with the socket open throughout, page 0 and the streamed pages cover 1..60 exactly once and in order |

## Left out

- Timing (`time.sleep`, `asyncio.sleep`) is left out. JSON encoding, `print`, template rendering (`app.render`) and static routes are left out too.
- The unseen `muffin` and `muffin_playground` classes are not modelled. A writer is an append to its ghost `sent` sequence. The thread-safe handoff of `ThreadSafeWebSocketWriter` is taken to preserve write order.
- Real concurrency is not modelled: the executor thread, `ensure_future` scheduling and cancellation delivery. They become the `Complete` event and its oracle parameter.
- The window between the emitter's return and the done callback is not represented, because `Complete` is atomic. In that window a 'start' is ignored because the future or task is still set. A 'stop' then has no effect on output.
- An exception raised by a write or inside the emitter is not modelled. Neither is `on_close` or the handler's own lifetime.
- websocket_task: `ws.prepare` and the final `await ws.close()` (line 33) are not modelled. The socket's closed state is the `closedAtPage` oracle.
- websocket_task: `fetch` puts no lower bound on `page`. The model keeps that: `Fetch` of a negative page returns six integers too.
- async_task_v1: line 15 creates a writer that is never used. Each run writes through its own `WebSocketWriter(ws)` over the same socket. Both are modelled as one output stream.
- process_task/websocketsync.py, process_task/app.py and process_task/long_task.py are not part of this model. They are a thread-and-event-loop bridge and a network client, with no sequential logic beyond a 1..15 write loop like the ones above.
- task_function.py and coroutine_return_value.py are not part of this model. They are standalone asyncio demonstrations.
- No broadcast registry of listener connections appears in these files, so none is modelled.
