/**
 * async_task_v2/app.py: a websocket handler that runs the coroutine
 * `long_task` as an asyncio task on the connection's own event loop and
 * stops it with `task.cancel()`.
 */
module AsyncTaskV2 {
  import opened Channel
  import opened Progress
  import opened Supervisor

  /** `total = 150` in `long_task`. */
  const Total: nat := 150

  /** How a task ended, as its done callback sees it. */
  datatype Outcome = Completed | Cancelled

  /** Whether the CancelledError has been raised before write `i` can happen. */
  ghost predicate CancelledBefore(i: nat, cancelAt: nat)
  {
    cancelAt < i
  }

  /**
   * How many records `long_task` writes when the cancellation is delivered
   * after `cancelAt` writes (`cancelAt` above `Total`: never delivered).
   */
  function WrittenBeforeCancel(cancelAt: nat): (n: nat)
    ensures n <= Total
    ensures forall i :: 1 <= i <= Total ==> (i <= n <==> !CancelledBefore(i, cancelAt))
  {
    if cancelAt <= Total then cancelAt else Total
  }

  /**
   * `long_task`: for i in 1..150, write (progress, i, 150), then suspend at
   * `await asyncio.sleep(...)`. Cancellation is cooperative: the
   * CancelledError is raised only where the coroutine suspends. The oracle
   * `cancelAt` is the number of writes made before it is raised: 0 when the
   * task is cancelled before its first step runs (asyncio then throws into
   * the coroutine before its first statement), i in 1..150 when it is raised
   * at the sleep that follows write i.
   */
  method LongTask(writer: Writer, cancelAt: nat) returns (outcome: Outcome)
    modifies writer
    ensures writer.sent == old(writer.sent) + Ramp(WrittenBeforeCancel(cancelAt), Total)
    ensures outcome == Cancelled <==> cancelAt <= Total
  {
    if cancelAt == 0 {
      return Cancelled;
    }
    var total := Total;
    var i := 1;
    while i <= total
      invariant 1 <= i <= total + 1
      invariant cancelAt >= i
      invariant writer.sent == old(writer.sent) + Ramp(i - 1, total)
    {
      writer.Write(Progress(i, total));
      if cancelAt == i {   // await asyncio.sleep(0.05) raises CancelledError
        return Cancelled;
      }
      i := i + 1;
    }
    return Completed;
  }

  /**
   * Whatever the moment of cancellation, the output is values 1..k for some
   * k <= 150, no value repeated or skipped, and k is exactly the number of
   * writes before the cancellation point.
   */
  lemma CancelledRunIsPrefix(cancelAt: nat)
    ensures IsRunPrefix(Ramp(WrittenBeforeCancel(cancelAt), Total), Total)
    ensures cancelAt <= Total ==> Ramp(WrittenBeforeCancel(cancelAt), Total) == Ramp(cancelAt, Total)
  {
  }

  /** The asyncio task wrapping `long_task`; `cancel()` records a request. */
  class Task {
    ghost const launch: nat
    var cancelRequested: bool

    constructor (ghost launch: nat)
      ensures this.launch == launch && !cancelRequested
    {
      this.launch := launch;
      cancelRequested := false;
    }

    method Cancel()
      modifies this
      ensures cancelRequested
    {
      cancelRequested := true;
    }
  }

  /** The `WSHandler` of one connection. */
  class WSHandler {
    var task: Task?
    const writer: Writer
    ghost var launched: nat
    /** The output of every finished task, in order. */
    ghost var runs: seq<seq<Message>>

    /**
     * Every launch but the one in flight has finished, and the connection
     * carries the finished tasks' outputs back to back, each a prefix of
     * 1..150.
     */
    ghost predicate Valid()
      reads this, writer, task
      ensures Valid() ==> Inv(Abstract())
    {
      && launched == |runs| + (if task != null then 1 else 0)
      && writer.sent == Flatten(runs)
      && forall k :: 0 <= k < |runs| ==> IsRunPrefix(runs[k], Total)
    }

    ghost function Abstract(): (s: State)
      reads this, task
    {
      State(task != null, task != null && task.cancelRequested, launched, |runs|)
    }

    /** `on_open`: no task and a fresh writer. */
    constructor OnOpen()
      ensures Valid() && Abstract() == Initial
      ensures fresh(writer) && writer.sent == []
    {
      task := null;
      writer := new Writer();
      launched := 0;
      runs := [];
    }

    /**
     * `on_message`: 'start' while no task creates one task; 'stop' while a
     * task exists cancels it; anything else, or either of them in the other
     * state, changes nothing.
     */
    method OnMessage(data: string)
      requires Valid()
      modifies this, task
      ensures Valid()
      ensures Abstract() == Step(old(Abstract()), Decode(data))
      ensures runs == old(runs) && writer.sent == old(writer.sent)
      ensures data == "start" && old(task) == null ==>
        fresh(task) && task.launch == launched
      ensures !(data == "start" && old(task) == null) ==> task == old(task)
    {
      if data == "start" && task == null {
        launched := launched + 1;
        task := new Task(launched);
      } else if data == "stop" && task != null {
        task.Cancel();
      }
    }

    /** `task_done_callback`: the handler forgets the task, whatever its outcome. */
    method TaskDoneCallback()
      modifies this
      ensures task == null
      ensures launched == old(launched) && runs == old(runs)
    {
      task := null;
    }

    /**
     * The `Done` event: the event loop drives `long_task` to its end, then
     * invokes the done callback. A cancellation never requested by the end
     * was never delivered.
     */
    method Complete(cancelAt: nat) returns (outcome: Outcome)
      requires Valid() && task != null
      requires !task.cancelRequested ==> cancelAt > Total
      modifies this, writer
      ensures Valid()
      ensures Abstract() == Step(old(Abstract()), Done)
      ensures outcome == Cancelled <==> cancelAt <= Total
      ensures runs == old(runs) + [Ramp(WrittenBeforeCancel(cancelAt), Total)]
      ensures writer.sent == old(writer.sent) + Ramp(WrittenBeforeCancel(cancelAt), Total)
    {
      outcome := LongTask(writer, cancelAt);
      CancelledRunIsPrefix(cancelAt);
      FlattenSnoc(runs, Ramp(WrittenBeforeCancel(cancelAt), Total));
      runs := runs + [Ramp(WrittenBeforeCancel(cancelAt), Total)];
      TaskDoneCallback();
    }
  }
}
