/**
 * sync_task/app.py: a websocket handler that runs `long_computation` on a
 * worker thread of the default executor and stops it through a shared
 * stop flag (`threading.Event`).
 */
module SyncTask {
  import opened Channel
  import opened Progress
  import opened Supervisor

  /** `total = 150` in `long_computation`. */
  const Total: nat := 150

  /** Whether `is_set()` reads true at iteration `i` of a run whose flag is first seen at `firstSeen`. */
  ghost predicate SeenAt(i: nat, firstSeen: nat)
  {
    firstSeen <= i
  }

  /**
   * How many records `long_computation` writes when `is_set()` first returns
   * true at iteration `firstSeen` (iterations count from 1; a value above
   * `Total` means the flag was never seen set).
   */
  function WrittenBeforeStop(firstSeen: nat): (n: nat)
    ensures n <= Total
    ensures forall i :: 1 <= i <= Total ==> (i <= n <==> !SeenAt(i, firstSeen))
  {
    if firstSeen <= 1 then 0 else if firstSeen - 1 <= Total then firstSeen - 1 else Total
  }

  /**
   * `long_computation`: for i in 1..150, check the flag, then write
   * (progress, i, 150). The flag is set only by the handler and cleared only
   * by the done callback, which runs after this returns, so within one run
   * its readings are false up to some iteration and true from then on; the
   * oracle `firstSeen` is that first iteration reading true.
   */
  method LongComputation(writer: Writer, firstSeen: nat)
    modifies writer
    ensures writer.sent == old(writer.sent) + Ramp(WrittenBeforeStop(firstSeen), Total)
  {
    var total := Total;
    var i := 1;
    while i <= total
      invariant 1 <= i <= total + 1
      invariant i > 1 ==> firstSeen >= i
      invariant writer.sent == old(writer.sent) + Ramp(i - 1, total)
    {
      if firstSeen <= i {   // stop_event.is_set()
        return;
      }
      writer.Write(Progress(i, total));
      i := i + 1;
    }
  }

  /** An unstopped computation writes values 1..150 in order, all with total 150. */
  lemma UnstoppedRunIsComplete(firstSeen: nat)
    requires firstSeen > Total
    ensures Ramp(WrittenBeforeStop(firstSeen), Total) == Ramp(Total, Total)
  {
  }

  /**
   * A flag first seen at iteration k (1 <= k <= 150) leaves exactly the
   * values 1..k-1 written, and any run's output is a prefix of 1..150.
   */
  lemma StoppedRunIsPrefix(firstSeen: nat)
    ensures IsRunPrefix(Ramp(WrittenBeforeStop(firstSeen), Total), Total)
    ensures 1 <= firstSeen <= Total + 1 ==>
      Ramp(WrittenBeforeStop(firstSeen), Total) == Ramp(firstSeen - 1, Total)
  {
  }

  /** The threading.Event shared by the handler and the worker. */
  class StopEvent {
    var isSet: bool

    constructor ()
      ensures !isSet
    {
      isSet := false;
    }

    method Set()
      modifies this
      ensures isSet
    {
      isSet := true;
    }

    method Clear()
      modifies this
      ensures !isSet
    {
      isSet := false;
    }
  }

  /** The future `run_in_executor` returns; `launch` numbers the runs of a connection. */
  class Future {
    ghost const launch: nat

    constructor (ghost launch: nat)
      ensures this.launch == launch
    {
      this.launch := launch;
    }
  }

  /** The `WSHandler` of one connection. */
  class WSHandler {
    var future: Future?
    const writer: Writer
    const stopEvent: StopEvent
    ghost var launched: nat
    /** The output of every finished run, in order. */
    ghost var runs: seq<seq<Message>>

    /**
     * The stop flag is only ever set while a run is in flight; every launch
     * but the one in flight has finished; and the connection carries the
     * finished runs' outputs back to back, each a prefix of 1..150.
     */
    ghost predicate Valid()
      reads this, writer, stopEvent
      ensures Valid() ==> Inv(Abstract())
    {
      && (future == null ==> !stopEvent.isSet)
      && launched == |runs| + (if future != null then 1 else 0)
      && writer.sent == Flatten(runs)
      && forall k :: 0 <= k < |runs| ==> IsRunPrefix(runs[k], Total)
    }

    ghost function Abstract(): (s: State)
      reads this, stopEvent
    {
      State(future != null, stopEvent.isSet, launched, |runs|)
    }

    /** `on_open`: no future, a fresh writer and a fresh, unset flag. */
    constructor OnOpen()
      ensures Valid() && Abstract() == Initial
      ensures fresh(writer) && fresh(stopEvent)
      ensures writer.sent == []
    {
      future := null;
      writer := new Writer();
      stopEvent := new StopEvent();
      launched := 0;
      runs := [];
    }

    /**
     * `on_message`: 'start' while no future launches one computation;
     * 'stop' while a future exists sets the flag; anything else, or either
     * of them in the other state, changes nothing.
     */
    method OnMessage(data: string)
      requires Valid()
      modifies this, stopEvent
      ensures Valid()
      ensures Abstract() == Step(old(Abstract()), Decode(data))
      ensures runs == old(runs) && writer.sent == old(writer.sent)
      ensures data == "start" && old(future) == null ==>
        fresh(future) && future.launch == launched
      ensures !(data == "start" && old(future) == null) ==> future == old(future)
    {
      if data == "start" && future == null {
        launched := launched + 1;
        future := new Future(launched);
      } else if data == "stop" && future != null {
        stopEvent.Set();
      }
    }

    /** `future_done_callback`: back to no future, flag cleared for the next run. */
    method FutureDoneCallback()
      modifies this, stopEvent
      ensures future == null && !stopEvent.isSet
      ensures launched == old(launched) && runs == old(runs)
    {
      future := null;
      stopEvent.Clear();
    }

    /**
     * The `Done` event: the executor runs `long_computation` to its return,
     * then the event loop invokes the done callback. A stop flag that is
     * still unset at the end was never seen by the worker.
     */
    method Complete(firstSeen: nat)
      requires Valid() && future != null
      requires !stopEvent.isSet ==> firstSeen > Total
      modifies this, stopEvent, writer
      ensures Valid()
      ensures Abstract() == Step(old(Abstract()), Done)
      ensures runs == old(runs) + [Ramp(WrittenBeforeStop(firstSeen), Total)]
      ensures writer.sent == old(writer.sent) + Ramp(WrittenBeforeStop(firstSeen), Total)
    {
      LongComputation(writer, firstSeen);
      StoppedRunIsPrefix(firstSeen);
      FlattenSnoc(runs, Ramp(WrittenBeforeStop(firstSeen), Total));
      runs := runs + [Ramp(WrittenBeforeStop(firstSeen), Total)];
      FutureDoneCallback();
    }
  }
}
