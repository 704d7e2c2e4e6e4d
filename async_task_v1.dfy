/**
 * async_task_v1/app.py: a websocket handler that, for every 'start' it
 * reads, runs `long_task` as a task and awaits it before reading the next
 * message, so runs are strictly one after another.
 */
module AsyncTaskV1 {
  import opened Channel
  import opened Progress

  /** `total = 100` in `long_task`. */
  const Total: nat := 100

  /** `long_task`: nothing cancels it here, so it writes (progress, i, 100) for i in 1..100. */
  method LongTask(writer: Writer)
    modifies writer
    ensures writer.sent == old(writer.sent) + Ramp(Total, Total)
  {
    var total := Total;
    var i := 1;
    while i <= total
      invariant 1 <= i <= total + 1
      invariant writer.sent == old(writer.sent) + Ramp(i - 1, total)
    {
      writer.Write(Progress(i, total));
      i := i + 1;
    }
  }

  /** How many of the messages are exactly 'start'. */
  function StartCount(incoming: seq<string>): (n: nat)
  {
    if incoming == [] then 0
    else StartCount(incoming[..|incoming| - 1]) + (if incoming[|incoming| - 1] == "start" then 1 else 0)
  }

  /**
   * `websocket`: the `async for` loop over the messages of one connection.
   * Each 'start' awaits a whole run before the next message is read; every
   * other message writes nothing.
   */
  method Websocket(ws: Writer, incoming: seq<string>)
    modifies ws
    ensures ws.sent == old(ws.sent) + Repeat(Ramp(Total, Total), StartCount(incoming))
  {
    var k := 0;
    while k < |incoming|
      invariant 0 <= k <= |incoming|
      invariant ws.sent == old(ws.sent) + Repeat(Ramp(Total, Total), StartCount(incoming[..k]))
    {
      assert incoming[..k + 1][..k] == incoming[..k];
      if incoming[k] == "start" {
        LongTask(ws);   // task = ensure_future(long_task(...)); await task
      }
      k := k + 1;
    }
    assert incoming[..k] == incoming;
  }

  /** Counting 'start's splits over a concatenation of message streams. */
  lemma {:induction false} StartCountAppend(a: seq<string>, b: seq<string>)
    ensures StartCount(a + b) == StartCount(a) + StartCount(b)
    decreases |b|
  {
    if b == [] {
      assert a + b == a;
    } else {
      var b' := b[..|b| - 1];
      assert (a + b)[..|a + b| - 1] == a + b';
      assert (a + b)[|a + b| - 1] == b[|b| - 1];
      StartCountAppend(a, b');
    }
  }

  /**
   * The connection's output composes: serving the messages `a` and then `b`
   * writes what serving `a` writes followed by what serving `b` writes.
   */
  lemma SessionsCompose(a: seq<string>, b: seq<string>)
    ensures Repeat(Ramp(Total, Total), StartCount(a + b))
         == Repeat(Ramp(Total, Total), StartCount(a)) + Repeat(Ramp(Total, Total), StartCount(b))
  {
    StartCountAppend(a, b);
    RepeatAdd(Ramp(Total, Total), StartCount(a), StartCount(b));
  }

  /**
   * Runs never interleave: in the output of n starts, the records at
   * positions 100*j .. 100*j+99 are one complete run, values 1..100 with
   * total 100, for every j < n.
   */
  lemma RunsAreWhole(n: nat, j: nat)
    requires j < n
    ensures (j + 1) * Total <= |Repeat(Ramp(Total, Total), n)|
    ensures Repeat(Ramp(Total, Total), n)[j * Total .. (j + 1) * Total] == Ramp(Total, Total)
  {
    RepeatBlock(Ramp(Total, Total), n, j);
  }

  /** Only 'start' messages produce output: without one, nothing is written. */
  lemma {:induction false} NoStartNoOutput(incoming: seq<string>)
    requires forall i :: 0 <= i < |incoming| ==> incoming[i] != "start"
    ensures StartCount(incoming) == 0
    ensures Repeat(Ramp(Total, Total), StartCount(incoming)) == []
  {
    if incoming != [] {
      NoStartNoOutput(incoming[..|incoming| - 1]);
    }
  }
}
