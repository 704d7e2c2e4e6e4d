/**
 * The per-connection single-flight supervisor shared by the two
 * `WSHandler` classes (sync_task and async_task_v2): an abstract state
 * machine over the events a handler reacts to. Each handler class
 * refines to `State` through its `Abstract()` function: its `OnMessage`
 * takes exactly the step `Step` gives for the decoded message, and its
 * `Complete` exactly the `Done` step. The done callbacks are called only
 * from `Complete`, after the run's output has been recorded.
 */
module Supervisor {

  /**
   * What a handler reacts to: the three kinds of inbound text message, and
   * `Done`, the completion of the launched run (the executor or event loop
   * invoking the done callback after the emitter has returned).
   */
  datatype Event = Start | Stop | Other(raw: string) | Done

  /** Classifies the text of an inbound message once, at the boundary. */
  function Decode(data: string): (e: Event)
    ensures e != Done
    ensures e == Start <==> data == "start"
    ensures e == Stop <==> data == "stop"
  {
    if data == "start" then Start else if data == "stop" then Stop else Other(data)
  }

  /** The message text an inbound event was decoded from. */
  function Text(e: Event): (t: string)
    requires e != Done
  {
    match e
    case Start => "start"
    case Stop => "stop"
    case Other(raw) => raw
  }

  /** Decoding loses nothing: the text can be recovered from the event. */
  lemma DecodeText(data: string)
    ensures Text(Decode(data)) == data
  {
  }

  /** The events `Decode` produces are exactly the inbound events in canonical form. */
  lemma TextDecode(e: Event)
    requires e != Done
    ensures Decode(Text(e)) == e <==> (e.Other? ==> e.raw != "start" && e.raw != "stop")
  {
  }

  /**
   * The observable state of one handler: whether a run is in flight, whether
   * cancellation of that run has been requested, and ghost counters of the
   * runs launched and finished since the connection opened.
   */
  datatype State = State(running: bool, cancelRequested: bool, launched: nat, finished: nat)

  /** A freshly opened connection: nothing in flight, no request pending. */
  const Initial := State(false, false, 0, 0)

  /** One event. */
  function Step(s: State, e: Event): (t: State)
    ensures Inv(s) ==> Inv(t)
    ensures !s.running && t.running ==> e == Start && t.launched == s.launched + 1 && (Inv(s) ==> !t.cancelRequested)
    ensures s.running && !t.running ==> e == Done && t.finished == s.finished + 1 && !t.cancelRequested
    ensures e != Start ==> t.launched == s.launched
    ensures e != Done ==> t.finished == s.finished
    ensures t.cancelRequested && !s.cancelRequested ==> e == Stop && s.running
    ensures e == Start && !s.running ==> t.running && t.launched == s.launched + 1
    ensures e == Stop && s.running ==> t.running && t.cancelRequested
    ensures e == Done && s.running ==> !t.running && !t.cancelRequested && t.finished == s.finished + 1
  {
    match e
    case Start =>
      if s.running then s else s.(running := true, launched := s.launched + 1)
    case Stop =>
      if s.running then s.(cancelRequested := true) else s
    case Other(_) =>
      s
    case Done =>
      if s.running then State(false, false, s.launched, s.finished + 1) else s
  }

  /** A sequence of events, in order. */
  function Run(s: State, es: seq<Event>): (t: State)
    decreases |es|
  {
    if es == [] then s else Run(Step(s, es[0]), es[1..])
  }

  /**
   * Single flight: every launched run but at most one has finished, and a
   * cancellation request only ever stands against a run in flight.
   */
  ghost predicate Inv(s: State)
  {
    && (!s.running ==> !s.cancelRequested)
    && s.launched == s.finished + (if s.running then 1 else 0)
  }

  lemma InitialInv()
    ensures Inv(Initial)
  {
  }

  /** No sequence of events, however interleaved, ever has two runs in flight. */
  lemma {:induction false} RunKeepsInv(s: State, es: seq<Event>)
    requires Inv(s)
    ensures Inv(Run(s, es))
    ensures Run(s, es).launched <= Run(s, es).finished + 1
    decreases |es|
  {
    if es != [] {
      RunKeepsInv(Step(s, es[0]), es[1..]);
    }
  }

  /** Runs compose: a trace followed by one more event. */
  lemma {:induction false} RunSnoc(s: State, es: seq<Event>, e: Event)
    ensures Run(s, es + [e]) == Step(Run(s, es), e)
    decreases |es|
  {
    if es != [] {
      assert (es + [e])[1..] == es[1..] + [e];
      RunSnoc(Step(s, es[0]), es[1..], e);
    }
  }

  /**
   * A `start` while a run is in flight launches nothing, and a second
   * `start` right after a first one is a no-op.
   */
  lemma DuplicateStart(s: State)
    ensures s.running ==> Step(s, Start) == s
    ensures Run(s, [Start, Start]) == Step(s, Start)
  {
    RunPair(s, Start, Start);
  }

  /** A `stop` with nothing in flight, and any unrecognised text, change nothing. */
  lemma IgnoredMessages(s: State, raw: string)
    ensures !s.running ==> Step(s, Stop) == s
    ensures Step(s, Other(raw)) == s
  {
  }

  /** Without a `start`, a trace launches nothing and starts no run. */
  lemma {:induction false} NoStartNoLaunch(s: State, es: seq<Event>)
    requires forall i :: 0 <= i < |es| ==> es[i] != Start
    ensures Run(s, es).launched == s.launched
    ensures Run(s, es).running ==> s.running
    decreases |es|
  {
    if es != [] {
      NoStartNoLaunch(Step(s, es[0]), es[1..]);
    }
  }

  /** A trace of unrecognised messages leaves the state exactly as it was. */
  lemma {:induction false} OthersChangeNothing(s: State, es: seq<Event>)
    requires forall i :: 0 <= i < |es| ==> es[i].Other?
    ensures Run(s, es) == s
    decreases |es|
  {
    if es != [] {
      OthersChangeNothing(Step(s, es[0]), es[1..]);
    }
  }

  /**
   * After the completion of a run (completed or cancelled alike) a later
   * `start` is accepted and launches a new run with no cancellation pending.
   */
  lemma RestartAfterDone(s: State)
    requires Inv(s) && s.running
    ensures Run(s, [Done, Start]).running
    ensures !Run(s, [Done, Start]).cancelRequested
    ensures Run(s, [Done, Start]).launched == s.launched + 1
  {
    RunPair(s, Done, Start);
  }

  /** Two events in a row. */
  lemma RunPair(s: State, e1: Event, e2: Event)
    ensures Run(s, [e1, e2]) == Step(Step(s, e1), e2)
  {
    assert [e1, e2][1..] == [e2];
    assert Run(s, [e1, e2]) == Run(Step(s, e1), [e2]);
    assert [e2][1..] == [];
    assert Run(Step(s, e1), [e2]) == Run(Step(Step(s, e1), e2), []);
  }
}
