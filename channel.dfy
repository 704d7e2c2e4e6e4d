/**
 * The outbound side of a websocket connection, as the handlers see it
 * through a writer: every `writer.write(...)` call appends one structured
 * record to the stream the client receives. JSON encoding and the socket
 * itself are abstracted away; only the order and content of the records
 * are kept.
 */
module Channel {

  /** The two record shapes the handlers write. */
  datatype Message =
    | Progress(value: int, total: int)        // type='progress', value=i, total=total
    | Results(values: seq<int>, page: int)    // type='results', value=results, page=page

  /** A writer bound to one connection; `sent` is everything written so far, in order. */
  class Writer {
    ghost var sent: seq<Message>

    constructor ()
      ensures sent == []
    {
      sent := [];
    }

    /** One `write` call: the record is appended, nothing is lost or reordered. */
    method Write(m: Message)
      modifies this
      ensures sent == old(sent) + [m]
    {
      sent := sent + [m];
    }
  }
}
