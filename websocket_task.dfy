/**
 * websocket_task/app.py: results fetched page by page (PAGE_SIZE = 6,
 * pages 0..9) and streamed over a websocket, with page 0 rendered by the
 * index page.
 */
module WebsocketTask {
  import opened Wrappers
  import opened Channel

  /** `PAGE_SIZE`. */
  const PageSize: int := 6

  /** `fetch` has no page from this one on. */
  const PageLimit: int := 10

  /** Python's `range(start, end)` as a list: start, start+1, ..., end-1. */
  function Range(start: int, end: int): (r: seq<int>)
    ensures |r| == if start <= end then end - start else 0
    ensures forall i :: 0 <= i < |r| ==> r[i] == start + i
    decreases end - start
  {
    if end <= start then [] else Range(start, end - 1) + [end - 1]
  }

  /** Adjacent ranges join into one. */
  lemma RangeSplit(a: int, b: int, c: int)
    requires a <= b <= c
    ensures Range(a, b) + Range(b, c) == Range(a, c)
  {
  }

  /** The list `fetch(page)` builds when the page exists. */
  function PageValues(page: int): (r: seq<int>)
    ensures |r| == PageSize
    ensures forall i :: 0 <= i < PageSize ==> r[i] == page * PageSize + 1 + i
  {
    var start := page * PageSize + 1;
    var end := start + PageSize;
    Range(start, end)
  }

  /**
   * `fetch(page)`: no results from page 10 on; otherwise the six integers
   * page*6+1 .. page*6+6 in increasing order.
   */
  function Fetch(page: int): (r: Option<seq<int>>)
    ensures r.None? <==> page >= PageLimit
    ensures r.Some? ==> |r.value| == PageSize
    ensures r.Some? ==> forall i :: 0 <= i < PageSize ==> r.value[i] == page * PageSize + 1 + i
  {
    if page >= PageLimit then None else Some(PageValues(page))
  }

  /**
   * Consecutive pages are contiguous and disjoint: page p ends one below
   * where page p+1 begins, and together they form one range.
   */
  lemma PagesContiguous(p: int)
    requires p + 1 < PageLimit
    ensures Fetch(p).value[PageSize - 1] + 1 == Fetch(p + 1).value[0]
    ensures Fetch(p).value + Fetch(p + 1).value == Range(p * PageSize + 1, (p + 2) * PageSize + 1)
  {
    RangeSplit(p * PageSize + 1, (p + 1) * PageSize + 1, (p + 2) * PageSize + 1);
  }

  /** `index`: the results handed to the template are page 0, the integers 1..6. */
  function Index(): (results: seq<int>)
    ensures results == [1, 2, 3, 4, 5, 6]
  {
    Fetch(0).value
  }

  /** The first `n` pages the handler writes: pages 1..n, each with its own results. */
  function PageStream(n: nat): (r: seq<Message>)
    ensures |r| == n
    ensures forall j :: 0 <= j < n ==> r[j] == Results(PageValues(j + 1), j + 1)
  {
    if n == 0 then [] else PageStream(n - 1) + [Results(PageValues(n), n)]
  }

  /** Whether `ws.closed` reads true when checked before fetching page `p`. */
  ghost predicate ClosedAt(p: int, closedAtPage: nat)
  {
    closedAtPage <= p
  }

  /**
   * How many pages the handler writes when `ws.closed` first reads true
   * before fetching page `closedAtPage` (a value above 9 means the socket
   * stays open until the last page).
   */
  function PagesStreamed(closedAtPage: nat): (n: nat)
    ensures n < PageLimit
    ensures forall p :: 1 <= p < PageLimit ==> (p <= n <==> !ClosedAt(p, closedAtPage))
  {
    if closedAtPage <= 1 then 0 else if closedAtPage - 1 < PageLimit then closedAtPage - 1 else PageLimit - 1
  }

  /**
   * `websocket`: starting from page 1, while the socket is open, fetch the
   * page, stop at the first missing page, otherwise write it and go on. The
   * socket is closed only from outside and never reopens, so `ws.closed`
   * reads false up to some page and true from then on; `closedAtPage` is
   * the first page for which it reads true.
   */
  method Websocket(writer: Writer, closedAtPage: nat)
    modifies writer
    ensures writer.sent == old(writer.sent) + PageStream(PagesStreamed(closedAtPage))
    ensures |writer.sent| <= |old(writer.sent)| + 9
  {
    var page := 1;
    while !(closedAtPage <= page)   // while not ws.closed
      invariant 1 <= page <= PageLimit
      invariant page > 1 ==> closedAtPage >= page
      invariant writer.sent == old(writer.sent) + PageStream(page - 1)
      decreases PageLimit - page
    {
      var results := Fetch(page);
      if results == None {
        break;
      }
      writer.Write(Results(results.value, page));
      page := page + 1;
    }
  }

  /** The values carried by the result pages of a stream, concatenated in order (progress records carry none). */
  function StreamValues(stream: seq<Message>): (r: seq<int>)
  {
    if stream == [] then []
    else StreamValues(stream[..|stream| - 1]) + (match stream[|stream| - 1] case Results(v, _) => v case Progress(_, _) => [])
  }

  /** The first n streamed pages carry exactly 7 .. 6n+6, in order. */
  lemma {:induction false} StreamedValues(n: nat)
    ensures StreamValues(PageStream(n)) == Range(PageSize + 1, (n + 1) * PageSize + 1)
  {
    if n > 0 {
      var s := PageStream(n);
      assert s[..n - 1] == PageStream(n - 1);
      StreamedValues(n - 1);
      RangeSplit(PageSize + 1, n * PageSize + 1, (n + 1) * PageSize + 1);
    }
  }

  /**
   * With the socket open throughout, the index page and the streamed pages
   * cover 1..60 exactly once and in order.
   */
  lemma FullCoverage(closedAtPage: nat)
    requires closedAtPage >= PageLimit
    ensures Index() + StreamValues(PageStream(PagesStreamed(closedAtPage))) == Range(1, 61)
  {
    StreamedValues(9);
    RangeSplit(1, 7, 61);
  }
}
