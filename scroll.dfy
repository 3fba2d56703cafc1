/** The scroll cursor: a search opened with a cursor lifetime, its pages read
    one `next` at a time, and the cursor released on close. The engine is an
    oracle: the reply to the opening search and to each continuation request
    are parameters, and the requests the cursor sends are logged in order. */
module Scrolling {
  import opened Wrappers
  import opened Errors
  import opened Json
  import opened Settings

  /** A request the cursor sends. */
  datatype Request =
    | Search(index: string, doctype: string, lifetime: string, query: Value)  // GET {index}/{doctype}/_search?scroll=...
    | Continue(scrollId: string, lifetime: string)                           // GET _search/scroll
    | Release(scrollId: string)                                              // DELETE _search/scroll

  /** The engine's reply to the opening search: the transport status,
      `_scroll_id`, `hits.total` and `hits.hits`. */
  datatype SearchReply = SearchReply(status: int, scrollId: string, total: int, hits: seq<Value>)

  /** The engine's reply to a continuation request: its status and
      `hits.hits`. */
  datatype PageReply = PageReply(status: int, hits: seq<Value>)

  /** What one call of `next` does: return a page, end the iteration, or
      raise. */
  datatype Step = Page(hits: seq<Value>) | StopIteration | Raised(error: Error)

  /** The fields of a `Scroll` that change, and the requests sent so far.
      None stands for Python's None and for an attribute not yet set. */
  datatype Cursor = Cursor(
    scrollId: Option<string>,
    totalHits: Option<int>,
    numPages: Option<int>,
    firstPage: Option<seq<Value>>,
    nextPageNum: Option<int>,
    sent: seq<Request>)

  /** The state `__init__` leaves. */
  function Initial(): Cursor
  {
    Cursor(None, None, None, None, None, [])
  }

  /** What every reachable cursor satisfies: nothing is set before the
      scroll id, and once it is, the hit count is known and the page counter
      is 1, the value it keeps for good. */
  ghost predicate Inv(c: Cursor)
  {
    && (c.scrollId.None? ==> c.totalHits.None? && c.numPages.None? && c.firstPage.None? && c.nextPageNum.None?)
    && (c.scrollId.Some? ==> c.totalHits.Some? && c.nextPageNum == Some(1))
  }

  /** Python truthiness of the scroll id, which `__close` asserts. */
  predicate Live(c: Cursor)
  {
    c.scrollId.Some? && c.scrollId.value != ""
  }

  /** `ceil(a / b)` on exact integers. */
  function CeilDiv(a: int, b: int): (r: int)
    requires b > 0
    ensures (r - 1) * b < a <= r * b
  {
    -((-a) / b)
  }

  /** Hits that fit on one page make one page. */
  lemma OnePage(total: int, pageSize: int)
    requires 0 < total <= pageSize
    ensures CeilDiv(total, pageSize) == 1
  {
  }

  /** More hits than fit on one page make at least two pages. */
  lemma SeveralPages(total: int, pageSize: int)
    requires 0 < pageSize < total
    ensures CeilDiv(total, pageSize) >= 2
  {
  }

  /** The page count `__open` computes: 0 for no hits, otherwise the least
      number of pages of `pageSize` hits that hold all `total` hits, and a
      `ZeroDivisionError` when hits exist but the first page is empty. */
  function PageCount(total: int, pageSize: nat): (r: Result<int, Error>)
    ensures total == 0 ==> r == Success(0)
    ensures total != 0 && pageSize == 0 ==> r == Failure(ZeroDivisionError)
    ensures total != 0 && pageSize > 0 ==> r.Success? && (r.value - 1) * pageSize < total <= r.value * pageSize
    ensures total > 0 && pageSize > 0 ==> r.Success? && r.value >= 1
  {
    if total == 0 then Success(0)
    else if pageSize == 0 then Failure(ZeroDivisionError)
    else Success(CeilDiv(total, pageSize))
  }

  /** `__open`: refuses an already-set scroll id, sends the search, checks
      its status, records id, total and first page, sets the page counter
      to 1 and then computes the page count. */
  function OpenStep(c: Cursor, config: Config, query: Value, lifetime: string, reply: SearchReply): (r: (Cursor, Outcome<Error>))
    requires Inv(c)
    ensures Inv(r.0)
  {
    if c.scrollId.Some? then (c, Fail(AssertionError("scroll is already open")))
    else
      var sent := c.sent + [Search(config.index, config.doctype, lifetime, query)];
      if reply.status != HttpOk then (c.(sent := sent), Fail(AssertionError("")))
      else
        var started := c.(
          scrollId := Some(reply.scrollId), totalHits := Some(reply.total),
          firstPage := Some(reply.hits), nextPageNum := Some(1), sent := sent);
        match PageCount(reply.total, |reply.hits|)
        case Failure(e) => (started, Fail(e))
        case Success(n) => (started.(numPages := Some(n)), Pass)
  }

  /** `__close`: asserts the scroll id and sends one release; it changes no
      field. */
  function CloseStep(c: Cursor): (r: (Cursor, Outcome<Error>))
    requires Inv(c)
    ensures Inv(r.0)
  {
    if Live(c) then (c.(sent := c.sent + [Release(c.scrollId.value)]), Pass)
    else (c, Fail(AssertionError("scroll is not open")))
  }

  /** `__next__`: opens if no scroll id is set, asserts a non-zero page
      count, hands out the buffered first page once, ends when the page
      counter reaches the page count, and otherwise returns the hits of one
      continuation request. It changes neither the counter nor the id. */
  function NextStep(c: Cursor, config: Config, query: Value, lifetime: string,
                    openReply: SearchReply, pageReply: PageReply): (r: (Cursor, Step))
    requires Inv(c)
    ensures Inv(r.0)
  {
    var afterOpen := if c.scrollId.None? then OpenStep(c, config, query, lifetime, openReply) else (c, Pass);
    var c1 := afterOpen.0;
    if afterOpen.1.Fail? then (c1, Raised(afterOpen.1.error))
    else if c1.numPages.None? || c1.numPages.value == 0 then (c1, Raised(AssertionError("")))
    else if c1.firstPage.Some? && |c1.firstPage.value| > 0 then (c1.(firstPage := None), Page(c1.firstPage.value))
    else if c1.nextPageNum.value >= c1.numPages.value then (c1, StopIteration)
    else
      var c2 := c1.(sent := c1.sent + [Continue(c1.scrollId.value, lifetime)]);
      if pageReply.status != HttpOk then (c2, Raised(AssertionError("")))
      else (c2, Page(pageReply.hits))
  }

  /** Successive calls of `next`, as `list(scroll)` makes them: call i is
      answered by `replies[i]` if it sends a continuation request. */
  function Drain(c: Cursor, config: Config, query: Value, lifetime: string,
                 openReply: SearchReply, replies: seq<PageReply>): (r: (Cursor, seq<Step>))
    requires Inv(c)
    ensures Inv(r.0) && |r.1| == |replies|
    decreases |replies|
  {
    if |replies| == 0 then (c, [])
    else
      var first := NextStep(c, config, query, lifetime, openReply, replies[0]);
      var rest := Drain(first.0, config, query, lifetime, openReply, replies[1..]);
      (rest.0, [first.1] + rest.1)
  }

  /** What `__open` records, for every reply to the search from a cursor
      with no scroll id: the search is logged; a non-200 status changes
      nothing else; otherwise the id, hit count and first page are the
      reply's and the page counter is 1, and then either the page count is
      0 or the exact ceiling of hits over page size, or, for hits with an
      empty first page, a `ZeroDivisionError` leaves the page count unset. */
  lemma OpenSets(c: Cursor, config: Config, query: Value, lifetime: string, reply: SearchReply)
    requires Inv(c) && c.scrollId.None?
    ensures var (c', o) := OpenStep(c, config, query, lifetime, reply);
      && c'.sent == c.sent + [Search(config.index, config.doctype, lifetime, query)]
      && (reply.status != HttpOk ==> c' == c.(sent := c'.sent) && o == Fail(AssertionError("")))
      && (reply.status == HttpOk ==>
            && c'.scrollId == Some(reply.scrollId) && c'.totalHits == Some(reply.total)
            && c'.firstPage == Some(reply.hits) && c'.nextPageNum == Some(1)
            && (reply.total == 0 ==> o == Pass && c'.numPages == Some(0))
            && (reply.total != 0 && |reply.hits| == 0 ==> o == Fail(ZeroDivisionError) && c'.numPages == c.numPages)
            && (reply.total != 0 && |reply.hits| > 0 ==>
                  && o == Pass && c'.numPages.Some?
                  && (c'.numPages.value - 1) * |reply.hits| < reply.total <= c'.numPages.value * |reply.hits|))
  {
  }

  /** `__close` succeeds exactly on a cursor with a non-empty scroll id,
      sending one release of it; a failing close changes nothing. */
  lemma CloseIff(c: Cursor)
    requires Inv(c)
    ensures CloseStep(c).1 == Pass <==> Live(c)
    ensures Live(c) ==> CloseStep(c).0 == c.(sent := c.sent + [Release(c.scrollId.value)])
    ensures !Live(c) ==> CloseStep(c) == (c, Fail(AssertionError("scroll is not open")))
  {
  }

  /** Closing before opening is a usage error that sends nothing. */
  lemma CloseBeforeOpenFails()
    ensures CloseStep(Initial()) == (Initial(), Fail(AssertionError("scroll is not open")))
  {
  }

  /** Once a scroll id is set, opening again fails and changes nothing;
      since closing never clears the id, this holds after a close too. */
  lemma OpenOnlyOnce(c: Cursor, config: Config, query: Value, lifetime: string, reply: SearchReply)
    requires Inv(c) && c.scrollId.Some?
    ensures OpenStep(c, config, query, lifetime, reply) == (c, Fail(AssertionError("scroll is already open")))
    ensures OpenStep(CloseStep(c).0, config, query, lifetime, reply).1 == Fail(AssertionError("scroll is already open"))
  {
  }

  /** A second close is not refused: each close of a live cursor sends one
      more release of the same id. */
  lemma CloseTwice(c: Cursor)
    requires Inv(c) && Live(c)
    ensures CloseStep(c).1 == Pass && CloseStep(CloseStep(c).0).1 == Pass
    ensures CloseStep(CloseStep(c).0).0 == c.(sent := c.sent + [Release(c.scrollId.value), Release(c.scrollId.value)])
  {
  }

  /** `next` never moves the page counter and never changes the scroll id,
      the page count or the hit count of an open cursor; the only request it
      may add is one continuation with the cursor's own id. */
  lemma NextKeepsCursor(c: Cursor, config: Config, query: Value, lifetime: string,
                        openReply: SearchReply, pageReply: PageReply)
    requires Inv(c) && c.scrollId.Some?
    ensures var c' := NextStep(c, config, query, lifetime, openReply, pageReply).0;
      && c'.scrollId == c.scrollId && c'.nextPageNum == Some(1)
      && c'.numPages == c.numPages && c'.totalHits == c.totalHits
      && (c'.sent == c.sent || c'.sent == c.sent + [Continue(c.scrollId.value, lifetime)])
  {
  }

  /** The first `next` after a successful open hands out the buffered first
      page and sends no request for it. */
  lemma FirstPageIsBuffered(c: Cursor, config: Config, query: Value, lifetime: string,
                            openReply: SearchReply, pageReply: PageReply)
    requires Inv(c) && c.scrollId.Some? && c.numPages.Some? && c.numPages.value != 0
    requires c.firstPage.Some? && |c.firstPage.value| > 0
    ensures NextStep(c, config, query, lifetime, openReply, pageReply)
      == (c.(firstPage := None), Page(c.firstPage.value))
  {
  }

  /** A page count of at most one, once the first page is gone, ends every
      later call without a request. */
  lemma {:induction false} StopsForever(c: Cursor, config: Config, query: Value, lifetime: string,
                                        openReply: SearchReply, replies: seq<PageReply>)
    requires Inv(c) && c.scrollId.Some? && c.numPages.Some? && c.numPages.value != 0 && c.numPages.value <= 1
    requires c.firstPage.None? || |c.firstPage.value| == 0
    ensures Drain(c, config, query, lifetime, openReply, replies).0 == c
    ensures forall i :: 0 <= i < |replies| ==> Drain(c, config, query, lifetime, openReply, replies).1[i] == StopIteration
    decreases |replies|
  {
    if |replies| > 0 {
      assert NextStep(c, config, query, lifetime, openReply, replies[0]) == (c, StopIteration);
      StopsForever(c, config, query, lifetime, openReply, replies[1..]);
    }
  }

  /** A page count of two or more, once the first page is gone, never ends:
      every call sends a continuation and returns its hits. */
  lemma {:induction false} PagesForever(c: Cursor, config: Config, query: Value, lifetime: string,
                                        openReply: SearchReply, replies: seq<PageReply>)
    requires Inv(c) && c.scrollId.Some? && c.numPages.Some? && c.numPages.value >= 2
    requires c.firstPage.None? || |c.firstPage.value| == 0
    requires forall i :: 0 <= i < |replies| ==> replies[i].status == HttpOk
    ensures var r := Drain(c, config, query, lifetime, openReply, replies);
      && r.0.scrollId == c.scrollId && r.0.numPages == c.numPages && r.0.firstPage == c.firstPage
      && |r.0.sent| == |c.sent| + |replies|
      && forall i :: 0 <= i < |replies| ==> r.1[i] == Page(replies[i].hits)
    decreases |replies|
  {
    if |replies| > 0 {
      var c1 := c.(sent := c.sent + [Continue(c.scrollId.value, lifetime)]);
      assert NextStep(c, config, query, lifetime, openReply, replies[0]) == (c1, Page(replies[0].hits));
      PagesForever(c1, config, query, lifetime, openReply, replies[1..]);
      var r := Drain(c, config, query, lifetime, openReply, replies);
      forall i | 1 <= i < |replies|
        ensures r.1[i] == Page(replies[i].hits)
      {
        assert replies[1..][i - 1] == replies[i];
      }
    }
  }

  /** A scroll whose hits fit on the first page (`test_context_manager`)
      yields exactly that page and then ends, without a continuation
      request. */
  lemma SinglePageScroll(config: Config, query: Value, lifetime: string,
                         openReply: SearchReply, replies: seq<PageReply>)
    requires openReply.status == HttpOk && 0 < openReply.total <= |openReply.hits|
    requires |replies| > 0
    ensures var r := Drain(Initial(), config, query, lifetime, openReply, replies);
      && r.1[0] == Page(openReply.hits)
      && (forall i :: 1 <= i < |replies| ==> r.1[i] == StopIteration)
      && r.0.sent == [Search(config.index, config.doctype, lifetime, query)]
  {
    var k := |openReply.hits|;
    OnePage(openReply.total, k);
    var c1 := NextStep(Initial(), config, query, lifetime, openReply, replies[0]).0;
    StopsForever(c1, config, query, lifetime, openReply, replies[1..]);
  }

  /** A scroll with more hits than fit on the first page yields the first
      page and then a continuation page on every call: it never ends by
      itself, because the page counter never moves. */
  lemma MultiPageScrollNeverEnds(config: Config, query: Value, lifetime: string,
                                 openReply: SearchReply, replies: seq<PageReply>)
    requires openReply.status == HttpOk && 0 < |openReply.hits| < openReply.total
    requires |replies| > 0 && forall i :: 0 <= i < |replies| ==> replies[i].status == HttpOk
    ensures var r := Drain(Initial(), config, query, lifetime, openReply, replies);
      && r.1[0] == Page(openReply.hits)
      && forall i :: 1 <= i < |replies| ==> r.1[i] == Page(replies[i].hits)
  {
    var k := |openReply.hits|;
    SeveralPages(openReply.total, k);
    var c1 := NextStep(Initial(), config, query, lifetime, openReply, replies[0]).0;
    PagesForever(c1, config, query, lifetime, openReply, replies[1..]);
    var r := Drain(Initial(), config, query, lifetime, openReply, replies);
    forall i | 1 <= i < |replies|
      ensures r.1[i] == Page(replies[i].hits)
    {
      assert replies[1..][i - 1] == replies[i];
    }
  }

  /** A scroll with no hits does not end: its page count is 0, so every
      call fails the page-count assertion (after one search). */
  lemma ZeroHitScrollRaises(config: Config, query: Value, lifetime: string,
                            openReply: SearchReply, replies: seq<PageReply>)
    requires openReply.status == HttpOk && openReply.total == 0 && |replies| > 0
    ensures var r := Drain(Initial(), config, query, lifetime, openReply, replies);
      && (forall i :: 0 <= i < |replies| ==> r.1[i] == Raised(AssertionError("")))
      && r.0.sent == [Search(config.index, config.doctype, lifetime, query)]
  {
    var c1 := NextStep(Initial(), config, query, lifetime, openReply, replies[0]).0;
    RaisesForever(c1, config, query, lifetime, openReply, replies[1..]);
  }

  /** An open cursor whose page count is unset or 0 raises on every call
      and sends nothing. */
  lemma {:induction false} RaisesForever(c: Cursor, config: Config, query: Value, lifetime: string,
                                         openReply: SearchReply, replies: seq<PageReply>)
    requires Inv(c) && c.scrollId.Some? && (c.numPages.None? || c.numPages.value == 0)
    ensures Drain(c, config, query, lifetime, openReply, replies).0 == c
    ensures forall i :: 0 <= i < |replies| ==>
      Drain(c, config, query, lifetime, openReply, replies).1[i] == Raised(AssertionError(""))
    decreases |replies|
  {
    if |replies| > 0 {
      RaisesForever(c, config, query, lifetime, openReply, replies[1..]);
    }
  }

  /** Iterating never changes the scroll id of an open cursor. */
  lemma {:induction false} DrainKeepsId(c: Cursor, config: Config, query: Value, lifetime: string,
                                        openReply: SearchReply, replies: seq<PageReply>)
    requires Inv(c) && c.scrollId.Some?
    ensures Drain(c, config, query, lifetime, openReply, replies).0.scrollId == c.scrollId
    decreases |replies|
  {
    if |replies| > 0 {
      NextKeepsCursor(c, config, query, lifetime, openReply, replies[0]);
      var c1 := NextStep(c, config, query, lifetime, openReply, replies[0]).0;
      DrainKeepsId(c1, config, query, lifetime, openReply, replies[1..]);
    }
  }

  /** The `with` bracket: after `__enter__` opens with a non-empty scroll
      id, however many pages the block reads and whatever they raise,
      `__exit__` succeeds and its last request releases that id. */
  lemma ExitReleases(config: Config, query: Value, lifetime: string,
                     openReply: SearchReply, replies: seq<PageReply>)
    requires OpenStep(Initial(), config, query, lifetime, openReply).1 == Pass
    requires openReply.scrollId != ""
    ensures
      var entered := OpenStep(Initial(), config, query, lifetime, openReply).0;
      var body := Drain(entered, config, query, lifetime, openReply, replies).0;
      var exited := CloseStep(body);
      && exited.1 == Pass
      && exited.0 == body.(sent := body.sent + [Release(openReply.scrollId)])
  {
    var entered := OpenStep(Initial(), config, query, lifetime, openReply).0;
    DrainKeepsId(entered, config, query, lifetime, openReply, replies);
  }

  /** `test_object`: ten hits served one per page give ten pages; the first
      `next` returns the buffered hit and the second a continuation's. */
  lemma ScrollObjectScenario(config: Config, query: Value, lifetime: string, abc: Value, def: Value)
    ensures
      var reply := SearchReply(HttpOk, "dummy_scroll_id", 10, [abc]);
      var open := OpenStep(Initial(), config, query, lifetime, reply);
      var first := NextStep(open.0, config, query, lifetime, reply, PageReply(HttpOk, []));
      var second := NextStep(first.0, config, query, lifetime, reply, PageReply(HttpOk, [def]));
      && open.1 == Pass
      && open.0.numPages == Some(10) && open.0.scrollId == Some("dummy_scroll_id")
      && first.1 == Page([abc])
      && second.1 == Page([def]) && second.0.firstPage.None?
  {
    assert CeilDiv(10, 1) == 10;
  }

  /** The scroll cursor. */
  class Scroll {
    const config: Config
    const query: Value
    const lifetime: string

    var scrollId: Option<string>
    var totalHits: Option<int>
    var numPages: Option<int>
    var firstPage: Option<seq<Value>>
    var nextPageNum: Option<int>
    var sent: seq<Request>

    function Snapshot(): Cursor
      reads this
    {
      Cursor(scrollId, totalHits, numPages, firstPage, nextPageNum, sent)
    }

    ghost predicate Valid()
      reads this
    {
      Inv(Snapshot())
    }

    /** `Scroll(config, query, lifetime="1m")`: nothing is sent until it
        opens. */
    constructor (config: Config, query: Value, lifetime: string := "1m")
      ensures this.config == config && this.query == query && this.lifetime == lifetime
      ensures Snapshot() == Initial() && Valid()
    {
      this.config := config;
      this.query := query;
      this.lifetime := lifetime;
      scrollId, totalHits, numPages := None, None, None;
      firstPage, nextPageNum := None, None;
      sent := [];
    }

    /** `__open`, given the engine's reply to the search. */
    method Open(reply: SearchReply) returns (o: Outcome<Error>)
      requires Valid()
      modifies this
      ensures Valid()
      ensures (Snapshot(), o) == OpenStep(old(Snapshot()), config, query, lifetime, reply)
    {
      if scrollId.Some? {
        return Fail(AssertionError("scroll is already open"));
      }
      sent := sent + [Search(config.index, config.doctype, lifetime, query)];
      if reply.status != HttpOk {
        return Fail(AssertionError(""));
      }
      scrollId := Some(reply.scrollId);
      totalHits := Some(reply.total);
      firstPage := Some(reply.hits);
      nextPageNum := Some(1);
      if reply.total != 0 {
        if |reply.hits| == 0 {
          return Fail(ZeroDivisionError);
        }
        numPages := Some(CeilDiv(reply.total, |reply.hits|));
      } else {
        numPages := Some(0);
      }
      o := Pass;
    }

    /** `__close`: only the request log can change. */
    method Close() returns (o: Outcome<Error>)
      requires Valid()
      modifies this`sent
      ensures Valid()
      ensures (Snapshot(), o) == CloseStep(old(Snapshot()))
    {
      if scrollId.None? || scrollId.value == "" {
        return Fail(AssertionError("scroll is not open"));
      }
      sent := sent + [Release(scrollId.value)];
      o := Pass;
    }

    /** `__next__`, given the replies to the search it may open with and to
        the continuation request it may send. */
    method Next(openReply: SearchReply, pageReply: PageReply) returns (step: Step)
      requires Valid()
      modifies this
      ensures Valid()
      ensures (Snapshot(), step) == NextStep(old(Snapshot()), config, query, lifetime, openReply, pageReply)
    {
      if scrollId.None? {
        var o := Open(openReply);
        if o.Fail? {
          return Raised(o.error);
        }
      }
      if numPages.None? || numPages.value == 0 {
        return Raised(AssertionError(""));
      }
      if firstPage.Some? && |firstPage.value| > 0 {
        step := Page(firstPage.value);
        firstPage := None;
        return;
      } else if nextPageNum.value >= numPages.value {
        return StopIteration;
      }
      sent := sent + [Continue(scrollId.value, lifetime)];
      if pageReply.status != HttpOk {
        return Raised(AssertionError(""));
      }
      step := Page(pageReply.hits);
    }

    /** `__enter__`: the opening half of the `with` bracket. */
    method Enter(reply: SearchReply) returns (o: Outcome<Error>)
      requires Valid()
      modifies this
      ensures Valid()
      ensures (Snapshot(), o) == OpenStep(old(Snapshot()), config, query, lifetime, reply)
    {
      o := Open(reply);
    }

    /** `__exit__`: the closing half, run however the block ends. */
    method Exit() returns (o: Outcome<Error>)
      requires Valid()
      modifies this`sent
      ensures Valid()
      ensures (Snapshot(), o) == CloseStep(old(Snapshot()))
    {
      o := Close();
    }
  }
}
