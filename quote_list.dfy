/**
 * The quote feed pager: four pieces of state (`quotes`, `offset`, `hasMore`,
 * `loading`). A fetch is split into its begin step (the guard, then `loading`
 * set) and its settle step (the awaited `getQuotes` result, then `loading`
 * cleared). Changing `offset` re-runs the fetch, as the page's effect does.
 */
module QuoteList {
  import opened Outcomes
  import Storage
  import Api

  const PageSize: int := 20

  datatype Feed = Feed(quotes: seq<Api.Quote>, offset: int, hasMore: bool, loading: bool)

  /** The state the page starts in. */
  function Initial(): (f: Feed)
    ensures f.quotes == [] && f.offset == 0 && f.hasMore && !f.loading
  {
    Feed([], 0, true, false)
  }

  /** The guard of `fetchQuotes`. */
  predicate CanFetch(f: Feed) {
    f.hasMore && !f.loading
  }

  /** The begin step of `fetchQuotes`: a no-op unless the guard holds, and then only `loading` changes. */
  function BeginFetch(f: Feed): (r: Feed)
    ensures r.quotes == f.quotes && r.offset == f.offset && r.hasMore == f.hasMore
    ensures r.loading <==> f.loading || f.hasMore
    ensures !CanFetch(f) ==> r == f
  {
    if CanFetch(f) then f.(loading := true) else f
  }

  /** The request the begin step sends, if any: 20 records at the current offset. */
  function FetchRequest(session: map<string, string>, f: Feed): (r: Option<Api.Request>)
    ensures r.Some? <==> CanFetch(f)
    ensures r.Some? ==> r.value.params == [("limit", PageSize), ("offset", f.offset)]
    ensures r.Some? ==> r.value == Api.GetQuotes(session, Some(20), Some(f.offset))
  {
    if CanFetch(f) then Some(Api.GetQuotes(session, Some(PageSize), Some(f.offset))) else None
  }

  /**
   * The settle step of `fetchQuotes`: an empty page ends the feed, a non-empty
   * one is appended as it came, a failure changes nothing; `loading` is cleared
   * in every case and `offset` in none.
   */
  function SettleFetch(f: Feed, result: Settled<seq<Api.Quote>>): (r: Feed)
    ensures !r.loading && r.offset == f.offset
    ensures result.Resolved? && result.value == [] ==> r.quotes == f.quotes && !r.hasMore
    ensures result.Resolved? && result.value != [] ==> r.quotes == f.quotes + result.value && r.hasMore == f.hasMore
    ensures result.Rejected? ==> r.quotes == f.quotes && r.hasMore == f.hasMore
    ensures r.hasMore ==> f.hasMore
  {
    match result
    case Resolved(page) =>
      if |page| == 0 then f.(hasMore := false, loading := false)
      else f.(quotes := f.quotes + page, loading := false)
    case Rejected => f.(loading := false)
  }

  /** `loadMore`: the next window, whatever else is going on. */
  function AfterLoadMore(f: Feed): (r: Feed)
    ensures r.offset == f.offset + PageSize
    ensures r.quotes == f.quotes && r.hasMore == f.hasMore && r.loading == f.loading
  {
    f.(offset := f.offset + PageSize)
  }

  /** "No quotes found" is shown exactly when nothing is loaded and nothing is loading. */
  predicate ShowsEmptyMessage(f: Feed) {
    |f.quotes| == 0 && !f.loading
  }

  /** The Load More button is present while more may come ... */
  predicate ShowsLoadMore(f: Feed) {
    f.hasMore
  }

  /** ... and disabled while a fetch is in flight. */
  predicate LoadMoreDisabled(f: Feed) {
    f.loading
  }

  // ---------------------------------------------------------------------------
  // Whole runs of the page: mount, then a sequence of events.

  datatype Event =
    | FetchSettles(result: Settled<seq<Api.Quote>>)  // the outstanding `getQuotes` settles
    | LoadMoreClicked                                 // `loadMore`, then the offset effect's fetch

  /** A feed together with the offsets of every request sent so far and the number of requests settled. */
  datatype Run = Run(feed: Feed, requested: seq<int>, settled: nat)

  /** The mount effect: a fetch at offset 0 from the initial state. */
  function Mounted(): (r: Run)
    ensures r.feed.loading && r.feed.hasMore && r.feed.quotes == [] && r.feed.offset == 0
    ensures r.requested == [0] && r.settled == 0
  {
    Run(BeginFetch(Initial()), [Initial().offset], 0)
  }

  function Step(r: Run, e: Event): Run {
    match e
    case FetchSettles(result) =>
      // only a request in flight can settle
      if r.feed.loading then Run(SettleFetch(r.feed, result), r.requested, r.settled + 1) else r
    case LoadMoreClicked =>
      var f := AfterLoadMore(r.feed);
      if CanFetch(f) then Run(BeginFetch(f), r.requested + [f.offset], r.settled)
      else Run(f, r.requested, r.settled)
  }

  function Replay(r: Run, events: seq<Event>): Run
    decreases |events|
  {
    if events == [] then r else Replay(Step(r, events[0]), events[1..])
  }

  function LoadMoreCount(events: seq<Event>): nat
    decreases |events|
  {
    if events == [] then 0
    else (if events[0].LoadMoreClicked? then 1 else 0) + LoadMoreCount(events[1..])
  }

  predicate Increasing(s: seq<int>) {
    forall i, j :: 0 <= i < j < |s| ==> s[i] < s[j]
  }

  /** What every reachable run satisfies. */
  predicate Good(r: Run) {
    && (!r.feed.hasMore ==> !r.feed.loading)
    && |r.requested| == r.settled + (if r.feed.loading then 1 else 0)
    && Increasing(r.requested)
    && (forall i :: 0 <= i < |r.requested| ==> r.requested[i] <= r.feed.offset)
  }

  lemma StepKeepsGood(r: Run, e: Event)
    requires Good(r)
    ensures Good(Step(r, e))
  {
  }

  lemma {:induction false} ReplayKeepsGood(r: Run, events: seq<Event>)
    requires Good(r)
    ensures Good(Replay(r, events))
    decreases |events|
  {
    if events != [] {
      StepKeepsGood(r, events[0]);
      ReplayKeepsGood(Step(r, events[0]), events[1..]);
    }
  }

  /** Replaying a concatenation is replaying one part after the other. */
  lemma {:induction false} ReplayAppend(r: Run, a: seq<Event>, b: seq<Event>)
    ensures Replay(r, a + b) == Replay(Replay(r, a), b)
    decreases |a|
  {
    if a != [] {
      assert (a + b)[0] == a[0];
      assert (a + b)[1..] == a[1..] + b;
      calc {
        Replay(r, a + b);
        Replay(Step(r, a[0]), a[1..] + b);
        { ReplayAppend(Step(r, a[0]), a[1..], b); }
        Replay(Replay(Step(r, a[0]), a[1..]), b);
        Replay(Replay(r, a), b);
      }
    } else {
      assert a + b == b;
    }
  }

  /** One round of a healthy feed: a non-empty page arrives, then Load More fetches the next window. */
  lemma Round(r: Run, page: seq<Api.Quote>)
    requires r.feed.loading && r.feed.hasMore && page != []
    ensures Replay(r, [FetchSettles(Resolved(page)), LoadMoreClicked]) ==
              Run(Feed(r.feed.quotes + page, r.feed.offset + PageSize, true, true),
                  r.requested + [r.feed.offset + PageSize], r.settled + 1)
  {
    var es := [FetchSettles(Resolved(page)), LoadMoreClicked];
    var settled := Step(r, es[0]);
    assert settled == Run(Feed(r.feed.quotes + page, r.feed.offset, true, false), r.requested, r.settled + 1);
    assert es[1..] == [LoadMoreClicked];
    assert es[1..][1..] == [];
    calc {
      Replay(r, es);
      Replay(settled, es[1..]);
      Replay(Step(settled, LoadMoreClicked), []);
    }
  }

  /**
   * At most one request is in flight: every request but (while `loading`) the
   * last has settled, and requests go out at strictly increasing offsets.
   */
  lemma AtMostOneInFlight(events: seq<Event>)
    ensures |Replay(Mounted(), events).requested| == Replay(Mounted(), events).settled + (if Replay(Mounted(), events).feed.loading then 1 else 0)
    ensures Increasing(Replay(Mounted(), events).requested)
  {
    ReplayKeepsGood(Mounted(), events);
  }

  /** `offset` moves only by `loadMore`, 20 at a time, whatever the fetches return. */
  lemma {:induction false} OffsetCountsLoadMores(r: Run, events: seq<Event>)
    ensures Replay(r, events).feed.offset == r.feed.offset + PageSize * LoadMoreCount(events)
    decreases |events|
  {
    if events != [] {
      OffsetCountsLoadMores(Step(r, events[0]), events[1..]);
    }
  }

  lemma OffsetFromMount(events: seq<Event>)
    ensures Replay(Mounted(), events).feed.offset == 20 * LoadMoreCount(events)
  {
    OffsetCountsLoadMores(Mounted(), events);
  }

  /** Requests already sent stay in the log: the log only grows at its end. */
  lemma {:induction false} RequestsOnlyGrow(r: Run, events: seq<Event>)
    ensures r.requested <= Replay(r, events).requested
    ensures r.settled <= Replay(r, events).settled
    decreases |events|
  {
    if events != [] {
      RequestsOnlyGrow(Step(r, events[0]), events[1..]);
    }
  }

  /**
   * Once an empty page has ended the feed, nothing changes the quotes or sends
   * a request again, and the Load More button stays hidden.
   */
  lemma {:induction false} ExhaustedIsTerminal(r: Run, events: seq<Event>)
    requires Good(r) && !r.feed.hasMore
    ensures Replay(r, events).feed.quotes == r.feed.quotes
    ensures Replay(r, events).requested == r.requested
    ensures !Replay(r, events).feed.hasMore && !Replay(r, events).feed.loading
    ensures !ShowsLoadMore(Replay(r, events).feed)
    decreases |events|
  {
    if events != [] {
      StepKeepsGood(r, events[0]);
      ExhaustedIsTerminal(Step(r, events[0]), events[1..]);
    }
  }

  /**
   * A successful response whose `data` is not an array counts as an empty
   * page: the fetch in flight settles, the feed is exhausted, and no later
   * event fetches again or changes what is shown.
   */
  lemma NonArrayBodyEndsFeed(r: Run, later: seq<Event>)
    requires Good(r) && r.feed.loading
    ensures var settled := Step(r, FetchSettles(Api.GetQuotesResult(Resolved(Api.Payload(Api.NotAnArray)))));
      && settled.feed.quotes == r.feed.quotes && !settled.feed.hasMore && !settled.feed.loading
      && Replay(settled, later).feed.quotes == r.feed.quotes
      && Replay(settled, later).requested == r.requested
  {
    var e := FetchSettles(Api.GetQuotesResult(Resolved(Api.Payload(Api.NotAnArray))));
    StepKeepsGood(r, e);
    ExhaustedIsTerminal(Step(r, e), later);
  }

  function Flatten(pages: seq<seq<Api.Quote>>): seq<Api.Quote>
    decreases |pages|
  {
    if pages == [] then [] else pages[0] + Flatten(pages[1..])
  }

  /** Each page is received, then Load More is clicked. */
  function Rounds(pages: seq<seq<Api.Quote>>): (es: seq<Event>)
    decreases |pages|
  {
    if pages == [] then [] else [FetchSettles(Resolved(pages[0])), LoadMoreClicked] + Rounds(pages[1..])
  }

  /** The offsets `from + 20`, `from + 40`, ..., one per page. */
  function Windows(from: int, n: nat): (w: seq<int>)
    ensures |w| == n
    decreases n
  {
    if n == 0 then [] else [from + PageSize] + Windows(from + PageSize, n - 1)
  }

  /**
   * With non-empty pages arriving one per window, the accumulated quotes are
   * the pages concatenated in arrival order, and one request goes out per
   * page, each at the next window.
   */
  lemma {:induction false} PagesAccumulateInOrder(r: Run, pages: seq<seq<Api.Quote>>)
    requires r.feed.loading && r.feed.hasMore
    requires forall i :: 0 <= i < |pages| ==> pages[i] != []
    ensures Replay(r, Rounds(pages)).feed.quotes == r.feed.quotes + Flatten(pages)
    ensures Replay(r, Rounds(pages)).feed.loading && Replay(r, Rounds(pages)).feed.hasMore
    ensures Replay(r, Rounds(pages)).requested == r.requested + Windows(r.feed.offset, |pages|)
    ensures Replay(r, Rounds(pages)).feed.offset == r.feed.offset + PageSize * |pages|
    decreases |pages|
  {
    if pages != [] {
      var round := [FetchSettles(Resolved(pages[0])), LoadMoreClicked];
      ReplayAppend(r, round, Rounds(pages[1..]));
      Round(r, pages[0]);
      var next := Replay(r, round);
      PagesAccumulateInOrder(next, pages[1..]);
      assert r.feed.quotes + pages[0] + Flatten(pages[1..]) == r.feed.quotes + Flatten(pages);
      assert r.requested + [r.feed.offset + PageSize] + Windows(r.feed.offset + PageSize, |pages| - 1)
          == r.requested + Windows(r.feed.offset, |pages|);
    }
  }

  /**
   * Two full pages and then an empty one: 40 quotes, the feed ended, exactly
   * three requests sent (at offsets 0, 20, 40), and so it stays whatever follows.
   */
  lemma TwoPagesThenEmpty(p1: seq<Api.Quote>, p2: seq<Api.Quote>, later: seq<Event>)
    requires |p1| == 20 && |p2| == 20
    ensures var r := Replay(Mounted(), Rounds([p1, p2]) + [FetchSettles(Resolved([]))] + later);
      |r.feed.quotes| == 40 && r.feed.quotes == p1 + p2 && !r.feed.hasMore && r.requested == [0, 20, 40]
  {
    var pages := [p1, p2];
    PagesAccumulateInOrder(Mounted(), pages);
    assert Flatten(pages) == p1 + p2 by {
      assert pages[1..] == [p2];
      assert Flatten([p2]) == p2 + Flatten([]);
    }
    assert Windows(0, 2) == [20, 40];
    var afterPages := Replay(Mounted(), Rounds(pages));
    ReplayKeepsGood(Mounted(), Rounds(pages));
    var ended := Replay(afterPages, [FetchSettles(Resolved([]))]);
    assert ended == Step(afterPages, FetchSettles(Resolved([])));
    ReplayAppend(Mounted(), Rounds(pages), [FetchSettles(Resolved([]))]);
    ReplayAppend(Mounted(), Rounds(pages) + [FetchSettles(Resolved([]))], later);
    StepKeepsGood(afterPages, FetchSettles(Resolved([])));
    ExhaustedIsTerminal(ended, later);
  }

  /**
   * A failed fetch is not retried at its window: the only thing that fetches
   * again is Load More, which first moves on by 20, so offset 0 is never requested again.
   */
  lemma FailedWindowIsSkipped(later: seq<Event>)
    ensures Replay(Mounted(), [FetchSettles(Rejected), LoadMoreClicked]).requested == [0, 20]
    ensures var r := Replay(Mounted(), [FetchSettles(Rejected), LoadMoreClicked] + later);
      forall i :: 1 <= i < |r.requested| ==> r.requested[i] != 0
  {
    var first := [FetchSettles(Rejected), LoadMoreClicked];
    assert first[1..] == [LoadMoreClicked];
    assert first[1..][1..] == [];
    var mid := Replay(Mounted(), first);
    assert mid.requested == [0, 20];
    ReplayAppend(Mounted(), first, later);
    RequestsOnlyGrow(mid, later);
    ReplayKeepsGood(Mounted(), first + later);
    var r := Replay(mid, later);
    assert r.requested[0] == 0;
    forall i | 1 <= i < |r.requested|
      ensures r.requested[i] != 0
    {
      assert r.requested[0] < r.requested[i];
    }
  }

  /** In every reachable state an ended feed is not loading, so a hidden button is never a disabled one. */
  lemma RenderConditions(events: seq<Event>)
    ensures var f := Replay(Mounted(), events).feed;
      !ShowsLoadMore(f) ==> !LoadMoreDisabled(f) && (ShowsEmptyMessage(f) <==> f.quotes == [])
  {
    ReplayKeepsGood(Mounted(), events);
  }

  /**
   * While the first fetch is in flight neither the empty message nor an enabled
   * button shows; an empty first page shows the message and hides the button.
   */
  lemma EmptyFeedMessage()
    ensures !ShowsEmptyMessage(Mounted().feed) && ShowsLoadMore(Mounted().feed) && LoadMoreDisabled(Mounted().feed)
    ensures var f := Replay(Mounted(), [FetchSettles(Resolved([]))]).feed;
      ShowsEmptyMessage(f) && !ShowsLoadMore(f)
    ensures var f := Replay(Mounted(), [FetchSettles(Rejected)]).feed;
      ShowsEmptyMessage(f) && ShowsLoadMore(f) && !LoadMoreDisabled(f)
  {
    assert [FetchSettles(Resolved([]))][1..] == [];
    assert [FetchSettles(Rejected)][1..] == [];
  }

  // ---------------------------------------------------------------------------
  // The page component itself.

  class QuoteListPage {
    var quotes: seq<Api.Quote>
    var offset: int
    var hasMore: bool
    var loading: bool

    function State(): Feed
      reads this
    {
      Feed(quotes, offset, hasMore, loading)
    }

    constructor ()
      ensures State() == Initial()
    {
      quotes := [];
      offset := 0;
      hasMore := true;
      loading := false;
    }

    /** The begin step of `fetchQuotes`; returns the request it sends. */
    method FetchQuotes(store: Storage.SessionStore) returns (request: Option<Api.Request>)
      modifies this
      ensures State() == BeginFetch(old(State()))
      ensures request == FetchRequest(store.items, old(State()))
    {
      if !hasMore || loading {
        return None;
      }
      loading := true;
      request := Some(Api.GetQuotes(store.items, Some(PageSize), Some(offset)));
    }

    /** The settle step of `fetchQuotes`, once the request it sent has settled with `result`. */
    method FetchSettled(result: Settled<seq<Api.Quote>>)
      requires loading
      modifies this
      ensures State() == SettleFetch(old(State()), result)
    {
      match result {
        case Resolved(fetched) =>
          if |fetched| == 0 {
            hasMore := false;
          } else {
            quotes := quotes + fetched;
          }
        case Rejected =>
      }
      loading := false;
    }

    method LoadMore()
      modifies this
      ensures State() == AfterLoadMore(old(State()))
    {
      offset := offset + PageSize;
    }

    /** A click on Load More: `loadMore`, then the effect that runs `fetchQuotes` on the new offset. */
    method OnLoadMoreClick(store: Storage.SessionStore) returns (request: Option<Api.Request>)
      modifies this
      ensures State() == BeginFetch(AfterLoadMore(old(State())))
      ensures request == FetchRequest(store.items, AfterLoadMore(old(State())))
    {
      LoadMore();
      request := FetchQuotes(store);
    }
  }
}
