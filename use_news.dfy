/** The `useNews` hook: it asks the news client for the top headlines on
    mount and then on every interval tick, and replaces its list with the
    result, which is `[]` when the request failed. */
module UseNews {
  import opened Outcomes
  import Events
  import Interval
  import NewsService

  datatype HookState = HookState(news: seq<NewsService.NewsItem>, interval: Option<nat>)

  /** A lifecycle event, or the value of an awaited `getTopNews` call (which
      never throws). */
  datatype Event =
    | Lifecycle(e: Interval.Lifecycle)
    | Returns(items: seq<NewsService.NewsItem>)

  function Step(s: HookState, e: Event): HookState {
    match e
    case Lifecycle(l) => s.(interval := Interval.After(s.interval, l))
    case Returns(items) => s.(news := items)
  }

  /** The list an event puts on screen: every call's result. */
  function ShownNews(e: Event): Option<seq<NewsService.NewsItem>> {
    if e.Returns? then Some(e.items) else None
  }

  /** After any events the list is the result of the last call, or what it
      was before when no call has returned. */
  lemma ShowsLastResult(s: HookState, events: seq<Event>)
    ensures Events.Run(Step, s, events).news == Events.Last(ShownNews, events).GetOr(s.news)
  {
    Events.ShowsLast(Step, (t: HookState) => t.news, ShownNews, s, events);
  }

  /** A refresh whose request fails empties the list. */
  lemma FailedRefreshEmpties(s: HookState, isUrl: string -> bool)
    ensures Step(s, Returns(NewsService.GetTopNews(isUrl, NewsService.NetworkError))).news == []
  {
    NewsService.TransportFailureGivesEmpty(isUrl);
  }

  class UseNews {
    var news: seq<NewsService.NewsItem>
    var interval: Option<nat>

    function State(): HookState
      reads this
    {
      HookState(news, interval)
    }

    constructor ()
      ensures State() == HookState([], None)
    {
      news, interval := [], None;
    }

    /** The effect's first run: one request, then the interval. */
    method Mount() returns (request: NewsService.NewsRequest)
      modifies this
      ensures State() == Step(old(State()), Lifecycle(Interval.Mount))
      ensures interval == Some(Interval.RefreshMs)
      ensures request == NewsService.TopHeadlines
    {
      request := NewsService.TopHeadlines;
      interval := Some(Interval.RefreshMs);
    }

    /** An interval tick: another request while the interval is registered. */
    method Tick() returns (fetched: bool, request: Option<NewsService.NewsRequest>)
      modifies this
      ensures State() == Step(old(State()), Lifecycle(Interval.Tick))
      ensures fetched == Interval.Fetches(old(interval), Interval.Tick)
      ensures request == (if fetched then Some(NewsService.TopHeadlines) else None)
    {
      fetched := interval.Some?;
      request := if fetched then Some(NewsService.TopHeadlines) else None;
    }

    /** The awaited `getTopNews` result: `setNews(data)`. */
    method Receive(items: seq<NewsService.NewsItem>)
      modifies this
      ensures State() == Step(old(State()), Returns(items))
      ensures news == items && interval == old(interval)
    {
      news := items;
    }

    /** The effect cleanup: `clearInterval`. */
    method Unmount()
      modifies this
      ensures State() == Step(old(State()), Lifecycle(Interval.Unmount))
      ensures interval == None
    {
      interval := None;
    }
  }
}
