/** The single-file trending panel: it queries the hashtags itself and the
    news through the news client, once on mount and then on every interval
    tick, until unmount clears the interval. The two lists are fed by
    separate fetches: a hashtag answer without data keeps the old list,
    while the news list always takes what the news client returned, which
    is `[]` on failure. */
module TrendingTopics {
  import opened Outcomes
  import Events
  import Interval
  import HashtagService
  import NewsService

  datatype PanelState = PanelState(
    trending: seq<HashtagService.Hashtag>,
    news: seq<NewsService.NewsItem>,
    interval: Option<nat>)

  /** Something that happens to the panel: a lifecycle event, or the answer of
      one of its two fetches (possibly late, after unmount). */
  datatype Event =
    | Lifecycle(e: Interval.Lifecycle)
    | TrendingAnswered(reply: Reply<seq<HashtagService.Hashtag>>)
    | NewsAnswered(items: seq<NewsService.NewsItem>)

  /** `fetchTrending`'s continuation: `if (data) setTrending(data)`. An error
      is not looked at (data that comes with one is still shown), and a
      rejected query is unhandled. */
  function AfterTrending(trending: seq<HashtagService.Hashtag>, reply: Reply<seq<HashtagService.Hashtag>>): (r: seq<HashtagService.Hashtag>)
    ensures reply.Resolved? && reply.data.Some? ==> r == reply.data.value
    ensures reply.Rejected? || reply.data.None? ==> r == trending
    ensures r != trending ==> reply.Resolved? && reply.data == Some(r)
  {
    if reply.Resolved? && reply.data.Some? then reply.data.value else trending
  }

  function Step(s: PanelState, e: Event): PanelState {
    match e
    case Lifecycle(l) => s.(interval := Interval.After(s.interval, l))
    case TrendingAnswered(reply) => s.(trending := AfterTrending(s.trending, reply))
    case NewsAnswered(items) => s.(news := items)
  }

  /** The hashtags an event puts on screen: the data of a hashtag answer
      that has data. */
  function ShownTrending(e: Event): Option<seq<HashtagService.Hashtag>> {
    if e.TrendingAnswered? && e.reply.Resolved? && e.reply.data.Some? then e.reply.data else None
  }

  /** The news an event puts on screen: every news answer's items. */
  function ShownNews(e: Event): Option<seq<NewsService.NewsItem>> {
    if e.NewsAnswered? then Some(e.items) else None
  }

  /** After any events, the hashtag list is the data of the last answer that
      had data, and the news list is the last news answer; each list depends
      only on its own fetch's answers. */
  lemma ListsFollowTheirOwnAnswers(s: PanelState, events: seq<Event>)
    ensures Events.Run(Step, s, events).trending == Events.Last(ShownTrending, events).GetOr(s.trending)
    ensures Events.Run(Step, s, events).news == Events.Last(ShownNews, events).GetOr(s.news)
  {
    Events.ShowsLast(Step, (t: PanelState) => t.trending, ShownTrending, s, events);
    Events.ShowsLast(Step, (t: PanelState) => t.news, ShownNews, s, events);
  }

  /** Failure isolation within one cycle: a hashtag answer without data
      keeps the old hashtags while the news still updates, and a failed news
      fetch empties the news while the hashtags still update. */
  lemma FailuresAreIsolated(s: PanelState, isUrl: string -> bool, response: NewsService.NewsResponse,
                            error: Error, rows: seq<HashtagService.Hashtag>)
    ensures var t := Step(Step(s, TrendingAnswered(Resolved(None, Some(error)))), NewsAnswered(NewsService.GetTopNews(isUrl, response)));
            t.trending == s.trending && t.news == NewsService.GetTopNews(isUrl, response)
    ensures var t := Step(Step(s, TrendingAnswered(Resolved(Some(rows), None))), NewsAnswered(NewsService.GetTopNews(isUrl, NewsService.NetworkError)));
            t.trending == rows && t.news == []
  {
    NewsService.TransportFailureGivesEmpty(isUrl);
  }

  class TrendingTopics {
    var trending: seq<HashtagService.Hashtag>
    var news: seq<NewsService.NewsItem>
    /** The registered interval's period, or none. */
    var interval: Option<nat>

    function State(): PanelState
      reads this
    {
      PanelState(trending, news, interval)
    }

    constructor ()
      ensures State() == PanelState([], [], None)
    {
      trending, news, interval := [], [], None;
    }

    /** The mount effect: one hashtag query and one news request, then the
        interval. */
    method Mount() returns (query: HashtagService.HashtagQuery, request: NewsService.NewsRequest)
      modifies this
      ensures State() == Step(old(State()), Lifecycle(Interval.Mount))
      ensures interval == Some(Interval.RefreshMs)
      ensures query == HashtagService.TrendingQuery && request == NewsService.TopHeadlines
    {
      query, request := HashtagService.TrendingQuery, NewsService.TopHeadlines;
      interval := Some(Interval.RefreshMs);
    }

    /** An interval tick: both fetches again, while the interval is registered. */
    method Tick() returns (fetched: bool, query: Option<HashtagService.HashtagQuery>, request: Option<NewsService.NewsRequest>)
      modifies this
      ensures State() == Step(old(State()), Lifecycle(Interval.Tick))
      ensures fetched == Interval.Fetches(old(interval), Interval.Tick)
      ensures query == (if fetched then Some(HashtagService.TrendingQuery) else None)
      ensures request == (if fetched then Some(NewsService.TopHeadlines) else None)
    {
      fetched := interval.Some?;
      query, request := None, None;
      if fetched {
        query, request := Some(HashtagService.TrendingQuery), Some(NewsService.TopHeadlines);
      }
    }

    /** The hashtag query's answer. */
    method TrendingArrived(reply: Reply<seq<HashtagService.Hashtag>>)
      modifies this
      ensures State() == Step(old(State()), TrendingAnswered(reply))
      ensures news == old(news) && interval == old(interval)
    {
      if reply.Resolved? && reply.data.Some? {
        trending := reply.data.value;
      }
    }

    /** The news client's answer (it never rejects). */
    method NewsArrived(items: seq<NewsService.NewsItem>)
      modifies this
      ensures State() == Step(old(State()), NewsAnswered(items))
      ensures trending == old(trending) && interval == old(interval)
    {
      news := items;
    }

    /** The effect cleanup: `clearInterval`. */
    method Unmount()
      modifies this
      ensures State() == Step(old(State()), Lifecycle(Interval.Unmount))
      ensures interval == None
    {
      interval := None;
    }
  }
}
