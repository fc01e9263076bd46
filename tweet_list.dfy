/** The feed list: it fetches every post, newest first, when it mounts and
    whenever its `refresh` prop changes, and replaces the displayed list with
    each successful answer. A failed answer is logged and keeps the list.
    The home page bumps `refresh` after each new post. */
module TweetList {
  import opened Outcomes
  import Events
  import Tweet

  /** The props a parent may pass. The component reads only `refresh`. */
  datatype Props = Props(refresh: Option<int>, userId: Option<string>)

  /** The feed select: table, ordering column and direction, author filter. */
  datatype FeedQuery = FeedQuery(table: string, orderBy: string, ascending: bool, authorFilter: Option<string>)

  /** The query the effect issues: all posts, newest `created_at` first. */
  function QueryFor(props: Props): (q: FeedQuery)
    ensures q.table == "tweets" && q.orderBy == "created_at" && !q.ascending
    ensures q.authorFilter == None
  {
    FeedQuery("tweets", "created_at", false, None)
  }

  /** A `userId` prop makes no difference to what is fetched. */
  lemma QueryIgnoresUserId(refresh: Option<int>, userId: Option<string>)
    ensures QueryFor(Props(refresh, userId)) == QueryFor(Props(refresh, None))
  {
  }

  /** The list's state: the rows shown, the loading flag and the `refresh`
      value the last effect run saw. */
  datatype ListState = ListState(tweets: seq<Tweet.TweetRow>, loading: bool, refresh: Option<int>)

  /** Something that happens to a mounted list: a re-render with new props, or
      the answer to a fetch. */
  datatype Event = Rerendered(props: Props) | Answered(reply: Reply<seq<Tweet.TweetRow>>)

  predicate Succeeded(reply: Reply<seq<Tweet.TweetRow>>) {
    reply.Resolved? && reply.error.None?
  }

  /** The rows a successful answer shows: its data, or `[]` for `null`. */
  function RowsOf(reply: Reply<seq<Tweet.TweetRow>>): seq<Tweet.TweetRow>
    requires Succeeded(reply)
  {
    reply.data.GetOr([])
  }

  /** `fetchTweets`'s continuation: replace on success, keep on failure, and
      stop loading either way. */
  function AfterReceive(s: ListState, reply: Reply<seq<Tweet.TweetRow>>): (t: ListState)
    ensures !t.loading && t.refresh == s.refresh
    ensures Succeeded(reply) ==> t.tweets == RowsOf(reply)
    ensures !Succeeded(reply) ==> t.tweets == s.tweets
  {
    s.(tweets := if Succeeded(reply) then RowsOf(reply) else s.tweets, loading := false)
  }

  /** The effect's dependency check: a re-render refetches iff `refresh` changed. */
  predicate RefetchOn(s: ListState, props: Props) {
    props.refresh != s.refresh
  }

  function Step(s: ListState, e: Event): ListState {
    match e
    case Rerendered(props) => s.(refresh := props.refresh)
    case Answered(reply) => AfterReceive(s, reply)
  }

  /** The rows an event puts on screen: those of a successful answer. */
  function ShownRows(e: Event): Option<seq<Tweet.TweetRow>> {
    if e.Answered? && Succeeded(e.reply) then Some(RowsOf(e.reply)) else None
  }

  /** After any sequence of events the list shows exactly the rows of the
      last successful answer, or what it showed before if none succeeded. */
  lemma ShowsLastSuccess(s: ListState, events: seq<Event>)
    ensures Events.Run(Step, s, events).tweets == Events.Last(ShownRows, events).GetOr(s.tweets)
  {
    Events.ShowsLast(Step, (t: ListState) => t.tweets, ShownRows, s, events);
  }

  /** Once loading has stopped it never starts again. */
  lemma {:induction false} LoadingNeverReturns(s: ListState, events: seq<Event>)
    requires !s.loading
    ensures !Events.Run(Step, s, events).loading
  {
    Events.Preserves(Step, (t: ListState) => !t.loading, s, events);
  }

  class TweetList {
    var tweets: seq<Tweet.TweetRow>
    var loading: bool
    var refresh: Option<int>

    function State(): ListState
      reads this
    {
      ListState(tweets, loading, refresh)
    }

    /** The first render. */
    constructor (props: Props)
      ensures State() == ListState([], true, props.refresh)
    {
      tweets, loading, refresh := [], true, props.refresh;
    }

    /** The effect's first run, after mounting: one fetch. */
    method Mount() returns (query: FeedQuery)
      ensures query == QueryFor(Props(refresh, None))
    {
      query := QueryFor(Props(refresh, None));
    }

    /** A re-render with new props: the effect runs again iff `refresh` changed. */
    method Rerender(props: Props) returns (query: Option<FeedQuery>)
      modifies this
      ensures State() == Step(old(State()), Rerendered(props))
      ensures query.Some? <==> RefetchOn(old(State()), props)
      ensures query.Some? ==> query.value == QueryFor(props)
    {
      query := if props.refresh != refresh then Some(QueryFor(props)) else None;
      refresh := props.refresh;
    }

    /** The awaited feed select's answer. */
    method Receive(reply: Reply<seq<Tweet.TweetRow>>) returns (logged: bool)
      modifies this
      ensures State() == Step(old(State()), Answered(reply))
      ensures logged <==> !Succeeded(reply)
    {
      logged := !Succeeded(reply);
      if !logged {
        tweets := RowsOf(reply);
      }
      loading := false;
    }
  }

  /** The home page's refresh counter. */
  class Home {
    var refreshKey: int

    constructor ()
      ensures refreshKey == 0
    {
      refreshKey := 0;
    }

    /** `handleTweetCreated`, the post form's `onTweetCreated`. */
    method HandleTweetCreated()
      modifies this
      ensures refreshKey == old(refreshKey) + 1
    {
      refreshKey := refreshKey + 1;
    }

    function ListProps(): Props
      reads this
    {
      Props(Some(refreshKey), None)
    }
  }

  /** A new post reaches the list: the home page bumps its key, and the
      list, re-rendered with the new props, refetches the feed. */
  method NewPostRefetches(home: Home, list: TweetList) returns (query: Option<FeedQuery>)
    requires list.refresh == Some(home.refreshKey)
    modifies home, list
    ensures home.refreshKey == old(home.refreshKey) + 1
    ensures list.refresh == Some(home.refreshKey)
    ensures query == Some(QueryFor(home.ListProps()))
  {
    home.HandleTweetCreated();
    query := list.Rerender(home.ListProps());
  }
}
