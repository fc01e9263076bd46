/** The `useHashtags` hook: it asks the hashtag service for the trending
    list on mount and then on every interval tick, and replaces its list
    with whatever the service returned. Because the service turns a store
    error into `[]`, a failed refresh empties the list. */
module UseHashtags {
  import opened Outcomes
  import Events
  import Interval
  import HashtagService
  import TrendingTopics

  datatype HookState = HookState(hashtags: seq<HashtagService.Hashtag>, interval: Option<nat>)

  /** A lifecycle event, or how an awaited `getTrending` call settled. */
  datatype Event =
    | Lifecycle(e: Interval.Lifecycle)
    | Settles(outcome: Settled<seq<HashtagService.Hashtag>>)

  /** `setHashtags(data)` after the await; a thrown call never reaches it. */
  function Step(s: HookState, e: Event): HookState {
    match e
    case Lifecycle(l) => s.(interval := Interval.After(s.interval, l))
    case Settles(outcome) => if outcome.Returned? then s.(hashtags := outcome.value) else s
  }

  /** The list an event puts on screen: the value of a call that returned. */
  function ShownHashtags(e: Event): Option<seq<HashtagService.Hashtag>> {
    if e.Settles? && e.outcome.Returned? then Some(e.outcome.value) else None
  }

  /** Wholesale replacement: after any events the list is exactly the value
      of the last call that returned, whatever came before it. */
  lemma ShowsLastReturned(s: HookState, events: seq<Event>)
    ensures Events.Run(Step, s, events).hashtags == Events.Last(ShownHashtags, events).GetOr(s.hashtags)
  {
    Events.ShowsLast(Step, (t: HookState) => t.hashtags, ShownHashtags, s, events);
  }

  /** A refresh whose select returns a store error empties the list. */
  lemma StoreErrorEmpties(s: HookState, data: Option<seq<HashtagService.Hashtag>>, error: Error)
    ensures Step(s, Settles(HashtagService.GetTrending(Resolved(data, Some(error))))).hashtags == []
  {
  }

  /** The two trending panels part ways on a store error: the single-file
      panel keeps the hashtags it showed, while the hook-based one (this hook)
      clears them, whenever there was something to show. */
  lemma PanelsDisagreeOnStoreError(panel: TrendingTopics.PanelState, hook: HookState, error: Error)
    requires panel.trending == hook.hashtags && hook.hashtags != []
    ensures TrendingTopics.Step(panel, TrendingTopics.TrendingAnswered(Resolved(None, Some(error)))).trending == panel.trending
    ensures Step(hook, Settles(HashtagService.GetTrending(Resolved(None, Some(error))))).hashtags == []
    ensures TrendingTopics.Step(panel, TrendingTopics.TrendingAnswered(Resolved(None, Some(error)))).trending
         != Step(hook, Settles(HashtagService.GetTrending(Resolved(None, Some(error))))).hashtags
  {
  }

  class UseHashtags {
    var hashtags: seq<HashtagService.Hashtag>
    var interval: Option<nat>

    function State(): HookState
      reads this
    {
      HookState(hashtags, interval)
    }

    constructor ()
      ensures State() == HookState([], None)
    {
      hashtags, interval := [], None;
    }

    /** The effect's first run: one call, then the interval. */
    method Mount() returns (query: HashtagService.HashtagQuery)
      modifies this
      ensures State() == Step(old(State()), Lifecycle(Interval.Mount))
      ensures interval == Some(Interval.RefreshMs)
      ensures query == HashtagService.TrendingQuery
    {
      query := HashtagService.TrendingQuery;
      interval := Some(Interval.RefreshMs);
    }

    /** An interval tick: another call while the interval is registered. */
    method Tick() returns (fetched: bool, query: Option<HashtagService.HashtagQuery>)
      modifies this
      ensures State() == Step(old(State()), Lifecycle(Interval.Tick))
      ensures fetched == Interval.Fetches(old(interval), Interval.Tick)
      ensures query == (if fetched then Some(HashtagService.TrendingQuery) else None)
    {
      fetched := interval.Some?;
      query := if fetched then Some(HashtagService.TrendingQuery) else None;
    }

    /** How the awaited `getTrending` settled. */
    method Receive(outcome: Settled<seq<HashtagService.Hashtag>>)
      modifies this
      ensures State() == Step(old(State()), Settles(outcome))
      ensures outcome.Returned? ==> hashtags == outcome.value
      ensures interval == old(interval)
    {
      if outcome.Returned? {
        hashtags := outcome.value;
      }
    }

    /** The effect cleanup: `clearInterval`. */
    method Unmount()
      modifies this
      ensures State() == Step(old(State()), Lifecycle(Interval.Unmount))
      ensures interval == None
    {
      interval := None;
    }
  }
}
