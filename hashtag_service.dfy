/** The trending-hashtag query: the five hashtags with the most posts. A
    returned store error is logged and gives `[]`. */
module HashtagService {
  import opened Outcomes

  datatype Hashtag = Hashtag(name: string, tweetCount: int)

  /** A select on the `hashtags` table: columns, ordering and row limit. */
  datatype HashtagQuery = HashtagQuery(table: string, columns: string, orderBy: string, ascending: bool, limit: nat)

  /** `name, tweet_count`, by `tweet_count` descending, at most five rows. */
  const TrendingQuery := HashtagQuery("hashtags", "name, tweet_count", "tweet_count", false, 5)

  /** `getTrending()`, with the awaited select's reply. A returned error gives
      `[]`; otherwise the rows come back as the store ordered them, or `[]`
      for `null` data. Only a rejected request makes it throw. */
  function GetTrending(reply: Reply<seq<Hashtag>>): (r: Settled<seq<Hashtag>>)
    ensures r.Threw? <==> reply.Rejected?
    ensures r.Threw? ==> r.error == reply.reason
    ensures reply.Resolved? && reply.error.Some? ==> r == Returned([])
    ensures reply.Resolved? && reply.error.None? && reply.data.Some? ==> r == Returned(reply.data.value)
    ensures reply.Resolved? && reply.error.None? && reply.data.None? ==> r == Returned([])
  {
    match reply
    case Rejected(e) => Threw(e)
    case Resolved(data, error) =>
      if error.Some? then Returned([]) else Returned(data.GetOr([]))
  }

  /** Whether `getTrending` logs the store error. */
  predicate LogsError(reply: Reply<seq<Hashtag>>) {
    reply.Resolved? && reply.error.Some?
  }

  /** A returned error is never thrown: every resolved reply gives a list,
      and a non-empty list only comes from a reply without error. */
  lemma ReturnedErrorNeverThrows(reply: Reply<seq<Hashtag>>)
    requires reply.Resolved?
    ensures GetTrending(reply).Returned?
    ensures GetTrending(reply).value != [] ==> !LogsError(reply) && reply.data == Some(GetTrending(reply).value)
  {
  }
}
