/** The news client: one request for top headlines, validated as a whole
    against the article schema. Any failure (network, a body that is not
    JSON, a payload that does not validate) is logged and gives `[]`; the
    function never throws. */
module NewsService {
  import opened Outcomes

  /** A parsed JSON value. Object members keep their order; a repeated key
      is read from its last occurrence, as `JSON.parse` does. */
  datatype Json =
    | JNull
    | JBool(b: bool)
    | JNumber(n: real)
    | JString(s: string)
    | JArray(items: seq<Json>)
    | JObject(members: seq<(string, Json)>)

  /** A validated article, with the fields the schema keeps. */
  datatype NewsItem = NewsItem(title: string, description: string, url: string, publishedAt: string, sourceName: string)

  /** The request: English headlines, at most five (the API key is
      configuration and is not modelled). */
  datatype NewsRequest = NewsRequest(lang: string, max: nat)

  const TopHeadlines := NewsRequest("en", 5)

  /** How the HTTP exchange ended: `fetch` rejected, or a body arrived that
      `response.json()` parsed (`Some`) or could not parse (`None`). */
  datatype NewsResponse = NetworkError | Body(json: Option<Json>)

  /** Property read on an object's members: the value of the key's last
      occurrence, or none when the key does not occur. */
  function Get(members: seq<(string, Json)>, key: string): (v: Option<Json>)
    ensures v.Some? ==> exists i :: 0 <= i < |members| && members[i] == (key, v.value)
                                    && forall j :: i < j < |members| ==> members[j].0 != key
    ensures v.None? ==> forall i :: 0 <= i < |members| ==> members[i].0 != key
    decreases |members|
  {
    if members == [] then None
    else if members[|members| - 1].0 == key then Some(members[|members| - 1].1)
    else
      var v := Get(members[..|members| - 1], key);
      assert forall i :: 0 <= i < |members| - 1 ==> members[..|members| - 1][i] == members[i];
      v
  }

  /** A repeated key reads as its last occurrence. */
  lemma DuplicateKeyLastWins(key: string, first: Json, last: Json)
    ensures Get([(key, first), (key, last)], key) == Some(last)
    ensures Get([(key, first), (key + "x", last)], key) == Some(first)
  {
    assert [(key, first), (key + "x", last)][..1] == [(key, first)];
  }

  predicate IsString(v: Option<Json>) {
    v.Some? && v.value.JString?
  }

  /** The string at `key`, or `""` when there is none. */
  function StringAt(members: seq<(string, Json)>, key: string): string {
    var v := Get(members, key);
    if IsString(v) then v.value.s else ""
  }

  /** `newsItemSchema`: an object whose title, description and publishedAt
      are strings, whose url is a string passing the URL check, and whose
      source is an object with a string name. Other members are ignored. */
  predicate ValidArticle(isUrl: string -> bool, v: Json) {
    && v.JObject?
    && IsString(Get(v.members, "title"))
    && IsString(Get(v.members, "description"))
    && IsString(Get(v.members, "url")) && isUrl(StringAt(v.members, "url"))
    && IsString(Get(v.members, "publishedAt"))
    && var source := Get(v.members, "source");
       source.Some? && source.value.JObject? && IsString(Get(source.value.members, "name"))
  }

  /** What the schema outputs for an article: the five fields it keeps. */
  function ToItem(v: Json): NewsItem {
    if !v.JObject? then NewsItem("", "", "", "", "")
    else
      var source := Get(v.members, "source");
      NewsItem(
        StringAt(v.members, "title"),
        StringAt(v.members, "description"),
        StringAt(v.members, "url"),
        StringAt(v.members, "publishedAt"),
        if source.Some? && source.value.JObject? then StringAt(source.value.members, "name") else "")
  }

  /** An article the schema accepts is an object, and the item it outputs
      holds exactly the strings found under its keys, with a URL that passes
      the URL check. */
  lemma ValidArticleFields(isUrl: string -> bool, v: Json)
    requires ValidArticle(isUrl, v)
    ensures v.JObject? && var item := ToItem(v);
            && Get(v.members, "title") == Some(JString(item.title))
            && Get(v.members, "description") == Some(JString(item.description))
            && Get(v.members, "url") == Some(JString(item.url)) && isUrl(item.url)
            && Get(v.members, "publishedAt") == Some(JString(item.publishedAt))
            && var source := Get(v.members, "source");
               source.Some? && source.value.JObject?
               && Get(source.value.members, "name") == Some(JString(item.sourceName))
  {
  }

  /** `z.array(newsItemSchema)` on a list of elements: all of them, in order,
      or nothing at all. */
  function ParseArticles(isUrl: string -> bool, items: seq<Json>): (r: Option<seq<NewsItem>>)
    ensures r.Some? <==> forall i :: 0 <= i < |items| ==> ValidArticle(isUrl, items[i])
    ensures r.Some? ==> |r.value| == |items| && forall i :: 0 <= i < |items| ==> r.value[i] == ToItem(items[i])
    decreases |items|
  {
    if items == [] then Some([])
    else if !ValidArticle(isUrl, items[0]) then None
    else
      var rest := ParseArticles(isUrl, items[1..]);
      assert forall i :: 1 <= i < |items| ==> items[1..][i - 1] == items[i];
      if rest.None? then None else Some([ToItem(items[0])] + rest.value)
  }

  /** `data.articles`: `None` when reading it throws (`data` is `null`) or
      gives `undefined` (a non-object, or no such member). */
  function ArticlesOf(data: Json): Option<Json> {
    if data.JObject? then Get(data.members, "articles") else None
  }

  /** The body of the `try`: `None` where it throws. */
  function Parse(isUrl: string -> bool, response: NewsResponse): Option<seq<NewsItem>> {
    if response.NetworkError? || response.json.None? then None
    else
      var articles := ArticlesOf(response.json.value);
      if articles.None? || !articles.value.JArray? then None
      else ParseArticles(isUrl, articles.value.items)
  }

  /** The payload `getTopNews` accepts: a JSON body that is an object whose
      `articles` member is an array of valid articles. */
  predicate Deliverable(isUrl: string -> bool, response: NewsResponse) {
    && response.Body? && response.json.Some?
    && ArticlesOf(response.json.value).Some? && ArticlesOf(response.json.value).value.JArray?
    && var items := ArticlesOf(response.json.value).value.items;
       forall i :: 0 <= i < |items| ==> ValidArticle(isUrl, items[i])
  }

  /** `getTopNews()`: all or nothing. The headlines come back, in the
      provider's order and with the same count, exactly when the payload is
      deliverable; otherwise the result is empty. */
  function GetTopNews(isUrl: string -> bool, response: NewsResponse): (r: seq<NewsItem>)
    ensures !Deliverable(isUrl, response) ==> r == []
    ensures Deliverable(isUrl, response) ==>
              var items := ArticlesOf(response.json.value).value.items;
              |r| == |items| && forall i :: 0 <= i < |items| ==> r[i] == ToItem(items[i])
  {
    Parse(isUrl, response).GetOr([])
  }

  /** Whether `getTopNews` logs a failure: exactly when the payload is not
      deliverable. */
  predicate LogsFailure(isUrl: string -> bool, response: NewsResponse): (logged: bool)
    ensures logged <==> !Deliverable(isUrl, response)
  {
    Parse(isUrl, response).None?
  }

  /** One invalid article empties the whole result. */
  lemma OneInvalidEmptiesAll(isUrl: string -> bool, data: Json, items: seq<Json>, k: nat)
    requires ArticlesOf(data) == Some(JArray(items))
    requires k < |items| && !ValidArticle(isUrl, items[k])
    ensures GetTopNews(isUrl, Body(Some(data))) == []
    ensures LogsFailure(isUrl, Body(Some(data)))
  {
  }

  /** A failed request or a body that is not JSON gives `[]`. */
  lemma TransportFailureGivesEmpty(isUrl: string -> bool)
    ensures GetTopNews(isUrl, NetworkError) == [] && LogsFailure(isUrl, NetworkError)
    ensures GetTopNews(isUrl, Body(None)) == [] && LogsFailure(isUrl, Body(None))
  {
  }

  /** An article whose `source` has no `name` is rejected, so a payload
      holding it yields `[]`. */
  lemma MissingSourceNameRejected(isUrl: string -> bool, title: string, url: string)
    requires isUrl(url)
    ensures var article := JObject([("title", JString(title)), ("description", JString("")), ("url", JString(url)),
                                    ("publishedAt", JString("")), ("source", JObject([]))]);
            !ValidArticle(isUrl, article)
            && GetTopNews(isUrl, Body(Some(JObject([("articles", JArray([article]))])))) == []
  {
    var article := JObject([("title", JString(title)), ("description", JString("")), ("url", JString(url)),
                            ("publishedAt", JString("")), ("source", JObject([]))]);
    assert Get(article.members, "source") == Some(JObject([]));
    assert !ValidArticle(isUrl, article);
    var data := JObject([("articles", JArray([article]))]);
    assert ArticlesOf(data) == Some(JArray([article]));
    OneInvalidEmptiesAll(isUrl, data, [article], 0);
  }
}
