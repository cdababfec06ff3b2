/** The mocked MCP server (`MCPServer` in agent.ts): `callTool` dispatches on
    the tool name to four tools that fabricate results, and rejects every
    other name. */
module McpServer {
  import opened Wrappers
  import opened Text
  import opened Content

  const TwitterSearchTool: string := "twitter.search"
  const YouTubeSearchTool: string := "youtube.search"
  const WebSearchTool: string := "web.search"
  const UIComponentTool: string := "ui.getComponent"

  const KnownTools: set<string> := {TwitterSearchTool, YouTubeSearchTool, WebSearchTool, UIComponentTool}

  /** The `parameters` object; an absent property is `None` (`undefined`). */
  datatype Params = Params(query: Option<string>, componentType: Option<string>, data: Option<Value>)

  /** What a template literal prints for a possibly undefined string. */
  function Show(s: Option<string>): string {
    match s
    case Some(v) => v
    case None => "undefined"
  }

  const DayMs: nat := 86400000

  /** The error `query.toLowerCase()` raises when `query` is undefined. */
  const UndefinedQueryError: string := "Cannot read properties of undefined (reading 'toLowerCase')"

  function UnknownToolError(name: string): string {
    "Unknown tool: " + name
  }

  // ---------------------------------------------------------------------------
  // twitter.search
  // ---------------------------------------------------------------------------

  function MockTweet0(q: string, d: TweetDraw, now: Time): Tweet {
    Tweet("user_" + d.handle,
          "Interesting thoughts on " + q + "! This could change everything. #innovation",
          Scale(d.likes, 1000), Scale(d.retweets, 100), Ago(now, d.age, DayMs))
  }

  function MockTweet1(q: string, d: TweetDraw, now: Time): Tweet {
    Tweet("expert_" + d.handle,
          "Great analysis of " + q + ". The implications are significant for the industry.",
          Scale(d.likes, 500), Scale(d.retweets, 50), Ago(now, d.age, DayMs))
  }

  /** `mockTwitterSearch`: two posts about the query from the last day. */
  function MockTwitterSearch(query: Option<string>, e: Entropy): (tweets: seq<Tweet>)
    ensures |tweets| == 2
    ensures forall t <- tweets :: Occurs(t.content, Show(query))
    ensures forall t <- tweets :: e.now - DayMs <= t.timestamp <= e.now
    ensures tweets[0].likes < 1000 && tweets[0].retweets < 100
    ensures tweets[1].likes < 500 && tweets[1].retweets < 50
  {
    var q := Show(query);
    OccursInfix("Interesting thoughts on ", q, "! This could change everything. #innovation");
    OccursInfix("Great analysis of ", q, ". The implications are significant for the industry.");
    [MockTweet0(q, e.tweet0, e.now), MockTweet1(q, e.tweet1, e.now)]
  }

  // ---------------------------------------------------------------------------
  // youtube.search
  // ---------------------------------------------------------------------------

  /** `${minutes}:${seconds.toString().padStart(2, '0')}`. */
  function Duration(minutes: nat, seconds: nat): (d: string)
    ensures var k := |NatToString(minutes)|;
      && |d| >= k + 3 && d[k] == ':' && d[..k] == NatToString(minutes)
      && (seconds < 60 ==> |d| == k + 3)
  {
    var m := NatToString(minutes);
    var p := PadStart(NatToString(seconds), 2, '0');
    ColonJoinSplits(m, p);
    if seconds < 60 then SecondsNumeralShort(seconds); m + ":" + p else m + ":" + p
  }

  /** Seconds below a minute print with at most two digits. */
  lemma SecondsNumeralShort(seconds: nat)
    requires seconds < 60
    ensures |NatToString(seconds)| <= 2
  {
    if seconds >= 10 {
      assert NatToString(seconds) == NatToString(seconds / 10) + [DigitChar(seconds % 10)];
    }
  }

  /** `m + ":" + p` splits back at the colon. */
  lemma ColonJoinSplits(m: string, p: string)
    ensures var d := m + ":" + p;
            && |d| == |m| + 1 + |p| && d[|m|] == ':'
            && d[..|m|] == m && d[|m| + 1..] == p
  {
  }

  /** A duration is the minutes' numeral, a colon, and the padded seconds. */
  lemma DurationLayout(minutes: nat, seconds: nat)
    requires seconds < 60
    ensures var d := Duration(minutes, seconds);
            var k := |NatToString(minutes)|;
            && |d| == k + 3 && d[k] == ':'
            && d[..k] == NatToString(minutes)
            && d[k + 1..] == PadStart(NatToString(seconds), 2, '0')
  {
    var m := NatToString(minutes);
    var p := PadStart(NatToString(seconds), 2, '0');
    assert Duration(minutes, seconds) == m + ":" + p;
    SecondsNumeralShort(seconds);
    ColonJoinSplits(m, p);
  }

  /** A duration reads back as its minutes, a colon, and two digits of
      seconds. */
  lemma DurationReadsBack(minutes: nat, seconds: nat)
    requires seconds < 60
    ensures var d := Duration(minutes, seconds);
            var k := |NatToString(minutes)|;
            && |d| == k + 3 && d[k] == ':'
            && AllDigits(d[..k]) && ParseDigits(d[..k]) == minutes
            && AllDigits(d[k + 1..]) && ParseDigits(d[k + 1..]) == seconds
  {
    DurationLayout(minutes, seconds);
    ParseNatToString(minutes);
    ParseNatToString(seconds);
    ParsePadded(NatToString(seconds), 2);
  }

  function MockVideo0(q: string, d: VideoDraw): (v: Video)
    ensures Occurs(v.title, q) && v.views < 100000
  {
    OccursInfix("Complete Guide to ", q, " - Everything You Need to Know");
    Video("Complete Guide to " + q + " - Everything You Need to Know", "TechExplainer",
          Scale(d.views, 100000), Duration(Scale(d.minutes, 20) + 5, Scale(d.seconds, 60)))
  }

  function MockVideo1(q: string, d: VideoDraw): (v: Video)
    ensures Occurs(v.title, q) && v.views < 50000
  {
    OccursInfix([], q, " Explained in 10 Minutes");
    assert [] + q + " Explained in 10 Minutes" == q + " Explained in 10 Minutes";
    Video(q + " Explained in 10 Minutes", "QuickLearning",
          Scale(d.views, 50000), Duration(Scale(d.minutes, 15) + 5, Scale(d.seconds, 60)))
  }

  /** `mockYouTubeSearch`: two videos titled after the query. */
  function MockYouTubeSearch(query: Option<string>, e: Entropy): (videos: seq<Video>)
    ensures |videos| == 2
    ensures Occurs(videos[0].title, Show(query)) && Occurs(videos[1].title, Show(query))
    ensures videos[0].views < 100000 && videos[1].views < 50000
  {
    var q := Show(query);
    [MockVideo0(q, e.video0), MockVideo1(q, e.video1)]
  }

  // ---------------------------------------------------------------------------
  // web.search
  // ---------------------------------------------------------------------------

  /** The link to an article on `domain` at path `path`. */
  function Link(domain: string, path: string): string {
    "https://" + domain + "/" + path
  }

  /** An article's link points into its own domain and is a lower-case URL
      without whitespace. */
  ghost predicate WellLinked(a: Article) {
    && |a.url| >= |"https://" + a.domain + "/"|
    && a.url[..|"https://" + a.domain + "/"|] == "https://" + a.domain + "/"
    && NoWhitespace(a.url)
    && IsLowered(a.url)
  }

  lemma LinkWellFormed(domain: string, path: string)
    requires NoWhitespace(domain) && IsLowered(domain)
    requires NoWhitespace(path) && IsLowered(path)
    ensures var u := Link(domain, path);
            u[..|"https://" + domain + "/"|] == "https://" + domain + "/"
            && NoWhitespace(u) && IsLowered(u)
  {
    var u := Link(domain, path);
    assert u == ("https://" + domain + "/") + path;
    assert NoWhitespace("https://") && IsLowered("https://");
    assert forall i :: 0 <= i < |u| ==> u[i] in "https://" + domain + "/" || u[i] in path;
  }

  /** Appending a lower-case, whitespace-free suffix keeps a path so. */
  lemma CleanConcat(a: string, b: string)
    requires NoWhitespace(a) && IsLowered(a)
    requires NoWhitespace(b) && IsLowered(b)
    ensures NoWhitespace(a + b) && IsLowered(a + b)
  {
    assert forall i :: 0 <= i < |a + b| ==> (a + b)[i] in a || (a + b)[i] in b;
  }

  function MockArticle0(q: string, age: Unit, now: Time): (a: Article)
    ensures WellLinked(a) && Occurs(a.title, q)
    ensures a.domain == "example.com"
    ensures now - 7 * DayMs <= a.timestamp <= now
  {
    assert NoWhitespace("example.com") && IsLowered("example.com");
    assert NoWhitespace("articles/") && IsLowered("articles/");
    CleanConcat("articles/", Slug(q));
    LinkWellFormed("example.com", "articles/" + Slug(q));
    OccursInfix("Understanding ", q, ": A Comprehensive Overview");
    Article("Understanding " + q + ": A Comprehensive Overview",
            Link("example.com", "articles/" + Slug(q)),
            "This article provides a detailed explanation of " + q
              + ", covering key concepts, applications, and future implications...",
            "example.com", Ago(now, age, 7 * DayMs))
  }

  function MockArticle1(q: string, age: Unit, now: Time): (a: Article)
    ensures WellLinked(a) && Occurs(a.title, q)
    ensures a.domain == "news.example.com"
    ensures now - 3 * DayMs <= a.timestamp <= now
  {
    assert NoWhitespace("news.example.com") && IsLowered("news.example.com");
    assert NoWhitespace("-latest") && IsLowered("-latest");
    CleanConcat(Slug(q), "-latest");
    LinkWellFormed("news.example.com", Slug(q) + "-latest");
    OccursInfix("Latest Developments in ", q, []);
    assert "Latest Developments in " + q + [] == "Latest Developments in " + q;
    Article("Latest Developments in " + q,
            Link("news.example.com", Slug(q) + "-latest"),
            "Recent breakthroughs in " + q
              + " have opened new possibilities. Industry experts discuss the potential impact...",
            "news.example.com", Ago(now, age, 3 * DayMs))
  }

  /** `mockWebSearch`: two articles about the query, or the `TypeError` that
      lower-casing an undefined query raises. */
  function MockWebSearch(query: Option<string>, e: Entropy): (r: Result<seq<Article>, string>)
    ensures r.Failure? <==> query.None?
    ensures r.Failure? ==> r.error == UndefinedQueryError
    ensures r.Success? ==> |r.value| == 2
    ensures r.Success? ==> WellLinked(r.value[0]) && WellLinked(r.value[1])
    ensures r.Success? ==> Occurs(r.value[0].title, query.value) && Occurs(r.value[1].title, query.value)
    ensures r.Success? ==> e.now - 7 * DayMs <= r.value[0].timestamp <= e.now
    ensures r.Success? ==> e.now - 3 * DayMs <= r.value[1].timestamp <= e.now
  {
    match query
    case None => Failure(UndefinedQueryError)
    case Some(q) => Success([MockArticle0(q, e.articleAge0, e.now), MockArticle1(q, e.articleAge1, e.now)])
  }

  // ---------------------------------------------------------------------------
  // ui.getComponent and the dispatch
  // ---------------------------------------------------------------------------

  /** `mockUIComponent`: echoes the requested component type and data. */
  function MockUIComponent(componentType: Option<string>, data: Option<Value>): (v: Value)
    ensures v.ComponentValue? && v.component == componentType && v.props == data
  {
    ComponentValue(componentType, data, "adaptive", true)
  }

  function TweetValues(ts: seq<Tweet>): (vs: seq<Value>)
    ensures |vs| == |ts| && forall i :: 0 <= i < |ts| ==> vs[i] == TweetValue(ts[i])
  {
    seq(|ts|, i requires 0 <= i < |ts| => TweetValue(ts[i]))
  }

  function VideoValues(vs: seq<Video>): (ws: seq<Value>)
    ensures |ws| == |vs| && forall i :: 0 <= i < |vs| ==> ws[i] == VideoValue(vs[i])
  {
    seq(|vs|, i requires 0 <= i < |vs| => VideoValue(vs[i]))
  }

  function ArticleValues(as_: seq<Article>): (ws: seq<Value>)
    ensures |ws| == |as_| && forall i :: 0 <= i < |as_| ==> ws[i] == ArticleValue(as_[i])
  {
    seq(|as_|, i requires 0 <= i < |as_| => ArticleValue(as_[i]))
  }

  /** A fabricated search result: an array of two items of one kind. */
  predicate PairOfTweets(v: Value) {
    v.ArrayValue? && |v.items| == 2 && v.items[0].TweetValue? && v.items[1].TweetValue?
  }

  predicate PairOfVideos(v: Value) {
    v.ArrayValue? && |v.items| == 2 && v.items[0].VideoValue? && v.items[1].VideoValue?
  }

  predicate PairOfArticles(v: Value) {
    v.ArrayValue? && |v.items| == 2 && v.items[0].ArticleValue? && v.items[1].ArticleValue?
  }

  /** The answer of `twitter.search`. */
  function TwitterSearchResult(params: Params, e: Entropy): (v: Value)
    ensures PairOfTweets(v)
  {
    ArrayValue(TweetValues(MockTwitterSearch(params.query, e)))
  }

  /** The answer of `youtube.search`. */
  function YouTubeSearchResult(params: Params, e: Entropy): (v: Value)
    ensures PairOfVideos(v)
  {
    ArrayValue(VideoValues(MockYouTubeSearch(params.query, e)))
  }

  /** The answer of `web.search`, which fails without a query. */
  function WebSearchResult(params: Params, e: Entropy): (r: Result<Value, string>)
    ensures r.Failure? <==> params.query.None?
    ensures r.Success? ==> PairOfArticles(r.value)
  {
    match MockWebSearch(params.query, e)
    case Failure(err) => Failure(err)
    case Success(articles) => Success(ArrayValue(ArticleValues(articles)))
  }

  /** The four tool names differ pairwise. */
  lemma ToolNamesDistinct()
    ensures |KnownTools| == 4
    ensures TwitterSearchTool != YouTubeSearchTool && TwitterSearchTool != WebSearchTool
    ensures TwitterSearchTool != UIComponentTool && YouTubeSearchTool != WebSearchTool
    ensures YouTubeSearchTool != UIComponentTool && WebSearchTool != UIComponentTool
  {
    assert TwitterSearchTool[0] == 't' && YouTubeSearchTool[0] == 'y';
    assert WebSearchTool[0] == 'w' && UIComponentTool[0] == 'u';
  }

  /** `callTool`: the four known tools answer (the web search only when a
      query is given); any other name is rejected. */
  function CallTool(name: string, params: Params, e: Entropy): (r: Result<Value, string>)
    ensures name !in KnownTools ==> r == Failure(UnknownToolError(name))
    ensures r.Failure? <==>
      name !in KnownTools || (name == WebSearchTool && params.query.None?)
    ensures name == TwitterSearchTool ==> PairOfTweets(r.value)
    ensures name == YouTubeSearchTool ==> PairOfVideos(r.value)
    ensures name == WebSearchTool && r.Success? ==> PairOfArticles(r.value)
    ensures name == UIComponentTool ==> r.value == MockUIComponent(params.componentType, params.data)
  {
    ToolNamesDistinct();
    if name == TwitterSearchTool then Success(TwitterSearchResult(params, e))
    else if name == YouTubeSearchTool then Success(YouTubeSearchResult(params, e))
    else if name == WebSearchTool then WebSearchResult(params, e)
    else if name == UIComponentTool then Success(MockUIComponent(params.componentType, params.data))
    else Failure(UnknownToolError(name))
  }
}
