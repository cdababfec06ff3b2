/** The records that travel between the mocked sources, the agent and the
    canvas: the item types of agent.ts and `Value`, a model of the loosely
    typed (`any`) values the agent and the canvas pass around. */
module Content {
  import opened Wrappers

  /** A `Date`, as whole milliseconds since the epoch. */
  type Time = int

  /** One draw of `Math.random()`. */
  type Unit = r: real | 0.0 <= r < 1.0

  /** The `Math.random()` draws and the clock reading that one content
      generation consumes: the mocked tools' fabricated numbers, the tweets'
      user-name suffixes (`Math.random().toString(36)`), and the AI answer's
      confidence. */
  datatype Entropy = Entropy(
    now: Time,
    tweet0: TweetDraw, tweet1: TweetDraw,
    video0: VideoDraw, video1: VideoDraw,
    articleAge0: Unit, articleAge1: Unit,
    confidence: Unit)

  datatype TweetDraw = TweetDraw(handle: string, likes: Unit, retweets: Unit, age: Unit)

  datatype VideoDraw = VideoDraw(views: Unit, minutes: Unit, seconds: Unit)

  /** A draw scales a non-negative width to a part of it. */
  lemma ScaledBelow(r: Unit, w: real)
    requires w >= 0.0
    ensures 0.0 <= r * w <= w
    ensures w > 0.0 ==> r * w < w
  {
    assert w - r * w == (1.0 - r) * w;
  }

  /** `Math.floor(r * n)`: a fabricated count below `n`. */
  function Scale(r: Unit, n: nat): (k: nat)
    requires n > 0
    ensures k < n
  {
    ScaledBelow(r, n as real);
    (r * (n as real)).Floor
  }

  /** `new Date(x)` keeps the integral part of `x` (truncation toward zero). */
  function Truncate(x: real): (t: int)
    ensures x >= 0.0 ==> t as real <= x < t as real + 1.0
    ensures x < 0.0 ==> t as real - 1.0 < x <= t as real
  {
    if x >= 0.0 then x.Floor else -((-x).Floor)
  }

  /** `new Date(Date.now() - r * span)`: a moment at most `span` milliseconds
      before `now`. */
  function Ago(now: Time, r: Unit, span: nat): (t: Time)
    ensures now - span <= t <= now
  {
    var w := span as real;
    var d := r * w;
    assert 0.0 <= d <= w by { ScaledBelow(r, w); }
    assert (now - span) as real == (now as real) - w;
    Truncate((now as real) - d)
  }

  /** `TwitterContent` (its optional `url` is never set and is not modelled). */
  datatype Tweet = Tweet(username: string, content: string, likes: nat, retweets: nat, timestamp: Time)

  /** `YouTubeContent` (its optional `thumbnail` and `url` are never set). */
  datatype Video = Video(title: string, channel: string, views: nat, duration: string)

  /** `WebContent`. */
  datatype Article = Article(title: string, url: string, snippet: string, domain: string, timestamp: Time)

  /** `AIResponse`; `confidence` is a fraction. */
  datatype AIResponse = AIResponse(content: string, summary: string, sources: seq<string>, confidence: real)

  /** `UnifiedContent.metadata`. */
  datatype Metadata = Metadata(query: string, timestamp: Time, sources: seq<string>)

  /** A value of TypeScript type `any` as it occurs in this program: a promise
      result, a block's content or a tool parameter. */
  datatype Value =
    | TweetValue(tweet: Tweet)
    | VideoValue(video: Video)
    | ArticleValue(article: Article)
    | AnswerValue(answer: AIResponse)
      /** What the `ui.getComponent` tool returns. */
    | ComponentValue(component: Option<string>, props: Option<Value>, styling: string, responsive: bool)
      /** The content of the canvas's 'unified' summary block. */
    | SummaryValue(query: string, metadata: Metadata, summary: string)
      /** The content of the simple canvas's 'ai-generated' block. */
    | GeneratedValue(prompt: string, response: string)
      /** The simple canvas's twitter card, which has no timestamp. */
    | PostValue(username: string, content: string, likes: nat, retweets: nat)
    | TextValue(text: string)
    | ArrayValue(items: seq<Value>)

  /** JavaScript truthiness of a present value: of the values here only the
      empty string is falsy (records and arrays, even empty ones, are
      truthy). */
  function Truthy(v: Value): (b: bool)
    ensures !v.TextValue? ==> b
    ensures v.TextValue? ==> (b <==> |v.text| > 0)
  {
    !(v.TextValue? && v.text == [])
  }

  /** `value.length`: strings and arrays have one; a record's is undefined. */
  function Length(v: Value): Option<nat> {
    match v
    case TextValue(t) => Some(|t|)
    case ArrayValue(items) => Some(|items|)
    case _ => None
  }

  /** The guard `field && field.length > 0` ahead of each `forEach`
      (`undefined > 0` is false). */
  predicate PassesGuard(field: Option<Value>) {
    field.Some? && Truthy(field.value) && Length(field.value).Some? && Length(field.value).value > 0
  }

  /** The guard lets a non-empty string through, and a string has no
      `forEach`: calling it throws a TypeError. */
  function ForEachThrows(field: Option<Value>): (b: bool)
    ensures b <==> PassesGuard(field) && !field.value.ArrayValue?
  {
    field.Some? && field.value.TextValue? && field.value.text != []
  }

  /** The elements `forEach` visits after the guard
      `field && field.length > 0`: an absent field, an empty array and a
      record (whose `length` is undefined) yield none, and so does a string,
      whose empty form is falsy and whose non-empty form throws instead. */
  function Elements(field: Option<Value>): (xs: seq<Value>)
    ensures field.Some? && field.value.ArrayValue? ==> xs == field.value.items
    ensures field.None? || !field.value.ArrayValue? ==> xs == []
    ensures xs != [] ==> PassesGuard(field) && !ForEachThrows(field)
  {
    match field
    case Some(ArrayValue(items)) => items
    case _ => []
  }
}
