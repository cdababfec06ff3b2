/** The content orchestrator (`UnifiedAgent.generateUnifiedContent` in
    agent.ts): it classifies the prompt, issues one fetch per selected source
    plus the mandatory AI answer, joins them all-or-nothing, and puts the
    results back into the aggregate by position. */
module Agent {
  import opened Wrappers
  import opened Text
  import opened Content
  import opened Analyzer
  import opened McpServer

  /** The kinds of fetch the agent issues. */
  datatype Source = Twitter | YouTube | Web | Ai

  /** The entry each fetch adds to `metadata.sources`. */
  function Label(s: Source): string {
    match s
    case Twitter => "twitter"
    case YouTube => "youtube"
    case Web => "web"
    case Ai => "ai"
  }

  /** The fixed position of each kind in the push order. */
  function Rank(s: Source): nat {
    match s
    case Twitter => 0
    case YouTube => 1
    case Web => 2
    case Ai => 3
  }

  /** Whether the analysis asks for a fetch of this kind; the AI answer is
      always fetched. */
  predicate Selected(a: Analysis, s: Source) {
    match s
    case Twitter => a.needsTwitter
    case YouTube => a.needsYouTube
    case Web => a.needsWeb
    case Ai => true
  }

  /** The two parallel lists the push phase builds: `contentPromises`, as the
      kind of each fetch, and `sources`. */
  datatype Plan = Plan(fetches: seq<Source>, sources: seq<string>)

  /** `sources` names the fetch at the same position. */
  predicate Consistent(p: Plan) {
    |p.sources| == |p.fetches| && forall i :: 0 <= i < |p.fetches| ==> p.sources[i] == Label(p.fetches[i])
  }

  /** One push onto both lists. */
  function Push(p: Plan, s: Source): (q: Plan)
    ensures q.fetches == p.fetches + [s]
    ensures Consistent(p) ==> Consistent(q)
  {
    Plan(p.fetches + [s], p.sources + [Label(s)])
  }

  /** The kinds the push phase issues, in order. */
  function Selection(a: Analysis): seq<Source> {
    (if a.needsTwitter then [Twitter] else []) + (if a.needsYouTube then [YouTube] else [])
    + (if a.needsWeb then [Web] else []) + [Ai]
  }

  /** The push phase: Twitter, YouTube and Web when selected, then the AI
      answer, with `sources` recording exactly what was pushed. */
  function PlanFetches(a: Analysis): (p: Plan)
    ensures Consistent(p)
    ensures p.fetches == Selection(a)
  {
    var p0 := Plan([], []);
    var p1 := if a.needsTwitter then Push(p0, Twitter) else p0;
    var p2 := if a.needsYouTube then Push(p1, YouTube) else p1;
    var p3 := if a.needsWeb then Push(p2, Web) else p2;
    Push(p3, Ai)
  }

  /** The pushed kinds are the selected ones, each once, in the fixed order,
      with the AI answer last. */
  lemma PlanSelectsInOrder(a: Analysis)
    ensures var fs := PlanFetches(a).fetches;
      && (forall s :: s in fs <==> Selected(a, s))
      && (forall i, j :: 0 <= i < j < |fs| ==> Rank(fs[i]) < Rank(fs[j]))
      && |fs| >= 1 && fs[|fs| - 1] == Ai
  {
    var fs := PlanFetches(a).fetches;
    if a.needsTwitter {
      if a.needsYouTube {
        if a.needsWeb { assert fs == [Twitter, YouTube, Web, Ai]; } else { assert fs == [Twitter, YouTube, Ai]; }
      } else {
        if a.needsWeb { assert fs == [Twitter, Web, Ai]; } else { assert fs == [Twitter, Ai]; }
      }
    } else {
      if a.needsYouTube {
        if a.needsWeb { assert fs == [YouTube, Web, Ai]; } else { assert fs == [YouTube, Ai]; }
      } else {
        if a.needsWeb { assert fs == [Web, Ai]; } else { assert fs == [Ai]; }
      }
    }
  }

  /** How many sources the analysis selects besides the AI answer. */
  function SelectedCount(a: Analysis): nat {
    (if a.needsTwitter then 1 else 0) + (if a.needsYouTube then 1 else 0) + (if a.needsWeb then 1 else 0)
  }

  /** The recorded labels, spelled out. */
  lemma PlanShape(a: Analysis)
    ensures PlanFetches(a).sources ==
      (if a.needsTwitter then ["twitter"] else []) + (if a.needsYouTube then ["youtube"] else [])
      + (if a.needsWeb then ["web"] else []) + ["ai"]
  {
    var tw: seq<string> := if a.needsTwitter then ["twitter"] else [];
    var yt: seq<string> := if a.needsYouTube then ["youtube"] else [];
    var wb: seq<string> := if a.needsWeb then ["web"] else [];
    var p0 := Plan([], []);
    var p1 := if a.needsTwitter then Push(p0, Twitter) else p0;
    assert p1.sources == tw;
    var p2 := if a.needsYouTube then Push(p1, YouTube) else p1;
    assert p2.sources == tw + yt;
    var p3 := if a.needsWeb then Push(p2, Web) else p2;
    assert p3.sources == tw + yt + wb;
    assert PlanFetches(a) == Push(p3, Ai);
  }

  /** `metadata.sources` lists one entry per issued fetch, with "ai" last
      and only there. */
  lemma SourcesCountFetches(a: Analysis)
    ensures |PlanFetches(a).sources| == SelectedCount(a) + 1
    ensures PlanFetches(a).sources[|PlanFetches(a).sources| - 1] == "ai"
    ensures "ai" !in PlanFetches(a).sources[..|PlanFetches(a).sources| - 1]
  {
    PlanShape(a);
    var srcs := PlanFetches(a).sources;
    var prefix := (if a.needsTwitter then ["twitter"] else []) + (if a.needsYouTube then ["youtube"] else [])
      + (if a.needsWeb then ["web"] else []);
    assert srcs == prefix + ["ai"];
    assert srcs[..|srcs| - 1] == prefix;
  }

  /** Distinct kinds record distinct labels. */
  lemma LabelInjective(x: Source, y: Source)
    ensures Label(x) == Label(y) ==> x == y
  {
    if x != y {
      assert Label(x)[0] != Label(y)[0] || |Label(x)| != |Label(y)|;
    }
  }

  /** One kind's label is recorded exactly when that kind is selected. */
  lemma LabelRecorded(a: Analysis, s: Source)
    ensures Label(s) in PlanFetches(a).sources <==> Selected(a, s)
  {
    var p := PlanFetches(a);
    PlanSelectsInOrder(a);
    if Label(s) in p.sources {
      var i :| 0 <= i < |p.sources| && p.sources[i] == Label(s);
      LabelInjective(p.fetches[i], s);
      assert p.fetches[i] in p.fetches;
    }
    if Selected(a, s) {
      assert s in p.fetches;
      var i :| 0 <= i < |p.fetches| && p.fetches[i] == s;
      assert p.sources[i] == Label(s);
    }
  }

  /** A source's label is recorded exactly when that source is selected. */
  lemma SourcesNameSelected(a: Analysis)
    ensures forall s :: Label(s) in PlanFetches(a).sources <==> Selected(a, s)
  {
    forall s ensures Label(s) in PlanFetches(a).sources <==> Selected(a, s) {
      LabelRecorded(a, s);
    }
  }

  /** A fetch backend: what each kind of fetch settles to. */
  type Fetcher = Source -> Result<Value, string>

  /** `Promise.all`, taken sequentially: the results of all fetches in push
      order, or the rejection of one of them. Which rejection wins a real race
      depends on timing; this model reports the first one in push order. */
  function JoinAll(fs: seq<Source>, fetch: Fetcher): (r: Result<seq<Value>, string>)
    ensures r.Success? <==> forall i :: 0 <= i < |fs| ==> fetch(fs[i]).Success?
    ensures r.Success? ==> |r.value| == |fs|
    ensures r.Success? ==> forall i :: 0 <= i < |fs| ==> r.value[i] == fetch(fs[i]).value
    ensures r.Failure? ==> exists i :: 0 <= i < |fs| && fetch(fs[i]) == Failure(r.error)
  {
    if fs == [] then Success([])
    else
      var head := fetch(fs[0]);
      if head.Failure? then Failure(head.error)
      else
        match JoinAll(fs[1..], fetch)
        case Failure(e) => Failure(e)
        case Success(rest) => Success([head.value] + rest)
  }

  /** `UnifiedContent`: every field but `metadata` is optional. */
  datatype UnifiedContent = UnifiedContent(
    twitter: Option<Value>,
    youtube: Option<Value>,
    web: Option<Value>,
    aiResponse: Option<Value>,
    metadata: Metadata)

  /** The read-back phase: walks `results` with a running index, taking one
      result for each selected source in the order the fetches were pushed
      and the next one for the AI answer. */
  function Assemble(a: Analysis, prompt: string, sources: seq<string>, results: seq<Value>, now: Time): (uc: UnifiedContent)
    requires |results| == SelectedCount(a) + 1
    ensures uc.twitter.Some? <==> a.needsTwitter
    ensures uc.youtube.Some? <==> a.needsYouTube
    ensures uc.web.Some? <==> a.needsWeb
    ensures a.needsTwitter ==> uc.twitter == Some(results[0])
    ensures uc.aiResponse == Some(results[|results| - 1])
    ensures uc.metadata == Metadata(prompt, now, sources)
  {
    var i0 := 0;
    var twitter := if a.needsTwitter then Some(results[i0]) else None;
    var i1 := if a.needsTwitter then i0 + 1 else i0;
    var youtube := if a.needsYouTube then Some(results[i1]) else None;
    var i2 := if a.needsYouTube then i1 + 1 else i1;
    var web := if a.needsWeb then Some(results[i2]) else None;
    var i3 := if a.needsWeb then i2 + 1 else i2;
    UnifiedContent(twitter, youtube, web, Some(results[i3]), Metadata(prompt, now, sources))
  }

  /** A field holds the settled value of its own fetch when that fetch was
      issued, and is absent otherwise. */
  predicate Delivers(field: Option<Value>, issued: bool, settled: Result<Value, string>) {
    if issued then settled.Success? && field == Some(settled.value) else field.None?
  }

  /** The aggregate the agent promises for `prompt`: every field carries the
      result of the fetch of its own kind, the AI answer is always present,
      and the metadata records the query and the issued fetches. */
  predicate Faithful(prompt: string, fetch: Fetcher, now: Time, uc: UnifiedContent) {
    var a := AnalyzePrompt(prompt);
    && Delivers(uc.twitter, a.needsTwitter, fetch(Twitter))
    && Delivers(uc.youtube, a.needsYouTube, fetch(YouTube))
    && Delivers(uc.web, a.needsWeb, fetch(Web))
    && Delivers(uc.aiResponse, true, fetch(Ai))
    && uc.metadata == Metadata(prompt, now, PlanFetches(a).sources)
  }

  /** Push order and read-back order agree: assembling the joined results
      puts each fetch's result in its own field. */
  lemma AssemblyFollowsPushOrder(prompt: string, fetch: Fetcher, now: Time, results: seq<Value>)
    requires var fs := PlanFetches(AnalyzePrompt(prompt)).fetches;
      && |results| == |fs|
      && forall i :: 0 <= i < |fs| ==> fetch(fs[i]).Success? && results[i] == fetch(fs[i]).value
    ensures var a := AnalyzePrompt(prompt);
      |results| == SelectedCount(a) + 1
      && Faithful(prompt, fetch, now, Assemble(a, prompt, PlanFetches(a).sources, results, now))
  {
    var a := AnalyzePrompt(prompt);
    var fs := PlanFetches(a).fetches;
    var tw := if a.needsTwitter then [Twitter] else [];
    var yt := if a.needsYouTube then [YouTube] else [];
    var wb := if a.needsWeb then [Web] else [];
    assert fs == tw + yt + wb + [Ai];
    assert |results| == SelectedCount(a) + 1;
    if a.needsTwitter {
      assert fs[0] == Twitter;
    }
    if a.needsYouTube {
      assert fs[|tw|] == YouTube;
    }
    if a.needsWeb {
      assert fs[|tw| + |yt|] == Web;
    }
    assert fs[|tw| + |yt| + |wb|] == Ai;
  }

  /** `generateUnifiedContent`: fails exactly when some issued fetch fails,
      with that fetch's error and no partial content; otherwise returns the
      faithfully assembled aggregate. */
  function GenerateUnifiedContent(prompt: string, fetch: Fetcher, now: Time): (r: Result<UnifiedContent, string>)
    ensures r.Success? <==> forall s :: Selected(AnalyzePrompt(prompt), s) ==> fetch(s).Success?
    ensures r.Failure? ==> exists s :: Selected(AnalyzePrompt(prompt), s) && fetch(s) == Failure(r.error)
    ensures r.Success? ==> Faithful(prompt, fetch, now, r.value)
  {
    var a := AnalyzePrompt(prompt);
    var plan := PlanFetches(a);
    var joined := JoinAll(plan.fetches, fetch);
    PlanSelectsInOrder(a);
    if joined.Failure? then
      var i :| 0 <= i < |plan.fetches| && fetch(plan.fetches[i]) == Failure(joined.error);
      assert Selected(a, plan.fetches[i]);
      Failure(joined.error)
    else
      var results := joined.value;
      AssemblyFollowsPushOrder(prompt, fetch, now, results);
      assert forall s :: Selected(a, s) ==> fetch(s).Success? by {
        forall s | Selected(a, s) ensures fetch(s).Success? {
          assert s in plan.fetches;
        }
      }
      Success(Assemble(a, prompt, plan.sources, results, now))
  }

  /** The failure of any issued fetch fails the whole call (here: Twitter's,
      whatever the other fetches do). */
  lemma TwitterFailureFailsAll(prompt: string, fetch: Fetcher, now: Time)
    requires AnalyzePrompt(prompt).needsTwitter && fetch(Twitter).Failure?
    ensures GenerateUnifiedContent(prompt, fetch, now).Failure?
  {
    assert Selected(AnalyzePrompt(prompt), Twitter);
  }

  // ---------------------------------------------------------------------------
  // The AI answer and the mock backend
  // ---------------------------------------------------------------------------

  const AnswerOpening: string := "Based on your query about \""
  const AnswerClosing: string :=
    "\", I've analyzed the available information and can provide the following insights: "
    + "This topic involves multiple perspectives and considerations that are worth exploring "
    + "through various content sources."
  const SummaryOpening: string := "Key insights about "

  /** `generateAIResponse`: a canned answer about the prompt, with a confidence
      drawn from [0.7, 1). */
  function GenerateAIResponse(prompt: string, draw: Unit): (r: AIResponse)
    ensures Occurs(r.content, prompt) && Occurs(r.summary, prompt)
    ensures 0.7 <= r.confidence < 1.0
    ensures r.sources == ["AI Analysis", "Knowledge Base"]
  {
    OccursInfix(AnswerOpening, prompt, AnswerClosing);
    OccursInfix(SummaryOpening, prompt, []);
    assert SummaryOpening + prompt + [] == SummaryOpening + prompt;
    AIResponse(
      AnswerOpening + prompt + AnswerClosing,
      SummaryOpening + prompt,
      ["AI Analysis", "Knowledge Base"],
      draw * 0.3 + 0.7)
  }

  /** The `{ query: prompt }` parameters the agent passes to each search. */
  function SearchParams(prompt: string): Params {
    Params(Some(prompt), None, None)
  }

  /** What each fetch of the real program settles to: a search on the mocked
      server, or the AI answer. */
  function MockFetch(prompt: string, e: Entropy, s: Source): Result<Value, string> {
    match s
    case Twitter => CallTool(TwitterSearchTool, SearchParams(prompt), e)
    case YouTube => CallTool(YouTubeSearchTool, SearchParams(prompt), e)
    case Web => CallTool(WebSearchTool, SearchParams(prompt), e)
    case Ai => Success(AnswerValue(GenerateAIResponse(prompt, e.confidence)))
  }

  /** Each mocked fetch succeeds with a result of its own kind. */
  lemma MockTwitterFetch(prompt: string, e: Entropy)
    ensures MockFetch(prompt, e, Twitter).Success? && PairOfTweets(MockFetch(prompt, e, Twitter).value)
  {
    assert TwitterSearchTool in KnownTools;
  }

  lemma MockYouTubeFetch(prompt: string, e: Entropy)
    ensures MockFetch(prompt, e, YouTube).Success? && PairOfVideos(MockFetch(prompt, e, YouTube).value)
  {
    assert YouTubeSearchTool in KnownTools && YouTubeSearchTool != WebSearchTool;
  }

  lemma MockWebFetch(prompt: string, e: Entropy)
    ensures MockFetch(prompt, e, Web).Success? && PairOfArticles(MockFetch(prompt, e, Web).value)
  {
    assert WebSearchTool in KnownTools;
  }

  lemma MockAiFetch(prompt: string, e: Entropy)
    ensures MockFetch(prompt, e, Ai).Success? && MockFetch(prompt, e, Ai).value.AnswerValue?
    ensures 0.7 <= MockFetch(prompt, e, Ai).value.answer.confidence < 1.0
  {
    var r := GenerateAIResponse(prompt, e.confidence);
    assert MockFetch(prompt, e, Ai) == Success(AnswerValue(r));
  }

  /** No mocked fetch fails. */
  lemma MockFetchSucceeds(prompt: string, e: Entropy, s: Source)
    ensures MockFetch(prompt, e, s).Success?
  {
    match s
    case Twitter => MockTwitterFetch(prompt, e);
    case YouTube => MockYouTubeFetch(prompt, e);
    case Web => MockWebFetch(prompt, e);
    case Ai => MockAiFetch(prompt, e);
  }

  /** The agent's fetches against the mocked server: every one succeeds,
      with two tweets, two videos or two articles for a search, and an AI
      answer whose confidence lies in [0.7, 1). */
  function MockBackend(prompt: string, e: Entropy): (f: Fetcher)
    ensures forall s :: f(s).Success?
    ensures PairOfTweets(f(Twitter).value)
    ensures PairOfVideos(f(YouTube).value)
    ensures PairOfArticles(f(Web).value)
    ensures f(Ai).value.AnswerValue? && 0.7 <= f(Ai).value.answer.confidence < 1.0
  {
    MockTwitterFetch(prompt, e);
    MockYouTubeFetch(prompt, e);
    MockWebFetch(prompt, e);
    MockAiFetch(prompt, e);
    assert forall s :: MockFetch(prompt, e, s).Success? by {
      forall s ensures MockFetch(prompt, e, s).Success? {
        MockFetchSucceeds(prompt, e, s);
      }
    }
    (s: Source) => MockFetch(prompt, e, s)
  }

  /** With the mocked server the agent always answers: two tweets, videos or
      articles for each selected source, nothing for the others, and an AI
      answer with confidence in [0.7, 1). */
  lemma MockGenerationSucceeds(prompt: string, e: Entropy)
    ensures var r := GenerateUnifiedContent(prompt, MockBackend(prompt, e), e.now);
      var a := AnalyzePrompt(prompt);
      && r.Success?
      && (a.needsTwitter <==> r.value.twitter.Some?)
      && (a.needsTwitter ==> PairOfTweets(r.value.twitter.value))
      && (a.needsYouTube <==> r.value.youtube.Some?)
      && (a.needsYouTube ==> PairOfVideos(r.value.youtube.value))
      && (a.needsWeb <==> r.value.web.Some?)
      && (a.needsWeb ==> PairOfArticles(r.value.web.value))
      && r.value.aiResponse.Some? && r.value.aiResponse.value.AnswerValue?
      && 0.7 <= r.value.aiResponse.value.answer.confidence < 1.0
      && r.value.metadata == Metadata(prompt, e.now, PlanFetches(a).sources)
  {
    var r := GenerateUnifiedContent(prompt, MockBackend(prompt, e), e.now);
    assert r.Success?;
    assert Faithful(prompt, MockBackend(prompt, e), e.now, r.value);
  }

  /** A selection of YouTube alone records ["youtube", "ai"]. */
  lemma VideoOnlyPlan(a: Analysis)
    requires !a.needsTwitter && a.needsYouTube && !a.needsWeb
    ensures PlanFetches(a).sources == ["youtube", "ai"]
  {
    PlanShape(a);
    assert [] + ["youtube"] + [] + ["ai"] == ["youtube", "ai"];
  }

  /** With the mocked server, a prompt that selects YouTube alone yields two
      videos, no tweets and no articles, and `metadata.sources` is
      ["youtube", "ai"]. */
  lemma VideoOnlyContent(prompt: string, e: Entropy)
    requires var a := AnalyzePrompt(prompt); !a.needsTwitter && a.needsYouTube && !a.needsWeb
    ensures var r := GenerateUnifiedContent(prompt, MockBackend(prompt, e), e.now);
      && r.Success?
      && r.value.twitter.None? && r.value.web.None?
      && r.value.youtube.Some? && PairOfVideos(r.value.youtube.value)
      && r.value.metadata.sources == ["youtube", "ai"]
  {
    MockGenerationSucceeds(prompt, e);
    VideoOnlyPlan(AnalyzePrompt(prompt));
  }

  /** An example prompt: "best tutorial video on rust" yields two videos, no
      tweets and no articles, and `metadata.sources` is ["youtube", "ai"]. */
  lemma TutorialPromptContent(e: Entropy)
    ensures var r := GenerateUnifiedContent(TutorialPrompt, MockBackend(TutorialPrompt, e), e.now);
      && r.Success?
      && r.value.twitter.None? && r.value.web.None?
      && r.value.youtube.Some? && PairOfVideos(r.value.youtube.value)
      && r.value.metadata.sources == ["youtube", "ai"]
  {
    TutorialPromptAnalysis();
    VideoOnlyContent(TutorialPrompt, e);
  }
}
