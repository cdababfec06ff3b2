/** The simple canvas (`ThoughtSpace` in thought-space.tsx): no agent, the
    generate handler fabricates an answer card and, by keyword, a tweet card
    and a video card. The two-second `setTimeout` pause is not modelled; the
    handler's result is the state it settles in. */
module ThoughtSpace {
  import opened Wrappers
  import opened Text
  import opened Content
  import opened Analyzer
  import opened Canvas

  /** The component's three pieces of state. */
  datatype State = State(blocks: seq<Block>, prompt: string, isGenerating: bool)

  const Initial: State := State([], "", false)

  /** New blocks land at `x = r * 300`, `y = r * 200`. */
  const CanvasLayout: Layout := Layout(0.0, 300.0, 0.0, 200.0)

  /** `addBlock(type, content)`: this canvas records no source. */
  function AddBlock(s: State, kind: Kind, content: Value, st: Stamp): (r: State)
    ensures |r.blocks| == |s.blocks| + 1 && r.blocks[..|s.blocks|] == s.blocks
    ensures var b := r.blocks[|s.blocks|];
      b.kind == kind && b.content == content && b.source.None? && b.id == st.id
      && 0.0 <= b.position.x < 300.0 && 0.0 <= b.position.y < 200.0
    ensures r.prompt == s.prompt && r.isGenerating == s.isGenerating
  {
    s.(blocks := Canvas.AddBlock(s.blocks, Emission(kind, content, None), CanvasLayout, st))
  }

  /** `removeBlock(id)`. */
  function RemoveBlock(s: State, id: string): (r: State)
    ensures forall b :: b in r.blocks <==> b in s.blocks && b.id != id
    ensures r.prompt == s.prompt && r.isGenerating == s.isGenerating
  {
    s.(blocks := RemoveById(s.blocks, id))
  }

  /** The "Clear All" button. */
  function ClearAll(s: State): (r: State)
    ensures |r.blocks| == 0
    ensures r.prompt == s.prompt && r.isGenerating == s.isGenerating
  {
    s.(blocks := [])
  }

  /** The `Math.random()` draws behind the fabricated counts. */
  datatype Draws = Draws(likes: Unit, retweets: Unit, views: Unit)

  const ResponseOpening: string := "AI-generated response for: \""
  const ResponseClosing: string := "\""
  const PostOpening: string := "Twitter content related to: "
  const VideoOpening: string := "Video about "

  /** The keywords that fabricate a tweet card, and a video card. */
  const TweetWords: seq<string> := ["twitter", "social"]
  const VideoWords: seq<string> := ["video", "youtube"]

  function AnswerCard(prompt: string): (v: Value)
    ensures v.GeneratedValue? && v.prompt == prompt && Occurs(v.response, prompt)
  {
    OccursInfix(ResponseOpening, prompt, ResponseClosing);
    GeneratedValue(prompt, ResponseOpening + prompt + ResponseClosing)
  }

  function TweetCard(prompt: string, d: Draws): (v: Value)
    ensures v.PostValue? && v.username == "example_user" && Occurs(v.content, prompt)
    ensures v.likes < 1000 && v.retweets < 100
  {
    OccursInfix(PostOpening, prompt, []);
    assert PostOpening + prompt + [] == PostOpening + prompt;
    PostValue("example_user", PostOpening + prompt, Scale(d.likes, 1000), Scale(d.retweets, 100))
  }

  function VideoCard(prompt: string, d: Draws): (v: Value)
    ensures v.VideoValue? && Occurs(v.video.title, prompt) && v.video.channel == "Example Channel"
    ensures v.video.views < 100000 && v.video.duration == "5:30"
  {
    OccursInfix(VideoOpening, prompt, []);
    assert VideoOpening + prompt + [] == VideoOpening + prompt;
    VideoValue(Video(VideoOpening + prompt, "Example Channel", Scale(d.views, 100000), "5:30"))
  }

  /** The `addBlock` calls of one generation, in call order: the answer card
      always, a tweet card when the lower-cased prompt says "twitter" or
      "social", a video card when it says "video" or "youtube". */
  function Emissions(prompt: string, d: Draws): (es: seq<Emission>)
    ensures var tweet := MentionsAny(Lower(prompt), TweetWords);
      var video := MentionsAny(Lower(prompt), VideoWords);
      && |es| == 1 + (if tweet then 1 else 0) + (if video then 1 else 0)
      && es[0] == Emission(AiGenerated, AnswerCard(prompt), None)
      && (tweet ==> es[1] == Emission(TwitterCard, TweetCard(prompt, d), None))
      && (video ==> es[|es| - 1] == Emission(YouTubeCard, VideoCard(prompt, d), None))
    ensures (exists i :: 0 <= i < |es| && es[i].kind == TwitterCard) <==> MentionsAny(Lower(prompt), TweetWords)
    ensures (exists i :: 0 <= i < |es| && es[i].kind == YouTubeCard) <==> MentionsAny(Lower(prompt), VideoWords)
  {
    var lower := Lower(prompt);
    IncludesAnyIffMentions(lower, TweetWords);
    IncludesAnyIffMentions(lower, VideoWords);
    var tweet := if IncludesAny(lower, TweetWords) then [Emission(TwitterCard, TweetCard(prompt, d), None)] else [];
    var video := if IncludesAny(lower, VideoWords) then [Emission(YouTubeCard, VideoCard(prompt, d), None)] else [];
    [Emission(AiGenerated, AnswerCard(prompt), None)] + tweet + video
  }

  /** `handleGenerateContent`: a blank prompt does nothing; otherwise the
      cards are added, the prompt box is cleared and `isGenerating` ends
      false. */
  function HandleGenerateContent(s: State, d: Draws, stamps: StampStream): (r: State)
    ensures IsBlank(s.prompt) ==> r == s
    ensures !IsBlank(s.prompt) ==>
      && r.prompt == [] && !r.isGenerating
      && |r.blocks| > |s.blocks| && r.blocks[..|s.blocks|] == s.blocks
      && Delivered(r.blocks[|s.blocks|..], Emissions(s.prompt, d))
    ensures forall i :: |s.blocks| <= i < |r.blocks| ==> Within(r.blocks[i].position, CanvasLayout)
    ensures UniqueIds(s.blocks) && FreshFor(stamps, s.blocks) ==> UniqueIds(r.blocks)
  {
    if Trim(s.prompt) == [] then s
    else
      var es := Emissions(s.prompt, d);
      AppendAllDelivers(s.blocks, es, CanvasLayout, stamps);
      AppendAllKeepsIdsUnique(s.blocks, es, CanvasLayout, stamps);
      State(AppendAll(s.blocks, es, CanvasLayout, stamps, 0), [], false)
  }

  /** A generation adds one to three blocks, the answer card first. */
  lemma GenerationAddsOneToThree(s: State, d: Draws, stamps: StampStream)
    requires !IsBlank(s.prompt)
    ensures var r := HandleGenerateContent(s, d, stamps);
      && |s.blocks| + 1 <= |r.blocks| <= |s.blocks| + 3
      && r.blocks[|s.blocks|].kind == AiGenerated
      && r.blocks[|s.blocks|].content == AnswerCard(s.prompt)
  {
    var r := HandleGenerateContent(s, d, stamps);
    assert r.blocks[|s.blocks|] == r.blocks[|s.blocks|..][0];
  }

  /** The simple canvas fabricates a tweet only for prompts that would also
      send the agent to Twitter, and a video only for prompts that would
      send it to YouTube: its keywords are among the agent's. */
  lemma KeywordsWithinAgent(prompt: string)
    ensures MentionsAny(Lower(prompt), TweetWords) ==> AnalyzePrompt(prompt).needsTwitter
    ensures MentionsAny(Lower(prompt), VideoWords) ==> AnalyzePrompt(prompt).needsYouTube
  {
    var lower := Lower(prompt);
    if MentionsAny(lower, TweetWords) {
      var i :| 0 <= i < |TweetWords| && Occurs(lower, TweetWords[i]);
      assert TweetWords[i] == TwitterKeywords[1 - i];
    }
    if MentionsAny(lower, VideoWords) {
      var i :| 0 <= i < |VideoWords| && Occurs(lower, VideoWords[i]);
      assert VideoWords[i] == YouTubeKeywords[i];
    }
  }
}
