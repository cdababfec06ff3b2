/** The enhanced canvas (`EnhancedThoughtSpace` in
    enhanced-thought-space.tsx): its state, its block operations, and the
    generate handler that turns the agent's aggregate into blocks. The
    handler's intermediate `isGenerating = true` is not observable once it
    settles; the model gives the state it settles in. */
module EnhancedThoughtSpace {
  import opened Wrappers
  import opened Text
  import opened Content
  import opened Analyzer
  import opened Agent
  import opened Canvas

  /** The component's four pieces of state. */
  datatype State = State(blocks: seq<Block>, prompt: string, isGenerating: bool, lastQuery: string)

  const Initial: State := State([], "", false, "")

  /** New blocks land at `x = r * 400 + 50`, `y = r * 300 + 50`. */
  const CanvasLayout: Layout := Layout(50.0, 400.0, 50.0, 300.0)

  /** `addBlock(type, content, source)`. */
  function AddBlock(s: State, e: Emission, st: Stamp): (r: State)
    ensures |r.blocks| == |s.blocks| + 1 && r.blocks[..|s.blocks|] == s.blocks
    ensures var b := r.blocks[|s.blocks|];
      Carries(b, e) && b.id == st.id && b.timestamp == st.time
      && 50.0 <= b.position.x < 450.0 && 50.0 <= b.position.y < 350.0
    ensures r.prompt == s.prompt && r.isGenerating == s.isGenerating && r.lastQuery == s.lastQuery
  {
    s.(blocks := Canvas.AddBlock(s.blocks, e, CanvasLayout, st))
  }

  /** `removeBlock(id)`: the blocks with that id go, the rest stay in order. */
  function RemoveBlock(s: State, id: string): (r: State)
    ensures forall b :: b in r.blocks <==> b in s.blocks && b.id != id
    ensures UniqueIds(s.blocks) ==> UniqueIds(r.blocks)
    ensures r.prompt == s.prompt && r.isGenerating == s.isGenerating && r.lastQuery == s.lastQuery
  {
    RemoveKeepsIdsUnique(s.blocks, id);
    s.(blocks := RemoveById(s.blocks, id))
  }

  /** `updateBlockPosition(id, position)`: only the positions of the blocks
      with that id change. */
  function UpdateBlockPosition(s: State, id: string, p: Position): (r: State)
    ensures |r.blocks| == |s.blocks|
    ensures forall i :: 0 <= i < |s.blocks| ==> r.blocks[i].(position := s.blocks[i].position) == s.blocks[i]
    ensures forall i :: 0 <= i < |s.blocks| && s.blocks[i].id == id ==> r.blocks[i].position == p
    ensures forall i :: 0 <= i < |s.blocks| && s.blocks[i].id != id ==> r.blocks[i] == s.blocks[i]
    ensures r.prompt == s.prompt && r.isGenerating == s.isGenerating && r.lastQuery == s.lastQuery
  {
    s.(blocks := UpdatePosition(s.blocks, id, p))
  }

  /** The "Clear Canvas" button: no blocks, nothing else touched. */
  function ClearCanvas(s: State): (r: State)
    ensures |r.blocks| == 0
    ensures r.prompt == s.prompt && r.isGenerating == s.isGenerating && r.lastQuery == s.lastQuery
  {
    s.(blocks := [])
  }

  // ---------------------------------------------------------------------------
  // From aggregate to blocks
  // ---------------------------------------------------------------------------

  const CountOpening: string := "Generated "
  const CountMiddle: string := " types of content from "
  const ListSeparator: string := ", "

  /** The unified block's summary: how many fetches were issued, and which. */
  function SummaryText(sources: seq<string>): string {
    CountOpening + (NatToString(|sources|) + (CountMiddle + Join(sources, ListSeparator)))
  }

  /** What a reader of the summary recovers: the count and the list. */
  datatype Summary = Summary(count: nat, sources: seq<string>)

  /** Reads a summary back: the opening words, a decimal count, the middle
      words, and the list split at ", ". */
  function ReadSummary(text: string): (r: Option<Summary>)
    ensures r.Some? ==> |r.value.sources| >= 1
  {
    var n := |CountOpening|;
    if |text| < n || text[..n] != CountOpening then None
    else
      var rest := text[n..];
      var k := LeadingDigits(rest);
      if k == 0 then None
      else
        var tail := rest[k..];
        var m := |CountMiddle|;
        if |tail| < m || tail[..m] != CountMiddle then None
        else Some(Summary(ParseDigits(rest[..k]), Split(tail[m..], ListSeparator)))
  }

  /** The summary states the number of issued fetches and lists them: reading
      it back recovers both, provided no label contains a comma. */
  lemma SummaryReadsBack(sources: seq<string>)
    requires |sources| >= 1
    requires forall i :: 0 <= i < |sources| ==> ',' !in sources[i]
    ensures ReadSummary(SummaryText(sources)) == Some(Summary(|sources|, sources))
  {
    var d := NatToString(|sources|);
    var j := Join(sources, ListSeparator);
    var text := SummaryText(sources);
    var rest := d + (CountMiddle + j);
    assert text[..|CountOpening|] == CountOpening && text[|CountOpening|..] == rest;
    LeadingDigitsOfNumeral(d, CountMiddle + j);
    assert rest[..|d|] == d && rest[|d|..] == CountMiddle + j;
    var tail := CountMiddle + j;
    assert tail[..|CountMiddle|] == CountMiddle && tail[|CountMiddle|..] == j;
    ParseNatToString(|sources|);
    SplitJoin(sources, ListSeparator);
  }

  /** The message of the error block. */
  const ErrorMessage: string := "Sorry, I encountered an error while generating content. Please try again."

  /** The block added when the agent rejects: an AI answer with no sources
      and zero confidence, attributed to "Error". */
  const ErrorEmission: Emission :=
    Emission(AiResponse, AnswerValue(AIResponse(ErrorMessage, "Error occurred", [], 0.0)), Some("Error"))

  lemma ErrorEmissionKind()
    ensures ErrorEmission.kind == AiResponse && ErrorEmission.source == Some("Error")
  {
  }

  /** Where each kind of block of a successful generation says it came
      from. */
  function Origin(k: Kind): string {
    match k
    case AiResponse => "AI Agent"
    case TwitterCard => "Twitter"
    case YouTubeCard => "YouTube"
    case WebCard => "Web Search"
    case Unified => "Unified Agent"
    case _ => ""
  }

  /** One card per element, all of the same kind. */
  function Cards(kind: Kind, items: seq<Value>): (es: seq<Emission>)
    ensures |es| == |items|
    ensures forall i :: 0 <= i < |items| ==> es[i] == Emission(kind, items[i], Some(Origin(kind)))
  {
    seq(|items|, i requires 0 <= i < |items| => Emission(kind, items[i], Some(Origin(kind))))
  }

  /** `es` holds, from index `from` on, one card per element of `items`. */
  predicate Segment(es: seq<Emission>, from: nat, kind: Kind, items: seq<Value>) {
    from + |items| <= |es| && es[from..from + |items|] == Cards(kind, items)
  }

  lemma CardsSegment(kind: Kind, items: seq<Value>, post: seq<Emission>)
    ensures Segment(Cards(kind, items) + post, 0, kind, items)
  {
    assert (Cards(kind, items) + post)[0..|items|] == Cards(kind, items);
  }

  lemma SegmentAt(es: seq<Emission>, from: nat, kind: Kind, items: seq<Value>, j: nat)
    requires Segment(es, from, kind, items) && j < |items|
    ensures from + j < |es| && es[from + j] == Emission(kind, items[j], Some(Origin(kind)))
  {
    assert es[from + j] == es[from..from + |items|][j];
  }

  lemma SegmentShift(pre: seq<Emission>, es: seq<Emission>, from: nat, kind: Kind, items: seq<Value>, at: nat)
    requires Segment(es, from, kind, items) && at == |pre| + from
    ensures Segment(pre + es, at, kind, items)
  {
    assert (pre + es)[at..at + |items|] == es[from..from + |items|];
  }

  /** `es` holds `from` leading emissions, then a card per tweet, per video
      and per article, in that order, and `last` at the end. */
  predicate Runs(es: seq<Emission>, from: nat, tw: seq<Value>, yt: seq<Value>, wb: seq<Value>, last: Emission) {
    && |es| == from + |tw| + |yt| + |wb| + 1
    && Segment(es, from, TwitterCard, tw)
    && Segment(es, from + |tw|, YouTubeCard, yt)
    && Segment(es, from + |tw| + |yt|, WebCard, wb)
    && es[|es| - 1] == last
  }

  /** Three runs of cards followed by one more emission. */
  lemma CardRuns(tw: seq<Value>, yt: seq<Value>, wb: seq<Value>, last: Emission)
    ensures Runs(Cards(TwitterCard, tw) + (Cards(YouTubeCard, yt) + (Cards(WebCard, wb) + [last])), 0, tw, yt, wb, last)
  {
    var twc := Cards(TwitterCard, tw);
    var ytc := Cards(YouTubeCard, yt);
    var wbc := Cards(WebCard, wb);
    CardsSegment(TwitterCard, tw, ytc + (wbc + [last]));
    CardsSegment(YouTubeCard, yt, wbc + [last]);
    SegmentShift(twc, ytc + (wbc + [last]), 0, YouTubeCard, yt, |tw|);
    CardsSegment(WebCard, wb, [last]);
    SegmentShift(ytc, wbc + [last], 0, WebCard, wb, |yt|);
    SegmentShift(twc, ytc + (wbc + [last]), |yt|, WebCard, wb, |tw| + |yt|);
  }

  /** Putting the answer blocks ahead of the cards moves every run of cards
      along by their number. */
  lemma ShiftRuns(ai: seq<Emission>, cards: seq<Emission>, tw: seq<Value>, yt: seq<Value>, wb: seq<Value>, last: Emission)
    requires Runs(cards, 0, tw, yt, wb, last)
    ensures Runs(ai + cards, |ai|, tw, yt, wb, last)
    ensures |ai| == 1 ==> (ai + cards)[0] == ai[0]
  {
    SegmentShift(ai, cards, 0, TwitterCard, tw, |ai|);
    SegmentShift(ai, cards, |tw|, YouTubeCard, yt, |ai| + |tw|);
    SegmentShift(ai, cards, |tw| + |yt|, WebCard, wb, |ai| + |tw| + |yt|);
  }

  /** The number of answer blocks ahead of the cards: `if
      (unifiedContent.aiResponse)` adds one for a truthy answer. */
  function AnswerCount(uc: UnifiedContent): (n: nat)
    ensures n <= 1
    ensures n == 1 <==> uc.aiResponse.Some? && Truthy(uc.aiResponse.value)
  {
    if uc.aiResponse.Some? && Truthy(uc.aiResponse.value) then 1 else 0
  }

  /** The answer block `if (unifiedContent.aiResponse)` adds, if any. */
  function AnswerEmissions(uc: UnifiedContent): (ai: seq<Emission>)
    ensures |ai| == AnswerCount(uc)
    ensures |ai| == 1 ==> ai[0] == Emission(AiResponse, uc.aiResponse.value, Some(Origin(AiResponse)))
  {
    if AnswerCount(uc) == 1 then [Emission(AiResponse, uc.aiResponse.value, Some(Origin(AiResponse)))] else []
  }

  /** The unified summary block's emission. */
  function UnifiedEmission(prompt: string, uc: UnifiedContent): Emission {
    Emission(Unified, SummaryValue(prompt, uc.metadata, SummaryText(uc.metadata.sources)), Some(Origin(Unified)))
  }

  /** The cards and the summary that follow the answer block, in call
      order. */
  function CardEmissions(prompt: string, uc: UnifiedContent): (es: seq<Emission>)
    ensures Runs(es, 0, Elements(uc.twitter), Elements(uc.youtube), Elements(uc.web), UnifiedEmission(prompt, uc))
  {
    var last := UnifiedEmission(prompt, uc);
    CardRuns(Elements(uc.twitter), Elements(uc.youtube), Elements(uc.web), last);
    Cards(TwitterCard, Elements(uc.twitter))
      + (Cards(YouTubeCard, Elements(uc.youtube)) + (Cards(WebCard, Elements(uc.web)) + [last]))
  }

  /** The `addBlock` calls of the try block when it runs to its end, in
      call order: the AI answer if truthy, a card per tweet, per video and
      per article, and the unified summary last. */
  function Emissions(prompt: string, uc: UnifiedContent): (es: seq<Emission>)
    ensures Runs(es, AnswerCount(uc), Elements(uc.twitter), Elements(uc.youtube), Elements(uc.web), UnifiedEmission(prompt, uc))
    ensures AnswerCount(uc) == 1 ==> es[0] == Emission(AiResponse, uc.aiResponse.value, Some(Origin(AiResponse)))
  {
    var ai := AnswerEmissions(uc);
    var cards := CardEmissions(prompt, uc);
    ShiftRuns(ai, cards, Elements(uc.twitter), Elements(uc.youtube), Elements(uc.web), UnifiedEmission(prompt, uc));
    ai + cards
  }

  /** The order in which kinds are added on success. */
  function KindRank(k: Kind): nat {
    match k
    case AiResponse => 0
    case TwitterCard => 1
    case YouTubeCard => 2
    case WebCard => 3
    case Unified => 4
    case Text => 5
    case AiGenerated => 5
  }

  /** The kind of the `i`-th block of a successful generation, read off the
      aggregate alone. */
  function StageKind(uc: UnifiedContent, i: nat): Kind {
    var a := AnswerCount(uc);
    var tw := |Elements(uc.twitter)|;
    var yt := |Elements(uc.youtube)|;
    var wb := |Elements(uc.web)|;
    if i < a then AiResponse
    else if i < a + tw then TwitterCard
    else if i < a + tw + yt then YouTubeCard
    else if i < a + tw + yt + wb then WebCard
    else Unified
  }

  lemma EmissionKind(prompt: string, uc: UnifiedContent, i: nat)
    requires i < |Emissions(prompt, uc)|
    ensures Emissions(prompt, uc)[i].kind == StageKind(uc, i)
  {
    var a := AnswerCount(uc);
    var tw := |Elements(uc.twitter)|;
    var yt := |Elements(uc.youtube)|;
    var wb := |Elements(uc.web)|;
    if i < a {
    } else if i < a + tw {
      CardKind(Emissions(prompt, uc), a, TwitterCard, Elements(uc.twitter), i);
    } else if i < a + tw + yt {
      CardKind(Emissions(prompt, uc), a + tw, YouTubeCard, Elements(uc.youtube), i);
    } else if i < a + tw + yt + wb {
      CardKind(Emissions(prompt, uc), a + tw + yt, WebCard, Elements(uc.web), i);
    }
  }

  /** A block inside a run of cards has the run's kind. */
  lemma CardKind(es: seq<Emission>, from: nat, kind: Kind, items: seq<Value>, i: nat)
    requires Segment(es, from, kind, items)
    requires from <= i < from + |items|
    ensures es[i].kind == kind
  {
    SegmentAt(es, from, kind, items, i - from);
  }

  /** Stages follow one another: a later block's stage never ranks before
      an earlier one's. */
  lemma StageMonotone(uc: UnifiedContent, i: nat, j: nat)
    requires i <= j
    ensures KindRank(StageKind(uc, i)) <= KindRank(StageKind(uc, j))
  {
    var a := AnswerCount(uc);
    var tw := |Elements(uc.twitter)|;
    var yt := |Elements(uc.youtube)|;
    var wb := |Elements(uc.web)|;
    if j < a {
    } else if j < a + tw {
    } else if j < a + tw + yt {
    } else if j < a + tw + yt + wb {
    } else {
    }
  }

  /** Of two blocks of a successful generation, the earlier one's kind never
      ranks after the later one's. */
  lemma EmissionPairOrdered(prompt: string, uc: UnifiedContent, i: nat, j: nat)
    requires i < j < |Emissions(prompt, uc)|
    ensures KindRank(Emissions(prompt, uc)[i].kind) <= KindRank(Emissions(prompt, uc)[j].kind)
  {
    EmissionKind(prompt, uc, i);
    EmissionKind(prompt, uc, j);
    StageMonotone(uc, i, j);
  }

  /** Blocks are added kind by kind: answer, tweets, videos, articles, and
      the unified summary once, at the end. */
  lemma EmissionsOrdered(prompt: string, uc: UnifiedContent)
    ensures var es := Emissions(prompt, uc);
      && (forall i, j :: 0 <= i < j < |es| ==> KindRank(es[i].kind) <= KindRank(es[j].kind))
      && es[|es| - 1].kind == Unified
      && (forall i :: 0 <= i < |es| - 1 ==> es[i].kind != Unified)
  {
    KindsNeverGoBack(prompt, uc);
    SummaryOnlyLast(prompt, uc);
  }

  lemma KindsNeverGoBack(prompt: string, uc: UnifiedContent)
    ensures var es := Emissions(prompt, uc);
      forall i, j :: 0 <= i < j < |es| ==> KindRank(es[i].kind) <= KindRank(es[j].kind)
  {
    var es := Emissions(prompt, uc);
    forall i, j | 0 <= i < j < |es| ensures KindRank(es[i].kind) <= KindRank(es[j].kind) {
      EmissionPairOrdered(prompt, uc, i, j);
    }
  }

  lemma SummaryOnlyLast(prompt: string, uc: UnifiedContent)
    ensures var es := Emissions(prompt, uc);
      es[|es| - 1].kind == Unified && forall i :: 0 <= i < |es| - 1 ==> es[i].kind != Unified
  {
    var es := Emissions(prompt, uc);
    forall i | 0 <= i < |es| - 1 ensures es[i].kind != Unified {
      EmissionKind(prompt, uc, i);
    }
  }

  /** No search field makes its `forEach` throw, so the try block runs to
      its end. */
  predicate Completes(uc: UnifiedContent) {
    !ForEachThrows(uc.twitter) && !ForEachThrows(uc.youtube) && !ForEachThrows(uc.web)
  }

  /** The card kind of the first field whose `forEach` throws. */
  function ThrowingKind(uc: UnifiedContent): Kind
    requires !Completes(uc)
  {
    if ForEachThrows(uc.twitter) then TwitterCard
    else if ForEachThrows(uc.youtube) then YouTubeCard
    else WebCard
  }

  /** The `addBlock` calls the try block makes before a `forEach` throws:
      the answer block and the cards of the fields ahead of the throwing
      one. A throwing field has no elements, so its own cards are empty;
      the videos are skipped when the Twitter field threw first, and the
      articles are never reached (if the Web field is not the one that
      throws, an earlier one did). */
  function BeforeThrow(uc: UnifiedContent): (done: seq<Emission>)
    requires !Completes(uc)
    ensures |done| == AnswerCount(uc) + |Elements(uc.twitter)| + VideosBeforeThrow(uc)
  {
    var videos := if ForEachThrows(uc.twitter) then [] else Cards(YouTubeCard, Elements(uc.youtube));
    AnswerEmissions(uc) + (Cards(TwitterCard, Elements(uc.twitter)) + videos)
  }

  /** How many video cards are added before the throw. */
  function VideosBeforeThrow(uc: UnifiedContent): nat {
    if ForEachThrows(uc.twitter) then 0 else |Elements(uc.youtube)|
  }

  /** Before the throw, the answer block comes first when there is one. */
  lemma AnswerAt(uc: UnifiedContent)
    requires !Completes(uc) && AnswerCount(uc) == 1
    ensures 0 < |BeforeThrow(uc)|
    ensures BeforeThrow(uc)[0] == Emission(AiResponse, uc.aiResponse.value, Some(Origin(AiResponse)))
  {
  }

  /** Tweets come next, and only if the Twitter field did not throw. */
  lemma TweetAt(uc: UnifiedContent, i: nat)
    requires !Completes(uc) && AnswerCount(uc) <= i < AnswerCount(uc) + |Elements(uc.twitter)|
    ensures i < |BeforeThrow(uc)| && !ForEachThrows(uc.twitter)
    ensures BeforeThrow(uc)[i] == Emission(TwitterCard, Elements(uc.twitter)[i - AnswerCount(uc)], Some(Origin(TwitterCard)))
  {
    var twc := Cards(TwitterCard, Elements(uc.twitter));
    var videos := if ForEachThrows(uc.twitter) then [] else Cards(YouTubeCard, Elements(uc.youtube));
    assert BeforeThrow(uc)[i] == (twc + videos)[i - AnswerCount(uc)];
  }

  /** Videos come last, and only if neither the Twitter nor the YouTube
      field threw. */
  lemma VideoAt(uc: UnifiedContent, i: nat)
    requires !Completes(uc) && i < |BeforeThrow(uc)|
    requires AnswerCount(uc) + |Elements(uc.twitter)| <= i
    ensures !ForEachThrows(uc.twitter) && !ForEachThrows(uc.youtube)
    ensures i - AnswerCount(uc) - |Elements(uc.twitter)| < |Elements(uc.youtube)|
    ensures BeforeThrow(uc)[i]
      == Emission(YouTubeCard, Elements(uc.youtube)[i - AnswerCount(uc) - |Elements(uc.twitter)|], Some(Origin(YouTubeCard)))
  {
    var twc := Cards(TwitterCard, Elements(uc.twitter));
    var ytc := Cards(YouTubeCard, Elements(uc.youtube));
    var j := i - AnswerCount(uc) - |twc|;
    assert !ForEachThrows(uc.twitter);
    assert BeforeThrow(uc)[i] == (twc + ytc)[i - AnswerCount(uc)];
    assert (twc + ytc)[i - AnswerCount(uc)] == ytc[j];
  }

  /** The stage of the `i`-th call before the throw. */
  lemma BeforeThrowKind(uc: UnifiedContent, i: nat)
    requires !Completes(uc) && i < |BeforeThrow(uc)|
    ensures i < AnswerCount(uc) ==> BeforeThrow(uc)[i].kind == AiResponse
    ensures AnswerCount(uc) <= i < AnswerCount(uc) + |Elements(uc.twitter)| ==>
      BeforeThrow(uc)[i].kind == TwitterCard && !ForEachThrows(uc.twitter)
    ensures AnswerCount(uc) + |Elements(uc.twitter)| <= i ==>
      BeforeThrow(uc)[i].kind == YouTubeCard && !ForEachThrows(uc.twitter) && !ForEachThrows(uc.youtube)
  {
    if i < AnswerCount(uc) {
      AnswerAt(uc);
    } else if i < AnswerCount(uc) + |Elements(uc.twitter)| {
      TweetAt(uc, i);
    } else {
      VideoAt(uc, i);
    }
  }

  /** The stages that can run before the throw rank ahead of the throwing
      field's cards. */
  lemma ThrowRank(uc: UnifiedContent, k: Kind)
    requires !Completes(uc)
    requires || k == AiResponse
             || (k == TwitterCard && !ForEachThrows(uc.twitter))
             || (k == YouTubeCard && !ForEachThrows(uc.twitter) && !ForEachThrows(uc.youtube))
    ensures KindRank(k) < KindRank(ThrowingKind(uc))
  {
  }

  /** The `addBlock` calls when a `forEach` throws: those made before the
      throw, then the catch's error block. Nothing of the throwing stage or
      later is added, in particular no summary. */
  function ThrownEmissions(uc: UnifiedContent): (es: seq<Emission>)
    requires !Completes(uc)
    ensures |es| == |BeforeThrow(uc)| + 1 && es[|es| - 1] == ErrorEmission
    ensures forall i :: 0 <= i < |es| - 1 ==> es[i] == BeforeThrow(uc)[i]
    ensures forall i :: 0 <= i < |es| - 1 ==> KindRank(es[i].kind) < KindRank(ThrowingKind(uc))
    ensures forall i :: 0 <= i < |es| ==> es[i].kind != Unified
  {
    var done := BeforeThrow(uc);
    var es := done + [ErrorEmission];
    forall i | 0 <= i < |es|
      ensures i < |done| ==> es[i] == done[i] && KindRank(es[i].kind) < KindRank(ThrowingKind(uc))
      ensures es[i].kind != Unified
    {
      if i < |done| {
        assert es[i] == done[i];
        BeforeThrowKind(uc, i);
        ThrowRank(uc, done[i].kind);
      } else {
        ErrorEmissionKind();
      }
    }
    es
  }

  /** The `addBlock` calls the handler makes once the agent has settled:
      every emission of the try block when it runs to its end, those made
      before the throw followed by the error block when a `forEach` throws,
      and the error block alone when the agent rejects. */
  function Added(prompt: string, out: Result<UnifiedContent, string>): seq<Emission> {
    if out.Success? && Completes(out.value) then Emissions(prompt, out.value)
    else if out.Success? then ThrownEmissions(out.value)
    else [ErrorEmission]
  }

  /** The rest of the handler once the agent has settled. If the try block
      runs to its end, the aggregate becomes blocks and the prompt box is
      cleared; otherwise (a `forEach` threw, or the agent rejected) the
      prompt is kept. The query is remembered and `isGenerating` ends
      false. Each `addBlock` call draws the next stamp. */
  function Settle(s: State, out: Result<UnifiedContent, string>, stamps: StampStream): (r: State)
    ensures !r.isGenerating && r.lastQuery == s.prompt
    ensures |r.blocks| > |s.blocks| && r.blocks[..|s.blocks|] == s.blocks
    ensures out.Success? && Completes(out.value) ==> r.prompt == []
    ensures !(out.Success? && Completes(out.value)) ==> r.prompt == s.prompt
    ensures forall i :: |s.blocks| <= i < |r.blocks| ==> Within(r.blocks[i].position, CanvasLayout)
  {
    var es := Added(s.prompt, out);
    assert |es| > 0;
    var prompt := if out.Success? && Completes(out.value) then [] else s.prompt;
    State(AppendAll(s.blocks, es, CanvasLayout, stamps, 0), prompt, false, s.prompt)
  }

  /** The `i`-th `addBlock` call of the settled handler lands `i` places
      after the blocks that were already on the canvas, and nothing else is
      added. */
  lemma SettleCarries(s: State, out: Result<UnifiedContent, string>, stamps: StampStream, i: nat)
    requires i < |Added(s.prompt, out)|
    ensures var r := Settle(s, out, stamps);
      |r.blocks| == |s.blocks| + |Added(s.prompt, out)|
      && Carries(r.blocks[|s.blocks| + i], Added(s.prompt, out)[i])
  {
    AppendAllAt(s.blocks, Added(s.prompt, out), CanvasLayout, stamps, i);
  }

  /** Settling draws each new block's id from a stream that repeats none and
      clashes with no block already on the canvas, so ids stay unique. */
  lemma SettleKeepsIdsUnique(s: State, out: Result<UnifiedContent, string>, stamps: StampStream)
    requires UniqueIds(s.blocks) && FreshFor(stamps, s.blocks)
    ensures UniqueIds(Settle(s, out, stamps).blocks)
  {
    AppendAllKeepsIdsUnique(s.blocks, Added(s.prompt, out), CanvasLayout, stamps);
  }

  /** `handleGenerateUnifiedContent`: a blank prompt does nothing; otherwise
      the agent is asked and its outcome settled. The prompt box ends empty
      exactly when the agent resolved and no search field threw. */
  function HandleGenerateUnifiedContent(s: State, fetch: Fetcher, now: Time, stamps: StampStream): (r: State)
    ensures IsBlank(s.prompt) ==> r == s
    ensures !IsBlank(s.prompt) ==> r == Settle(s, GenerateUnifiedContent(s.prompt, fetch, now), stamps)
    ensures !IsBlank(s.prompt) ==>
      var out := GenerateUnifiedContent(s.prompt, fetch, now);
      (r.prompt == [] <==> out.Success? && Completes(out.value))
  {
    if Trim(s.prompt) == [] then s
    else
      assert s.prompt != [];
      Settle(s, GenerateUnifiedContent(s.prompt, fetch, now), stamps)
  }

  /** When no fetch resolves to a non-empty string, the prompt box ends empty
      exactly when every fetch the agent issued succeeded. */
  lemma PromptClearedIffFetchesSucceed(s: State, fetch: Fetcher, now: Time, stamps: StampStream)
    requires !IsBlank(s.prompt)
    requires forall src :: fetch(src).Success? ==> !ForEachThrows(Some(fetch(src).value))
    ensures HandleGenerateUnifiedContent(s, fetch, now, stamps).prompt == []
      <==> forall src :: Selected(AnalyzePrompt(s.prompt), src) ==> fetch(src).Success?
  {
    var out := GenerateUnifiedContent(s.prompt, fetch, now);
    if out.Success? {
      assert Faithful(s.prompt, fetch, now, out.value);
      assert fetch(Twitter).Success? ==> !ForEachThrows(Some(fetch(Twitter).value));
      assert fetch(YouTube).Success? ==> !ForEachThrows(Some(fetch(YouTube).value));
      assert fetch(Web).Success? ==> !ForEachThrows(Some(fetch(Web).value));
      assert Completes(out.value);
    }
  }

  /** No label the agent records contains a comma. */
  lemma LabelsCommaFree(a: Analysis)
    ensures forall i :: 0 <= i < |PlanFetches(a).sources| ==> ',' !in PlanFetches(a).sources[i]
  {
    var p := PlanFetches(a);
    forall i | 0 <= i < |p.sources| ensures ',' !in p.sources[i] {
      match p.fetches[i]
      case Twitter =>
      case YouTube =>
      case Web =>
      case Ai =>
    }
  }

  /** On success the new blocks carry the emissions, one each. */
  lemma SettleDelivers(s: State, uc: UnifiedContent, stamps: StampStream, i: nat)
    requires Completes(uc)
    requires i < |Emissions(s.prompt, uc)|
    ensures var r := Settle(s, Success(uc), stamps);
      |r.blocks| == |s.blocks| + |Emissions(s.prompt, uc)|
      && Carries(r.blocks[|s.blocks| + i], Emissions(s.prompt, uc)[i])
  {
    var r := Settle(s, Success(uc), stamps);
    assert Added(s.prompt, Success(uc)) == Emissions(s.prompt, uc);
    SettleCarries(s, Success(uc), stamps, i);
  }

  /** The last block is a unified summary whose text reads back as
      `summary`. */
  predicate ClosesWithSummary(bs: seq<Block>, summary: Summary) {
    && |bs| > 0
    && bs[|bs| - 1].kind == Unified
    && bs[|bs| - 1].content.SummaryValue?
    && ReadSummary(bs[|bs| - 1].content.summary) == Some(summary)
  }

  /** When the try block runs to its end the new blocks are the AI answer
      (if truthy), one card per delivered element, and the unified summary;
      the prompt box is cleared. */
  lemma SuccessBlocks(s: State, uc: UnifiedContent, stamps: StampStream)
    requires Completes(uc)
    ensures var r := Settle(s, Success(uc), stamps);
      var n := |s.blocks|;
      && |r.blocks| == n + AnswerCount(uc) + |Elements(uc.twitter)| + |Elements(uc.youtube)| + |Elements(uc.web)| + 1
      && r.prompt == []
      && (AnswerCount(uc) == 1 ==> r.blocks[n].kind == AiResponse && r.blocks[n].content == uc.aiResponse.value)
  {
    SettleDelivers(s, uc, stamps, 0);
  }

  /** The last block of a complete run is the unified summary, which reports
      how many fetches were issued and lists them. */
  lemma SuccessSummary(s: State, uc: UnifiedContent, stamps: StampStream)
    requires Completes(uc)
    requires forall i :: 0 <= i < |uc.metadata.sources| ==> ',' !in uc.metadata.sources[i]
    requires |uc.metadata.sources| >= 1
    ensures ClosesWithSummary(Settle(s, Success(uc), stamps).blocks, Summary(|uc.metadata.sources|, uc.metadata.sources))
  {
    var es := Emissions(s.prompt, uc);
    var r := Settle(s, Success(uc), stamps);
    SettleDelivers(s, uc, stamps, |es| - 1);
    assert es[|es| - 1] == UnifiedEmission(s.prompt, uc);
    UnifiedEmissionReadsBack(s.prompt, uc);
    CarriedSummary(r.blocks, UnifiedEmission(s.prompt, uc), Summary(|uc.metadata.sources|, uc.metadata.sources));
  }

  /** The summary block's emission reads back as the count and list of the
      aggregate's sources. */
  lemma UnifiedEmissionReadsBack(prompt: string, uc: UnifiedContent)
    requires forall i :: 0 <= i < |uc.metadata.sources| ==> ',' !in uc.metadata.sources[i]
    requires |uc.metadata.sources| >= 1
    ensures var e := UnifiedEmission(prompt, uc);
      && e.kind == Unified && e.content.SummaryValue?
      && ReadSummary(e.content.summary) == Some(Summary(|uc.metadata.sources|, uc.metadata.sources))
  {
    SummaryReadsBack(uc.metadata.sources);
  }

  lemma CarriedSummary(bs: seq<Block>, e: Emission, summary: Summary)
    requires |bs| > 0 && Carries(bs[|bs| - 1], e)
    requires e.kind == Unified && e.content.SummaryValue? && ReadSummary(e.content.summary) == Some(summary)
    ensures ClosesWithSummary(bs, summary)
  {
  }

  /** On failure exactly one block is added: an AI answer saying an error
      occurred, with no sources and zero confidence, attributed to "Error";
      the prompt is kept so it can be retried. */
  lemma FailureBlock(s: State, error: string, stamps: StampStream)
    ensures var r := Settle(s, Failure(error), stamps);
      var b := r.blocks[|s.blocks|];
      && |r.blocks| == |s.blocks| + 1 && r.prompt == s.prompt && !r.isGenerating
      && b.kind == AiResponse && b.source == Some("Error")
      && b.content.AnswerValue? && b.content.answer.sources == [] && b.content.answer.confidence == 0.0
  {
    var r := Settle(s, Failure(error), stamps);
    assert Added(s.prompt, Failure(error)) == [ErrorEmission];
    SettleCarries(s, Failure(error), stamps, 0);
  }

  /** The blocks added before a `forEach` throws are the first blocks a
      complete run would have added. */
  lemma ThrownPrefix(prompt: string, uc: UnifiedContent)
    requires !Completes(uc)
    ensures BeforeThrow(uc) <= Emissions(prompt, uc)
  {
    var twc := Cards(TwitterCard, Elements(uc.twitter));
    var ytc := Cards(YouTubeCard, Elements(uc.youtube));
    var tail := Cards(WebCard, Elements(uc.web)) + [UnifiedEmission(prompt, uc)];
    var rest := if ForEachThrows(uc.twitter) then ytc + tail else tail;
    EmissionsShape(prompt, uc);
    Regroup(AnswerEmissions(uc), twc, ytc, tail, ForEachThrows(uc.twitter));
    PrefixOfConcat(BeforeThrow(uc), rest);
  }

  lemma EmissionsShape(prompt: string, uc: UnifiedContent)
    ensures Emissions(prompt, uc)
      == AnswerEmissions(uc) + (Cards(TwitterCard, Elements(uc.twitter))
         + (Cards(YouTubeCard, Elements(uc.youtube)) + (Cards(WebCard, Elements(uc.web)) + [UnifiedEmission(prompt, uc)])))
  {
  }

  /** Moving the videos to the tail when they are skipped. */
  lemma Regroup(ai: seq<Emission>, twc: seq<Emission>, ytc: seq<Emission>, tail: seq<Emission>, skip: bool)
    ensures ai + (twc + (ytc + tail))
      == (ai + (twc + (if skip then [] else ytc))) + (if skip then ytc + tail else tail)
  {
    if skip {
      assert twc + [] == twc;
    }
  }

  lemma PrefixOfConcat(p: seq<Emission>, q: seq<Emission>)
    ensures p <= p + q
  {
  }

  /** After a throw the `i`-th new block carries the `i`-th emission of the
      interrupted run. */
  lemma ThrowDelivers(s: State, uc: UnifiedContent, stamps: StampStream, i: nat)
    requires !Completes(uc)
    requires i < |ThrownEmissions(uc)|
    ensures var r := Settle(s, Success(uc), stamps);
      |r.blocks| == |s.blocks| + |ThrownEmissions(uc)|
      && Carries(r.blocks[|s.blocks| + i], ThrownEmissions(uc)[i])
  {
    var r := Settle(s, Success(uc), stamps);
    assert Added(s.prompt, Success(uc)) == ThrownEmissions(uc);
    SettleCarries(s, Success(uc), stamps, i);
  }

  /** When a search field holds a non-empty string its `forEach` throws:
      the blocks of the stages ahead of it stay, the error block follows
      them, and the prompt is kept for a retry. */
  lemma ThrowBlocks(s: State, uc: UnifiedContent, stamps: StampStream)
    requires !Completes(uc)
    ensures var r := Settle(s, Success(uc), stamps);
      var n := |s.blocks|;
      && |r.blocks| == n + |BeforeThrow(uc)| + 1 && r.prompt == s.prompt && !r.isGenerating
      && Carries(r.blocks[|r.blocks| - 1], ErrorEmission)
      && (AnswerCount(uc) == 1 ==> r.blocks[n].kind == AiResponse && r.blocks[n].content == uc.aiResponse.value)
  {
    var es := ThrownEmissions(uc);
    ThrowDelivers(s, uc, stamps, |es| - 1);
    if AnswerCount(uc) == 1 {
      ThrowDelivers(s, uc, stamps, 0);
      AnswerAt(uc);
    }
  }

  /** After a throw no summary block is added, and every new block but the
      error block belongs to a stage ahead of the throwing field. */
  lemma ThrowStagesAhead(s: State, uc: UnifiedContent, stamps: StampStream, i: nat)
    requires !Completes(uc)
    requires var r := Settle(s, Success(uc), stamps); |s.blocks| <= i < |r.blocks|
    ensures var r := Settle(s, Success(uc), stamps);
      && r.blocks[i].kind != Unified
      && (i < |r.blocks| - 1 ==> KindRank(r.blocks[i].kind) < KindRank(ThrowingKind(uc)))
  {
    ThrowDelivers(s, uc, stamps, i - |s.blocks|);
  }

  /** When the try block runs to its end the `i`-th new block has the kind
      its stage dictates: answer, tweets, videos, articles, summary. */
  lemma SuccessKinds(s: State, uc: UnifiedContent, stamps: StampStream, i: nat)
    requires Completes(uc)
    requires i < |Emissions(s.prompt, uc)|
    ensures Settle(s, Success(uc), stamps).blocks[|s.blocks| + i].kind == StageKind(uc, i)
  {
    SettleDelivers(s, uc, stamps, i);
    EmissionKind(s.prompt, uc, i);
  }

  /** Settling an aggregate the agent built faithfully for the prompt, with
      no throwing field and a truthy answer, puts the AI answer first and
      ends with a summary that reports the selected sources plus the AI
      answer. */
  lemma GenerationSummary(s: State, fetch: Fetcher, now: Time, uc: UnifiedContent, stamps: StampStream)
    requires Faithful(s.prompt, fetch, now, uc)
    requires Completes(uc) && Truthy(fetch(Ai).value)
    ensures var a := AnalyzePrompt(s.prompt);
      var r := Settle(s, Success(uc), stamps);
      var n := |s.blocks|;
      && |r.blocks| >= n + 2
      && r.blocks[n].kind == AiResponse && r.blocks[n].content == fetch(Ai).value
      && ClosesWithSummary(r.blocks, Summary(SelectedCount(a) + 1, PlanFetches(a).sources))
  {
    FaithfulSummary(s.prompt, fetch, now, uc);
    SuccessBlocks(s, uc, stamps);
    SuccessSummary(s, uc, stamps);
  }

  /** What a faithful aggregate carries that the canvas shows: the AI answer,
      and a comma-free list of the issued fetches, one per selected source
      plus the AI answer. */
  lemma FaithfulSummary(prompt: string, fetch: Fetcher, now: Time, uc: UnifiedContent)
    requires Faithful(prompt, fetch, now, uc)
    ensures var a := AnalyzePrompt(prompt);
      && uc.aiResponse == Some(fetch(Ai).value)
      && uc.metadata.sources == PlanFetches(a).sources
      && |uc.metadata.sources| == SelectedCount(a) + 1
      && forall i :: 0 <= i < |uc.metadata.sources| ==> ',' !in uc.metadata.sources[i]
  {
    var a := AnalyzePrompt(prompt);
    SourcesCountFetches(a);
    LabelsCommaFree(a);
  }

  /** An aggregate with an answer, no tweets, two videos and no articles
      becomes four blocks: answer, video, video, summary. */
  lemma TwoVideoBlocks(s: State, uc: UnifiedContent, stamps: StampStream)
    requires Completes(uc) && AnswerCount(uc) == 1
    requires |Elements(uc.twitter)| == 0 && |Elements(uc.youtube)| == 2 && |Elements(uc.web)| == 0
    ensures var r := Settle(s, Success(uc), stamps);
      var n := |s.blocks|;
      && |r.blocks| == n + 4 && r.prompt == []
      && r.blocks[n].kind == AiResponse
      && r.blocks[n + 1].kind == YouTubeCard && r.blocks[n + 2].kind == YouTubeCard
      && r.blocks[n + 3].kind == Unified
  {
    assert StageKind(uc, 0) == AiResponse && StageKind(uc, 1) == YouTubeCard;
    assert StageKind(uc, 2) == YouTubeCard && StageKind(uc, 3) == Unified;
    SuccessKinds(s, uc, stamps, 0);
    SuccessKinds(s, uc, stamps, 1);
    SuccessKinds(s, uc, stamps, 2);
    SuccessKinds(s, uc, stamps, 3);
  }

  /** What the mocked backend delivers for a prompt that selects YouTube
      alone: the AI answer and two videos. */
  lemma VideoOnlyStages(prompt: string, e: Entropy)
    requires var a := AnalyzePrompt(prompt); !a.needsTwitter && a.needsYouTube && !a.needsWeb
    ensures var uc := GenerateUnifiedContent(prompt, MockBackend(prompt, e), e.now);
      && uc.Success? && Completes(uc.value)
      && AnswerCount(uc.value) == 1
      && |Elements(uc.value.twitter)| == 0 && |Elements(uc.value.youtube)| == 2 && |Elements(uc.value.web)| == 0
  {
    MockGenerationSucceeds(prompt, e);
  }

  /** With the mocked server no search field ever throws and the answer is
      a record, so any non-blank prompt ends with the prompt box cleared. */
  lemma MockHandlerClearsPrompt(s: State, e: Entropy, stamps: StampStream)
    requires !IsBlank(s.prompt)
    ensures var out := GenerateUnifiedContent(s.prompt, MockBackend(s.prompt, e), e.now);
      && out.Success? && Completes(out.value) && AnswerCount(out.value) == 1
      && HandleGenerateUnifiedContent(s, MockBackend(s.prompt, e), e.now, stamps).prompt == []
  {
    MockGenerationSucceeds(s.prompt, e);
  }

  /** With the mocked backend, a prompt that selects YouTube alone adds, in
      order, the AI answer, two video cards and the summary. */
  lemma VideoOnlyBlocks(s: State, e: Entropy, stamps: StampStream)
    requires !IsBlank(s.prompt)
    requires var a := AnalyzePrompt(s.prompt); !a.needsTwitter && a.needsYouTube && !a.needsWeb
    ensures var r := HandleGenerateUnifiedContent(s, MockBackend(s.prompt, e), e.now, stamps);
      var n := |s.blocks|;
      && |r.blocks| == n + 4 && r.prompt == []
      && r.blocks[n].kind == AiResponse
      && r.blocks[n + 1].kind == YouTubeCard && r.blocks[n + 2].kind == YouTubeCard
      && r.blocks[n + 3].kind == Unified
  {
    VideoOnlyStages(s.prompt, e);
    var out := GenerateUnifiedContent(s.prompt, MockBackend(s.prompt, e), e.now);
    TwoVideoBlocks(s, out.value, stamps);
  }

  /** An example prompt on the enhanced canvas: "best tutorial video on
      rust" adds, in order, the AI answer, two video cards and the summary. */
  lemma TutorialPromptBlocks(s: State, e: Entropy, stamps: StampStream)
    requires s.prompt == TutorialPrompt
    ensures var r := HandleGenerateUnifiedContent(s, MockBackend(TutorialPrompt, e), e.now, stamps);
      var n := |s.blocks|;
      && |r.blocks| == n + 4 && r.prompt == []
      && r.blocks[n].kind == AiResponse
      && r.blocks[n + 1].kind == YouTubeCard && r.blocks[n + 2].kind == YouTubeCard
      && r.blocks[n + 3].kind == Unified
  {
    assert !IsWhitespace(TutorialPrompt[0]);
    TutorialPromptAnalysis();
    VideoOnlyBlocks(s, e, stamps);
  }
}
