/** Prompt classification: which mocked sources a prompt needs and its topic
    category (`analyzePrompt` and `categorizePrompt` in agent.ts). Both work
    by substring tests against fixed keyword lists. */
module Analyzer {
  import opened Text

  /** The topic categories, in priority order. */
  datatype Category = Technology | News | Education | General

  /** The string `categorizePrompt` returns for each category. */
  function CategoryName(c: Category): string {
    match c
    case Technology => "technology"
    case News => "news"
    case Education => "education"
    case General => "general"
  }

  /** The result of `analyzePrompt`. */
  datatype Analysis = Analysis(needsTwitter: bool, needsYouTube: bool, needsWeb: bool, category: Category)

  const TwitterKeywords: seq<string> := ["social", "twitter", "opinion", "trending"]
  const YouTubeKeywords: seq<string> := ["video", "youtube", "tutorial", "explanation"]
  const WebKeywords: seq<string> := ["research", "article", "news"]
  /** `needsWeb` is also set by the absence of this word. */
  const VideoWord: string := "video"

  const TechnologyKeywords: seq<string> := ["tech", "ai", "programming"]
  const NewsKeywords: seq<string> := ["news", "current"]
  const EducationKeywords: seq<string> := ["learn", "tutorial"]

  /** The source's left-to-right `s.includes(k0) || s.includes(k1) || ...`. */
  predicate IncludesAny(s: string, ks: seq<string>)
  {
    if ks == [] then false else Includes(s, ks[0]) || IncludesAny(s, ks[1..])
  }

  /** Reference: some keyword of `ks` sits somewhere in `s`. */
  ghost predicate MentionsAny(s: string, ks: seq<string>) {
    exists i :: 0 <= i < |ks| && Occurs(s, ks[i])
  }

  lemma {:induction false} IncludesAnyIffMentions(s: string, ks: seq<string>)
    ensures IncludesAny(s, ks) <==> MentionsAny(s, ks)
    decreases |ks|
  {
    if ks != [] {
      IncludesIffOccurs(s, ks[0]);
      IncludesAnyIffMentions(s, ks[1..]);
      if MentionsAny(s, ks) {
        var i :| 0 <= i < |ks| && Occurs(s, ks[i]);
        if i > 0 {
          assert ks[1..][i - 1] == ks[i];
        }
      }
      if MentionsAny(s, ks[1..]) {
        var i :| 0 <= i < |ks[1..]| && Occurs(s, ks[1..][i]);
        assert ks[i + 1] == ks[1..][i];
      }
    }
  }

  /** `categorizePrompt`: the first category, in priority order, one of whose
      keywords occurs in the (already lower-cased) prompt. */
  function Categorize(lower: string): (c: Category)
    ensures c == Technology <==> MentionsAny(lower, TechnologyKeywords)
    ensures c == News <==>
      !MentionsAny(lower, TechnologyKeywords) && MentionsAny(lower, NewsKeywords)
    ensures c == Education <==>
      !MentionsAny(lower, TechnologyKeywords) && !MentionsAny(lower, NewsKeywords)
      && MentionsAny(lower, EducationKeywords)
    ensures c == General <==>
      !MentionsAny(lower, TechnologyKeywords) && !MentionsAny(lower, NewsKeywords)
      && !MentionsAny(lower, EducationKeywords)
  {
    IncludesAnyIffMentions(lower, TechnologyKeywords);
    IncludesAnyIffMentions(lower, NewsKeywords);
    IncludesAnyIffMentions(lower, EducationKeywords);
    if IncludesAny(lower, TechnologyKeywords) then Technology
    else if IncludesAny(lower, NewsKeywords) then News
    else if IncludesAny(lower, EducationKeywords) then Education
    else General
  }

  /** `analyzePrompt`: keyword tests on the lower-cased prompt. */
  function AnalyzePrompt(prompt: string): (a: Analysis)
    ensures a.needsTwitter <==> MentionsAny(Lower(prompt), TwitterKeywords)
    ensures a.needsYouTube <==> MentionsAny(Lower(prompt), YouTubeKeywords)
    ensures a.needsWeb <==>
      MentionsAny(Lower(prompt), WebKeywords) || !Occurs(Lower(prompt), VideoWord)
    ensures a.needsYouTube || a.needsWeb
    ensures a.category == Categorize(Lower(prompt))
  {
    var lower := Lower(prompt);
    IncludesAnyIffMentions(lower, TwitterKeywords);
    IncludesAnyIffMentions(lower, YouTubeKeywords);
    IncludesAnyIffMentions(lower, WebKeywords);
    IncludesIffOccurs(lower, VideoWord);
    assert YouTubeKeywords[0] == VideoWord;
    Analysis(
      IncludesAny(lower, TwitterKeywords),
      IncludesAny(lower, YouTubeKeywords),
      IncludesAny(lower, WebKeywords) || !Includes(lower, VideoWord),
      Categorize(lower))
  }

  /** Classification ignores letter case: prompts that differ only in the
      case of ASCII letters are classified alike. */
  lemma AnalyzeIgnoresCase(p: string, q: string)
    requires |p| == |q|
    requires forall i :: 0 <= i < |p| ==> LowerChar(p[i]) == LowerChar(q[i])
    ensures AnalyzePrompt(p) == AnalyzePrompt(q)
  {
    assert Lower(p) == Lower(q);
  }

  /** Classifying the lower-cased prompt gives the same answer. */
  lemma AnalyzeOfLowered(p: string)
    ensures AnalyzePrompt(Lower(p)) == AnalyzePrompt(p)
  {
    LowerIdempotent(p);
  }

  /** A prompt with no keyword at all is sent to web search only. */
  lemma NoKeywordMeansWebOnly(p: string)
    requires !MentionsAny(Lower(p), TwitterKeywords)
    requires !MentionsAny(Lower(p), YouTubeKeywords)
    ensures AnalyzePrompt(p).needsWeb
    ensures !AnalyzePrompt(p).needsTwitter && !AnalyzePrompt(p).needsYouTube
  {
    assert YouTubeKeywords[0] == VideoWord;
  }

  /** A prompt that says "video" and none of the web words skips web search. */
  lemma VideoWithoutWebWordSkipsWeb(p: string)
    requires Occurs(Lower(p), VideoWord)
    requires !MentionsAny(Lower(p), WebKeywords)
    ensures AnalyzePrompt(p).needsYouTube && !AnalyzePrompt(p).needsWeb
  {
    assert YouTubeKeywords[0] == VideoWord;
  }

  // An example prompt that asks for a video tutorial.

  const TutorialPrompt: string := "best tutorial video on rust"

  lemma TutorialPromptSpelling()
    ensures TutorialPrompt == "best " + "tutorial" + " video on rust"
    ensures TutorialPrompt == "best tutorial " + "video" + " on rust"
    ensures TutorialPrompt == "best tutori" + ['a'] + "l video on rust"
  {
  }

  lemma TutorialPromptLetters()
    ensures 'c' !in TutorialPrompt && 'w' !in TutorialPrompt
    ensures 'p' !in TutorialPrompt && 'g' !in TutorialPrompt
  {
  }

  lemma TutorialPromptSources()
    ensures !MentionsAny(TutorialPrompt, TwitterKeywords)
    ensures MentionsAny(TutorialPrompt, YouTubeKeywords) && Occurs(TutorialPrompt, VideoWord)
    ensures !MentionsAny(TutorialPrompt, WebKeywords)
  {
    TutorialPromptSpelling();
    TutorialPromptLetters();
    OccurrenceCharsInside(TutorialPrompt, "social", 'c');
    OccurrenceCharsInside(TutorialPrompt, "twitter", 'w');
    OccurrenceCharsInside(TutorialPrompt, "opinion", 'p');
    OccurrenceCharsInside(TutorialPrompt, "trending", 'g');
    OccursInfix("best ", "tutorial", " video on rust");
    OccursInfix("best tutorial ", "video", " on rust");
    assert Occurs(TutorialPrompt, YouTubeKeywords[2]);
    OccurrenceCharsInside(TutorialPrompt, "research", 'c');
    OccurrenceCharsInside(TutorialPrompt, "article", 'c');
    OccurrenceCharsInside(TutorialPrompt, "news", 'w');
  }

  lemma TutorialPromptTopic()
    ensures !MentionsAny(TutorialPrompt, TechnologyKeywords)
    ensures !MentionsAny(TutorialPrompt, NewsKeywords)
    ensures MentionsAny(TutorialPrompt, EducationKeywords)
  {
    TutorialPromptSpelling();
    TutorialPromptLetters();
    OccurrenceCharsInside(TutorialPrompt, "tech", 'c');
    OccurrenceOfPair("best tutori", 'a', "l video on rust", 'i');
    OccurrenceCharsInside(TutorialPrompt, "programming", 'p');
    OccurrenceCharsInside(TutorialPrompt, "news", 'w');
    OccurrenceCharsInside(TutorialPrompt, "current", 'c');
    OccursInfix("best ", "tutorial", " video on rust");
    assert Occurs(TutorialPrompt, EducationKeywords[1]);
  }

  /** "best tutorial video on rust" goes to YouTube only and is filed under
      education. */
  lemma TutorialPromptAnalysis()
    ensures AnalyzePrompt(TutorialPrompt) == Analysis(false, true, false, Education)
    ensures CategoryName(AnalyzePrompt(TutorialPrompt).category) == "education"
  {
    LowerFixesLowered(TutorialPrompt);
    TutorialPromptSources();
    TutorialPromptTopic();
  }
}
