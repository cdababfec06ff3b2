# Unified content canvas — a Dafny model

This project models the core of the `unified-interface` web app. The app has
a small agent and two canvases that display what it produces.

- The agent is `UnifiedAgent` with its mocked MCP server, in
  `src/lib/agent.ts`. It works in four steps:
  - It classifies a free-text prompt by keyword: social, video or web, plus a
    category.
  - It issues one mocked search per selected source and always adds one AI
    answer.
  - It joins the results all-or-nothing, the way `Promise.all` does.
  - It puts each result back into a `UnifiedContent` aggregate by its
    position in the push order.
- The enhanced canvas is `EnhancedThoughtSpace`, in
  `src/components/enhanced-thought-space.tsx`. It keeps a list of draggable
  content blocks. Its generate handler turns the agent's aggregate into
  blocks:
  - on success, the AI answer, one card per tweet, video and article, and a
    unified summary block;
  - on failure, one error block.
- The simple canvas is `ThoughtSpace`, in `src/components/thought-space.tsx`.
  It fabricates an answer card and, by keyword, a tweet card and a video
  card, without calling the agent.

Everything is pure functions on immutable datatypes. Every source of
nondeterminism is a parameter:

| source | parameter |
|---|---|
| `Math.random()` draws | `Unit`, a real in [0, 1), collected in `Entropy`, `Draws` and `Stamp` |
| `Date.now()` | `Time`, in milliseconds |
| `crypto.randomUUID()` | a stamp stream `nat -> Stamp` |
| the agent's fetches | a `Fetcher` function from each kind of fetch to its settled result |

`MockBackend` instantiates that `Fetcher` with the mocked server, which lets
the model state end-to-end facts about the app as shipped.

Modules, in dependency order:

| module | models |
|---|---|
| `Wrappers` | `Option` and `Result` |
| `Text` | the JavaScript string built-ins the core uses: `toLowerCase`, `includes`, `trim`, `replace(/\s+/g, '-')`, `join`, `split`, number printing and `padStart`. `join` and `split` are each other's inverse, and number printing and `padStart` are inverted by a digit parser. `includes` and `trim` are checked against reference definitions. `toLowerCase` and `replace` have neither; their contracts state what they guarantee of the result. |
| `Content` | the record types (`TwitterContent`, `YouTubeContent`, `WebContent`, `AIResponse`, metadata), `Value` (a model of the `any` values that flow into blocks), and the random-draw helpers |
| `Analyzer` | `analyzePrompt` and `categorizePrompt` |
| `McpServer` | `MCPServer.callTool` and the four mocks |
| `Agent` | `generateUnifiedContent`: the push phase, the join, the read-back phase, and `generateAIResponse` |
| `Canvas` | the block list both canvases share: `addBlock`, `removeBlock`, `updateBlockPosition` |
| `EnhancedThoughtSpace` | the enhanced canvas and its handler |
| `ThoughtSpace` | the simple canvas and its handler |

## Model

Paths are relative to the repository root. Line ranges are those of the modelled code.

| member | source | states |
|---|---|---|
| Text.IncludesIffOccurs | unified-interface/src/lib/agent.ts:219-221 | `includes` (a left-to-right scan) is true exactly when the pattern occurs at some position of the string |
| Text.LowerIdempotent | unified-interface/src/lib/agent.ts:216 | lower-casing an already lower-cased prompt changes nothing |
| Text.Trim | unified-interface/src/components/enhanced-thought-space.tsx:58 | the trimmed prompt is empty exactly when every character is ECMAScript whitespace |
| Text.Slug | unified-interface/src/lib/agent.ts:117 | the URL slug of a query has no whitespace and no upper-case letter, and is no longer than the query (the length bound holds because only ASCII letters are lower-cased, see Text.Lower below) |
| Text.HyphenateRun | unified-interface/src/lib/agent.ts:124 | a whole whitespace run becomes a single hyphen (the `+` in `\s+`) |
| Text.SplitJoin | unified-interface/src/components/enhanced-thought-space.tsx:97 | splitting `join(', ')` at ", " gives the list back when no entry contains a comma |
| Text.ParseNatToString | unified-interface/src/components/enhanced-thought-space.tsx:97 | the printed count reads back as the same number |
| Text.ParsePadded | unified-interface/src/lib/agent.ts:99 | zero-padding a numeral with `padStart` keeps its value |
| Text.Lower | unified-interface/src/lib/agent.ts:216 | `toLowerCase` keeps the length, maps each character on its own, and leaves no upper-case letter |
| Text.Hyphenate | unified-interface/src/lib/agent.ts:117 | `replace(/\s+/g, '-')` leaves no whitespace and never lengthens the string; a string without whitespace is returned as is, and a lower-case string stays lower-case |
| Text.Join | unified-interface/src/components/enhanced-thought-space.tsx:97 | `join` starts with the first entry and ends with the last |
| Text.NatToString | unified-interface/src/components/enhanced-thought-space.tsx:97 | a count prints as a non-empty string of digits, with a leading zero only for 0 |
| Text.PadStart | unified-interface/src/lib/agent.ts:99 | `padStart(width, fill)` is as long as the width or the string, whichever is longer, ends with the string, and is filled in front with the fill character |
| Content.Scale | unified-interface/src/lib/agent.ts:76-77 | `Math.floor(Math.random() * n)` is below `n` |
| Content.Ago | unified-interface/src/lib/agent.ts:78 | `new Date(Date.now() - Math.random() * span)` lies within `span` before now |
| Content.Truthy | unified-interface/src/components/enhanced-thought-space.tsx:68 | JavaScript truthiness of a present value: it holds for every value except the empty string `TextValue("")`; records and arrays, even empty ones, are truthy |
| Content.ForEachThrows | unified-interface/src/components/enhanced-thought-space.tsx:73-91 | `forEach` throws exactly when the guard `field && field.length > 0` lets through a value that is not an array; a record's `length` is undefined and fails the guard, so only a non-empty string throws |
| Content.Elements | unified-interface/src/components/enhanced-thought-space.tsx:73-91 | the elements `forEach` visits: an array's items, and none for an absent field or a non-array; any element visited means the guard passed and `forEach` did not throw |
| Analyzer.IncludesAnyIffMentions | unified-interface/src/lib/agent.ts:219-221 | a chain of `includes` joined by `\|\|` holds exactly when one of the keywords occurs |
| Analyzer.AnalyzePrompt | unified-interface/src/lib/agent.ts:209-224 | Twitter iff the lower-cased prompt mentions social/twitter/opinion/trending. YouTube iff video/youtube/tutorial/explanation. Web iff research/article/news, or no "video". At least one of YouTube and Web is always selected. The category is the categorizer's. |
| Analyzer.Categorize | unified-interface/src/lib/agent.ts:226-231 | technology iff tech/ai/programming. News iff not technology and news/current. Education iff neither and learn/tutorial. General otherwise. |
| Analyzer.AnalyzeIgnoresCase | unified-interface/src/lib/agent.ts:216 | two prompts that differ only in letter case get the same analysis |
| Analyzer.AnalyzeOfLowered | unified-interface/src/lib/agent.ts:216 | analysing the lower-cased prompt gives the same analysis |
| Analyzer.NoKeywordMeansWebOnly | unified-interface/src/lib/agent.ts:219-221 | a prompt with no social and no video keyword selects the web search alone |
| Analyzer.VideoWithoutWebWordSkipsWeb | unified-interface/src/lib/agent.ts:220-221 | a prompt saying "video" and no research/article/news skips the web search and selects YouTube |
| Analyzer.TutorialPromptAnalysis | unified-interface/src/lib/agent.ts:209-231 | "best tutorial video on rust" selects YouTube alone and is filed under education |
| McpServer.CallTool | unified-interface/src/lib/agent.ts:52-66 | Any name outside the four tools is rejected with "Unknown tool: name". The result fails exactly for such names and for a web search without a query. Each search answers a pair of items of its kind. `ui.getComponent` echoes the type and data it was given. |
| McpServer.MockTwitterSearch | unified-interface/src/lib/agent.ts:68-88 | two posts that quote the query, posted within the last day, with likes/retweets below 1000/100 and 500/50 |
| McpServer.MockYouTubeSearch | unified-interface/src/lib/agent.ts:90-108 | two videos whose titles quote the query, with view counts below 100000 and 50000 |
| McpServer.Duration | unified-interface/src/lib/agent.ts:99 | a duration starts with the minutes' numeral followed by a colon, and has exactly two characters after the colon when the seconds are below 60 |
| McpServer.DurationReadsBack | unified-interface/src/lib/agent.ts:99-105 | a duration is the minutes' numeral, a colon and exactly two digits, and reads back as the minutes and seconds drawn |
| McpServer.MockWebSearch | unified-interface/src/lib/agent.ts:110-130 | two articles quoting the query, linked inside their own domain by a lower-case URL without whitespace, dated within 7 and 3 days; an undefined query fails with the `toLowerCase` TypeError |
| McpServer.MockArticle0 | unified-interface/src/lib/agent.ts:115-121 | the first article quotes the query, is on example.com, is linked inside that domain by a lower-case URL without whitespace, and is no older than a week |
| McpServer.MockArticle1 | unified-interface/src/lib/agent.ts:122-128 | the second article quotes the query, is on news.example.com, is linked inside that domain by a lower-case URL without whitespace, and is no older than three days |
| McpServer.MockUIComponent | unified-interface/src/lib/agent.ts:132-140 | the component echoes the requested type and data |
| Agent.PlanFetches | unified-interface/src/lib/agent.ts:157-177 | the two parallel lists stay in step, each label naming the fetch at its position; the fetches are the selected kinds in the order Twitter, YouTube, Web, then the AI answer |
| Agent.PlanSelectsInOrder | unified-interface/src/lib/agent.ts:157-177 | a kind is pushed iff it is selected (the AI answer always), ranks strictly increase along the list, and the AI answer is last |
| Agent.PlanShape | unified-interface/src/lib/agent.ts:158-177 | `sources` spelled out: the selected labels in fixed order followed by "ai" |
| Agent.SourcesCountFetches | unified-interface/src/lib/agent.ts:175-177 | `sources` has one entry per selected source plus one; "ai" is its last entry and appears nowhere else |
| Agent.SourcesNameSelected | unified-interface/src/lib/agent.ts:160-177 | a kind's label is recorded exactly when that kind is selected |
| Agent.JoinAll | unified-interface/src/lib/agent.ts:179 | the join succeeds iff every fetch succeeds, and then gives their values in push order; otherwise it fails with the error of one of the fetches |
| Agent.Assemble | unified-interface/src/lib/agent.ts:182-200 | a field is present exactly when its source was selected; Twitter, when selected, takes the first result; the AI answer takes the last result; the metadata records the query, the time and the sources |
| Agent.AssemblyFollowsPushOrder | unified-interface/src/lib/agent.ts:190-200 | reading results back with the running index puts each fetch's value in the field of its own kind, and the AI answer in `aiResponse` |
| Agent.GenerateUnifiedContent | unified-interface/src/lib/agent.ts:151-207 | The call succeeds iff every selected fetch succeeds. A failure carries the error of a selected fetch and gives no partial aggregate. A success is faithful: each field holds its own fetch's result exactly when that source was selected, the AI answer is always present, and the metadata records the query, the time and the issued fetches. |
| Agent.TwitterFailureFailsAll | unified-interface/src/lib/agent.ts:160-179 | when Twitter is selected and its fetch rejects, the whole call rejects, whatever the other fetches do |
| Agent.GenerateAIResponse | unified-interface/src/lib/agent.ts:233-244 | the answer and its summary quote the prompt, its sources are "AI Analysis" and "Knowledge Base", and its confidence lies in [0.7, 1) |
| Agent.MockGenerationSucceeds | unified-interface/src/lib/agent.ts:151-207 | With the mocked server the agent always succeeds. Each selected search gives a pair of items of its kind and each unselected field is absent. The AI answer has confidence in [0.7, 1). The metadata records the prompt and the plan's labels. |
| Agent.MockBackend | unified-interface/src/lib/agent.ts:160-176 | with the mocked server every fetch succeeds: Twitter, YouTube and the web search each give a pair of items of their kind, and the AI answer has confidence in [0.7, 1) |
| Agent.TutorialPromptContent | unified-interface/src/lib/agent.ts:151-207 | "best tutorial video on rust" yields two videos, no tweets, no articles, and sources ["youtube", "ai"] |
| Canvas.AddBlock | unified-interface/src/components/enhanced-thought-space.tsx:31-45 | one block is appended after the old ones, carrying the call's kind, content and source, the stamp's id and time, and a position inside the layout; unique ids stay unique with a fresh stamp |
| Canvas.Place | unified-interface/src/components/enhanced-thought-space.tsx:37-40 | a new block lands inside the canvas's spawn rectangle |
| Canvas.AppendAll | unified-interface/src/components/enhanced-thought-space.tsx:31-45 | successive `addBlock` calls keep the old blocks as a prefix and append one block per call, carrying that call's kind, content and source, with the next stamp's id |
| Canvas.AppendAllKeepsIdsUnique | unified-interface/src/components/enhanced-thought-space.tsx:33 | when the stamps are pairwise distinct and fresh for the canvas, appended blocks keep ids unique |
| Canvas.RemoveById | unified-interface/src/components/enhanced-thought-space.tsx:48 | the filter never lengthens the list, and a block survives exactly when it was there and its id differs from the removed one |
| Canvas.RemoveDistributes | unified-interface/src/components/enhanced-thought-space.tsx:47-49 | the filter works block by block: removing from a concatenation removes from each part, so the survivors keep their order |
| Canvas.RemoveUnique | unified-interface/src/components/enhanced-thought-space.tsx:47-49 | on a canvas with unique ids, removing a block's id removes exactly that block |
| Canvas.RemoveIdempotent | unified-interface/src/components/enhanced-thought-space.tsx:47-49 | removing the same id twice is removing it once |
| Canvas.RemoveAbsent | unified-interface/src/components/enhanced-thought-space.tsx:47-49 | removing an id no block carries changes nothing |
| Canvas.RemoveKeepsIdsUnique | unified-interface/src/components/enhanced-thought-space.tsx:47-49 | removal keeps ids unique |
| Canvas.UpdatePosition | unified-interface/src/components/enhanced-thought-space.tsx:52-54 | the list keeps its length; a block with the id takes the new position and keeps every other field, and every other block is unchanged |
| Canvas.UpdateLastWins | unified-interface/src/components/enhanced-thought-space.tsx:51-55 | moving a block twice is moving it to the second position |
| Canvas.UpdateAbsent | unified-interface/src/components/enhanced-thought-space.tsx:51-55 | moving an id no block carries changes nothing |
| Canvas.UpdateKeepsIdsUnique | unified-interface/src/components/enhanced-thought-space.tsx:51-55 | moving keeps ids unique |
| Canvas.RemoveAfterUpdate | unified-interface/src/components/enhanced-thought-space.tsx:47-55 | removing a block after moving it is the same as removing it unmoved |
| EnhancedThoughtSpace.AddBlock | unified-interface/src/components/enhanced-thought-space.tsx:31-45 | One block is appended after the old ones. It carries the given kind, content and source, the drawn id and time, and a position in [50, 450) × [50, 350). The prompt, generating flag and last query are untouched. |
| EnhancedThoughtSpace.RemoveBlock | unified-interface/src/components/enhanced-thought-space.tsx:47-49 | a block survives iff its id differs from the removed one, unique ids stay unique, and nothing else changes |
| EnhancedThoughtSpace.UpdateBlockPosition | unified-interface/src/components/enhanced-thought-space.tsx:51-55 | The list keeps its length. Blocks with the id take the new position and keep every other field. All other blocks are unchanged. |
| EnhancedThoughtSpace.ClearCanvas | unified-interface/src/components/enhanced-thought-space.tsx:435 | no blocks remain and the rest of the state is untouched |
| EnhancedThoughtSpace.SummaryReadsBack | unified-interface/src/components/enhanced-thought-space.tsx:97 | the summary text reads back as the number of issued fetches and their list, provided no label contains a comma |
| EnhancedThoughtSpace.Emissions | unified-interface/src/components/enhanced-thought-space.tsx:67-98 | The `addBlock` calls of a run of the try block that reaches its end, in order: the AI answer (attributed to "AI Agent") exactly when `aiResponse` is present and truthy (line 68), then one card per tweet, per video and per article (attributed to Twitter, YouTube, Web Search), then the unified summary. Each run of cards is the field's elements in order, and the total is answers + tweets + videos + articles + 1. |
| EnhancedThoughtSpace.EmissionsOrdered | unified-interface/src/components/enhanced-thought-space.tsx:67-98 | in a run that reaches its end, kinds never go backwards in the order answer, tweets, videos, articles, summary; the summary comes last and only there |
| EnhancedThoughtSpace.Settle | unified-interface/src/components/enhanced-thought-space.tsx:61-112 | After the agent settles, generation ends and the query is remembered. The old blocks stay a prefix and at least one block is added. The prompt is cleared exactly when the try block runs to its end; when the agent rejects or a `forEach` throws it is kept. New blocks land in the spawn rectangle. |
| EnhancedThoughtSpace.SettleCarries | unified-interface/src/components/enhanced-thought-space.tsx:61-112 | the blocks settling adds are, in order, exactly the `addBlock` calls made: a complete run's emissions, the emissions before a throw followed by the error block, or the error block alone |
| EnhancedThoughtSpace.SettleKeepsIdsUnique | unified-interface/src/components/enhanced-thought-space.tsx:33 | with stamps fresh for the canvas, settling keeps ids unique |
| EnhancedThoughtSpace.HandleGenerateUnifiedContent | unified-interface/src/components/enhanced-thought-space.tsx:57-113 | a blank prompt changes nothing; otherwise the agent's outcome is settled, and the prompt box ends empty exactly when the agent resolved and no `forEach` threw |
| EnhancedThoughtSpace.PromptClearedIffFetchesSucceed | unified-interface/src/components/enhanced-thought-space.tsx:57-113 | when no fetch delivers a non-empty string, the prompt box ends empty exactly when every selected fetch succeeded |
| EnhancedThoughtSpace.SuccessBlocks | unified-interface/src/components/enhanced-thought-space.tsx:67-98 | when the try block runs to its end the canvas grows by answers + tweets + videos + articles + 1, the prompt is cleared, and a truthy AI answer is the first new block |
| EnhancedThoughtSpace.SuccessSummary | unified-interface/src/components/enhanced-thought-space.tsx:93-97 | when the try block runs to its end with comma-free sources, the last block is the summary, and it reads back as the count and list of the sources |
| EnhancedThoughtSpace.FailureBlock | unified-interface/src/components/enhanced-thought-space.tsx:101-112 | when the agent rejects, exactly one block is added: an AI answer with no sources and confidence 0, attributed to "Error"; the prompt is kept and generation ends |
| EnhancedThoughtSpace.SuccessKinds | unified-interface/src/components/enhanced-thought-space.tsx:67-98 | when the try block runs to its end, the i-th new block has the kind of its stage: answer, tweets, videos, articles, summary |
| EnhancedThoughtSpace.GenerationSummary | unified-interface/src/components/enhanced-thought-space.tsx:65-98 | settling a faithful aggregate with a truthy answer and no throwing field puts the AI answer first and ends with a summary reporting the selected sources plus one, and their labels |
| EnhancedThoughtSpace.BeforeThrow | unified-interface/src/components/enhanced-thought-space.tsx:67-91 | how many `addBlock` calls are made before a `forEach` throws: one for a truthy answer, one per tweet, and one per video only when the Twitter field did not throw; no article card is counted |
| EnhancedThoughtSpace.ThrownEmissions | unified-interface/src/components/enhanced-thought-space.tsx:72-110 | when a search field holds a non-empty string, the calls made are those of the stages ahead of the throwing field, then the error block; no summary is among them |
| EnhancedThoughtSpace.ThrownPrefix | unified-interface/src/components/enhanced-thought-space.tsx:67-91 | the blocks added before a throw are a prefix of those a complete run would have added |
| EnhancedThoughtSpace.ThrowBlocks | unified-interface/src/components/enhanced-thought-space.tsx:72-110 | after a `forEach` throw the old blocks stay, the blocks before the throw follow, the error block comes last, the prompt is kept and generation ends; a truthy answer is still the first new block |
| EnhancedThoughtSpace.ThrowStagesAhead | unified-interface/src/components/enhanced-thought-space.tsx:72-110 | after a throw no summary block is added, and every new block but the error block belongs to a stage ahead of the throwing field |
| EnhancedThoughtSpace.TwoVideoBlocks | unified-interface/src/components/enhanced-thought-space.tsx:67-98 | a complete run with a truthy answer, two videos and no tweets or articles adds answer, video, video and summary blocks, in that order, and clears the prompt |
| EnhancedThoughtSpace.MockHandlerClearsPrompt | unified-interface/src/components/enhanced-thought-space.tsx:57-113 | with the mocked server, a non-blank prompt always runs the try block to its end and clears the prompt box |
| EnhancedThoughtSpace.VideoOnlyBlocks | unified-interface/src/components/enhanced-thought-space.tsx:57-113 | with the mocked server, a prompt that selects YouTube alone adds the answer, two video cards and the summary, in that order, and clears the prompt |
| EnhancedThoughtSpace.TutorialPromptBlocks | unified-interface/src/components/enhanced-thought-space.tsx:57-113 | "best tutorial video on rust" adds the answer, two video cards and the summary |
| ThoughtSpace.AddBlock | unified-interface/src/components/thought-space.tsx:29-41 | one block is appended with the given kind and content, no source, the drawn id, and a position in [0, 300) × [0, 200) |
| ThoughtSpace.RemoveBlock | unified-interface/src/components/thought-space.tsx:43-45 | a block survives iff its id differs from the removed one |
| ThoughtSpace.ClearAll | unified-interface/src/components/thought-space.tsx:308 | no blocks remain and the rest of the state is untouched |
| ThoughtSpace.Emissions | unified-interface/src/components/thought-space.tsx:55-78 | The answer card always comes first. A tweet card is added iff the lower-cased prompt mentions "twitter" or "social". A video card is added iff it mentions "video" or "youtube", and comes last. |
| ThoughtSpace.HandleGenerateContent | unified-interface/src/components/thought-space.tsx:47-86 | a blank prompt changes nothing; otherwise the cards are appended in order after the old blocks, the prompt box is cleared and generation ends |
| ThoughtSpace.GenerationAddsOneToThree | unified-interface/src/components/thought-space.tsx:55-78 | a generation adds one to three blocks, the answer card first |
| ThoughtSpace.KeywordsWithinAgent | unified-interface/src/components/thought-space.tsx:62-71 | a prompt that earns a tweet card here would also send the agent to Twitter, and one that earns a video card would send it to YouTube |

## Left out

- Text.Lower: only the ASCII letters A–Z are lower-cased. JavaScript's full Unicode case mapping is not modelled. Every keyword the analyzer looks for is ASCII, but a non-ASCII letter whose lower case is ASCII can still change the analysis: JavaScript lower-cases U+0130 "İ" to "i" followed by U+0307, and the Kelvin sign U+212A to "k". So "AİRPLANE" contains "ai" once lower-cased in JavaScript and is filed under technology, while the model files it under general.
- Agent.JoinAll: `Promise.all` rejects with whichever rejection happens first in time. The model reports the first failing fetch in push order instead. Either way the reported error is that of one selected fetch, which is all that the contract states.
- Agent.GenerateUnifiedContent: an empty or blank prompt is not rejected by the agent. It runs like any other prompt, as the code does. Only the two canvases refuse a blank prompt.
- The `setTimeout` delays of the mocks, the AI answer and the simple canvas are not modelled. Concurrency and the event loop are out of scope. The handlers are modelled by the state they settle in, so the transient `isGenerating = true` is not a state of the model.
- The `catch` branch of `generateAIResponse` (agent.ts:245-253) and the `catch` of the simple canvas's handler (thought-space.tsx:81-82) are not modelled. No statement in their `try` blocks can throw.
- Numbers are unbounded reals and integers. IEEE floating-point rounding and JavaScript's 53-bit integers are not modelled.
- Agent.MockBackend: the clock is read once. One `now` stands for every `Date.now()` in the mocks (agent.ts:78, 85, 120, 127) and for the metadata's `new Date()` (agent.ts:185). In the app these are separate reads, at least 400 ms apart because of the mocks' `setTimeout` delays, so the model does not promise that the metadata time comes after the items' times.
- `Math.random().toString(36).substr(…)` user-name suffixes are an opaque string draw.
- The optional `url` of tweets and `thumbnail`/`url` of videos are never set by the code, so they are absent from the model.
- The return value of the enhanced `addBlock` (the new id) is not modelled; no caller uses it.
- `processWithMCPTools` and `getUIComponent` (agent.ts:256-272) are not called by either canvas and are not modelled. The `ui.getComponent` tool they use is modelled through `CallTool`.
- The `openai` / `ai` imports (agent.ts:1-2) are unused.
- The "Quick Add" dialog buttons are not modelled separately (enhanced-thought-space.tsx:455-475, thought-space.tsx:295-297). Each is a single `addBlock` call with fixed content, which `AddBlock` covers.
- Rendering (`renderBlock`, JSX, styling) and locale formatting of numbers and dates are left out. So is dragging: no UI calls `updateBlockPosition`, and it is modelled as an operation only.
- `console.error` logging is left out.
