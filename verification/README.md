# Game recommendation pipeline — a Dafny model

This project models the core of a game-recommendation web application: the
agent pipeline that turns a user's request into a list of recommended games.
The model covers:

- the game id derivation (`generateGameId`) and the prompt-schema text built from
  a Zod schema (`zodSchemaToPromptDescription`);
- the nodes of the pipeline, each as a pure function from the state to a partial
  update: `analyzeQuery`, `searchGames`, `extractGames`, `describeGames`,
  `fetchPrices`, `combineGameData`, `generateRecommendations`, and the unwired
  `assessQueryComplexity`, `assessResultsQuality`, `refineSearch` and the
  decision router;
- the batching loop the two enrichment nodes share (chunks of
  `CONCURRENT_LIMIT = 3` through `Promise.allSettled`);
- the wired graph of `index.ts` (its edge table and `run`);
- the pure logic of the game-description tool (`findBestMatch`, `extractTags`,
  `extractGenre`, HTML stripping, playtime and output shaping) and of the price
  tool (`getGame`, the checks on the first price entry);
- the brace escaping and the numbered tool listing of the chat prompt template;
- the per-user context store (`getContext` / `updateContext`).

Everything the program asks of the outside world is an input of the model.
This covers LLM calls, the RAWG and IsThereAnyDeal requests and the web search.
Each answer is an `Option` (or a function from the query to an `Option`), and
`None` stands for a call that threw, rejected or could not be parsed.
The web search is the one call whose failure the program absorbs: the search tool
catches it and answers with the text `Error performing search. Please try again.`,
which the search step stores as the raw results. The model keeps the raw results
as a list of strings, the parameter type of `parseGameNamesFromResults` in the
extraction step, so the error text is stored as a one-element list.

## Layout

| file | module | what it holds |
|---|---|---|
| wrappers.dfy | `Wrappers` | `Option`, `Result` |
| seqs.dfy | `Seqs` | `Filter`, `Find`, `MapSeq`, `Flatten`, subsequences |
| strings.dfy | `Strings` | ASCII case, `Join`/`Split`, decimal rendering, trimming |
| state.dfy | `State` | the state record, partial updates (`Patch`, `Update`, `Apply`) |
| game_id.dfy | `GameId` | `generateGameId` |
| schema_prompt.dfy | `SchemaPrompt` | `zodSchemaToPromptDescription` |
| batch.dfy | `Batch` | the chunked `allSettled` loop |
| describe_tool.dfy | `DescribeTool` | the description tool's pure parts |
| price_tool.dfy | `PriceTool` | the price tool's pure parts |
| analyze_query.dfy … generate_recommendations.dfy | one module per node | the nodes |
| decision_router.dfy | `DecisionRouter` | flag accessors and routing |
| graph_edges.dfy | `GraphEdges` | the nodes and the `addEdge` table |
| graph.dfy | `Graph` | `run`, stage by stage |
| prompt_template.dfy | `PromptTemplate` | brace escaping, tool listing |
| context_store.dfy | `ContextStore` | the context map |

### How the state is modelled

`state.ts` declares four channels, but the nodes read and write many more
fields. `State.AgentState` holds all of them, each optional one as an `Option`.
A node returns an `Update`. For each field, the update either keeps it (`Keep`),
sets it (`Put`), or sets it to `undefined` (`Clear`, the source's
`field: undefined`). `Touched(u)` is the set of keys an update mentions.
Game fields that can be `null` as well as missing use `Slot` (`Undefined | Null | Val`).
The refine step needs this distinction: it tests `currentPrice !== null`.

### Where the code does other than its names and comments suggest

The model follows the code in each case.

- `generateGameId` replaces every character outside `[a-z0-9]` by `-`, one
  character at a time. Runs of separators are not collapsed, so the id always
  has the length of the name (`GameId.NoSeparatorCollapsing`).
- The batching loop pushes fulfilled results in the order of the settled
  array, which is input order, not completion order (`Batch.RunBatchesFrom`).
- `combineGameData` writes the joined records to `gameDescriptions`, not to
  `games`.
- The refine loop is not bounded: a `poor` verdict after at least one retry
  always routes back to refine (`DecisionRouter.PoorVerdictLoopsForever`).
- `evaluateQuality` reads `counts.gamesCount` where `counts` is `undefined` when
  `games` is missing. That throws inside its `try`, so the fallback verdict is
  used whatever the model answers (`AssessResultsQuality.EvaluateQuality`).
- The wired graph reaches `fetchPrices` with `gameRecommendations` never
  written, since no wired node writes it. `state.gameRecommendations.length`
  therefore throws, and `run` rejects with that error for every request and
  every tool answer, a failed search included (`Graph.Run`). Started from a state that already holds
  recommendations, the pipeline does what the nodes promise
  (`Graph.RunWithRecommendations`).
- `shouldProceedToRecommendations` is defined but never called.

## Model

| member | source | states |
|---|---|---|
| GameId.IdChar | app/lib/agents/game-recommendation/utils.ts:7 | lower-case ASCII letters and digits stay, upper-case ASCII letters are lowered, every other character becomes `-`; the result is always an id character |
| GameId.GenerateGameId | app/lib/agents/game-recommendation/utils.ts:6-8 | the id has the name's length and is the name mapped one character at a time |
| GameId.IdAlphabet | app/lib/agents/game-recommendation/utils.ts:7 | every character of an id is in `[a-z0-9-]` |
| GameId.IdIdempotent | app/lib/agents/game-recommendation/utils.ts:7 | the id of an id is the id itself |
| GameId.IdFixedPoints | app/lib/agents/game-recommendation/utils.ts:7 | a string is its own id exactly when all its characters are in `[a-z0-9-]` |
| GameId.IdIgnoresCase | app/lib/agents/game-recommendation/utils.ts:7 | names that agree up to ASCII letter case get the same id |
| GameId.IdEquality | app/lib/agents/game-recommendation/utils.ts:7 | two names get the same id exactly when they have equal length and agree position by position after the character mapping |
| GameId.NoSeparatorCollapsing | app/lib/agents/game-recommendation/utils.ts:7 | `"a  b"` becomes `"a--b"`; `"Dark Souls"` and `"dark souls"` both become `"dark-souls"` |
| GameId.IdsCollide | app/lib/agents/game-recommendation/utils.ts:7 | the distinct names `"a b"` and `"a:b"` share the id `"a-b"` |
| SchemaPrompt.RootName | app/lib/agents/game-recommendation/utils.ts:20 | the root name is the given one when it is non-empty, else `object` |
| SchemaPrompt.WrappersTransparent | app/lib/agents/game-recommendation/utils.ts:40-41 | optional and nullable wrappers (also nested) produce exactly the lines of their inner schema |
| SchemaPrompt.FieldEntriesAppend | app/lib/agents/game-recommendation/utils.ts:23-28 | adding a field to an object's field list appends that field's lines after those of the earlier fields |
| SchemaPrompt.ObjectFieldOrder | app/lib/agents/game-recommendation/utils.ts:23-28 | an object's lines follow the order of its field list (the order `Object.entries` yields), each field's lines under the path extended by its key |
| SchemaPrompt.Entries | app/lib/agents/game-recommendation/utils.ts:22-45 | the leaves of a schema in order, wrappers looked through; every line's key path starts with the path of the enclosing keys |
| SchemaPrompt.FieldEntries | app/lib/agents/game-recommendation/utils.ts:23-28 | the lines of an object's field list, each under the path extended by its key; every such path starts with the enclosing path |
| SchemaPrompt.FlatObject | app/lib/agents/game-recommendation/utils.ts:23-39 | a flat object of leaf fields gives one line per field, in order, each named by its key |
| SchemaPrompt.Describe | app/lib/agents/game-recommendation/utils.ts:47-53 | with at least one line, the description is the header naming the root, the lines, and the fixed footer, joined by newlines |
| SchemaPrompt.GameNamesSchemaEntries | app/lib/agents/game-recommendation/utils.ts:22-39 | the `{ gameNames: array of string }` schema has exactly one leaf, at key `gameNames`, of kind `array of ZodString` |
| SchemaPrompt.GameNamesSchemaLines | app/lib/agents/game-recommendation/utils.ts:22-39 | the `{ gameNames: array of string }` schema describes itself in the single line `- gameNames: array of ZodString` |
| Batch.KeepFulfilled | app/lib/agents/game-recommendation/nodes/describe-games.ts:56-60 | collecting the fulfilled values never yields more values than settled results |
| Batch.KeepFulfilledContents | app/lib/agents/game-recommendation/nodes/describe-games.ts:56-60 | a value is collected exactly when some settled result fulfilled with it, and exactly one value is collected per result that was not rejected |
| Batch.KeepFulfilledAll | app/lib/agents/game-recommendation/nodes/describe-games.ts:56-60 | when nothing is rejected, every value is collected, in order |
| Batch.KeepFulfilledAppend | app/lib/agents/game-recommendation/nodes/fetch-prices.ts:50-54 | collecting over two consecutive batches is collecting over each and appending |
| Batch.Slice | app/lib/agents/game-recommendation/nodes/describe-games.ts:21 | a slice holds the next three items from the start index, fewer at the end of the list |
| Batch.RunBatchesFrom | app/lib/agents/game-recommendation/nodes/describe-games.ts:20-61 | the loop's output is the fulfilled results of the per-item operation over the remaining items, in input order |
| Batch.RunBatches | app/lib/agents/game-recommendation/nodes/fetch-prices.ts:13-60 | the same, from index 0 |
| Batch.RunBatchesTotal | app/lib/agents/game-recommendation/nodes/describe-games.ts:20-61 | with per-item operations that never reject, the loop yields exactly one output per item, in input order |
| Batch.Slices | app/lib/agents/game-recommendation/nodes/describe-games.ts:20-21 | the slices the loop visits are non-empty, hold at most three items, and together are the input |
| Batch.SliceAt | app/lib/agents/game-recommendation/nodes/describe-games.ts:20-21 | slice `k` is the slice starting at index `3k` |
| Batch.RunBatchesBySlice | app/lib/agents/game-recommendation/nodes/describe-games.ts:20-61 | the output is the per-slice outputs appended slice after slice |
| DescribeTool.OrElse | app/lib/tools/describe.ts:119-125 | the or-else of two optional strings: the first when it is present and non-empty, else the second |
| DescribeTool.FindBestMatch | app/lib/tools/describe.ts:31-46 | no match exactly for no results; otherwise the first case-insensitive exact match, else the first prefix match, else the first result, always an element of the input |
| DescribeTool.ExactIsPrefix | app/lib/tools/describe.ts:35-42 | an exact match is also a prefix match |
| DescribeTool.ExtractTags | app/lib/tools/describe.ts:48-49 | the tag names in order with missing or empty ones dropped: a subsequence of the names, none empty, and every non-empty name as often as it occurs among the tags |
| DescribeTool.ExtractGenre | app/lib/tools/describe.ts:51-63 | the first genre's name, else the first platform's name; any result is one of these two |
| DescribeTool.StripTags | app/lib/tools/describe.ts:115 | removing the matches of `<[^>]*>` never adds characters and keeps only characters of the input |
| DescribeTool.StripTagsLeavesNoTags | app/lib/tools/describe.ts:115 | after stripping, no `<` has a `>` anywhere after it |
| DescribeTool.StripTagsNoOpen | app/lib/tools/describe.ts:115 | a text without `<` comes back unchanged |
| DescribeTool.StripTagsNoClose | app/lib/tools/describe.ts:115 | a text without `>` comes back unchanged: an unclosed `<` is kept as text |
| DescribeTool.StripTagsTag | app/lib/tools/describe.ts:115 | a `<` followed by `>`-free text and a `>` is removed whole, up to that first `>`, and stripping goes on after it |
| DescribeTool.StripTagsCons | app/lib/tools/describe.ts:115 | a first character other than `<` is kept |
| DescribeTool.StripTagsPrefix | app/lib/tools/describe.ts:115 | text without `<` in front of the rest is kept as it is |
| DescribeTool.StripTagsSplit | app/lib/tools/describe.ts:115 | the text before a tag survives, the tag is removed, and stripping goes on after the tag's first `>` |
| Strings.Trim | app/lib/tools/describe.ts:115 | `trim` returns a contiguous piece of its input with no white space at either end |
| Strings.TrimDropsOnlySpace | app/lib/tools/describe.ts:115 | `trim` removes white space only: everything in front of and after the piece it returns is white space |
| Strings.TrimKeepsTrimmed | app/lib/tools/describe.ts:115 | `trim` returns a string with no white space at either end unchanged |
| DescribeTool.CleanDescription | app/lib/tools/describe.ts:114-116 | a missing or empty description gives `No description available.`; in every case the result has no tags left, a kept description has no white space at either end, and a description without `<` and without white space at its ends is returned as it is |
| DescribeTool.CleanDescriptionKeepsText | app/lib/tools/describe.ts:114-116 | a non-empty description becomes a contiguous piece of its tag-stripped text, with only white space of the stripped text lying in front of and after that piece |
| DescribeTool.CleanParagraph | app/lib/tools/describe.ts:114-116 | `<p>` + text + `</p>`, for a text without `<` and without white space at its ends, becomes exactly that text |
| DescribeTool.PlaytimeText | app/lib/tools/describe.ts:110-111 | `"<h> hours"` from the details' playtime when non-zero, else from the search entry's; none when both are missing or zero |
| DescribeTool.ShapeOutput | app/lib/tools/describe.ts:106-126 | the output's id is the details' id, else the entry's, in decimal and never empty; the name falls back from details to entry to query; the description is the cleaned details description, the tags and genre are those extracted from the details, the playtime follows the details-then-entry rule, and the image url is the details' background image when non-empty, else the entry's |
| DescribeTool.DescribeLookup | app/lib/tools/describe.ts:71-131 | the lookup rejects on a failed search, on no results, on a best match without a usable id, and on failed details; otherwise it shapes the best match |
| PriceTool.GetGame | app/tools/priceInfo.ts:20-25 | none for a body that is not an array; otherwise the first hit of type `game` or `package`, none exactly when no hit has such a type |
| PriceTool.FirstEntryPrices | app/tools/priceInfo.ts:49-58 | rejects without a price entry; succeeds exactly when the first entry has both a current and a regular price, taking both from it and defaulting the url to `''` |
| PriceTool.PriceLookup | app/tools/priceInfo.ts:32-64 | rejects on a failed search or overview request or when no game qualifies; once a game qualifies and its overview arrives, the result is exactly the check on that overview's first entry |
| AnalyzeQuery.AnalyzeQuery | app/lib/agents/game-recommendation/nodes/analyze-query.ts:3-13 | the update touches only `searchQuery` and sets it to `best narrative rpgs` |
| AnalyzeQuery.AnalyzeQueryIgnoresState | app/lib/agents/game-recommendation/nodes/analyze-query.ts:3-13 | the update does not depend on the state, in particular not on the request |
| ExtractGames.ExistingIds | app/lib/agents/game-recommendation/nodes/extract-games.ts:36 | the existing ids are exactly the ids of the games in the state, none when `games` is missing |
| ExtractGames.ParsedNames | app/lib/agents/game-recommendation/nodes/extract-games.ts:46-65 | the parsed name list, or the empty list when the model call or the parse failed |
| ExtractGames.NewGameNames | app/lib/agents/game-recommendation/nodes/extract-games.ts:36-38 | the kept names are a subsequence of the parsed names, none has an existing id, and every name with a new id keeps all its occurrences |
| ExtractGames.ExtractGames | app/lib/agents/game-recommendation/nodes/extract-games.ts:32-44 | the update touches only `gameNames`, set to the new names, and `rawSearchResults`, cleared |
| ExtractGames.ExtractOnFailure | app/lib/agents/game-recommendation/nodes/extract-games.ts:58-64 | a failed model call leaves an empty name list |
| ExtractGames.ExtractWithoutGames | app/lib/agents/game-recommendation/nodes/extract-games.ts:36-38 | without `games` every parsed name is kept |
| ExtractGames.DuplicatesKept | app/lib/agents/game-recommendation/nodes/extract-games.ts:38 | names sharing an id among the new names are all kept |
| DescribeGames.OrNull | app/lib/agents/game-recommendation/nodes/describe-games.ts:32-35 | a missing or empty optional string becomes `null`, any other is kept |
| DescribeGames.FallbackRecord | app/lib/agents/game-recommendation/nodes/describe-games.ts:41-50 | the failure record: id from the name, the name itself, `"<name> is a video game."`, null genre, playtime, tags and image |
| DescribeGames.DescribeOne | app/lib/agents/game-recommendation/nodes/describe-games.ts:24-51 | the id always comes from the requested name; a failed lookup gives the fallback record, a successful one the tool's fields with falsy optional ones as `null` |
| DescribeGames.DescribeAll | app/lib/agents/game-recommendation/nodes/describe-games.ts:20-61 | one record per name, at the name's position |
| DescribeGames.DescribeGames | app/lib/agents/game-recommendation/nodes/describe-games.ts:7-67 | missing or empty names give `gameDescriptions = []` and nothing else; otherwise one record per name in order, and `gameNames` is cleared |
| DescribeGames.DescriptionsKeyedByName | app/lib/agents/game-recommendation/nodes/describe-games.ts:29-43 | each record is keyed by the id of the name at its position, whatever the mix of tool successes and failures |
| DescribeGames.AllLookupsFail | app/lib/agents/game-recommendation/nodes/describe-games.ts:37-50 | when every lookup fails, each record carries the fallback description of its name |
| FetchPrices.Round | app/lib/agents/game-recommendation/nodes/fetch-prices.ts:24-28 | `Math.round`: the integer within one half of the input, halves rounded up |
| FetchPrices.Discount | app/lib/agents/game-recommendation/nodes/fetch-prices.ts:22-29 | 0 when the regular price is not positive, else the rounded percentage drop from the regular to the current price |
| FetchPrices.DiscountBounds | app/lib/agents/game-recommendation/nodes/fetch-prices.ts:22-29 | with `0 <= current <= regular` and a positive regular price, the discount is between 0 and 100 |
| FetchPrices.DiscountExamples | app/lib/agents/game-recommendation/nodes/fetch-prices.ts:22-29 | an unchanged price gives 0, 45 against 60 gives 25, a regular price of 0 gives 0 |
| FetchPrices.PriceOne | app/lib/agents/game-recommendation/nodes/fetch-prices.ts:17-45 | the reasoning is kept; a failed lookup keeps the game and sets the top-level price, currency and link to `null`; a successful one sets only the game's four price fields |
| FetchPrices.PriceOneKeepsGameIdentity | app/lib/agents/game-recommendation/nodes/fetch-prices.ts:31-40 | the game's id, name, description, genre, playtime, tags and image are unchanged |
| FetchPrices.FetchPrices | app/lib/agents/game-recommendation/nodes/fetch-prices.ts:7-65 | rejects exactly when `gameRecommendations` is missing; otherwise the update touches only that list, one priced entry per input, in order |
| CombineGameData.PriceMap | app/lib/agents/game-recommendation/nodes/combine-game-data.ts:16-21 | every entry in the price map is stored under its own id |
| CombineGameData.PriceMapKeys | app/lib/agents/game-recommendation/nodes/combine-game-data.ts:16-21 | an id is in the price map exactly when some price entry has it |
| CombineGameData.PriceFor | app/lib/agents/game-recommendation/nodes/combine-game-data.ts:25 | the lookup finds an entry exactly when some price entry has the id, and what it finds is one of the entries, with that id |
| CombineGameData.PriceMapLastWins | app/lib/agents/game-recommendation/nodes/combine-game-data.ts:16-21 | the map holds, under an id, the last entry with that id |
| CombineGameData.PriceMapValues | app/lib/agents/game-recommendation/nodes/combine-game-data.ts:16-21 | every value in the map is one of the entries |
| CombineGameData.OrNull | app/lib/agents/game-recommendation/nodes/combine-game-data.ts:29-32 | `x ?? null`: a value is kept, missing and `null` become `null` |
| CombineGameData.CombineOne | app/lib/agents/game-recommendation/nodes/combine-game-data.ts:24-34 | every description field is kept; the four price fields come from the entry, or are `null` without one |
| CombineGameData.CombineAll | app/lib/agents/game-recommendation/nodes/combine-game-data.ts:24-34 | one combined record per description, in order, joined with the price entry for its id |
| CombineGameData.CombineGameData | app/lib/agents/game-recommendation/nodes/combine-game-data.ts:4-41 | missing or empty descriptions give `[]`; otherwise the joined records go to `gameDescriptions`; `gamePriceInfo` and `gameNames` are cleared in both cases |
| CombineGameData.JoinById | app/lib/agents/game-recommendation/nodes/combine-game-data.ts:24-34 | a description without a price entry of its id gets null prices; with one, it is combined with the last entry of its id |
| CombineGameData.PriceMapUnique | app/lib/agents/game-recommendation/nodes/combine-game-data.ts:16-21 | with unique ids, every entry is stored under its own id |
| CombineGameData.CombineIgnoresPriceOrder | app/lib/agents/game-recommendation/nodes/combine-game-data.ts:16-34 | with unique ids, the result depends only on which price entries are present, not on their order |
| CombineGameData.LastEntryWins | app/lib/agents/game-recommendation/nodes/combine-game-data.ts:18-20 | of two entries with one id, the later one is used |
| AssessResultsQuality.QualityOf | app/lib/agents/game-recommendation/nodes/assess-results-quality.ts:91 | each of the four labels is recognised exactly from its text; any other text is kept as is |
| AssessResultsQuality.FromParsed | app/lib/agents/game-recommendation/nodes/assess-results-quality.ts:88-97 | each falsy or missing field of a parsed verdict defaults to `poor`, 0.5, 0.5, false or `[]`; present truthy fields are used |
| AssessResultsQuality.FallbackQuality | app/lib/agents/game-recommendation/nodes/assess-results-quality.ts:113-116 | `excellent` exactly from 8 games, `good` exactly for 5 to 7, `poor` for 2 to 4, `insufficient` below 2 |
| AssessResultsQuality.Completeness | app/lib/agents/game-recommendation/nodes/assess-results-quality.ts:118 | 0 without games, else the ratio whose product with twice the game count is the number of descriptions plus prices |
| AssessResultsQuality.CreateFallbackAssessment | app/lib/agents/game-recommendation/nodes/assess-results-quality.ts:108-127 | fallback label from the game count; completeness clamped to 1 and within [0, 1]; refinement needed exactly below 5 games or below 0.7 unclamped completeness; confidence 0.8, 0.6 or 0.3; issues exactly below 5 games |
| AssessResultsQuality.EvaluateQuality | app/lib/agents/game-recommendation/nodes/assess-results-quality.ts:58-106 | the fallback when `games` is missing or the model gave no parsable verdict, else the parsed verdict with its defaults |
| AssessResultsQuality.UpdatedFlags | app/lib/agents/game-recommendation/nodes/assess-results-quality.ts:43-50 | retry exactly when refinement is needed below 2 retries; expand exactly for `insufficient` before any retry; alternative strategy exactly for `poor` from the first retry on; the other flags are copied |
| AssessResultsQuality.AssessResultsQuality | app/lib/agents/game-recommendation/nodes/assess-results-quality.ts:37-56 | the update touches only `qualityAssessment` and `decisionFlags` |
| AssessResultsQuality.FallbackQualityMonotone | app/lib/agents/game-recommendation/nodes/assess-results-quality.ts:113-116 | more games never give a worse fallback label |
| AssessResultsQuality.FallbackLowQualityNeedsRefinement | app/lib/agents/game-recommendation/nodes/assess-results-quality.ts:113-125 | a fallback `poor` or `insufficient` verdict asks for refinement and lists an issue |
| AssessResultsQuality.FallbackCompleteData | app/lib/agents/game-recommendation/nodes/assess-results-quality.ts:118-124 | with at least 5 games and a description and price per game, completeness is 1 and no refinement is asked |
| AssessResultsQuality.FallbackClamped | app/lib/agents/game-recommendation/nodes/assess-results-quality.ts:118-122 | with more records than games the unclamped ratio exceeds 1 while the reported one is 1 |
| AssessResultsQuality.ParsedZeroBecomesDefault | app/lib/agents/game-recommendation/nodes/assess-results-quality.ts:92-93 | a parsed 0 is falsy and becomes 0.5 |
| AssessResultsQuality.FlagBounds | app/lib/agents/game-recommendation/nodes/assess-results-quality.ts:45-49 | no retry from the second retry on, no expansion from the first retry on, and alternative strategy for `poor` with no upper bound |
| DecisionRouter.ShouldRetrySearch | app/lib/agents/game-recommendation/nodes/decision-router.ts:3-5 | true exactly when flags are present and the retry flag is set |
| DecisionRouter.ShouldExpandSearch | app/lib/agents/game-recommendation/nodes/decision-router.ts:7-9 | true exactly when flags are present and the expand flag is set |
| DecisionRouter.ShouldUseAlternativeStrategy | app/lib/agents/game-recommendation/nodes/decision-router.ts:11-13 | true exactly when flags are present and the alternative-strategy flag is set |
| DecisionRouter.AccessorsWithoutFlags | app/lib/agents/game-recommendation/nodes/decision-router.ts:3-13 | without flags every accessor answers false |
| DecisionRouter.ShouldProceedToRecommendations | app/lib/agents/game-recommendation/nodes/decision-router.ts:15-24 | true whenever the verdict is `good` or `excellent`; otherwise exactly with at least 2 games and at least 2 retries |
| DecisionRouter.Label | app/lib/agents/game-recommendation/nodes/decision-router.ts:26-38 | the route label is `refine-search` or `recommend` |
| DecisionRouter.LabelsDistinct | app/lib/agents/game-recommendation/nodes/decision-router.ts:26-38 | the two labels differ |
| DecisionRouter.RouteAfterQualityAssessment | app/lib/agents/game-recommendation/nodes/decision-router.ts:26-38 | refine exactly when at least one of the three flags is set; recommend without flags |
| DecisionRouter.RecommendOnceRetriesExhausted | app/lib/agents/game-recommendation/nodes/decision-router.ts:26-38 | after the quality node, from 2 retries on, the route is refine exactly when the verdict is `poor` |
| DecisionRouter.PoorVerdictLoopsForever | app/lib/agents/game-recommendation/nodes/assess-results-quality.ts:48-49 | a `poor` verdict after a retry routes to refine, and refining raises the retry count by one, so the same route stays open |
| DecisionRouter.NoGamesRefines | app/lib/agents/game-recommendation/nodes/assess-results-quality.ts:45-47 | with no games and no retries, the route after the quality node is refine, whatever the model answers |
| RefineSearch.BaseQuery | app/lib/agents/game-recommendation/nodes/refine-search.ts:90 | the search query when non-empty, else the user's request |
| RefineSearch.CreateFallbackRefinement | app/lib/agents/game-recommendation/nodes/refine-search.ts:88-109 | before any retry the broadening queries and strategy `broad`; after, the similar-games queries and strategy `specific`; two alternatives either way |
| RefineSearch.GenerateRefinedSearch | app/lib/agents/game-recommendation/nodes/refine-search.ts:64-86 | the model's refinement, or the fallback when the call failed |
| RefineSearch.RefineSearch | app/lib/agents/game-recommendation/nodes/refine-search.ts:34-53 | queries and strategy from the refinement; retry count plus one; the four intermediate lists cleared; `games` keeps, in order and with multiplicity, exactly the games with a description and a non-null price |
| RefineSearch.RetryCountAdvances | app/lib/agents/game-recommendation/nodes/refine-search.ts:39-45 | every refinement raises the retry count by exactly one, a missing count reading as 0 |
| RefineSearch.FallbackSequence | app/lib/agents/game-recommendation/nodes/refine-search.ts:92-107 | two failed refinements from no retries first broaden, then switch to `specific` |
| RefineSearch.KeepGameCases | app/lib/agents/game-recommendation/nodes/refine-search.ts:51 | a game survives the filter exactly when its description is non-empty and its current price is a value or missing; only a `null` price drops it |
| RefineSearch.NullPriceDropped | app/lib/agents/game-recommendation/nodes/refine-search.ts:51 | a described game with a missing price is kept, a game with a `null` price is dropped |
| AssessQueryComplexity.AnalyzeQueryComplexity | app/lib/agents/game-recommendation/nodes/assess-query-complexity.ts:59-81 | the model's analysis, or not complex, not specialised, strategy `standard` when it failed |
| AssessQueryComplexity.AssessQueryComplexity | app/lib/agents/game-recommendation/nodes/assess-query-complexity.ts:29-48 | the three retry flags reset, the two query flags and the strategy from the analysis, retry count 0, no alternative queries, nothing else touched |
| AssessQueryComplexity.ResetRoutesToRecommend | app/lib/agents/game-recommendation/nodes/assess-query-complexity.ts:34-46 | right after the reset the router sends the run on to recommend |
| AssessQueryComplexity.FailedAnalysis | app/lib/agents/game-recommendation/nodes/assess-query-complexity.ts:71-79 | a failed analysis leaves strategy `standard` and all flags false |
| GenerateRecommendations.Project | app/lib/agents/game-recommendation/nodes/generate-recommendations.ts:7-10 | the projection keeps the game and the reasoning and drops the other fields |
| GenerateRecommendations.GenerateRecommendations | app/lib/agents/game-recommendation/nodes/generate-recommendations.ts:3-12 | rejects exactly when the list is missing; otherwise one projected entry per input, in order, touching only that list |
| GenerateRecommendations.ProjectIdempotent | app/lib/agents/game-recommendation/nodes/generate-recommendations.ts:7-10 | projecting twice is projecting once |
| GenerateRecommendations.GenerateIdempotent | app/lib/agents/game-recommendation/nodes/generate-recommendations.ts:7-10 | running the node on its own output changes nothing |
| GraphEdges.Successors | app/lib/agents/game-recommendation/index.ts:22-31 | the successors of a node are exactly the targets of its edges |
| GraphEdges.SuccessorsMatch | app/lib/agents/game-recommendation/index.ts:22-31 | each node's successors in the table are exactly those of an independent node-by-node listing: one for the chain nodes, `describe` and `price` after `extract`, none after the end or for the unwired nodes |
| GraphEdges.EdgeTableShape | app/lib/agents/game-recommendation/index.ts:22-31 | a chain from start through analyze, search and extract, forking to describe and price, joining at combine, then recommend and end |
| GraphEdges.UnwiredNodes | app/lib/agents/game-recommendation/index.ts:13-31 | the complexity, quality and refine nodes are on no edge |
| GraphEdges.EdgesDeepen | app/lib/agents/game-recommendation/index.ts:22-31 | every edge goes exactly one level deeper |
| GraphEdges.PathDepth | app/lib/agents/game-recommendation/index.ts:22-31 | along a path the depth grows by one per step |
| GraphEdges.Acyclic | app/lib/agents/game-recommendation/index.ts:22-31 | no path visits a node twice |
| Graph.SearchGames | app/lib/agents/game-recommendation/nodes/search-games.ts:6-16 | never rejects and touches only `rawSearchResults`: the search answer for the current query, or the search tool's error text when the search threw |
| Graph.Gather | app/lib/agents/game-recommendation/index.ts:22-25 | the analyze, search and extract steps never reject; they search for the fixed query, clear the raw results again and leave `gameRecommendations` as it was |
| Graph.Lookup | app/lib/agents/game-recommendation/index.ts:26-29 | the merged describe and price steps reject exactly when there are no recommendations; otherwise each recommendation is priced in place by its own lookup, in order |
| Graph.Finish | app/lib/agents/game-recommendation/index.ts:30-31 | combine then recommend reject exactly when there are no recommendations; otherwise one result per recommendation, game and reasoning kept |
| Graph.RunFrom | app/lib/agents/game-recommendation/index.ts:38-42 | from any start state, the run rejects exactly when the state holds no recommendations, and then with the price node's missing-`gameRecommendations` error |
| Graph.Run | app/lib/agents/game-recommendation/index.ts:38-42 | `run` rejects for every request and every tool answer, always with the missing-`gameRecommendations` error of the price node |
| Graph.RunWithRecommendations | app/lib/agents/game-recommendation/index.ts:38-42 | from a state holding recommendations, whatever the search answers, the run returns one entry per recommendation, in order, with its game's identity and reasoning kept and its game priced by the lookup |
| PromptTemplate.DoubleChar | app/lib/agents/prompts/gameRecommendationPrompt.ts:8 | doubling one character never shortens the text |
| PromptTemplate.EscapeChar | app/lib/agents/prompts/gameRecommendationPrompt.ts:8 | a brace becomes two of itself, any other character stays |
| PromptTemplate.TwoPassesCharwise | app/lib/agents/prompts/gameRecommendationPrompt.ts:8 | the two `replace` passes escape each character on its own |
| PromptTemplate.EscapedLength | app/lib/agents/prompts/gameRecommendationPrompt.ts:8 | the escaped text is longer by the number of braces |
| PromptTemplate.EscapedKeepsOtherCharacters | app/lib/agents/prompts/gameRecommendationPrompt.ts:8 | without its braces, the escaped text is the input without its braces |
| PromptTemplate.UnescapeEscaped | app/lib/agents/prompts/gameRecommendationPrompt.ts:8 | reading each doubled brace as one brace recovers the input |
| PromptTemplate.EscapedIsPaired | app/lib/agents/prompts/gameRecommendationPrompt.ts:8 | the escaped text is made of doubled braces and single other characters |
| PromptTemplate.PairedRunsEven | app/lib/agents/prompts/gameRecommendationPrompt.ts:8 | in such a text every maximal run of one brace has even length |
| PromptTemplate.EscapedRunsEven | app/lib/agents/prompts/gameRecommendationPrompt.ts:8 | every maximal run of `{` or of `}` in the escaped instructions has even length |
| PromptTemplate.EscapeBraces | app/lib/agents/prompts/gameRecommendationPrompt.ts:8 | the escaping adds one character per brace, keeps the other characters in order, and the template engine's reading of the result recovers the input |
| PromptTemplate.ToolLine | app/lib/agents/prompts/gameRecommendationPrompt.ts:23 | each tool line starts with its one-based number and `. ` |
| PromptTemplate.ToolLines | app/lib/agents/prompts/gameRecommendationPrompt.ts:23 | one line per tool, in input order |
| PromptTemplate.ToolLinesSingle | app/lib/agents/prompts/gameRecommendationPrompt.ts:23 | a tool line holds no newline when the tool's name and description hold none |
| PromptTemplate.ToolListing | app/lib/agents/prompts/gameRecommendationPrompt.ts:23 | when no name or description holds a newline, splitting the listing at newlines gives back exactly the numbered lines, one per tool, in input order |
| ContextStore.GetContext | app/lib/contextStore.ts:4 | a context exactly for a stored user, the stored one |
| ContextStore.Merge | app/lib/contextStore.ts:8 | each present field of the update replaces the context's field, the others are kept |
| ContextStore.UpdateContext | app/lib/contextStore.ts:5-9 | the set of users never changes; an unknown user leaves the store as it was; a known one gets the merged context; other users are untouched |
| ContextStore.EmptyUpdateChangesNothing | app/lib/contextStore.ts:5-9 | the empty update leaves the store as it was |
| ContextStore.GetAfterUpdate | app/lib/contextStore.ts:4-8 | reading back after an update gives the merged context, or nothing for an unknown user |
| ContextStore.UpdatesCompose | app/lib/contextStore.ts:5-9 | two updates in a row equal one update with the later fields winning |

## Left out

- The user interface, the API routes and server functions, and the mock
  recommendation service: presentation and transport only.
- The mood-agent and recommender-agent placeholders: hard-coded tables and
  `Math.random`.
- LLM provider plumbing (model factory, configuration from the environment,
  structured-output wrappers) and the prompt texts themselves. Each LLM answer
  is an input of the model.
- The network wrappers (web search, RAWG, IsThereAnyDeal clients): each answer
  is an input of the model. `searchGames` is the search answer for the current
  query, with the search tool's catch (`app/tools/gameSearch.ts`) turning a
  failed search into its error text.
- The parallelism inside a batch and the 100 ms pause between price batches.
  Neither changes the output, so the batch loop is a sequential fold.
- The regular-expression extraction of the JSON object from the model's answer
  and `JSON.parse`: the parsed verdict is an input.
- Zod runtime validation, the LangGraph runtime (channel filtering, its
  recursion limit, merging of parallel updates beyond applying both), and the
  lint configuration.
- GameId.GenerateGameId: lower-cases ASCII letters only. JavaScript's
  `toLowerCase` also maps a few non-ASCII characters into `[a-z]` (the Kelvin
  sign becomes `k`), and one (`İ`) into two characters; the model maps every
  non-ASCII character to `-`.
- DescribeTool.FindBestMatch: compares names after ASCII lower-casing only, for
  the same reason.
- DescribeTool.CleanDescription: `trim` is modelled for the six ASCII white-space
  characters; the Unicode spaces JavaScript also trims are kept.
- FetchPrices.Discount: prices are exact reals, not IEEE doubles, so rounding
  errors of the floating-point division are not modelled.
- AssessResultsQuality.FromParsed: each verdict field has its intended JSON type;
  a field holding a value of another type (a number given as a string, say) is
  not modelled.
- ContextStore.Merge: an update field is either absent or holds a value; a field
  present with the value `undefined`, which the spread would copy, is not
  modelled.
- PriceTool.FirstEntryPrices: the first entry's `urls` object is assumed present;
  the source would throw without it, and only its `game` field is modelled as
  optional.
- DescribeTool.DescribeLookup: a failed detail request and a detail response
  without data are one error; a search response without a result list is treated
  as an empty one, as the source does.
- Graph.Lookup: `describe` and `price` run on the same state and their updates
  are applied one after the other. They write disjoint fields, so the order does
  not matter.
- Playtimes and catalogue ids are natural numbers.
- SchemaPrompt.Entries: an object's fields are walked in the order of the field
  list the schema holds. `Object.entries` lists integer-like keys first, in
  ascending order, and the model does not reorder such keys.
- Graph.SearchGames: the search tool answers with one text, which the search step
  stores as it is; the model stores the raw results as a list of strings, the type
  the extraction step reads them as, so a failed search is a one-element list.
