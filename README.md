# News-roundup pipeline, modelled in Dafny

This project models the logic of a small web app that builds a daily news
roundup. The app fetches candidate articles, has an external service score and
summarize them, ranks them, and picks one headline plus up to three secondary
articles. It then asks for a cover image, assembles the roundup and exports it
as a PNG.

The modules follow the source files:

- `Types` (types.ts): the `Article`, `Roundup` and `PipelineStep` shapes.
- `GeminiService` (services/geminiService.ts) covers the pure parts of the
  service adapter:
  - the crawl-reply parse, which degrades to the empty list;
  - the merge of the scoring reply into the articles by id, with the `|| ''`
    and `|| 5` defaults and last-entry-wins lookup;
  - the stable sort by descending score, and the fixed fallback when the reply
    cannot be used;
  - the search for the first image part.
- `App` (App.tsx) holds the pipeline controller:
  - `RunPipeline`, a pure function that gives the state a run leaves and the
    steps it sets;
  - the class `Pipeline`, with the component's fields `step`, `articles`,
    `roundup` and `isDownloading`. Its methods `Run`, `PressRun` (the gated
    button), `Reset` and `HandleDownload` are proved against that function and
    against the download file name;
  - roundup assembly, and the `toISOString().split('T')[0]` file name.
- `PipelineVisualizer` (components/PipelineVisualizer.tsx): which stages are
  shown as completed or active and which connectors are lit.
- `ArticleCard` (components/ArticleCard.tsx): the score-badge colour, when the
  badge shows, and the summary-or-content body text.

The three external services are parameters of the run:

- the crawl is a `Call` of a reply text;
- the summarizer is a function from the crawled list to a `Call` of a reply text;
- the painter is a function from the headline's title to a `Call` of the
  candidate list.

`Call` is either a returned value or a throw. A reply text is absent, or a
trimmed body together with the outcome of parsing it as JSON. The "today"
display string and the UTC instant of the download are inputs as well.

Some of this behaviour is easy to misread, so here is what the code does:

- A scoring reply that cannot be used does not stop the run. The run completes
  with the synopsis `总结生成失败`. The crawled list is kept in its fetched
  order with no scores, not defaulted to 5, and its first article becomes the
  headline (`UnusableScoringStillCompletes`).
- The summarizer's and the painter's network calls are made outside their
  `try` blocks. If either throws, the whole run aborts to `Idle`.
- A run that aborts leaves the previous roundup in place. `articles` keeps
  whatever it was last set to.
- An empty list aborts the run at `headline.title`. By then the step is already
  `GENERATING_IMAGE`, and the painter is never asked.
- The "run is a no-op while running" guard exists only on the button
  (`PressRun`). `runPipeline` itself (`Run`) does not check the step.

## Model

| member | source | states |
|---|---|---|
| `Types.StepValueInjective` | types.ts:21-27 | each step's string value (`StepValue`, which is the member's own name) identifies it: two steps share a value exactly when they are the same step |
| `GeminiService.ParseCrawl` | services/geminiService.ts:40-45 | the crawl list is non-empty only when the text is present, non-blank, parses, and parses to a non-empty list, and then it is that list; otherwise it is empty |
| `GeminiService.EntryMap` | services/geminiService.ts:91 | every entry's id is a key of the id map, and each key maps to an entry carrying that id |
| `GeminiService.EntryMapKeys` | services/geminiService.ts:91 | an id is a key exactly when some entry carries it |
| `GeminiService.EntryMapLastWins` | services/geminiService.ts:91 | a key maps to the last entry with that id |
| `GeminiService.SummaryOr` | services/geminiService.ts:97 | the summary is non-empty exactly when the matched entry has a non-empty summary, and then it is that summary |
| `GeminiService.ScoreOr` | services/geminiService.ts:98 | the score is never 0; it is the matched entry's score when that is present and nonzero, otherwise 5 |
| `GeminiService.Merged` | services/geminiService.ts:95-98 | a merged article keeps id, title, source, content and date, and has a summary and a nonzero score |
| `GeminiService.Lookup` | services/geminiService.ts:97-98 | `scoredMap.get(id)` finds an entry exactly when the id is a key, and then it is that key's entry |
| `GeminiService.MergeAll` | services/geminiService.ts:95-98 | the merge keeps the length and merges the article at each position |
| `GeminiService.MergedUsesLastEntry` | services/geminiService.ts:91-98 | an article matched by entries takes summary and score from the last entry with its id, defaulted |
| `GeminiService.MergedWithoutEntry` | services/geminiService.ts:95-98 | an article with no entry gets summary `''` and score 5 |
| `GeminiService.Key` | services/geminiService.ts:99 | the sort key `score \|\| 0` is 0 exactly when the score is absent or 0, and otherwise is the score |
| `GeminiService.SortByScore` | services/geminiService.ts:99 | the sort keeps the list's length; its order, permutation and stability are the three lemmas below |
| `GeminiService.SortByScoreSorted` | services/geminiService.ts:99 | the ranked list is in descending score order |
| `GeminiService.SortByScorePermutes` | services/geminiService.ts:99 | the ranked list is a permutation of its input |
| `GeminiService.SortByScoreKeepsIds` | services/geminiService.ts:99 | ranking keeps the multiset of ids |
| `GeminiService.SortByScoreStable` | services/geminiService.ts:99 | for every score, the articles with that score keep their input order |
| `GeminiService.Summarize` | services/geminiService.ts:89-104 | a usable reply (`MergeSucceeds`: non-blank text that parses to an object with `scoredArticles`) gives the reply's synopsis and the ranked merge; any other reply gives the fallback synopsis with the input list unchanged |
| `GeminiService.SummarizeRanks` | services/geminiService.ts:89-100 | on a usable reply: same length, same multiset of ids, a permutation of the merged list, sorted descending, stable, and every article scored with a nonzero score |
| `GeminiService.SummarizeFallback` | services/geminiService.ts:101-103 | an absent, blank or malformed reply, or one without `scoredArticles`, gives `总结生成失败` and the input list unchanged |
| `GeminiService.FirstInlineImage` | services/geminiService.ts:122-126 | no image exactly when no part has inline data; otherwise the data URL prefix plus the data of the first such part |
| `GeminiService.CoverImage` | services/geminiService.ts:121-128 | when `response.candidates?.[0]?.content?.parts` is defined (`HasParts`), the result is the data URL of the first part with inline data (or none); otherwise there is no image |
| `App.Assemble` | App.tsx:30-48 | fixed title, today's date, the synopsis and the cover; headline is element 0; the secondaries are exactly elements 1 to min(3, n-1), in order |
| `App.AssembledRanking` | App.tsx:30-31 | from a descending list: the headline outranks all, the secondaries stay descending, there are min(3, n-1) of them, and none of the articles left off outranks a secondary |
| `App.RankingExample` | App.tsx:30-31 | scores 3,9,7,5,8,6 in fetch order: the score-9 article is the headline and the 8, 7, 6 articles follow in that order |
| `App.RunPipeline` | App.tsx:19-55 | a run never touches the download lock, and either completes or ends in `Idle` with the roundup untouched |
| `App.RunEnabled` | App.tsx:136 | the run button is disabled exactly while CRAWLING, SUMMARIZING or GENERATING_IMAGE |
| `App.RunStepsInOrder` | App.tsx:21-53 | a run sets a prefix of CRAWLING, SUMMARIZING, GENERATING_IMAGE in order, then its final step; it completes only after all three |
| `App.RunReenablesControl` | App.tsx:136 | after every run the run control is enabled again |
| `App.CompletedRunRoundup` | App.tsx:26-50 | a completed run holds the ranked list and a roundup whose headline is its element 0 and whose secondaries are exactly its `slice(1, 4)`, with the synopsis and the painter's image for the headline's title; with a usable reply the headline outranks every article and the secondaries descend |
| `App.UnusableScoringStillCompletes` | App.tsx:26-50 | an unusable scoring reply still completes: fallback synopsis, the crawled list unscored, its first article as headline |
| `App.EmptyCrawlAborts` | App.tsx:29-54 | an empty crawl ends in `Idle` with empty articles and the previous roundup; when the summarizer returns, it has entered GENERATING_IMAGE first |
| `App.SummarizerFailureKeepsCrawl` | App.tsx:23-54 | a throwing summarizer sets CRAWLING, SUMMARIZING, IDLE, leaves the crawled list in `articles` and keeps the roundup |
| `App.PainterFailureKeepsRanking` | App.tsx:27-54 | a throwing painter sets CRAWLING, SUMMARIZING, GENERATING_IMAGE, IDLE, leaves the ranked list in `articles` and keeps the roundup |
| `App.CrawlFailureChangesOnlyStep` | App.tsx:20-54 | a throwing crawl sets CRAWLING then IDLE and changes nothing else |
| `App.ScoredCardsShowBadges` | components/ArticleCard.tsx:11-24 | after a usable scoring reply every card shows a badge in a non-neutral colour |
| `App.Pad` | App.tsx:70 | a padded field has exactly the width asked for and only decimal digits |
| `App.PadRoundTrip` | App.tsx:70 | reading a padded field back gives the number whenever it fits the width |
| `App.YearText` | App.tsx:70 | the year field never holds `T`, and is four characters for years 0 to 9999 |
| `App.IsoDate` | App.tsx:70 | the date part holds no `T`; for years 0 to 9999 it is ten characters with `-` at positions 4 and 7 |
| `App.IsoString` | App.tsx:70 | `toISOString()` is the date part, then `T` and 13 characters of time (`HH:mm:ss.sssZ`) |
| `App.FirstField` | App.tsx:70 | `split(sep)[0]` is a prefix without `sep`, followed in the string by `sep` when shorter |
| `App.DownloadName` | App.tsx:70 | the file name, built from `split('T')[0]` of the ISO timestamp, is `WeNews-Daily-` + the UTC date part + `.png` |
| `App.DownloadNameIsDate` | App.tsx:70 | two instants on the same UTC day give the same file name, whatever the time of day; for years 0 to 9999 it is 27 characters long |
| `App.DownloadNameExample` | App.tsx:70 | a download on 2024-03-05 (UTC) is named `WeNews-Daily-2024-03-05.png` |
| `App.Pipeline.constructor` | App.tsx:13-16 | the component starts in `Idle` with no articles, no roundup and the lock free |
| `App.Pipeline.SetStep` | App.tsx:21 | `setStep` sets the step and appends it to the record of steps set |
| `App.Pipeline.Run` | App.tsx:19-55 | the new state is the one `RunPipeline` gives for the old state and the service outcomes, and the steps set are appended to the step log in order |
| `App.Pipeline.PressRun` | App.tsx:134-136 | when enabled, a click runs the pipeline, with the state and the steps set that `RunPipeline` gives; otherwise it changes nothing |
| `App.Pipeline.Reset` | App.tsx:148 | from any state: `Idle`, no articles, no roundup, the lock unchanged |
| `App.Pipeline.HandleDownload` | App.tsx:57-79 | no poster element: nothing changes; otherwise the lock is taken, the capture is made while `isDownloading` is true, and the lock is released on both outcomes; a link named by the date comes back only on a successful capture; the pipeline state is untouched |
| `PipelineVisualizer.FindIndex` | components/PipelineVisualizer.tsx:18-20 | -1 exactly when the step is absent, otherwise the first position holding it |
| `PipelineVisualizer.StepIndex` | components/PipelineVisualizer.tsx:18-22 | the current index is -1 exactly for IDLE, and otherwise the position of the step among the stages |
| `PipelineVisualizer.StepIndices` | components/PipelineVisualizer.tsx:10-20 | CRAWLING=0, SUMMARIZING=1, GENERATING_IMAGE=2, COMPLETED=3, IDLE=-1 |
| `PipelineVisualizer.IsCompleted` | components/PipelineVisualizer.tsx:27 | no stage is completed in IDLE, every stage in COMPLETED |
| `PipelineVisualizer.IsActive` | components/PipelineVisualizer.tsx:28 | an active stage is one of the first three and is the current step |
| `PipelineVisualizer.ConnectorLit` | components/PipelineVisualizer.tsx:43 | a lit connector always follows a completed stage, and none is lit in IDLE |
| `PipelineVisualizer.ConnectorCount` | components/PipelineVisualizer.tsx:41 | there are three connectors |
| `PipelineVisualizer.IdleShowsNothing` | components/PipelineVisualizer.tsx:27-43 | in IDLE no stage is completed or active and no connector is lit |
| `PipelineVisualizer.CompletedShowsAllDone` | components/PipelineVisualizer.tsx:27-43 | in COMPLETED every stage is completed, none is active, and every connector is lit |
| `PipelineVisualizer.RunningStepShowsItself` | components/PipelineVisualizer.tsx:27-43 | while a stage runs, exactly that stage is active, exactly the earlier stages are completed, and a connector is lit exactly when the stage before it is completed |
| `PipelineVisualizer.DisplayInvariants` | components/PipelineVisualizer.tsx:27-28 | no stage is both completed and active, at most one is active, and the completed stages form a prefix |
| `ArticleCard.ScoreTone` | components/ArticleCard.tsx:11-16 | neutral exactly for an absent or zero score; rose at 8 and above; amber in [6, 8); emerald for other nonzero scores, negatives included |
| `ArticleCard.ScoreToneMonotone` | components/ArticleCard.tsx:11-16 | a higher nonzero score never gets a cooler colour |
| `ArticleCard.ShowsBadge` | components/ArticleCard.tsx:24 | a card without a badge has no score, so its colour would be neutral |
| `ArticleCard.BodyText` | components/ArticleCard.tsx:35 | the body is the summary when it is non-empty, otherwise the content |
| `ArticleCard.ZeroScoreBadgeIsNeutral` | components/ArticleCard.tsx:24 | a score of 0 still shows a badge, in the neutral slate classes |

## Left out

- Calls to the generative-model SDK, with their prompts and response schemas (services/geminiService.ts:15-38, 63-87, 109-119). These are network calls. Their outcomes are inputs to the model.
- `JSON.parse` itself. Its outcome is the `Parse` sum type. A crawl body that parses to something other than an article list is not modelled, and neither is a scoring entry that is not an object.
- `GeminiService.Summarize`: the reply's `summary` is modelled as a string. The source passes a missing `summary` through as `undefined`.
- Locale date formatting (`toLocaleDateString('zh-CN')`). The "today" display string is an input. The UTC components of the download instant are inputs too, and `HandleDownload` requires them to be a valid date, which `new Date()` always is.
- `App.Pipeline.HandleDownload`: the 500 ms settle delay, `toPng` with its options, anchor creation, the click, `alert` and `console.error` are browser I/O. The capture outcome is an input, and only the lock, the order of events and the file name are stated.
- The `console.error` logging in the catch blocks (services/geminiService.ts:43, 102; App.tsx:52, 74) is console I/O. Only the value each catch returns or the state it sets is modelled.
- Async interleaving is not modelled: a stale reply arriving after a reset, or an export overlapping a run. A run is one sequential method.
- Scores are integers, while the source uses floating-point numbers. NaN, which `|| 5` would also replace, is not modelled.
- JSX markup, components/Layout.tsx and components/PosterMockup.tsx are presentation. PosterMockup's `#{idx + 2}` rank label is not modelled. Its summary-or-content fallback is the same as `ArticleCard.BodyText`.
- `App.Assemble` requires a non-empty list. `RunPipeline` handles the empty case the way the source does, by throwing at `headline.title`.
