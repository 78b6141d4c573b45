/** Shared data shapes of the news-roundup pipeline: the article record, the
    assembled roundup and the five-state pipeline step (types.ts). */
module Types {

  datatype Option<+T> = None | Some(value: T)

  /** A candidate article. `summary` and `score` are absent until the scoring
      stage fills them in. Scores are modelled as integers. */
  datatype Article = Article(
    id: string,
    title: string,
    source: string,
    content: string,
    date: string,           // a display string, never parsed
    summary: Option<string>,
    score: Option<int>
  )

  /** The assembled roundup: one headline, a list of secondary articles and an
      optional cover image URL. */
  datatype Roundup = Roundup(
    title: string,
    date: string,
    headlineArticle: Article,
    secondaryArticles: seq<Article>,
    summaryText: string,
    coverImageUrl: Option<string>
  )

  datatype PipelineStep = Idle | Crawling | Summarizing | GeneratingImage | Completed

  /** The string value the enum member carries, which is its own name. */
  function StepValue(s: PipelineStep): string {
    match s
    case Idle => "IDLE"
    case Crawling => "CRAWLING"
    case Summarizing => "SUMMARIZING"
    case GeneratingImage => "GENERATING_IMAGE"
    case Completed => "COMPLETED"
  }

  /** Distinct steps carry distinct string values, so a step can be recovered
      from its value. */
  lemma StepValueInjective(s: PipelineStep, t: PipelineStep)
    ensures StepValue(s) == StepValue(t) <==> s == t
  {
  }

  /** The id of every article in a list, in order. */
  function Ids(s: seq<Article>): (r: seq<string>)
    ensures |r| == |s|
    ensures forall i :: 0 <= i < |s| ==> r[i] == s[i].id
  {
    if s == [] then [] else [s[0].id] + Ids(s[1..])
  }
}
