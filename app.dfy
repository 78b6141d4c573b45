/** The pipeline controller (App.tsx): the run, reset and download handlers
    over the component's state `step`, `articles`, `roundup` and
    `isDownloading`, the roundup assembly, and the download file name. The
    three external services are parameters of the run; the clock is a
    parameter of the download. */
module App {
  import opened Types
  import opened GeminiService
  import ArticleCard

  /** An awaited external call: it returns a value or throws. */
  datatype Call<+T> = Returned(value: T) | Threw

  const RoundupTitle: string := "今日公众号 AI 采编精选"
  const MaxSecondaries: nat := 3

  // ---------------------------------------------------------------------------
  // Roundup assembly: the headline, `slice(1, 4)` and `setRoundup` of `runPipeline`
  // ---------------------------------------------------------------------------

  /** The roundup built from the ranked list: element 0 is the headline and
      `slice(1, 4)` the secondaries. */
  function Assemble(scored: seq<Article>, synopsis: string, today: string, cover: Option<string>): (r: Roundup)
    requires |scored| > 0
    ensures r.title == RoundupTitle && r.date == today && r.summaryText == synopsis && r.coverImageUrl == cover
    ensures r.headlineArticle == scored[0]
    ensures |r.secondaryArticles| == (if |scored| < 4 then |scored| - 1 else MaxSecondaries)
    ensures scored[..|r.secondaryArticles| + 1] == [r.headlineArticle] + r.secondaryArticles
  {
    var end := if |scored| < 4 then |scored| else 4;
    Roundup(RoundupTitle, today, scored[0], scored[1..end], synopsis, cover)
  }

  /** From a list in descending score order, the headline scores at least as
      high as every other article, the secondaries keep descending order, and
      every article left off the roundup scores no higher than any secondary. */
  lemma AssembledRanking(scored: seq<Article>, synopsis: string, today: string, cover: Option<string>)
    requires |scored| > 0 && SortedDesc(scored)
    ensures var r := Assemble(scored, synopsis, today, cover);
      && (forall i :: 0 <= i < |scored| ==> Key(r.headlineArticle) >= Key(scored[i]))
      && SortedDesc(r.secondaryArticles)
      && |r.secondaryArticles| == (if |scored| < 4 then |scored| - 1 else MaxSecondaries)
      && (forall a, i :: a in r.secondaryArticles && 1 + MaxSecondaries <= i < |scored| ==> Key(a) >= Key(scored[i]))
  {
  }

  /** Six articles scored 3, 9, 7, 5, 8 and 6 in fetch order: the score-9
      article heads the roundup, the score-8, 7 and 6 articles follow in that
      order, and the score-5 and score-3 articles are left off. */
  lemma RankingExample(a: seq<Article>, synopsis: string, today: string, cover: Option<string>)
    requires |a| == 6
    requires Key(a[0]) == 3 && Key(a[1]) == 9 && Key(a[2]) == 7
    requires Key(a[3]) == 5 && Key(a[4]) == 8 && Key(a[5]) == 6
    ensures var r := Assemble(SortByScore(a), synopsis, today, cover);
      r.headlineArticle == a[1] && r.secondaryArticles == [a[4], a[2], a[5]]
  {
    assert a[5..][1..] == [] && a[4..][1..] == a[5..] && a[3..][1..] == a[4..];
    assert a[2..][1..] == a[3..] && a[1..][1..] == a[2..] && a[1..] == a[1..];
    assert SortByScore(a[5..]) == [a[5]];
    assert SortByScore(a[4..]) == [a[4], a[5]];
    assert Insert(a[3], [a[5]]) == [a[5], a[3]];
    assert SortByScore(a[3..]) == [a[4], a[5], a[3]];
    assert Insert(a[2], [a[4], a[5], a[3]]) == [a[4]] + Insert(a[2], [a[5], a[3]]);
    assert SortByScore(a[2..]) == [a[4], a[2], a[5], a[3]];
    assert SortByScore(a[1..]) == [a[1], a[4], a[2], a[5], a[3]];
    assert Insert(a[0], [a[5], a[3]]) == [a[5]] + Insert(a[0], [a[3]]);
    assert Insert(a[0], [a[2], a[5], a[3]]) == [a[2]] + Insert(a[0], [a[5], a[3]]);
    assert Insert(a[0], [a[4], a[2], a[5], a[3]]) == [a[4]] + Insert(a[0], [a[2], a[5], a[3]]);
    assert SortByScore(a) == [a[1], a[4], a[2], a[5], a[3], a[0]];
  }

  // ---------------------------------------------------------------------------
  // `runPipeline` as a function of the state before it
  // ---------------------------------------------------------------------------

  datatype AppState = AppState(
    step: PipelineStep,
    articles: seq<Article>,
    roundup: Option<Roundup>,
    isDownloading: bool
  )

  /** The state a run leaves and the steps it sets, in order. */
  datatype RunTrace = RunTrace(final: AppState, steps: seq<PipelineStep>)

  /** The run: each stage sets its step, and any throw ends it in `Idle`.
      The crawl takes no argument; the summarizer is asked about the crawled
      list and the painter about the headline's title. An empty ranked list
      throws at `headline.title` before the painter is asked. */
  function RunPipeline(
    s: AppState,
    crawl: Call<ResponseText<seq<Article>>>,
    summarizer: seq<Article> -> Call<ResponseText<ScoringReply>>,
    painter: string -> Call<Option<seq<Candidate>>>,
    today: string
  ): (r: RunTrace)
    ensures r.final.isDownloading == s.isDownloading
    ensures r.final.step == Completed || (r.final.step == Idle && r.final.roundup == s.roundup)
  {
    match crawl
    case Threw => RunTrace(s.(step := Idle), [Crawling, Idle])
    case Returned(text) =>
      var fetched := ParseCrawl(text);
      match summarizer(fetched)
      case Threw =>
        RunTrace(s.(step := Idle, articles := fetched), [Crawling, Summarizing, Idle])
      case Returned(reply) =>
        var summary := Summarize(fetched, reply);
        var scored := summary.scoredArticles;
        if scored == [] then
          RunTrace(s.(step := Idle, articles := scored), [Crawling, Summarizing, GeneratingImage, Idle])
        else match painter(scored[0].title)
          case Threw =>
            RunTrace(s.(step := Idle, articles := scored), [Crawling, Summarizing, GeneratingImage, Idle])
          case Returned(candidates) =>
            var roundup := Assemble(scored, summary.synopsis, today, CoverImage(candidates));
            RunTrace(s.(step := Completed, articles := scored, roundup := Some(roundup)),
                     [Crawling, Summarizing, GeneratingImage, Completed])
  }

  /** The stages in the order a run enters them. */
  const StageOrder: seq<PipelineStep> := [Crawling, Summarizing, GeneratingImage, Completed]

  /** A run enters a prefix of the stages in order and then either completes
      or falls back to `Idle`; it completes only after entering all of them. */
  lemma RunStepsInOrder(
    s: AppState,
    crawl: Call<ResponseText<seq<Article>>>,
    summarizer: seq<Article> -> Call<ResponseText<ScoringReply>>,
    painter: string -> Call<Option<seq<Candidate>>>,
    today: string
  )
    ensures var r := RunPipeline(s, crawl, summarizer, painter, today);
      && |r.steps| >= 2
      && r.steps[|r.steps| - 1] == r.final.step
      && (r.final.step == Completed ==> r.steps == StageOrder)
      && (r.final.step == Idle ==> r.steps == StageOrder[..|r.steps| - 1] + [Idle])
  {
  }

  /** Whether the run button is enabled: only at rest. */
  predicate RunEnabled(step: PipelineStep)
    ensures !RunEnabled(step) <==> step in {Crawling, Summarizing, GeneratingImage}
  {
    step == Idle || step == Completed
  }

  /** Every run, successful or not, hands the control back enabled. */
  lemma RunReenablesControl(
    s: AppState,
    crawl: Call<ResponseText<seq<Article>>>,
    summarizer: seq<Article> -> Call<ResponseText<ScoringReply>>,
    painter: string -> Call<Option<seq<Candidate>>>,
    today: string
  )
    ensures RunEnabled(RunPipeline(s, crawl, summarizer, painter, today).final.step)
  {
  }

  /** A completed run holds the ranked list and a roundup whose headline is the
      top of that list, whose secondaries are the next at most three, and,
      when the scoring reply was usable, whose headline outranks everything. */
  lemma {:induction false} CompletedRunRoundup(
    s: AppState,
    crawl: Call<ResponseText<seq<Article>>>,
    summarizer: seq<Article> -> Call<ResponseText<ScoringReply>>,
    painter: string -> Call<Option<seq<Candidate>>>,
    today: string
  )
    requires RunPipeline(s, crawl, summarizer, painter, today).final.step == Completed
    ensures var f := RunPipeline(s, crawl, summarizer, painter, today).final;
      var fetched := ParseCrawl(crawl.value);
      var reply := summarizer(fetched).value;
      && f.articles == Summarize(fetched, reply).scoredArticles
      && f.roundup.Some?
      && f.roundup.value.title == RoundupTitle
      && f.roundup.value.date == today
      && f.roundup.value.summaryText == Summarize(fetched, reply).synopsis
      && f.roundup.value.headlineArticle == f.articles[0]
      && f.roundup.value.coverImageUrl == CoverImage(painter(f.articles[0].title).value)
      && f.roundup.value.secondaryArticles == f.articles[1..if |f.articles| < 4 then |f.articles| else 4]
      && (MergeSucceeds(reply) ==>
            && |f.articles| == |fetched|
            && f.roundup.value.summaryText == reply.parsed.value.summary
            && (forall i :: 0 <= i < |f.articles| ==> Key(f.roundup.value.headlineArticle) >= Key(f.articles[i]))
            && SortedDesc(f.roundup.value.secondaryArticles))
  {
    var fetched := ParseCrawl(crawl.value);
    var reply := summarizer(fetched).value;
    var sum := Summarize(fetched, reply);
    if MergeSucceeds(reply) {
      SummarizeRanks(fetched, reply);
      AssembledRanking(sum.scoredArticles, sum.synopsis, today, CoverImage(painter(sum.scoredArticles[0].title).value));
    }
  }

  /** A scoring reply that cannot be used does not stop the run: it completes
      with the fallback synopsis, and the crawled list is kept as it came,
      unscored, with its first article as the headline. */
  lemma UnusableScoringStillCompletes(
    s: AppState,
    text: ResponseText<seq<Article>>,
    summarizer: seq<Article> -> Call<ResponseText<ScoringReply>>,
    painter: string -> Call<Option<seq<Candidate>>>,
    today: string
  )
    requires ParseCrawl(text) != []
    requires summarizer(ParseCrawl(text)).Returned? && !MergeSucceeds(summarizer(ParseCrawl(text)).value)
    requires painter(ParseCrawl(text)[0].title).Returned?
    ensures var f := RunPipeline(s, Returned(text), summarizer, painter, today).final;
      && f.step == Completed
      && f.articles == ParseCrawl(text)
      && f.roundup.Some?
      && f.roundup.value.summaryText == FallbackSynopsis
      && f.roundup.value.headlineArticle == ParseCrawl(text)[0]
  {
  }

  /** A crawl that yields nothing ends the run in `Idle` once the image stage
      is entered, without asking the painter, and keeps the previous roundup. */
  lemma {:induction false} EmptyCrawlAborts(
    s: AppState,
    text: ResponseText<seq<Article>>,
    summarizer: seq<Article> -> Call<ResponseText<ScoringReply>>,
    painter: string -> Call<Option<seq<Candidate>>>,
    today: string
  )
    requires ParseCrawl(text) == []
    ensures var r := RunPipeline(s, Returned(text), summarizer, painter, today);
      && r.final.step == Idle
      && r.final.articles == []
      && r.final.roundup == s.roundup
      && (summarizer([]).Returned? ==> r.steps == [Crawling, Summarizing, GeneratingImage, Idle])
  {
    if summarizer([]).Returned? && MergeSucceeds(summarizer([]).value) {
      SummarizeRanks([], summarizer([]).value);
    }
  }

  /** After a usable scoring reply every listed card shows a score badge in a
      non-neutral colour, because a merged score is never 0. */
  lemma {:induction false} ScoredCardsShowBadges(fetched: seq<Article>, reply: ResponseText<ScoringReply>, a: Article)
    requires MergeSucceeds(reply) && a in Summarize(fetched, reply).scoredArticles
    ensures ArticleCard.ShowsBadge(a) && ArticleCard.ScoreTone(a.score) != ArticleCard.Slate
  {
    SummarizeRanks(fetched, reply);
  }

  /** A throwing summarizer ends the run in `Idle` with the crawled list kept
      in `articles` and the previous roundup in place. */
  lemma SummarizerFailureKeepsCrawl(
    s: AppState,
    text: ResponseText<seq<Article>>,
    summarizer: seq<Article> -> Call<ResponseText<ScoringReply>>,
    painter: string -> Call<Option<seq<Candidate>>>,
    today: string
  )
    requires summarizer(ParseCrawl(text)).Threw?
    ensures RunPipeline(s, Returned(text), summarizer, painter, today)
      == RunTrace(s.(step := Idle, articles := ParseCrawl(text)), [Crawling, Summarizing, Idle])
  {
  }

  /** A throwing painter ends the run in `Idle` with the ranked list kept in
      `articles` and the previous roundup in place. */
  lemma PainterFailureKeepsRanking(
    s: AppState,
    text: ResponseText<seq<Article>>,
    summarizer: seq<Article> -> Call<ResponseText<ScoringReply>>,
    painter: string -> Call<Option<seq<Candidate>>>,
    today: string
  )
    requires summarizer(ParseCrawl(text)).Returned?
    requires var scored := Summarize(ParseCrawl(text), summarizer(ParseCrawl(text)).value).scoredArticles;
      scored != [] && painter(scored[0].title).Threw?
    ensures var scored := Summarize(ParseCrawl(text), summarizer(ParseCrawl(text)).value).scoredArticles;
      RunPipeline(s, Returned(text), summarizer, painter, today)
        == RunTrace(s.(step := Idle, articles := scored), [Crawling, Summarizing, GeneratingImage, Idle])
  {
  }

  /** A throwing crawl ends the run in `Idle` and changes nothing else. */
  lemma CrawlFailureChangesOnlyStep(
    s: AppState,
    summarizer: seq<Article> -> Call<ResponseText<ScoringReply>>,
    painter: string -> Call<Option<seq<Candidate>>>,
    today: string
  )
    ensures RunPipeline(s, Threw, summarizer, painter, today) == RunTrace(s.(step := Idle), [Crawling, Idle])
  {
  }

  // ---------------------------------------------------------------------------
  // Download file name, built in handleDownload from the ISO timestamp's date part
  // ---------------------------------------------------------------------------

  /** A UTC instant, as `Date.prototype.toISOString` reads it. */
  datatype Instant = Instant(year: int, month: int, day: int, hour: int, minute: int, second: int, millisecond: int)

  predicate ValidInstant(t: Instant) {
    && -271821 <= t.year <= 275760
    && 1 <= t.month <= 12 && 1 <= t.day <= 31
    && 0 <= t.hour < 24 && 0 <= t.minute < 60 && 0 <= t.second < 60 && 0 <= t.millisecond < 1000
  }

  predicate IsDigit(c: char) {
    '0' <= c <= '9'
  }

  function Pow10(n: nat): nat {
    if n == 0 then 1 else 10 * Pow10(n - 1)
  }

  /** `n` written in decimal with exactly `width` digits, zero-padded on the left. */
  function Pad(n: nat, width: nat): (r: string)
    ensures |r| == width
    ensures forall i :: 0 <= i < |r| ==> IsDigit(r[i])
  {
    if width == 0 then ""
    else Pad(n / 10, width - 1) + [('0' as int + n % 10) as char]
  }

  /** The number a string of decimal digits denotes. */
  function DigitsValue(s: string): nat
    requires forall i :: 0 <= i < |s| ==> IsDigit(s[i])
  {
    if s == [] then 0
    else
      assert IsDigit(s[|s| - 1]);
      DigitsValue(s[..|s| - 1]) * 10 + (s[|s| - 1] as int - '0' as int)
  }

  /** Padding loses nothing when the number fits the width. */
  lemma {:induction false} PadRoundTrip(n: nat, width: nat)
    requires n < Pow10(width)
    ensures DigitsValue(Pad(n, width)) == n
  {
    if width > 0 {
      PadRoundTrip(n / 10, width - 1);
      var p := Pad(n, width);
      assert p[..|p| - 1] == Pad(n / 10, width - 1);
    }
  }

  /** The year field: four digits for years 0 to 9999, otherwise a sign and
      six digits. */
  function YearText(y: int): (r: string)
    ensures forall i :: 0 <= i < |r| ==> r[i] != 'T'
    ensures 0 <= y <= 9999 ==> |r| == 4
  {
    if 0 <= y <= 9999 then Pad(y, 4)
    else (if y < 0 then "-" else "+") + Pad(if y < 0 then -y else y, 6)
  }

  /** The calendar date part of the ISO 8601 timestamp: `YYYY-MM-DD`. */
  function IsoDate(t: Instant): (r: string)
    requires ValidInstant(t)
    ensures 'T' !in r
    ensures 0 <= t.year <= 9999 ==> |r| == 10 && r[4] == '-' && r[7] == '-'
  {
    var r := YearText(t.year) + "-" + Pad(t.month, 2) + "-" + Pad(t.day, 2);
    assert forall i :: 0 <= i < |r| ==> r[i] != 'T';
    r
  }

  /** `toISOString()`: `YYYY-MM-DDTHH:mm:ss.sssZ` in UTC. */
  function IsoString(t: Instant): (r: string)
    requires ValidInstant(t)
    ensures |r| == |IsoDate(t)| + 14
    ensures r[..|IsoDate(t)|] == IsoDate(t) && r[|IsoDate(t)|] == 'T'
  {
    var date := IsoDate(t);
    var time := Pad(t.hour, 2) + ":" + Pad(t.minute, 2) + ":" + Pad(t.second, 2)
      + "." + Pad(t.millisecond, 3) + "Z";
    var r := date + "T" + time;
    assert r[..|date|] == date;
    r
  }

  /** `s.split(sep)[0]`: everything before the first `sep`, or all of `s`. */
  function FirstField(s: string, sep: char): (r: string)
    ensures r <= s && sep !in r
    ensures |r| < |s| ==> s[|r|] == sep
  {
    if s == [] || s[0] == sep then "" else [s[0]] + FirstField(s[1..], sep)
  }

  /** The download's file name: the part of the ISO timestamp before `T`,
      which is the UTC calendar date. */
  function DownloadName(t: Instant): (r: string)
    requires ValidInstant(t)
    ensures r == "WeNews-Daily-" + IsoDate(t) + ".png"
  {
    var iso := IsoString(t);
    var date := IsoDate(t);
    assert iso == date + ['T'] + iso[|date| + 1..];
    FirstFieldOfJoin(date, iso[|date| + 1..], 'T');
    "WeNews-Daily-" + FirstField(iso, 'T') + ".png"
  }

  lemma {:induction false} FirstFieldOfJoin(a: string, b: string, sep: char)
    requires sep !in a
    ensures FirstField(a + [sep] + b, sep) == a
  {
    if a != [] {
      assert (a + [sep] + b)[1..] == a[1..] + [sep] + b;
      FirstFieldOfJoin(a[1..], b, sep);
    }
  }

  /** The file name carries the UTC calendar date of the instant and nothing of
      its time; for years 0 to 9999 the date is ten characters long. */
  lemma DownloadNameIsDate(t: Instant, u: Instant)
    requires ValidInstant(t) && ValidInstant(u)
    requires t.year == u.year && t.month == u.month && t.day == u.day
    ensures DownloadName(t) == DownloadName(u)
    ensures 0 <= t.year <= 9999 ==> |DownloadName(t)| == 27
  {
  }

  /** A download on 5 March 2024 (UTC), at any time of day, is named
      `WeNews-Daily-2024-03-05.png`. */
  lemma DownloadNameExample(hour: int, minute: int, second: int, millisecond: int)
    requires ValidInstant(Instant(2024, 3, 5, hour, minute, second, millisecond))
    ensures DownloadName(Instant(2024, 3, 5, hour, minute, second, millisecond)) == "WeNews-Daily-2024-03-05.png"
  {
    var t := Instant(2024, 3, 5, hour, minute, second, millisecond);
    assert Pad(2024, 4) == "2024";
    assert Pad(3, 2) == "03";
    assert Pad(5, 2) == "05";
  }

  // ---------------------------------------------------------------------------
  // The component's state and handlers
  // ---------------------------------------------------------------------------

  /** The capture of the poster element (`toPng`): a data URL or an error. */
  datatype Capture = Rendered(dataUrl: string) | CaptureFailed

  /** The anchor the download clicks: its file name and its target. */
  datatype DownloadLink = DownloadLink(fileName: string, href: string)

  /** What the download handler does to the lock and the capture, in order. */
  datatype ExportEvent = LockTaken | CaptureTaken(lockHeld: bool) | LockReleased

  class Pipeline {
    var step: PipelineStep
    var articles: seq<Article>
    var roundup: Option<Roundup>
    var isDownloading: bool

    /** Every value `step` is set to, in order. */
    ghost var stepLog: seq<PipelineStep>
    /** Every lock change and capture of the download handler, in order. */
    ghost var exportLog: seq<ExportEvent>

    function State(): AppState
      reads this
    {
      AppState(step, articles, roundup, isDownloading)
    }

    /** The component's initial state, as its `useState` calls set it. */
    constructor ()
      ensures State() == AppState(Idle, [], None, false)
      ensures stepLog == [] && exportLog == []
    {
      step, articles, roundup, isDownloading := Idle, [], None, false;
      stepLog, exportLog := [], [];
    }

    method SetStep(s: PipelineStep)
      modifies this`step, this`stepLog
      ensures step == s && stepLog == old(stepLog) + [s]
    {
      step := s;
      stepLog := stepLog + [s];
    }

    /** `runPipeline`. */
    method Run(
      crawl: Call<ResponseText<seq<Article>>>,
      summarizer: seq<Article> -> Call<ResponseText<ScoringReply>>,
      painter: string -> Call<Option<seq<Candidate>>>,
      today: string
    )
      modifies this
      ensures State() == RunPipeline(old(State()), crawl, summarizer, painter, today).final
      ensures stepLog == old(stepLog) + RunPipeline(old(State()), crawl, summarizer, painter, today).steps
      ensures exportLog == old(exportLog)
    {
      SetStep(Crawling);
      if crawl.Threw? {
        SetStep(Idle);
        return;
      }
      var fetched := ParseCrawl(crawl.value);
      articles := fetched;

      SetStep(Summarizing);
      var reply := summarizer(fetched);
      if reply.Threw? {
        SetStep(Idle);
        return;
      }
      var summary := Summarize(fetched, reply.value);
      articles := summary.scoredArticles;

      SetStep(GeneratingImage);
      if summary.scoredArticles == [] {
        // `headline.title` on an undefined headline throws.
        SetStep(Idle);
        return;
      }
      var headline := summary.scoredArticles[0];
      var image := painter(headline.title);
      if image.Threw? {
        SetStep(Idle);
        return;
      }
      var cover := CoverImage(image.value);
      roundup := Some(Assemble(summary.scoredArticles, summary.synopsis, today, cover));
      SetStep(Completed);
    }

    /** The run button: a click reaches `runPipeline` only
        while the control is enabled; otherwise nothing happens. */
    method PressRun(
      crawl: Call<ResponseText<seq<Article>>>,
      summarizer: seq<Article> -> Call<ResponseText<ScoringReply>>,
      painter: string -> Call<Option<seq<Candidate>>>,
      today: string
    )
      modifies this
      ensures old(RunEnabled(step)) ==> State() == RunPipeline(old(State()), crawl, summarizer, painter, today).final
      ensures old(RunEnabled(step)) ==>
        stepLog == old(stepLog) + RunPipeline(old(State()), crawl, summarizer, painter, today).steps
      ensures !old(RunEnabled(step)) ==> State() == old(State()) && stepLog == old(stepLog)
      ensures exportLog == old(exportLog)
    {
      if RunEnabled(step) {
        Run(crawl, summarizer, painter, today);
      }
    }

    /** The reset button: back to IDLE with no articles and no roundup; it is available in every state. */
    method Reset()
      modifies this
      ensures State() == AppState(Idle, [], None, old(isDownloading))
      ensures stepLog == old(stepLog) + [Idle] && exportLog == old(exportLog)
    {
      SetStep(Idle);
      articles := [];
      roundup := None;
    }

    /** `handleDownload`: with no poster element it does
        nothing; otherwise it takes the lock, captures, builds the link when
        the capture succeeds, and releases the lock on either outcome. */
    method HandleDownload(posterMounted: bool, capture: Capture, now: Instant) returns (link: Option<DownloadLink>)
      requires ValidInstant(now)
      modifies this
      ensures !posterMounted ==> link.None? && State() == old(State()) && exportLog == old(exportLog)
      ensures posterMounted ==> !isDownloading && exportLog == old(exportLog) + [LockTaken, CaptureTaken(true), LockReleased]
      ensures posterMounted ==> link == (if capture.Rendered? then Some(DownloadLink(DownloadName(now), capture.dataUrl)) else None)
      ensures step == old(step) && articles == old(articles) && roundup == old(roundup) && stepLog == old(stepLog)
    {
      link := None;
      if !posterMounted {
        return;
      }
      isDownloading := true;
      exportLog := exportLog + [LockTaken];
      exportLog := exportLog + [CaptureTaken(isDownloading)];
      if capture.Rendered? {
        link := Some(DownloadLink(DownloadName(now), capture.dataUrl));
      }
      isDownloading := false;
      exportLog := exportLog + [LockReleased];
    }
  }
}
