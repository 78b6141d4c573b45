/** The pure parts of the external-service adapter (services/geminiService.ts):
    parsing the crawl reply, merging the scoring reply into the article list
    and ranking it, and picking the cover image out of the image reply. The
    network calls themselves are not modelled; their replies are inputs. */
module GeminiService {
  import opened Types

  /** The outcome of `JSON.parse` on a reply's text. */
  datatype Parse<+T> = Parsed(value: T) | Malformed

  /** A reply's `text` field: absent, or present with its trimmed body and the
      outcome of parsing that body. */
  datatype ResponseText<+T> = NoText | Text(body: string, parsed: Parse<T>)

  // ---------------------------------------------------------------------------
  // Crawl reply: the parse at the end of `simulateCrawling`
  // ---------------------------------------------------------------------------

  /** The crawled article list: absent or blank text reads as `[]`, and a body
      that does not parse yields the empty list as well. */
  function ParseCrawl(reply: ResponseText<seq<Article>>): (r: seq<Article>)
    ensures r != [] <==> reply.Text? && reply.body != "" && reply.parsed.Parsed? && reply.parsed.value != []
    ensures r != [] ==> r == reply.parsed.value
  {
    match reply
    case NoText => []
    case Text(body, parsed) =>
      if body == "" then []
      else match parsed
        case Parsed(articles) => articles
        case Malformed => []
  }

  // ---------------------------------------------------------------------------
  // Scoring reply: the `try`/`catch` of `summarizeArticles`
  // ---------------------------------------------------------------------------

  /** One entry of `scoredArticles` in the scoring reply. */
  datatype ScoreEntry = ScoreEntry(id: string, summary: Option<string>, score: Option<int>)

  /** The parsed scoring reply; `scoredArticles` may be missing from it. */
  datatype ScoringReply = ScoringReply(summary: string, scoredArticles: Option<seq<ScoreEntry>>)

  /** What the summarizer hands back: the collective synopsis and the list. */
  datatype Summary = Summary(synopsis: string, scoredArticles: seq<Article>)

  const FallbackSynopsis: string := "总结生成失败"
  const DefaultScore: int := 5

  /** `new Map(entries.map(sa => [sa.id, sa]))`: every entry's id is a key,
      and each key maps to an entry carrying it. */
  function EntryMap(es: seq<ScoreEntry>): (m: map<string, ScoreEntry>)
    ensures forall k :: 0 <= k < |es| ==> es[k].id in m
    ensures forall id :: id in m ==> m[id].id == id
  {
    if es == [] then map[]
    else
      var m0 := EntryMap(es[..|es| - 1]);
      assert forall k :: 0 <= k < |es| - 1 ==> es[..|es| - 1][k] == es[k];
      m0[es[|es| - 1].id := es[|es| - 1]]
  }

  /** Ids that no entry carries are not keys. */
  lemma {:induction false} EntryMapKeys(es: seq<ScoreEntry>, id: string)
    ensures id in EntryMap(es) <==> exists k :: 0 <= k < |es| && es[k].id == id
  {
    if es != [] {
      var prefix := es[..|es| - 1];
      EntryMapKeys(prefix, id);
      if id in EntryMap(es) && es[|es| - 1].id != id {
        var k :| 0 <= k < |prefix| && prefix[k].id == id;
        assert es[k] == prefix[k];
      }
    }
  }

  /** When several entries share an id, the last one wins. */
  lemma {:induction false} EntryMapLastWins(es: seq<ScoreEntry>, id: string)
    requires id in EntryMap(es)
    ensures LastWith(es, id, EntryMap(es)[id])
  {
    var n := |es| - 1;
    var prefix, last := es[..n], es[n];
    if last.id == id {
      assert es[n] == EntryMap(es)[id];
    } else {
      assert EntryMap(es)[id] == EntryMap(prefix)[id];
      EntryMapLastWins(prefix, id);
      var k :| 0 <= k < |prefix| && prefix[k] == EntryMap(prefix)[id] && prefix[k].id == id &&
        forall j :: k < j < |prefix| ==> prefix[j].id != id;
      assert es[k] == prefix[k];
      assert forall j :: k < j < |es| ==> es[j].id != id by {
        forall j | k < j < |es| ensures es[j].id != id {
          if j < n { assert es[j] == prefix[j]; }
        }
      }
    }
  }

  /** `e` is the last entry of `es` whose id is `id`. */
  ghost predicate LastWith(es: seq<ScoreEntry>, id: string, e: ScoreEntry) {
    exists k :: 0 <= k < |es| && es[k] == e && es[k].id == id &&
      forall j :: k < j < |es| ==> es[j].id != id
  }

  /** `scoredMap.get(id)`. */
  function Lookup(m: map<string, ScoreEntry>, id: string): (r: Option<ScoreEntry>)
    ensures r.Some? <==> id in m
    ensures r.Some? ==> r.value == m[id]
  {
    if id in m then Some(m[id]) else None
  }

  /** `entry?.summary || ''`: a missing entry, a missing summary and an empty
      summary all give the empty string. */
  function SummaryOr(entry: Option<ScoreEntry>): (s: string)
    ensures s != "" <==> entry.Some? && entry.value.summary.Some? && entry.value.summary.value != ""
    ensures s != "" ==> s == entry.value.summary.value
  {
    match entry
    case Some(ScoreEntry(_, Some(text), _)) => text
    case _ => ""
  }

  /** `entry?.score || 5`: a missing entry, a missing score and a score of 0
      all give the default 5. */
  function ScoreOr(entry: Option<ScoreEntry>): (n: int)
    ensures n != 0
    ensures entry.Some? && entry.value.score.Some? && entry.value.score.value != 0 ==> n == entry.value.score.value
    ensures !(entry.Some? && entry.value.score.Some? && entry.value.score.value != 0) ==> n == DefaultScore
  {
    match entry
    case Some(ScoreEntry(_, _, Some(v))) => if v != 0 then v else DefaultScore
    case _ => DefaultScore
  }

  /** `{...a, summary, score}`: the article with only its summary and score replaced. */
  function Merged(a: Article, m: map<string, ScoreEntry>): (b: Article)
    ensures b.id == a.id && b.title == a.title && b.source == a.source
    ensures b.content == a.content && b.date == a.date
    ensures b.summary.Some? && b.score.Some? && b.score.value != 0
  {
    var entry := Lookup(m, a.id);
    a.(summary := Some(SummaryOr(entry)), score := Some(ScoreOr(entry)))
  }

  /** `articles.map(...)`: every article merged with its entry, in input order. */
  function MergeAll(articles: seq<Article>, m: map<string, ScoreEntry>): (r: seq<Article>)
    ensures |r| == |articles|
    ensures forall i :: 0 <= i < |r| ==> r[i] == Merged(articles[i], m)
  {
    seq(|articles|, i requires 0 <= i < |articles| => Merged(articles[i], m))
  }

  /** The comparator's key `a.score || 0`. */
  function Key(a: Article): (k: int)
    ensures k == 0 <==> a.score.None? || a.score.value == 0
    ensures a.score.Some? ==> k == a.score.value
  {
    match a.score
    case Some(n) => n
    case None => 0
  }

  ghost predicate SortedDesc(s: seq<Article>) {
    forall i, j :: 0 <= i < j < |s| ==> Key(s[i]) >= Key(s[j])
  }

  /** The articles of `s` whose key is `k`, in order. */
  function WithKey(s: seq<Article>, k: int): seq<Article> {
    if s == [] then []
    else (if Key(s[0]) == k then [s[0]] else []) + WithKey(s[1..], k)
  }

  /** Places `x` in the descending list `r` ahead of every element whose key
      does not exceed its own. */
  function Insert(x: Article, r: seq<Article>): (t: seq<Article>)
    ensures |t| == |r| + 1
  {
    if r == [] || Key(x) >= Key(r[0]) then [x] + r
    else [r[0]] + Insert(x, r[1..])
  }

  /** `sort((a, b) => (b.score || 0) - (a.score || 0))`, which is stable: an
      insertion sort by descending key. */
  function SortByScore(s: seq<Article>): (r: seq<Article>)
    ensures |r| == |s|
  {
    if s == [] then [] else Insert(s[0], SortByScore(s[1..]))
  }

  lemma {:induction false} InsertSorted(x: Article, r: seq<Article>)
    requires SortedDesc(r)
    ensures SortedDesc(Insert(x, r))
    ensures r != [] ==> Insert(x, r)[0] == (if Key(x) >= Key(r[0]) then x else r[0])
  {
    if r != [] && Key(x) < Key(r[0]) {
      InsertSorted(x, r[1..]);
    }
  }

  lemma {:induction false} InsertPermutes(x: Article, r: seq<Article>)
    ensures multiset(Insert(x, r)) == multiset(r) + multiset{x}
  {
    if r != [] && Key(x) < Key(r[0]) {
      InsertPermutes(x, r[1..]);
      assert r == [r[0]] + r[1..];
    }
  }

  lemma {:induction false} InsertKeepsIds(x: Article, r: seq<Article>)
    ensures multiset(Ids(Insert(x, r))) == multiset(Ids(r)) + multiset{x.id}
  {
    if r == [] || Key(x) >= Key(r[0]) {
      assert Ids([x] + r) == [x.id] + Ids(r);
    } else {
      InsertKeepsIds(x, r[1..]);
      assert Ids(Insert(x, r)) == [r[0].id] + Ids(Insert(x, r[1..]));
      assert Ids(r) == [r[0].id] + Ids(r[1..]);
    }
  }

  /** Inserting `x` adds it in front of the other elements with its key. */
  lemma {:induction false} InsertWithKey(x: Article, r: seq<Article>, k: int)
    requires SortedDesc(r)
    ensures WithKey(Insert(x, r), k) == (if Key(x) == k then [x] else []) + WithKey(r, k)
  {
    if r == [] || Key(x) >= Key(r[0]) {
      assert ([x] + r)[1..] == r;
    } else {
      InsertWithKey(x, r[1..], k);
      assert ([r[0]] + Insert(x, r[1..]))[1..] == Insert(x, r[1..]);
    }
  }

  /** The ranked list is in descending score order. */
  lemma {:induction false} SortByScoreSorted(s: seq<Article>)
    ensures SortedDesc(SortByScore(s))
  {
    if s != [] {
      SortByScoreSorted(s[1..]);
      InsertSorted(s[0], SortByScore(s[1..]));
    }
  }

  /** The ranked list is a permutation of the input. */
  lemma {:induction false} SortByScorePermutes(s: seq<Article>)
    ensures multiset(SortByScore(s)) == multiset(s)
  {
    if s != [] {
      SortByScorePermutes(s[1..]);
      InsertPermutes(s[0], SortByScore(s[1..]));
      assert s == [s[0]] + s[1..];
    }
  }

  /** Ranking neither adds nor drops an id. */
  lemma {:induction false} SortByScoreKeepsIds(s: seq<Article>)
    ensures multiset(Ids(SortByScore(s))) == multiset(Ids(s))
  {
    if s != [] {
      SortByScoreKeepsIds(s[1..]);
      InsertKeepsIds(s[0], SortByScore(s[1..]));
      assert Ids(s) == [s[0].id] + Ids(s[1..]);
    }
  }

  /** The sort is stable: for every score, the articles with that score keep
      their input order. */
  lemma {:induction false} SortByScoreStable(s: seq<Article>, k: int)
    ensures WithKey(SortByScore(s), k) == WithKey(s, k)
  {
    if s != [] {
      SortByScoreStable(s[1..], k);
      SortByScoreSorted(s[1..]);
      InsertWithKey(s[0], SortByScore(s[1..]), k);
    }
  }

  /** The summarizer's result for a given reply: the merged, ranked list, or
      the fixed fallback synopsis with the input list untouched when the reply
      is absent, does not parse, or lacks `scoredArticles`. */
  function Summarize(articles: seq<Article>, reply: ResponseText<ScoringReply>): (r: Summary)
    ensures MergeSucceeds(reply) ==> r.synopsis == reply.parsed.value.summary
    ensures !MergeSucceeds(reply) ==> r == Summary(FallbackSynopsis, articles)
  {
    if MergeSucceeds(reply) then
      var m := EntryMap(reply.parsed.value.scoredArticles.value);
      Summary(reply.parsed.value.summary, SortByScore(MergeAll(articles, m)))
    else Summary(FallbackSynopsis, articles)
  }

  /** The reply reaches the merge: non-blank text that parses to an object
      carrying `scoredArticles` (blank text parses as `{}`, which lacks it). */
  predicate MergeSucceeds(reply: ResponseText<ScoringReply>) {
    reply.Text? && reply.body != "" && reply.parsed.Parsed? && reply.parsed.value.scoredArticles.Some?
  }

  /** An article that the last entry with its id scores takes that entry's
      summary and score, each defaulted as `||` does. */
  lemma MergedUsesLastEntry(a: Article, es: seq<ScoreEntry>, k: int)
    requires 0 <= k < |es| && es[k].id == a.id
    requires forall j :: k < j < |es| ==> es[j].id != a.id
    ensures Merged(a, EntryMap(es)) == a.(summary := Some(SummaryOr(Some(es[k]))), score := Some(ScoreOr(Some(es[k]))))
  {
    EntryMapLastWins(es, a.id);
    var k' :| 0 <= k' < |es| && es[k'] == EntryMap(es)[a.id] && es[k'].id == a.id &&
      forall j :: k' < j < |es| ==> es[j].id != a.id;
    assert k' == k;
  }

  /** An article that no entry scores gets the empty summary and the score 5. */
  lemma MergedWithoutEntry(a: Article, es: seq<ScoreEntry>)
    requires forall k :: 0 <= k < |es| ==> es[k].id != a.id
    ensures Merged(a, EntryMap(es)) == a.(summary := Some(""), score := Some(DefaultScore))
  {
    EntryMapKeys(es, a.id);
  }

  /** On a usable reply the summarizer returns the input articles, each merged
      with its entry, ranked by descending score with ties in input order: a
      permutation that neither adds nor drops an id. */
  lemma {:induction false} SummarizeRanks(articles: seq<Article>, reply: ResponseText<ScoringReply>)
    requires MergeSucceeds(reply)
    ensures var out := Summarize(articles, reply).scoredArticles;
      var merged := MergeAll(articles, EntryMap(reply.parsed.value.scoredArticles.value));
      && |out| == |articles|
      && multiset(out) == multiset(merged)
      && multiset(Ids(out)) == multiset(Ids(articles))
      && SortedDesc(out)
      && (forall k :: WithKey(out, k) == WithKey(merged, k))
      && (forall b :: b in out ==> b.summary.Some? && b.score.Some? && b.score.value != 0)
  {
    var out := Summarize(articles, reply).scoredArticles;
    var merged := MergeAll(articles, EntryMap(reply.parsed.value.scoredArticles.value));
    SortByScoreSorted(merged);
    SortByScorePermutes(merged);
    SortByScoreKeepsIds(merged);
    assert Ids(merged) == Ids(articles);
    forall k ensures WithKey(out, k) == WithKey(merged, k) {
      SortByScoreStable(merged, k);
    }
    forall b | b in out ensures b.summary.Some? && b.score.Some? && b.score.value != 0 {
      assert b in multiset(merged);
    }
  }

  /** A reply that is absent, blank, malformed or lacks `scoredArticles` gives
      the fixed fallback synopsis and the input list unchanged and unscored. */
  lemma SummarizeFallback(articles: seq<Article>, reply: ResponseText<ScoringReply>)
    requires reply.NoText? || reply.body == "" || reply.parsed.Malformed? || reply.parsed.value.scoredArticles.None?
    ensures Summarize(articles, reply) == Summary("总结生成失败", articles)
  {
  }

  // ---------------------------------------------------------------------------
  // Image reply: the part search of `generateCoverImage`
  // ---------------------------------------------------------------------------

  datatype InlineData = InlineData(data: string)
  datatype Part = Part(inlineData: Option<InlineData>)
  datatype Content = Content(parts: Option<seq<Part>>)
  datatype Candidate = Candidate(content: Option<Content>)

  const DataUrlPrefix: string := "data:image/png;base64,"

  /** The data URL of the first part carrying inline data, if any. */
  function FirstInlineImage(parts: seq<Part>): (r: Option<string>)
    ensures r.None? <==> forall i :: 0 <= i < |parts| ==> parts[i].inlineData.None?
    ensures r.Some? ==>
      exists i :: (0 <= i < |parts| && parts[i].inlineData.Some? &&
        r.value == DataUrlPrefix + parts[i].inlineData.value.data &&
        forall j :: 0 <= j < i ==> parts[j].inlineData.None?)
  {
    if parts == [] then None
    else match parts[0].inlineData
      case Some(d) => Some(DataUrlPrefix + d.data)
      case None =>
        var r := FirstInlineImage(parts[1..]);
        assert forall i :: 1 <= i < |parts| ==> parts[i] == parts[1..][i - 1];
        r
  }

  /** `response.candidates?.[0]?.content?.parts` is defined. */
  predicate HasParts(candidates: Option<seq<Candidate>>) {
    candidates.Some? && |candidates.value| > 0 &&
    candidates.value[0].content.Some? && candidates.value[0].content.value.parts.Some?
  }

  /** `response.candidates?.[0]?.content?.parts`, searched for the first image. */
  function CoverImage(candidates: Option<seq<Candidate>>): (r: Option<string>)
    ensures HasParts(candidates) ==> r == FirstInlineImage(candidates.value[0].content.value.parts.value)
    ensures !HasParts(candidates) ==> r.None?
  {
    match candidates
    case Some(cs) =>
      if cs != [] && cs[0].content.Some? && cs[0].content.value.parts.Some?
      then FirstInlineImage(cs[0].content.value.parts.value)
      else None
    case None => None
  }
}
