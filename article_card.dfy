/** The article card (components/ArticleCard.tsx): the colour of the score
    badge, whether the badge is shown, and the body text. */
module ArticleCard {
  import opened Types

  /** The four badge colours. */
  datatype Tone = Slate | Rose | Amber | Emerald

  /** The class names each colour stands for. */
  function ToneClass(t: Tone): string {
    match t
    case Slate => "bg-slate-100 text-slate-500"
    case Rose => "bg-rose-100 text-rose-600"
    case Amber => "bg-amber-100 text-amber-600"
    case Emerald => "bg-emerald-100 text-emerald-600"
  }

  /** `getScoreColor`: an absent or zero score is neutral; then
      8 and up is rose, 6 and up amber, and anything lower emerald. */
  function ScoreTone(score: Option<int>): (t: Tone)
    ensures t == Slate <==> score.None? || score.value == 0
    ensures t == Rose <==> score.Some? && score.value >= 8
    ensures t == Amber <==> score.Some? && 6 <= score.value < 8
    ensures t == Emerald <==> score.Some? && score.value != 0 && score.value < 6
  {
    match score
    case None => Slate
    case Some(n) =>
      if n == 0 then Slate
      else if n >= 8 then Rose
      else if n >= 6 then Amber
      else Emerald
  }

  /** The warmth of a colour: emerald, then amber, then rose. */
  function Warmth(t: Tone): nat {
    match t
    case Slate => 0
    case Emerald => 1
    case Amber => 2
    case Rose => 3
  }

  /** A higher nonzero score never gets a cooler colour. */
  lemma ScoreToneMonotone(a: int, b: int)
    requires a != 0 && b != 0 && a <= b
    ensures Warmth(ScoreTone(Some(a))) <= Warmth(ScoreTone(Some(b)))
  {
  }

  /** The badge is shown whenever a score is present, so a hidden badge means
      the neutral colour. */
  predicate ShowsBadge(a: Article)
    ensures !ShowsBadge(a) ==> ScoreTone(a.score) == Slate
  {
    a.score.Some?
  }

  /** The body text `summary || content`. */
  function BodyText(a: Article): (r: string)
    ensures r == a.content || (a.summary.Some? && r == a.summary.value && r != "")
    ensures a.summary.Some? && a.summary.value != "" ==> r == a.summary.value
  {
    match a.summary
    case Some(s) => if s != "" then s else a.content
    case None => a.content
  }

  /** A score of 0 still shows a badge, in the neutral colour. */
  lemma ZeroScoreBadgeIsNeutral(a: Article)
    requires a.score == Some(0)
    ensures ShowsBadge(a) && ToneClass(ScoreTone(a.score)) == "bg-slate-100 text-slate-500"
  {
  }
}
