/**
 * The health-insights card: an overall skin-health score, the rounded mean of three
 * metrics; a status band for the score; and the suggestion and tip lists, which default to
 * empty. An insights object that is missing or has no keys renders nothing.
 */
module HealthInsights {
  import opened Wrappers
  import Numbers

  datatype SkinHealth = SkinHealth(hydrationLevel: int, elasticity: int, evenness: int)

  /** The insights object; an absent key is None. */
  datatype Insights = Insights(
    skinHealth: Option<SkinHealth>, suggestions: Option<seq<string>>, wellnessTips: Option<seq<string>>)

  /** `Object.keys(insights).length === 0`. */
  predicate HasNoKeys(i: Insights)
  {
    i.skinHealth.None? && i.suggestions.None? && i.wellnessTips.None?
  }

  predicate InRange(h: SkinHealth)
  {
    0 <= h.hydrationLevel <= 100 && 0 <= h.elasticity <= 100 && 0 <= h.evenness <= 100
  }

  /** `getHealthScore`: 0 without skin-health data, else the rounded mean of the three metrics. */
  function HealthScore(skinHealth: Option<SkinHealth>): (score: int)
    ensures skinHealth.None? ==> score == 0
    ensures skinHealth.Some? ==>
      var h := skinHealth.value;
      var sum := h.hydrationLevel + h.elasticity + h.evenness;
      sum as real - 1.5 < 3.0 * score as real <= sum as real + 1.5
  {
    match skinHealth
    case None => 0
    case Some(h) => Numbers.Round((h.hydrationLevel + h.elasticity + h.evenness) as real / 3.0)
  }

  /** With every metric between 0 and 100 the score is between 0 and 100. */
  lemma HealthScoreInRange(skinHealth: Option<SkinHealth>)
    requires skinHealth.Some? ==> InRange(skinHealth.value)
    ensures 0 <= HealthScore(skinHealth) <= 100
  {
    if skinHealth.Some? {
      var h := skinHealth.value;
      Numbers.RoundBetween((h.hydrationLevel + h.elasticity + h.evenness) as real / 3.0, 0, 100);
    }
  }

  /** Three equal metrics give exactly that value as the score. */
  lemma EqualMetricsScore(m: int)
    ensures HealthScore(Some(SkinHealth(m, m, m))) == m
  {
  }

  datatype HealthStatus = NeedsAttention | Fair | Good | Excellent

  /** `getHealthStatus`: Excellent from 80, Good from 60, Fair from 40, else Needs Attention. */
  function StatusOf(score: int): (s: HealthStatus)
    ensures s == Excellent <==> score >= 80
    ensures s == Good <==> 60 <= score < 80
    ensures s == Fair <==> 40 <= score < 60
    ensures s == NeedsAttention <==> score < 40
  {
    if score >= 80 then Excellent
    else if score >= 60 then Good
    else if score >= 40 then Fair
    else NeedsAttention
  }

  /** The bands from worst to best. */
  function Rank(s: HealthStatus): nat
  {
    match s
    case NeedsAttention => 0
    case Fair => 1
    case Good => 2
    case Excellent => 3
  }

  /** A higher score never gets a worse status. */
  lemma StatusMonotone(a: int, b: int)
    requires a <= b
    ensures Rank(StatusOf(a)) <= Rank(StatusOf(b))
  {
  }

  /** What the card shows: the score block only when there is skin-health data. */
  datatype Card = Card(
    score: int, status: HealthStatus, showsScore: bool, suggestions: seq<string>, wellnessTips: seq<string>)

  function ListOrEmpty(list: Option<seq<string>>): seq<string>
  {
    match list
    case None => []
    case Some(l) => l
  }

  /** The component: None (renders nothing) for missing or key-less insights. */
  function Render(insights: Option<Insights>): (card: Option<Card>)
    ensures card.None? <==> insights.None? || HasNoKeys(insights.value)
    ensures card.Some? ==>
      && card.value.showsScore == insights.value.skinHealth.Some?
      && card.value.score == HealthScore(insights.value.skinHealth)
      && card.value.status == StatusOf(card.value.score)
      && (insights.value.suggestions.None? ==> card.value.suggestions == [])
      && (insights.value.suggestions.Some? ==> card.value.suggestions == insights.value.suggestions.value)
      && (insights.value.wellnessTips.None? ==> card.value.wellnessTips == [])
      && (insights.value.wellnessTips.Some? ==> card.value.wellnessTips == insights.value.wellnessTips.value)
  {
    match insights
    case None => None
    case Some(i) =>
      if HasNoKeys(i) then None
      else
        var score := HealthScore(i.skinHealth);
        Some(Card(score, StatusOf(score), i.skinHealth.Some?, ListOrEmpty(i.suggestions), ListOrEmpty(i.wellnessTips)))
  }

  /** Insights holding only lists still render, with a score of 0 and the lowest status. */
  lemma ListsOnlyCard(suggestions: seq<string>)
    ensures Render(Some(Insights(None, Some(suggestions), None)))
      == Some(Card(0, NeedsAttention, false, suggestions, []))
  {
  }
}
