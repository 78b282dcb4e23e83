/**
 * The card for a single- or multi-choice question's statistics: options
 * ordered by how often they were chosen, each with a rounded percentage and
 * a label taken from the question.
 */
module ChoiceStats {
  import opened Wrappers
  import opened PollModel
  import opened StableSort
  import opened StatsModel
  import Decimal

  /** `answerCount || 0` */
  function TotalAnswers(answerCount: Option<int>): (total: int)
    ensures answerCount.Some? ==> total == answerCount.value
    ensures answerCount.None? ==> total == 0
  {
    answerCount.GetOr(0)
  }

  /**
   * The options in display order: `choiceStats` (none counts as empty),
   * stably sorted so that counts never increase.
   */
  function SortedChoices(choiceStats: Option<seq<ChoiceStat>>): (r: seq<ChoiceStat>)
    ensures multiset(r) == multiset(choiceStats.GetOr([]))
    ensures forall i, j :: 0 <= i < j < |r| ==> r[i].count >= r[j].count
    ensures forall n :: WithKey(r, NegatedChoiceCount, n) == WithKey(choiceStats.GetOr([]), NegatedChoiceCount, n)
  {
    var s := choiceStats.GetOr([]);
    SortByPermutes(s, NegatedChoiceCount);
    SortBySorted(s, NegatedChoiceCount);
    var r := SortBy(s, NegatedChoiceCount);
    assert forall i, j :: 0 <= i < j < |r| ==> NegatedChoiceCount(r[i]) <= NegatedChoiceCount(r[j]);
    forall n ensures WithKey(r, NegatedChoiceCount, n) == WithKey(s, NegatedChoiceCount, n) {
      SortByStable(s, NegatedChoiceCount, n);
    }
    r
  }

  /**
   * The percentage shown for an option, or 0 when there are no answers. The
   * page computes `Math.round(count / total * 100)` in floating point; this
   * model rounds the exact quotient instead: the integer nearest to
   * 100·count/total, halves rounded up.
   */
  function Percent(count: int, total: int): (p: int)
    ensures total <= 0 ==> p == 0
    ensures total > 0 ==> -total <= 200 * count - 2 * total * p < total
  {
    if total > 0 then (200 * count + total) / (2 * total) else 0
  }

  lemma MulMonotone(factor: int, x: int, y: int)
    requires factor >= 0 && x <= y
    ensures factor * x <= factor * y
  {
    assert factor * y - factor * x == factor * (y - x);
  }

  /** A count within the total gives a percentage from 0 to 100. */
  lemma PercentInRange(count: int, total: int)
    requires 0 <= count <= total
    ensures 0 <= Percent(count, total) <= 100
  {
    if total > 0 {
      var p := Percent(count, total);
      if p > 100 {
        MulMonotone(2 * total, 101, p);
        MulMonotone(200, count, total);
      }
      if p < 0 {
        MulMonotone(2 * total, p, -1);
      }
    }
  }

  /**
   * A non-negative count rounds to 0 percent (and so gets a transparent bar)
   * exactly when it is under half a percent of the total.
   */
  lemma ZeroPercentIffUnderHalf(count: int, total: int)
    requires total > 0 && count >= 0
    ensures Percent(count, total) == 0 <==> 200 * count < total
  {
    var p := Percent(count, total);
    if p >= 1 {
      MulMonotone(2 * total, 1, p);
    }
    if p <= -1 {
      MulMonotone(2 * total, p, -1);
    }
  }

  /** Looking up an option's name can fail when the question has no option list. */
  datatype LabelOutcome = Label(text: string) | RenderError

  /** The first option of the list with the given id. */
  function FindChoice(cs: seq<Choice>, id: int): (c: Option<Choice>)
    ensures c.Some? ==> c.value in cs && c.value.id == Some(id)
    ensures c.None? <==> forall k :: 0 <= k < |cs| ==> cs[k].id != Some(id)
    ensures c.Some? ==> exists k :: (0 <= k < |cs| && cs[k] == c.value &&
      forall m :: 0 <= m < k ==> cs[m].id != Some(id))
  {
    if cs == [] then None
    else if cs[0].id == Some(id) then Some(cs[0])
    else
      var r := FindChoice(cs[1..], id);
      if r.Some? then
        var k :| 0 <= k < |cs[1..]| && cs[1..][k] == r.value && forall m :: 0 <= m < k ==> cs[1..][m].id != Some(id);
        assert cs[k + 1] == r.value;
        r
      else r
  }

  /**
   * An option's label: the matching option's name of the question the item
   * belongs to, or `Option #id` when there is no question, no matching
   * option or its name is empty. A question without an option list makes
   * the lookup throw.
   */
  function ChoiceLabel(questionData: Option<Question>, id: int): (l: LabelOutcome)
    ensures l.RenderError? <==> questionData.Some? && questionData.value.possibleChoices.None?
    ensures l.Label? && questionData.Some? ==>
      var found := FindChoice(questionData.value.possibleChoices.value, id);
      (found.Some? && found.value.name != "" ==> l.text == found.value.name) &&
      (found.None? || found.value.name == "" ==> l.text == FallbackLabel(id))
    ensures questionData.None? ==> l == Label(FallbackLabel(id))
  {
    match questionData
    case None => Label(FallbackLabel(id))
    case Some(q) =>
      if q.possibleChoices.None? then RenderError
      else
        var found := FindChoice(q.possibleChoices.value, id);
        if found.Some? && found.value.name != "" then Label(found.value.name) else Label(FallbackLabel(id))
  }

  /** `Option #id` */
  function FallbackLabel(id: int): (s: string)
    ensures |s| > 8 && s[..8] == "Option #" && Decimal.ParseNumber(s[8..]) == Some(id)
  {
    Decimal.IntStringRoundTrip(id);
    var s := "Option #" + Decimal.IntString(id);
    assert s[8..] == Decimal.IntString(id);
    s
  }

  /** One row of the card; the bar is transparent unless the percentage is positive. */
  datatype ChoiceRow = ChoiceRow(caption: LabelOutcome, count: int, percent: int, transparent: bool)

  datatype ChoiceCard = ChoiceCard(title: string, totalAnswers: int, rows: seq<ChoiceRow>, noOptions: bool)

  /**
   * The card: one row per option in display order with its label, count,
   * percentage of the total and bar colour; "No options" exactly when there
   * are no rows.
   */
  function ChoiceCardFor(title: string, stat: StatItem, questionData: Option<Question>): (card: ChoiceCard)
    ensures card.totalAnswers == TotalAnswers(stat.answerCount)
    ensures |card.rows| == |stat.choiceStats.GetOr([])|
    ensures card.noOptions <==> |card.rows| == 0
    ensures forall i :: 0 <= i < |card.rows| ==>
      var c := SortedChoices(stat.choiceStats)[i];
      card.rows[i] == ChoiceRow(ChoiceLabel(questionData, c.id), c.count,
                                Percent(c.count, card.totalAnswers), !(Percent(c.count, card.totalAnswers) > 0))
    ensures forall i, j :: 0 <= i < j < |card.rows| ==> card.rows[i].count >= card.rows[j].count
  {
    var total := TotalAnswers(stat.answerCount);
    var sorted := SortedChoices(stat.choiceStats);
    assert |sorted| == |stat.choiceStats.GetOr([])| by {
      assert |multiset(sorted)| == |multiset(stat.choiceStats.GetOr([]))|;
    }
    var rows := seq(|sorted|, i requires 0 <= i < |sorted| =>
      ChoiceRow(ChoiceLabel(questionData, sorted[i].id), sorted[i].count,
                Percent(sorted[i].count, total), !(Percent(sorted[i].count, total) > 0)));
    ChoiceCard(title, total, rows, |rows| == 0)
  }
}
