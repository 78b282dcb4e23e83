/**
 * The card for a text question's statistics: the AI summary's tags ordered
 * by count with the first three emphasised, the AI-summary button and the
 * message shown while there are no tags.
 */
module TextStats {
  import opened Wrappers
  import opened PollModel
  import opened StableSort
  import opened StatsModel

  /** `stats.tags && stats.tags.length > 0` */
  function HasTags(tags: Option<seq<TagStat>>): (has: bool)
    ensures has <==> tags.Some? && tags.value != []
  {
    tags.Some? && |tags.value| > 0
  }

  /** The tags in display order: stably sorted so that counts never increase. */
  function SortedTags(tags: Option<seq<TagStat>>): (r: seq<TagStat>)
    ensures multiset(r) == multiset(tags.GetOr([]))
    ensures forall i, j :: 0 <= i < j < |r| ==> r[i].count >= r[j].count
    ensures forall n :: WithKey(r, NegatedTagCount, n) == WithKey(tags.GetOr([]), NegatedTagCount, n)
  {
    var s := tags.GetOr([]);
    SortByPermutes(s, NegatedTagCount);
    SortBySorted(s, NegatedTagCount);
    var r := SortBy(s, NegatedTagCount);
    assert forall i, j :: 0 <= i < j < |r| ==> NegatedTagCount(r[i]) <= NegatedTagCount(r[j]);
    forall n ensures WithKey(r, NegatedTagCount, n) == WithKey(s, NegatedTagCount, n) {
      SortByStable(s, NegatedTagCount, n);
    }
    r
  }

  /** `questionData?.needAiSummary || false` */
  function NeedAiSummary(questionData: Option<Question>): (need: bool)
    ensures need <==> questionData.Some? && questionData.value.needAiSummary == Some(true)
  {
    questionData.Some? && questionData.value.needAiSummary.GetOr(false)
  }

  /** A chip of the tag list; the first three are filled and bold. */
  datatype Chip = Chip(tag: TagStat, emphasised: bool)

  datatype AiButton = NoButton | AiSummaryButton(disabled: bool, caption: string)

  datatype EmptyState = NoAnswersYet | AiHint | Blank

  datatype TagArea = Chips(chips: seq<Chip>) | Empty(state: EmptyState)

  datatype TextCard = TextCard(title: string, button: AiButton, area: TagArea)

  /**
   * The card. The button is shown only for a question that asks for an AI
   * summary and is disabled while a request is pending, right after a click
   * or when the question has no answers. With tags, they are listed in
   * display order with exactly the first three emphasised; without, "No
   * answers yet" shows when the answer count is 0, the AI hint when it is not
   * and a summary is wanted, and nothing otherwise.
   */
  function TextCardFor(title: string, stat: StatItem, questionData: Option<Question>,
                       isPending: bool, justTriggered: bool): (card: TextCard)
    ensures card.button.AiSummaryButton? <==> NeedAiSummary(questionData)
    ensures card.button.AiSummaryButton? ==>
      (card.button.disabled <==> isPending || justTriggered || stat.answerCount == Some(0))
    ensures card.button.AiSummaryButton? ==>
      (card.button.caption == "Summarizing..." <==> justTriggered)
    ensures card.area.Chips? <==> HasTags(stat.tags)
    ensures card.area.Chips? ==> (|card.area.chips| == |stat.tags.value| &&
      forall i :: 0 <= i < |card.area.chips| ==>
        card.area.chips[i].tag == SortedTags(stat.tags)[i] && (card.area.chips[i].emphasised <==> i < 3))
    ensures card.area.Empty? ==> (card.area.state == NoAnswersYet <==> stat.answerCount == Some(0))
    ensures card.area.Empty? ==>
      (card.area.state == AiHint <==> stat.answerCount != Some(0) && NeedAiSummary(questionData))
  {
    var need := NeedAiSummary(questionData);
    var button := if need then
        AiSummaryButton(isPending || justTriggered || stat.answerCount == Some(0),
                        if justTriggered then "Summarizing..." else "AI Summary")
      else NoButton;
    var area := if HasTags(stat.tags) then
        var sorted := SortedTags(stat.tags);
        assert |sorted| == |stat.tags.value| by {
          assert |multiset(sorted)| == |multiset(stat.tags.value)|;
        }
        Chips(seq(|sorted|, i requires 0 <= i < |sorted| => Chip(sorted[i], i < 3)))
      else if stat.answerCount == Some(0) then Empty(NoAnswersYet)
      else if need then Empty(AiHint)
      else Empty(Blank);
    TextCard(title, button, area)
  }

  /** The card's `justTriggered` flag around a click on the AI-summary button. */
  class TextStatsCard {
    var justTriggered: bool

    constructor ()
      ensures !justTriggered
    {
      justTriggered := false;
    }

    /** The click sets the flag before the summary request is sent. */
    method BeginAiClick()
      modifies this
      ensures justTriggered
    {
      justTriggered := true;
    }

    /**
     * The request has ended: a failure clears the flag at once; after a
     * success it stays set (a timer clears it later).
     */
    method FinishAiClick(ok: bool)
      requires justTriggered
      modifies this
      ensures justTriggered == ok
    {
      if !ok {
        justTriggered := false;
      }
    }
  }

  /**
   * While a click is in flight the button stays disabled: the flag set by
   * the click disables it whatever the other inputs are.
   */
  lemma ClickDisablesButton(title: string, stat: StatItem, questionData: Option<Question>, isPending: bool)
    requires NeedAiSummary(questionData)
    ensures TextCardFor(title, stat, questionData, isPending, true).button == AiSummaryButton(true, "Summarizing...")
  {
  }
}
