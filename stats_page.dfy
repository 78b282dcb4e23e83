/**
 * The statistics page of a poll: loading and failure states, the page
 * title, and one card per statistics item, dispatched on the item's type.
 */
module StatsPage {
  import opened Wrappers
  import opened PollModel
  import opened StatsModel
  import Decimal

  /** The first question with the given id, if any (`questions.find`). */
  function FindQuestion(qs: seq<Question>, id: int): (q: Option<Question>)
    ensures q.None? <==> forall k :: 0 <= k < |qs| ==> qs[k].id != Some(id)
    ensures q.Some? ==> exists k :: (0 <= k < |qs| && qs[k] == q.value && q.value.id == Some(id) &&
      forall m :: 0 <= m < k ==> qs[m].id != Some(id))
  {
    if qs == [] then None
    else if qs[0].id == Some(id) then Some(qs[0])
    else
      var r := FindQuestion(qs[1..], id);
      if r.Some? then
        var k :| 0 <= k < |qs[1..]| && qs[1..][k] == r.value && r.value.id == Some(id) &&
          forall m :: 0 <= m < k ==> qs[1..][m].id != Some(id);
        assert qs[k + 1] == r.value;
        r
      else r
  }

  /** The question a statistics item belongs to, looked up in the loaded poll. */
  function QuestionData(poll: Option<Poll>, id: int): Option<Question> {
    if poll.Some? && poll.value.questions.Some? then FindQuestion(poll.value.questions.value, id) else None
  }

  /** `Question #id` */
  function FallbackTitle(id: int): (s: string)
    ensures |s| > 10 && s[..10] == "Question #" && Decimal.ParseNumber(s[10..]) == Some(id)
  {
    Decimal.IntStringRoundTrip(id);
    var s := "Question #" + Decimal.IntString(id);
    assert s[10..] == Decimal.IntString(id);
    s
  }

  /**
   * A card's title: the name of the first question with the item's id, or
   * `Question #id` when the poll is not loaded, has no such question or its
   * name is empty.
   */
  function QuestionTitle(poll: Option<Poll>, id: int): (t: string)
    ensures t != ""
    ensures QuestionData(poll, id).Some? && QuestionData(poll, id).value.name != "" ==>
      t == QuestionData(poll, id).value.name
    ensures QuestionData(poll, id).None? || QuestionData(poll, id).value.name == "" ==>
      t == FallbackTitle(id)
  {
    var q := QuestionData(poll, id);
    if q.Some? && q.value.name != "" then q.value.name else FallbackTitle(id)
  }

  /** `pollData?.name || 'Poll results'` */
  function PageTitle(poll: Option<Poll>): (t: string)
    ensures t != ""
    ensures poll.Some? && poll.value.name.Some? && poll.value.name.value != "" ==> t == poll.value.name.value
    ensures !(poll.Some? && poll.value.name.Some? && poll.value.name.value != "") ==> t == "Poll results"
  {
    OrIfFalsy(if poll.Some? then poll.value.name else None, "Poll results")
  }

  /** One card of the grid: the text card for 'text' items, the choice card for every other type. */
  datatype StatCard =
    | TextCard(item: StatItem, title: string, questionData: Option<Question>)
    | ChoiceCard(item: StatItem, title: string, questionData: Option<Question>)
  {
    function Item(): StatItem {
      match this
      case TextCard(item, _, _) => item
      case ChoiceCard(item, _, _) => item
    }
  }

  function CardFor(poll: Option<Poll>, item: StatItem): StatCard {
    var title := QuestionTitle(poll, item.questionId);
    var data := QuestionData(poll, item.questionId);
    if item.dtype == TextTag then TextCard(item, title, data) else ChoiceCard(item, title, data)
  }

  datatype StatsView =
    | Skeleton
    | LoadFailed
    | Results(title: string, submissions: int, cards: seq<StatCard>)

  /**
   * The page: the skeleton while loading with no statistics yet; otherwise
   * the failure message on an error or without statistics; otherwise the
   * poll's title, the submission count and one card per item, in order.
   */
  function StatsPageView(isLoading: bool, isError: bool, stats: Option<StatsData>, poll: Option<Poll>): (v: StatsView)
    ensures v.Skeleton? <==> isLoading && stats.None?
    ensures v.LoadFailed? <==> !(isLoading && stats.None?) && (isError || stats.None?)
    ensures v.Results? ==> stats.Some? && !isError
    ensures v.Results? ==> v.title == PageTitle(poll) && v.submissions == stats.value.submissionsCount
    ensures v.Results? ==> |v.cards| == |stats.value.stats|
    ensures v.Results? ==> forall i :: 0 <= i < |v.cards| ==>
      v.cards[i].Item() == stats.value.stats[i] &&
      (v.cards[i].TextCard? <==> stats.value.stats[i].dtype == TextTag) &&
      v.cards[i].title == QuestionTitle(poll, stats.value.stats[i].questionId) &&
      v.cards[i].questionData == QuestionData(poll, stats.value.stats[i].questionId)
  {
    if isLoading && stats.None? then Skeleton
    else if isError || stats.None? then LoadFailed
    else
      var items := stats.value.stats;
      Results(PageTitle(poll), stats.value.submissionsCount,
              seq(|items|, i requires 0 <= i < |items| => CardFor(poll, items[i])))
  }

  /**
   * Two questions sharing an id: both cards for that id take the first
   * question's name, and both look up the first question.
   */
  lemma FirstQuestionWins(poll: Poll, first: Question, second: Question, id: int)
    requires poll.questions == Some([first, second])
    requires first.id == Some(id) && second.id == Some(id) && first.name != ""
    ensures QuestionTitle(Some(poll), id) == first.name
    ensures QuestionData(Some(poll), id) == Some(first)
  {
  }
}
