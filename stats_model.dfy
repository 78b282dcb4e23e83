/** The statistics the server returns for a poll, one item per question. */
module StatsModel {
  import opened Wrappers

  /** How often one option was chosen. */
  datatype ChoiceStat = ChoiceStat(id: int, count: int)

  /** One tag of the AI summary of a text question and how many answers carry it. */
  datatype TagStat = TagStat(tag: string, count: int)

  /**
   * The statistics of one question. The server's text and choice variants
   * share `questionId`, `dtype` and `answerCount`; a choice item carries
   * `choiceStats` and a text item `tags`.
   */
  datatype StatItem = StatItem(
    questionId: int,
    dtype: string,
    answerCount: Option<int>,
    choiceStats: Option<seq<ChoiceStat>>,
    tags: Option<seq<TagStat>>)

  datatype StatsData = StatsData(submissionsCount: int, stats: seq<StatItem>)

  /** The sort key of a descending sort by count. */
  function NegatedChoiceCount(c: ChoiceStat): int {
    -c.count
  }

  function NegatedTagCount(t: TagStat): int {
    -t.count
  }
}
