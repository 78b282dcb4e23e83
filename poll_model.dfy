/**
 * The poll, question and choice records the pages exchange with the backend.
 * Identifiers are nullable before the first save; a question's type travels
 * as the string `dtype`, classified here into the closed set of kinds the
 * pages dispatch on.
 */
module PollModel {
  import opened Wrappers

  /** Poll lifecycle: DRAFT -> ACTIVE -> FINISHED. */
  datatype Status = Draft | Active | Finished

  datatype Kind = Text | SingleChoice | MultiChoice | Unknown

  const TextTag := "text"
  const SingleChoiceTag := "single-choice"
  const MultiChoiceTag := "multi-choice"

  function KindOf(dtype: string): (k: Kind)
    ensures k == Text <==> dtype == TextTag
    ensures k == SingleChoice <==> dtype == SingleChoiceTag
    ensures k == MultiChoice <==> dtype == MultiChoiceTag
  {
    if dtype == TextTag then Text
    else if dtype == SingleChoiceTag then SingleChoice
    else if dtype == MultiChoiceTag then MultiChoice
    else Unknown
  }

  predicate IsChoiceKind(k: Kind) {
    k == SingleChoice || k == MultiChoice
  }

  datatype Choice = Choice(id: Option<int>, name: string, position: int)

  /**
   * One question. `maxLength` and `needAiSummary` belong to text questions,
   * `possibleChoices` to choice questions; absent fields are `None`.
   */
  datatype Question = Question(
    id: Option<int>,
    dtype: string,
    name: string,
    description: Option<string>,
    isRequired: bool,
    position: int,
    maxLength: Option<int>,
    needAiSummary: Option<bool>,
    possibleChoices: Option<seq<Choice>>)

  function Position(q: Question): int {
    q.position
  }

  function ChoicePosition(c: Choice): int {
    c.position
  }

  function KindOfQuestion(q: Question): Kind {
    KindOf(q.dtype)
  }

  /** The options of a question, `[]` when it has none. */
  function Choices(q: Question): seq<Choice> {
    q.possibleChoices.GetOr([])
  }

  datatype Poll = Poll(
    id: int,
    name: Option<string>,
    status: Option<Status>,
    questions: Option<seq<Question>>,
    mySubmissionsCount: Option<int>)
}
