/**
 * The respondent's page: which view it shows for the poll's state, the order
 * it renders the questions in, and how the submit handler turns the form's
 * values into the list of answers it sends.
 */
module TakePoll {
  import opened Wrappers
  import opened PollModel
  import opened StableSort
  import opened QuestionInput
  import Decimal

  /** One answer of a submission, tagged by its `dtype`. */
  datatype Answer =
    | TextAnswer(questionId: Option<int>, value: string)
    | SingleChoiceAnswer(questionId: Option<int>, selectedChoiceId: Option<int>)
    | MultiChoiceAnswer(questionId: Option<int>, selectedChoiceIds: seq<int>)

  /** The form's values, keyed by the id each question's input is registered under. */
  type FormValues = map<Option<int>, FormValue>

  function ValueOf(data: FormValues, id: Option<int>): FormValue {
    if id in data then data[id] else Absent
  }

  /** Every value has the shape the question's input produces. */
  predicate ValuesFit(qs: seq<Question>, data: FormValues) {
    forall i :: 0 <= i < |qs| ==> Fits(KindOfQuestion(qs[i]), ValueOf(data, qs[i].id))
  }

  /**
   * What one question contributes to the submission: nothing when its value is
   * undefined, '' or [] or its type is unknown; otherwise one answer tagged by
   * the type, carrying the question's id and the value (text as it is, the
   * radio value through `Number`, the ticked ids in their order).
   */
  function AnswerFor(q: Question, v: FormValue): (a: Option<Answer>)
    requires Fits(KindOfQuestion(q), v)
    ensures a.None? <==> IsEmptyValue(v) || KindOfQuestion(q) == Unknown
    ensures a.Some? ==> a.value.questionId == q.id
    ensures a.Some? ==> (a.value.TextAnswer? <==> KindOfQuestion(q) == Text)
    ensures a.Some? ==> (a.value.SingleChoiceAnswer? <==> KindOfQuestion(q) == SingleChoice)
    ensures a.Some? ==> (a.value.MultiChoiceAnswer? <==> KindOfQuestion(q) == MultiChoice)
    ensures a.Some? && a.value.TextAnswer? ==> v == Str(a.value.value)
    ensures a.Some? && a.value.SingleChoiceAnswer? ==> v.Str? && a.value.selectedChoiceId == Decimal.ParseNumber(v.s)
    ensures a.Some? && a.value.MultiChoiceAnswer? ==> v == Ids(a.value.selectedChoiceIds)
  {
    if IsEmptyValue(v) then None
    else match KindOfQuestion(q)
      case Text => Some(TextAnswer(q.id, v.s))
      case SingleChoice => Some(SingleChoiceAnswer(q.id, Decimal.ParseNumber(v.s)))
      case MultiChoice => Some(MultiChoiceAnswer(q.id, v.ids))
      case Unknown => None
  }

  /** Choosing an option's radio button submits that option's id. */
  lemma RadioAnswerIsOptionId(q: Question, c: Choice)
    requires KindOfQuestion(q) == SingleChoice && c.id.Some?
    ensures AnswerFor(q, Str(RadioValue(c))) == Some(SingleChoiceAnswer(q.id, c.id))
  {
    assert RadioValue(c) != "";
  }

  function OptionSeq<T>(o: Option<T>): seq<T> {
    if o.Some? then [o.value] else []
  }

  lemma ValuesFitPrefix(qs: seq<Question>, data: FormValues, n: nat)
    requires ValuesFit(qs, data) && n <= |qs|
    ensures ValuesFit(qs[..n], data)
  {
    assert forall i :: 0 <= i < n ==> qs[..n][i] == qs[i];
  }

  /** The answers of the questions, in the order of `poll.questions`. */
  function Answers(qs: seq<Question>, data: FormValues): seq<Answer>
    requires ValuesFit(qs, data)
  {
    if qs == [] then []
    else
      ValuesFitPrefix(qs, data, |qs| - 1);
      var last := qs[|qs| - 1];
      Answers(qs[..|qs| - 1], data) + OptionSeq(AnswerFor(last, ValueOf(data, last.id)))
  }

  /**
   * The indices of the questions that contribute an answer: increasing, one
   * per answer and matching it, and every question left out contributes
   * nothing. So answers follow the question order, at most one per question.
   */
  function AnsweredIndices(qs: seq<Question>, data: FormValues): (idx: seq<nat>)
    requires ValuesFit(qs, data)
    ensures |idx| == |Answers(qs, data)|
    ensures forall j :: 0 <= j < |idx| ==> idx[j] < |qs|
    ensures forall j, k :: 0 <= j < k < |idx| ==> idx[j] < idx[k]
    ensures forall j :: 0 <= j < |idx| ==>
      AnswerFor(qs[idx[j]], ValueOf(data, qs[idx[j]].id)) == Some(Answers(qs, data)[j])
    ensures forall i :: 0 <= i < |qs| && i !in idx ==> AnswerFor(qs[i], ValueOf(data, qs[i].id)).None?
  {
    if qs == [] then []
    else
      ValuesFitPrefix(qs, data, |qs| - 1);
      var init := qs[..|qs| - 1];
      var last := qs[|qs| - 1];
      var rest := AnsweredIndices(init, data);
      assert forall j :: 0 <= j < |rest| ==> init[rest[j]] == qs[rest[j]];
      var a := AnswerFor(last, ValueOf(data, last.id));
      if a.Some? then rest + [|qs| - 1] else rest
  }

  /** There are never more answers than questions. */
  lemma AnswersAtMostQuestions(qs: seq<Question>, data: FormValues)
    requires ValuesFit(qs, data)
    ensures |Answers(qs, data)| <= |qs|
  {
    var idx := AnsweredIndices(qs, data);
    StrictlyIncreasingBounded(idx, |qs|);
  }

  lemma {:induction false} StrictlyIncreasingBounded(idx: seq<nat>, n: nat)
    requires forall j :: 0 <= j < |idx| ==> idx[j] < n
    requires forall j, k :: 0 <= j < k < |idx| ==> idx[j] < idx[k]
    ensures |idx| <= n
  {
    if idx != [] {
      var init := idx[..|idx| - 1];
      assert forall j :: 0 <= j < |init| ==> init[j] < idx[|idx| - 1];
      StrictlyIncreasingBounded(init, idx[|idx| - 1]);
    }
  }

  /**
   * The submit handler's loop (`poll.questions.forEach` with `push`):
   * it builds exactly `Answers`.
   */
  method AssembleAnswers(qs: seq<Question>, data: FormValues) returns (answers: seq<Answer>)
    requires ValuesFit(qs, data)
    ensures answers == Answers(qs, data)
  {
    answers := [];
    var i := 0;
    while i < |qs|
      invariant 0 <= i <= |qs|
      invariant ValuesFit(qs[..i], data)
      invariant answers == Answers(qs[..i], data)
    {
      var q := qs[i];
      var value := ValueOf(data, q.id);
      ValuesFitPrefix(qs, data, i + 1);
      assert qs[..i + 1][..i] == qs[..i];
      if !IsEmptyValue(value) {
        match KindOfQuestion(q)
        case Text =>
          answers := answers + [TextAnswer(q.id, value.s)];
        case SingleChoice =>
          answers := answers + [SingleChoiceAnswer(q.id, Decimal.ParseNumber(value.s))];
        case MultiChoice =>
          answers := answers + [MultiChoiceAnswer(q.id, value.ids)];
        case Unknown =>
      }
      i := i + 1;
    }
    assert qs[..i] == qs;
  }

  // ---------------------------------------------------------------- submit

  /**
   * The questions the form renders: `poll.questions` sorted by position with
   * the stable sort, so questions sharing a position keep the order the
   * server sent them in.
   */
  function Rendered(qs: seq<Question>): (r: seq<Question>)
    ensures multiset(r) == multiset(qs) && SortedBy(r, Position)
    ensures forall p :: WithKey(r, Position, p) == WithKey(qs, Position, p)
  {
    SortByPermutes(qs, Position);
    SortBySorted(qs, Position);
    forall p ensures WithKey(SortBy(qs, Position), Position, p) == WithKey(qs, Position, p) {
      SortByStable(qs, Position, p);
    }
    SortBy(qs, Position)
  }

  /** The question's input fails its rule for the value it holds. */
  predicate Fails(q: Question, data: FormValues) {
    Fits(KindOfQuestion(q), ValueOf(data, q.id)) && Validate(q, ValueOf(data, q.id)).Some?
  }

  datatype SubmitResult = Blocked | NotSent | Sent(answers: seq<Answer>)

  /**
   * "Submit answers" (`handleSubmit(onSubmit)`): the rendered inputs are
   * checked and any failing one blocks the whole submission; a poll without
   * `questions` sends nothing; otherwise the assembled answers are sent.
   */
  function Submit(questions: Option<seq<Question>>, data: FormValues): (r: SubmitResult)
    requires ValuesFit(questions.GetOr([]), data)
    ensures r.Blocked? <==> (exists q :: q in questions.GetOr([]) && Fails(q, data))
    ensures r.NotSent? ==> questions.None?
    ensures r.Sent? ==> questions.Some? && r.answers == Answers(questions.value, data)
  {
    var qs := questions.GetOr([]);
    var rendered := Rendered(qs);
    assert forall q :: q in rendered <==> q in multiset(qs);
    if exists q :: q in rendered && Fails(q, data) then Blocked
    else if questions.None? then NotSent
    else Sent(Answers(qs, data))
  }

  /**
   * A question that is required and of a known type always has its answer in
   * a submission that is sent.
   */
  lemma RequiredQuestionsAnswered(questions: Option<seq<Question>>, data: FormValues, i: nat)
    requires ValuesFit(questions.GetOr([]), data)
    requires i < |questions.GetOr([])|
    requires questions.GetOr([])[i].isRequired && KindOfQuestion(questions.GetOr([])[i]) != Unknown
    requires Submit(questions, data).Sent?
    ensures exists j :: (0 <= j < |Submit(questions, data).answers| &&
      Submit(questions, data).answers[j].questionId == questions.value[i].id)
  {
    var qs := questions.value;
    var idx := AnsweredIndices(qs, data);
    assert qs[i] in qs && !Fails(qs[i], data);
    assert AnswerFor(qs[i], ValueOf(data, qs[i].id)).Some?;
    assert i in idx;
    var j :| 0 <= j < |idx| && idx[j] == i;
    assert Answers(qs, data)[j].questionId == qs[i].id;
  }

  /**
   * A required text question (limit 10) and an optional single-choice one:
   * submitting nothing is blocked; submitting "hi" for the text alone sends
   * exactly one text answer.
   */
  lemma SubmitScenario()
    ensures var text := Question(Some(1), TextTag, "Name", None, true, 0, Some(10), Some(false), None);
      var single := Question(Some(2), SingleChoiceTag, "Pick", None, false, 1, None, None,
                             Some([Choice(Some(10), "A", 0), Choice(Some(11), "B", 1)]));
      Submit(Some([text, single]), map[]) == Blocked &&
      Submit(Some([text, single]), map[Some(1) := Str("hi")]) == Sent([TextAnswer(Some(1), "hi")])
  {
    var text := Question(Some(1), TextTag, "Name", None, true, 0, Some(10), Some(false), None);
    var single := Question(Some(2), SingleChoiceTag, "Pick", None, false, 1, None, None,
                           Some([Choice(Some(10), "A", 0), Choice(Some(11), "B", 1)]));
    var qs := [text, single];
    var data := map[Some(1) := Str("hi")];
    assert text in qs && Fails(text, map[]);
    assert !Fails(text, data);
    assert !Fails(single, data);
    assert forall q :: q in qs ==> q == text || q == single;
    assert qs[..1] == [text];
    assert [text][..0] == [];
    assert Answers([text], data) == [TextAnswer(Some(1), "hi")];
    assert Answers(qs, data) == [TextAnswer(Some(1), "hi")];
  }

  // ---------------------------------------------------------------- page

  datatype TakePollView =
    | Spinner
    | NotFound
    | NotStarted
    | AlreadyFinished
    | ThankYou
    | AnswerForm(questions: seq<Question>)

  /**
   * The page for a poll: a draft says it has not started, a finished poll
   * says so; otherwise a respondent who has submitted (now or before) and is
   * not an admin gets the thank-you page, and everyone else the form with the
   * questions in position order.
   */
  function TakePollPage(isLoading: bool, failed: bool, poll: Option<Poll>, isSuccess: bool, isAdmin: bool): (v: TakePollView)
    ensures v == NotStarted <==> !isLoading && !failed && poll.Some? && poll.value.status == Some(Draft)
    ensures v == AlreadyFinished <==> !isLoading && !failed && poll.Some? && poll.value.status == Some(Finished)
    ensures v == ThankYou <==> (!isLoading && !failed && poll.Some? &&
      poll.value.status != Some(Draft) && poll.value.status != Some(Finished) &&
      (isSuccess || (poll.value.mySubmissionsCount.Some? && poll.value.mySubmissionsCount.value > 0)) && !isAdmin)
    ensures v == Spinner <==> isLoading
    ensures v == NotFound <==> !isLoading && (failed || poll.None?)
    ensures v.AnswerForm? <==> (!isLoading && !failed && poll.Some? &&
      poll.value.status != Some(Draft) && poll.value.status != Some(Finished) &&
      !((isSuccess || (poll.value.mySubmissionsCount.Some? && poll.value.mySubmissionsCount.value > 0)) && !isAdmin))
    ensures v.AnswerForm? ==> v.questions == Rendered(poll.value.questions.GetOr([]))
  {
    if isLoading then Spinner
    else if failed || poll.None? then NotFound
    else if poll.value.status == Some(Draft) then NotStarted
    else if poll.value.status == Some(Finished) then AlreadyFinished
    else if (isSuccess || (poll.value.mySubmissionsCount.Some? && poll.value.mySubmissionsCount.value > 0)) && !isAdmin then ThankYou
    else AnswerForm(Rendered(poll.value.questions.GetOr([])))
  }

  /** The page's `isSuccess` flag, set once a submission has been accepted. */
  class TakePollState {
    var isSuccess: bool

    constructor ()
      ensures !isSuccess
    {
      isSuccess := false;
    }

    /**
     * Submitting: what is sent is `Submit`'s result, built by the handler's
     * loop; `isSuccess` becomes true when the server accepts it and is never
     * reset.
     */
    method OnSubmit(questions: Option<seq<Question>>, data: FormValues, serverAccepts: bool) returns (result: SubmitResult)
      requires ValuesFit(questions.GetOr([]), data)
      modifies this
      ensures result == Submit(questions, data)
      ensures isSuccess == (old(isSuccess) || (result.Sent? && serverAccepts))
    {
      var qs := questions.GetOr([]);
      var rendered := Rendered(qs);
      assert forall q :: q in rendered <==> q in multiset(qs);
      if exists q :: q in rendered && Fails(q, data) {
        return Blocked;
      }
      if questions.None? {
        return NotSent;
      }
      var answers := AssembleAnswers(questions.value, data);
      result := Sent(answers);
      if serverAccepts {
        isSuccess := true;
      }
    }
  }
}
