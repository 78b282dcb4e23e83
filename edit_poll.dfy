/**
 * The poll editor page: the mapping between the server's question list and the
 * editable form (load: sort by position; save: drop ids and renumber), the form
 * itself with its list operations, the AI-generation flow, and which of
 * Start / Finish / editor the page shows for each poll status.
 */
module EditPoll {
  import opened Wrappers
  import opened PollModel
  import opened StableSort
  import opened FieldArray
  import QuestionCard
  import ChoiceOptionsEditor

  // ---------------------------------------------------------------- save

  /** Every id is null and positions count 0, 1, 2, ... at both levels. */
  predicate Normalized(qs: seq<Question>) {
    forall i :: 0 <= i < |qs| ==>
      qs[i].id == None && qs[i].position == i &&
      forall j :: 0 <= j < |Choices(qs[i])| ==>
        Choices(qs[i])[j].id == None && Choices(qs[i])[j].position == j
  }

  /** Equal in everything the user edits: all fields except ids and positions. */
  predicate SameContent(a: Question, b: Question) {
    a.dtype == b.dtype && a.name == b.name && a.description == b.description &&
    a.isRequired == b.isRequired && a.maxLength == b.maxLength &&
    a.needAiSummary == b.needAiSummary &&
    a.possibleChoices.Some? == b.possibleChoices.Some? &&
    |Choices(a)| == |Choices(b)| &&
    forall j :: 0 <= j < |Choices(a)| ==> Choices(a)[j].name == Choices(b)[j].name
  }

  function RenumberChoice(c: Choice, j: int): Choice {
    c.(id := None, position := j)
  }

  function RenumberQuestion(q: Question, i: int): Question {
    var cs := q.possibleChoices;
    q.(id := None, position := i,
       possibleChoices :=
         if cs.Some? then Some(seq(|cs.value|, j requires 0 <= j < |cs.value| => RenumberChoice(cs.value[j], j)))
         else None)
  }

  /**
   * `prepareQuestionsForSave`: the same questions and options in the same
   * order, with every id nulled and every position replaced by its index.
   */
  function PrepareForSave(qs: seq<Question>): (r: seq<Question>)
    ensures |r| == |qs|
    ensures Normalized(r)
    ensures forall i :: 0 <= i < |r| ==> SameContent(r[i], qs[i])
  {
    seq(|qs|, i requires 0 <= i < |qs| => RenumberQuestion(qs[i], i))
  }

  /**
   * Saving depends on nothing but the edited content and its order: prior ids
   * and positions are ignored.
   */
  lemma SaveIgnoresIdsAndPositions(a: seq<Question>, b: seq<Question>)
    requires |a| == |b|
    requires forall i :: 0 <= i < |a| ==> SameContent(a[i], b[i])
    ensures PrepareForSave(a) == PrepareForSave(b)
  {
    var ra, rb := PrepareForSave(a), PrepareForSave(b);
    forall i | 0 <= i < |a| ensures ra[i] == rb[i] {
      assert SameContent(a[i], b[i]);
      if a[i].possibleChoices.Some? {
        var ca, cb := Choices(ra[i]), Choices(rb[i]);
        assert |ca| == |cb|;
        forall j | 0 <= j < |ca| ensures ca[j] == cb[j] {
          assert Choices(a[i])[j].name == Choices(b[i])[j].name;
        }
        assert ca == cb;
      }
    }
  }

  /** Saving twice is saving once. */
  lemma SaveIdempotent(qs: seq<Question>)
    ensures PrepareForSave(PrepareForSave(qs)) == PrepareForSave(qs)
  {
    var r := PrepareForSave(qs);
    forall i | 0 <= i < |r| ensures SameContent(r[i], qs[i]) && SameContent(PrepareForSave(r)[i], r[i]) {
    }
    forall i | 0 <= i < |r| ensures SameContent(r[i], r[i]) {
    }
    SaveIgnoresIdsAndPositions(r, qs);
    forall i | 0 <= i < |r| ensures SameContent(r[i], qs[i]) {
    }
  }

  // ---------------------------------------------------------------- load

  /** A question's options sorted by position, when it has an options list. */
  function SortChoices(q: Question): Question {
    if q.possibleChoices.Some? then q.(possibleChoices := Some(SortBy(q.possibleChoices.value, ChoicePosition)))
    else q
  }

  /**
   * Sorting the options of one question: all other fields unchanged, the
   * options a stably sorted permutation of the original ones.
   */
  lemma SortChoicesSpec(q: Question)
    ensures SortChoices(q).(possibleChoices := q.possibleChoices) == q
    ensures SortChoices(q).possibleChoices.Some? == q.possibleChoices.Some?
    ensures multiset(Choices(SortChoices(q))) == multiset(Choices(q))
    ensures SortedBy(Choices(SortChoices(q)), ChoicePosition)
    ensures forall k :: WithKey(Choices(SortChoices(q)), ChoicePosition, k) == WithKey(Choices(q), ChoicePosition, k)
  {
    SortByPermutes(Choices(q), ChoicePosition);
    SortBySorted(Choices(q), ChoicePosition);
    forall k ensures WithKey(Choices(SortChoices(q)), ChoicePosition, k) == WithKey(Choices(q), ChoicePosition, k) {
      SortByStable(Choices(q), ChoicePosition, k);
    }
  }

  /**
   * `prepareQuestionsForForm`: the questions stably sorted by position, each
   * question's options stably sorted by position. Equivalently: first sort the
   * options of each question, then sort the questions; so the result is a
   * permutation of that list, sorted, and questions with equal positions keep
   * their input order.
   */
  function PrepareForForm(qs: seq<Question>): (r: seq<Question>)
    ensures r == SortBy(Map(SortChoices, qs), Position)
    ensures |r| == |qs|
    ensures multiset(r) == multiset(Map(SortChoices, qs))
    ensures SortedBy(r, Position)
    ensures forall k :: WithKey(r, Position, k) == WithKey(Map(SortChoices, qs), Position, k)
    ensures forall i :: 0 <= i < |r| ==> SortedBy(Choices(r[i]), ChoicePosition)
  {
    SortByMap(SortChoices, qs, Position, Position);
    SortByPermutes(Map(SortChoices, qs), Position);
    SortBySorted(Map(SortChoices, qs), Position);
    assert forall k :: WithKey(SortBy(Map(SortChoices, qs), Position), Position, k) == WithKey(Map(SortChoices, qs), Position, k) by {
      forall k ensures WithKey(SortBy(Map(SortChoices, qs), Position), Position, k) == WithKey(Map(SortChoices, qs), Position, k) {
        SortByStable(Map(SortChoices, qs), Position, k);
      }
    }
    var r := Map(SortChoices, SortBy(qs, Position));
    assert |r| == |qs| by {
      assert |multiset(SortBy(Map(SortChoices, qs), Position))| == |multiset(Map(SortChoices, qs))|;
    }
    forall i | 0 <= i < |r| ensures SortedBy(Choices(r[i]), ChoicePosition) {
      SortChoicesSpec(SortBy(qs, Position)[i]);
    }
    r
  }

  /** Questions whose own order and whose options are already sorted are left alone. */
  lemma FormIdentityOnSorted(qs: seq<Question>)
    requires SortedBy(qs, Position)
    requires forall i :: 0 <= i < |qs| ==> SortedBy(Choices(qs[i]), ChoicePosition)
    ensures PrepareForForm(qs) == qs
  {
    SortBySortedIsIdentity(qs, Position);
    forall i | 0 <= i < |qs| ensures SortChoices(qs[i]) == qs[i] {
      if qs[i].possibleChoices.Some? {
        SortBySortedIsIdentity(qs[i].possibleChoices.value, ChoicePosition);
      }
    }
  }

  /** Loading is idempotent. */
  lemma FormIdempotent(qs: seq<Question>)
    ensures PrepareForForm(PrepareForForm(qs)) == PrepareForForm(qs)
  {
    FormIdentityOnSorted(PrepareForForm(qs));
  }

  /**
   * Loading what was saved gives it back unchanged: a saved list is already in
   * position order at both levels.
   */
  lemma LoadAfterSave(qs: seq<Question>)
    ensures PrepareForForm(PrepareForSave(qs)) == PrepareForSave(qs)
  {
    var r := PrepareForSave(qs);
    forall i | 0 <= i < |r| ensures SortedBy(Choices(r[i]), ChoicePosition) {
    }
    FormIdentityOnSorted(r);
  }

  /**
   * Saving right after loading numbers the questions 0..n-1 in the
   * position-sorted order of the input (input order among equal positions),
   * each with its options numbered in their position-sorted order.
   */
  lemma SaveAfterLoad(qs: seq<Question>)
    ensures var r := PrepareForSave(PrepareForForm(qs));
      var sorted := SortBy(Map(SortChoices, qs), Position);
      |r| == |qs| && Normalized(r) && SortedBy(sorted, Position) &&
      (forall i :: 0 <= i < |r| ==> SameContent(r[i], sorted[i])) &&
      (forall i :: 0 <= i < |r| ==> SortedBy(Choices(sorted[i]), ChoicePosition))
  {
  }

  // ---------------------------------------------------------------- the form

  /** The three "add question" buttons. */
  datatype NewKind = NewText | NewSingleChoice | NewMultiChoice

  /** The record each "add question" button appends; the position is a placeholder renumbered on save. */
  function NewQuestion(kind: NewKind): (q: Question)
    ensures q.id.None? && q.name == "" && q.isRequired && q.position == 0 && q.description.None?
    ensures KindOfQuestion(q) == Text <==> kind == NewText
    ensures KindOfQuestion(q) == SingleChoice <==> kind == NewSingleChoice
    ensures KindOfQuestion(q) == MultiChoice <==> kind == NewMultiChoice
    ensures kind == NewText ==> q.maxLength == Some(1000) && q.needAiSummary == Some(true) && q.possibleChoices.None?
    ensures kind != NewText ==> q.maxLength.None? && q.needAiSummary.None? && q.possibleChoices == Some([])
    ensures QuestionCard.SettingsFor(q.dtype).optionsEditor <==> q.possibleChoices.Some?
  {
    match kind
    case NewText => Question(None, TextTag, "", None, true, 0, Some(1000), Some(true), None)
    case NewSingleChoice => Question(None, SingleChoiceTag, "", None, true, 0, None, None, Some([]))
    case NewMultiChoice => Question(None, MultiChoiceTag, "", None, true, 0, None, None, Some([]))
  }

  /** The field rules of one card: its text, and the text of each option when it shows the options editor. */
  predicate QuestionFieldsValid(q: Question) {
    QuestionCard.NameError(q.name).None? &&
    (QuestionCard.SettingsFor(q.dtype).optionsEditor ==>
      forall j :: 0 <= j < |Choices(q)| ==> ChoiceOptionsEditor.OptionNameError(Choices(q)[j].name).None?)
  }

  predicate EditorValid(qs: seq<Question>) {
    forall i :: 0 <= i < |qs| ==> QuestionFieldsValid(qs[i])
  }

  /**
   * The body of "Save Changes" (`handleSubmit(onManualSave)`): nothing is sent
   * while a question or option text is empty; otherwise the prepared list.
   */
  function SavePayload(qs: seq<Question>): (r: Option<seq<Question>>)
    ensures r.Some? <==> forall i :: 0 <= i < |qs| ==>
      (qs[i].name != "" &&
       (IsChoiceKind(KindOfQuestion(qs[i])) ==> forall j :: 0 <= j < |Choices(qs[i])| ==> Choices(qs[i])[j].name != ""))
    ensures r.Some? ==> r.value == PrepareForSave(qs)
    ensures r.Some? ==> |r.value| == |qs| && Normalized(r.value)
  {
    if EditorValid(qs) then Some(PrepareForSave(qs)) else None
  }

  /** A freshly appended question blocks saving until it is given a text. */
  lemma NewQuestionBlocksSave(qs: seq<Question>, kind: NewKind)
    ensures SavePayload(qs + [NewQuestion(kind)]) == None
  {
    assert (qs + [NewQuestion(kind)])[|qs|] == NewQuestion(kind);
  }

  function WithChoices(q: Question, cs: seq<Choice>): Question {
    q.(possibleChoices := Some(cs))
  }

  // ---------------------------------------------------------------- AI generation

  /** ECMAScript WhiteSpace and LineTerminator code points, what `String.prototype.trim` removes. */
  predicate IsJsWhitespace(c: char) {
    c == ' ' || c == '\t' || c == '\n' || c == '\r' || c == '\U{000B}' || c == '\U{000C}' ||
    c == '\U{00A0}' || c == '\U{1680}' || ('\U{2000}' <= c <= '\U{200A}') ||
    c == '\U{2028}' || c == '\U{2029}' || c == '\U{202F}' || c == '\U{205F}' ||
    c == '\U{3000}' || c == '\U{FEFF}'
  }

  function TrimStart(s: string): string {
    if s != [] && IsJsWhitespace(s[0]) then TrimStart(s[1..]) else s
  }

  function TrimEnd(s: string): string {
    if s != [] && IsJsWhitespace(s[|s| - 1]) then TrimEnd(s[..|s| - 1]) else s
  }

  function Trim(s: string): string {
    TrimEnd(TrimStart(s))
  }

  /** `!prompt.trim()`: the prompt trims to the empty string exactly when all of it is whitespace. */
  lemma {:induction false} BlankIffAllWhitespace(s: string)
    ensures Trim(s) == "" <==> forall i :: 0 <= i < |s| ==> IsJsWhitespace(s[i])
  {
    TrimStartBlank(s);
    var t := TrimStart(s);
    if t != [] {
      TrimEndKeepsFirst(t);
    }
  }

  lemma {:induction false} TrimStartBlank(s: string)
    ensures TrimStart(s) == [] <==> forall i :: 0 <= i < |s| ==> IsJsWhitespace(s[i])
    ensures TrimStart(s) != [] ==> !IsJsWhitespace(TrimStart(s)[0])
  {
    if s != [] && IsJsWhitespace(s[0]) {
      TrimStartBlank(s[1..]);
      assert forall i :: 1 <= i < |s| ==> s[i] == s[1..][i - 1];
    }
  }

  lemma {:induction false} TrimEndKeepsFirst(s: string)
    requires s != [] && !IsJsWhitespace(s[0])
    ensures TrimEnd(s) != []
  {
    if IsJsWhitespace(s[|s| - 1]) {
      TrimEndKeepsFirst(s[..|s| - 1]);
    }
  }

  predicate IsBlank(prompt: string) {
    Trim(prompt) == ""
  }

  /** What the backend answers to the two calls of `onAiGenerate`. */
  datatype AiOutcome =
    | SaveFailed
    | GenerateFailed
    | Generated(questions: Option<seq<Question>>)

  /** The calls `onAiGenerate` makes. */
  datatype AiCalls =
    | NoCall
    | SaveOnly(payload: seq<Question>)
    | SaveThenGenerate(payload: seq<Question>, prompt: string)

  // ---------------------------------------------------------------- status gating

  datatype EditPageView = EditPageView(startButton: bool, finishButton: bool, editorForm: bool)

  /**
   * Start is offered only on a draft, Finish only on an active poll, and the
   * editing form (with the AI assistant) only on a draft; every other status,
   * or none, gets the read-only card.
   */
  function EditPageFor(status: Option<Status>): (v: EditPageView)
    ensures v.startButton <==> status == Some(Draft)
    ensures v.finishButton <==> status == Some(Active)
    ensures v.editorForm <==> v.startButton
    ensures !(v.startButton && v.finishButton)
  {
    EditPageView(status == Some(Draft), status == Some(Active), status == Some(Draft))
  }

  /**
   * The editable question list of the page (`useForm` + `useFieldArray` on
   * `questions`) and the AI prompt field.
   */
  class PollEditorForm {
    var questions: seq<Question>
    var aiPrompt: string

    /** `defaultValues: { questions: [] }` and an empty prompt. */
    constructor ()
      ensures questions == [] && aiPrompt == ""
    {
      questions := [];
      aiPrompt := "";
    }

    /** `reset` with the poll's questions once they are fetched. */
    method Load(serverQuestions: seq<Question>)
      modifies this
      ensures questions == PrepareForForm(serverQuestions)
      ensures aiPrompt == old(aiPrompt)
    {
      questions := PrepareForForm(serverQuestions);
    }

    method SetPrompt(prompt: string)
      modifies this
      ensures aiPrompt == prompt && questions == old(questions)
    {
      aiPrompt := prompt;
    }

    /** The "Text", "Single Choice" and "Multi Choice" buttons. */
    method AppendQuestion(kind: NewKind)
      modifies this
      ensures questions == old(questions) + [NewQuestion(kind)]
      ensures aiPrompt == old(aiPrompt)
    {
      questions := questions + [NewQuestion(kind)];
    }

    /** A card's remove button. */
    method RemoveQuestion(index: nat)
      requires index < |questions|
      modifies this
      ensures questions == RemoveAt(old(questions), index)
      ensures aiPrompt == old(aiPrompt)
    {
      questions := RemoveAt(questions, index);
    }

    /** A card's up arrow, which is disabled on the first card. */
    method MoveQuestionUp(index: nat)
      requires index < |questions| && CanMoveUp(index)
      modifies this
      ensures questions == Move(old(questions), index, index - 1)
      ensures questions == old(questions)[index - 1 := old(questions)[index]][index := old(questions)[index - 1]]
      ensures aiPrompt == old(aiPrompt)
    {
      EnabledMovesSwapNeighbours(questions, index);
      questions := Move(questions, index, index - 1);
    }

    /** A card's down arrow, which is disabled on the last card. */
    method MoveQuestionDown(index: nat)
      requires index < |questions| && CanMoveDown(index, |questions|)
      modifies this
      ensures questions == Move(old(questions), index, index + 1)
      ensures questions == old(questions)[index := old(questions)[index + 1]][index + 1 := old(questions)[index]]
      ensures aiPrompt == old(aiPrompt)
    {
      EnabledMovesSwapNeighbours(questions, index);
      questions := Move(questions, index, index + 1);
    }

    /**
     * Typing into a card's fields. The type, id, position and options are not
     * fields of the card, so they stay as they are; the maximum length and the
     * AI-summary switch are controls of a text card only, so on any other card
     * they keep their values.
     */
    method EditQuestion(index: nat, name: string, description: Option<string>, isRequired: bool,
                        maxLength: Option<int>, needAiSummary: Option<bool>)
      requires index < |questions|
      requires !QuestionCard.SettingsFor(questions[index].dtype).maxLengthField ==> maxLength == questions[index].maxLength
      requires !QuestionCard.SettingsFor(questions[index].dtype).aiSummarySwitch ==> needAiSummary == questions[index].needAiSummary
      modifies this
      ensures |questions| == |old(questions)|
      ensures questions == old(questions)[index := old(questions)[index].(
        name := name, description := description, isRequired := isRequired,
        maxLength := maxLength, needAiSummary := needAiSummary)]
      ensures questions[index].dtype == old(questions)[index].dtype
      ensures aiPrompt == old(aiPrompt)
    {
      questions := questions[index := questions[index].(
        name := name, description := description, isRequired := isRequired,
        maxLength := maxLength, needAiSummary := needAiSummary)];
    }

    /** "Add option" in the options editor of a choice question. */
    method AppendChoice(index: nat)
      requires index < |questions| && QuestionCard.SettingsFor(questions[index].dtype).optionsEditor
      modifies this
      ensures questions == old(questions)[index := WithChoices(old(questions)[index],
        Choices(old(questions)[index]) + [ChoiceOptionsEditor.NewChoice()])]
      ensures aiPrompt == old(aiPrompt)
    {
      questions := questions[index := WithChoices(questions[index], Choices(questions[index]) + [ChoiceOptionsEditor.NewChoice()])];
    }

    /** An option row's remove button. */
    method RemoveChoice(index: nat, k: nat)
      requires index < |questions| && QuestionCard.SettingsFor(questions[index].dtype).optionsEditor
      requires k < |Choices(questions[index])|
      modifies this
      ensures questions == old(questions)[index := WithChoices(old(questions)[index],
        RemoveAt(Choices(old(questions)[index]), k))]
      ensures aiPrompt == old(aiPrompt)
    {
      questions := questions[index := WithChoices(questions[index], RemoveAt(Choices(questions[index]), k))];
    }

    /** An option row's up arrow, disabled on the first row. */
    method MoveChoiceUp(index: nat, k: nat)
      requires index < |questions| && QuestionCard.SettingsFor(questions[index].dtype).optionsEditor
      requires k < |Choices(questions[index])| && CanMoveUp(k)
      modifies this
      ensures questions == old(questions)[index := WithChoices(old(questions)[index],
        Move(Choices(old(questions)[index]), k, k - 1))]
      ensures Choices(questions[index]) == Choices(old(questions)[index])
        [k - 1 := Choices(old(questions)[index])[k]][k := Choices(old(questions)[index])[k - 1]]
      ensures aiPrompt == old(aiPrompt)
    {
      EnabledMovesSwapNeighbours(Choices(questions[index]), k);
      questions := questions[index := WithChoices(questions[index], Move(Choices(questions[index]), k, k - 1))];
    }

    /** An option row's down arrow, disabled on the last row. */
    method MoveChoiceDown(index: nat, k: nat)
      requires index < |questions| && QuestionCard.SettingsFor(questions[index].dtype).optionsEditor
      requires k < |Choices(questions[index])| && CanMoveDown(k, |Choices(questions[index])|)
      modifies this
      ensures questions == old(questions)[index := WithChoices(old(questions)[index],
        Move(Choices(old(questions)[index]), k, k + 1))]
      ensures Choices(questions[index]) == Choices(old(questions)[index])
        [k := Choices(old(questions)[index])[k + 1]][k + 1 := Choices(old(questions)[index])[k]]
      ensures aiPrompt == old(aiPrompt)
    {
      EnabledMovesSwapNeighbours(Choices(questions[index]), k);
      questions := questions[index := WithChoices(questions[index], Move(Choices(questions[index]), k, k + 1))];
    }

    /** Typing into an option row's text field. */
    method RenameChoice(index: nat, k: nat, name: string)
      requires index < |questions| && QuestionCard.SettingsFor(questions[index].dtype).optionsEditor
      requires k < |Choices(questions[index])|
      modifies this
      ensures questions == old(questions)[index := WithChoices(old(questions)[index],
        Choices(old(questions)[index])[k := Choices(old(questions)[index])[k].(name := name)])]
      ensures aiPrompt == old(aiPrompt)
    {
      var cs := Choices(questions[index]);
      questions := questions[index := WithChoices(questions[index], cs[k := cs[k].(name := name)])];
    }

    /** What "Save Changes" sends; saving does not change the form. */
    function Save(): (r: Option<seq<Question>>)
      reads this
      ensures r == SavePayload(questions)
    {
      SavePayload(questions)
    }

    /**
     * "Generate": after the form's field rules pass, a blank prompt does
     * nothing; otherwise the current questions are saved, then the prompt is
     * sent, and when the poll comes back with questions the form is reloaded
     * from them and the prompt cleared. A failure leaves form and prompt as
     * they were.
     */
    method OnAiGenerate(outcome: AiOutcome) returns (calls: AiCalls)
      modifies this
      ensures !EditorValid(old(questions)) || IsBlank(old(aiPrompt)) ==>
        calls == NoCall && questions == old(questions) && aiPrompt == old(aiPrompt)
      ensures EditorValid(old(questions)) && !IsBlank(old(aiPrompt)) ==>
        calls == (if outcome == SaveFailed then SaveOnly(PrepareForSave(old(questions)))
                  else SaveThenGenerate(PrepareForSave(old(questions)), old(aiPrompt)))
      ensures EditorValid(old(questions)) && !IsBlank(old(aiPrompt)) &&
              outcome.Generated? && outcome.questions.Some? ==>
        questions == PrepareForForm(outcome.questions.value) && aiPrompt == ""
      ensures !(outcome.Generated? && outcome.questions.Some?) ==>
        questions == old(questions) && aiPrompt == old(aiPrompt)
    {
      if !EditorValid(questions) || IsBlank(aiPrompt) {
        return NoCall;
      }
      var payload := PrepareForSave(questions);
      if outcome == SaveFailed {
        return SaveOnly(payload);
      }
      calls := SaveThenGenerate(payload, aiPrompt);
      if outcome.Generated? && outcome.questions.Some? {
        questions := PrepareForForm(outcome.questions.value);
        aiPrompt := "";
      }
    }
  }

  /**
   * Add a single-choice question, give it two options, move the second above
   * the first and save: the options go out in their new order, numbered 0 and
   * 1, without ids.
   */
  method ReorderOptionsThenSave() returns (payload: Option<seq<Question>>)
    ensures payload.Some? && |payload.value| == 1
    ensures payload.value[0].id == None && payload.value[0].position == 0
    ensures payload.value[0].possibleChoices == Some([Choice(None, "second", 0), Choice(None, "first", 1)])
  {
    var form := new PollEditorForm();
    form.AppendQuestion(NewSingleChoice);
    assert form.questions == [NewQuestion(NewSingleChoice)];
    assert form.questions[0].maxLength == None && form.questions[0].needAiSummary == None;
    form.EditQuestion(0, "Pick one", None, false, None, None);
    form.AppendChoice(0);
    form.AppendChoice(0);
    form.RenameChoice(0, 0, "first");
    form.RenameChoice(0, 1, "second");
    assert Choices(form.questions[0]) == [Choice(None, "first", 0), Choice(None, "second", 0)];
    form.MoveChoiceUp(0, 1);
    assert Choices(form.questions[0]) == [Choice(None, "second", 0), Choice(None, "first", 0)];
    assert EditorValid(form.questions);
    payload := form.Save();
    var saved := PrepareForSave(form.questions);
    assert payload == Some(saved);
    assert SameContent(saved[0], form.questions[0]);
    var cs := Choices(saved[0]);
    assert |cs| == 2 && cs[0].name == "second" && cs[1].name == "first";
    assert cs == [Choice(None, "second", 0), Choice(None, "first", 1)];
  }
}
