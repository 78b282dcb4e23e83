# Smart Polls front end — a Dafny model

This project models the front end of Smart Polls. In the web app, an author builds a poll of text, single-choice and multi-choice questions, starts it, and watches its statistics. Respondents answer it. The model covers the logic of the pages and components as datatypes, functions, classes and lemmas:

- **The question editor.** It loads the poll's questions sorted by position. The question list is a mutable form that supports append, remove and move, and so does each question's option list. On save, ids are cleared and positions renumbered. It also has the AI "Generate" flow.
- **The answer form.** This covers:
  - the validation rules for each question type and the multi-choice toggle;
  - the submit handler's loop, which assembles the answers;
  - the choice of page for each poll status.
- **Tabs and actions.** The tab bar and home list show tabs and actions depending on the poll status and the current path.
- **The session.** The token is changed by anonymous creation, login and logout. Clearing the token on logout re-runs anonymous creation, so a logout leads into a new anonymous session. The login page's rules and error messages are modelled, along with its mode/error/loading state.
- **The statistics pages.** This covers how they order, round, label and dispatch the data.

The helper modules are:

- `Wrappers`: an `Option` type, and JavaScript's `||` fallback on an optional string.
- `Decimal`: decimal rendering and `Number` parsing of integers.
- `StableSort`: the stable `Array.prototype.sort` the pages use, with a numeric key.
- `FieldArray`: react-hook-form's `useFieldArray` `remove`/`move`, as sequence operations.
- `PollModel` and `StatsModel`: the data the server sends.
- `StatusGate`: proves that the pages agree with each other about what each status allows.

## Model

| member | source | states |
|---|---|---|
| Decimal.ParseNumber | src/pages/TakePollPage.tsx:51 | `Number(value)` on a decimal digit string is its value |
| Decimal.IntStringRoundTrip | src/components/questions/QuestionCard.tsx:47 | an integer rendered into text (`${n}`) reads back as the same integer, so every "#n" label names n |
| StableSort.SortByPermutes | src/pages/EditPollPage.tsx:48 | the sort returns a permutation of its input |
| StableSort.SortBySorted | src/pages/EditPollPage.tsx:48 | the sort's output is ordered by the key the comparator subtracts |
| StableSort.SortByStable | src/pages/EditPollPage.tsx:48 | elements with equal keys keep their relative order (the sort is stable) |
| StableSort.SortBySortedIsIdentity | src/pages/EditPollPage.tsx:48 | an already ordered list is returned unchanged |
| StableSort.SortByIdempotent | src/pages/EditPollPage.tsx:48 | sorting twice is sorting once |
| StableSort.SortByMap | src/pages/EditPollPage.tsx:48-57 | sorting commutes with a map that keeps the key (sorting choices inside each question does not change question order) |
| FieldArray.RemoveAt | src/components/questions/ChoiceOptionsEditor.tsx:51 | `remove(k)` deletes exactly the element at k and keeps the rest in order |
| FieldArray.MoveSpec | src/components/questions/ChoiceOptionsEditor.tsx:45-48 | a move keeps the length and the multiset, puts the moved element at `to`, and leaves the others in their order |
| FieldArray.MoveAdjacentIsSwap | src/components/questions/ChoiceOptionsEditor.tsx:45-48 | `move(k, k+1)` and `move(k+1, k)` both swap the neighbours k and k+1 and change nothing else |
| FieldArray.MoveInverse | src/components/questions/QuestionCard.tsx:53-60 | moving back undoes a move (down then up restores the list) |
| FieldArray.EnabledMovesSwapNeighbours | src/components/questions/ChoiceOptionsEditor.tsx:45-48 | an arrow that is not disabled (`k !== 0`, `k !== length-1`) only issues moves with both indices in range, and each swaps two neighbours |
| PollModel.KindOf | src/components/questions/QuestionInputFactory.tsx:30-132 | the three dtype strings map to their kinds, and every other string is Unknown |
| QuestionCard.Badge | src/components/questions/QuestionCard.tsx:43-45 | the badge is TEXT, SINGLE or MULTI for the three types, and empty exactly for any other dtype |
| QuestionCard.Heading | src/components/questions/QuestionCard.tsx:47 | the heading is "Question #" followed by index+1 |
| QuestionCard.NameError | src/components/questions/QuestionCard.tsx:77 | the question text fails its rule exactly when it is empty, with the required message |
| QuestionCard.SettingsFor | src/components/questions/QuestionCard.tsx:115-141 | the AI switch and max-length field appear exactly for text, and the options editor exactly for the choice types |
| ChoiceOptionsEditor.NewChoice | src/components/questions/ChoiceOptionsEditor.tsx:60-63 | an added option has no id, placeholder position 0, and an empty name that fails its rule |
| ChoiceOptionsEditor.OptionNameError | src/components/questions/ChoiceOptionsEditor.tsx:32 | an option's text fails exactly when empty |
| EditPoll.PrepareForSave | src/pages/EditPollPage.tsx:34-45 | same length and order; ids cleared and positions equal to the index for questions and choices; every other field unchanged; no option list stays none |
| EditPoll.SaveIgnoresIdsAndPositions | src/pages/EditPollPage.tsx:34-45 | two lists differing only in ids and positions are saved identically |
| EditPoll.SaveIdempotent | src/pages/EditPollPage.tsx:34-45 | saving a saved list changes nothing |
| EditPoll.SortChoicesSpec | src/pages/EditPollPage.tsx:49-56 | sorting a question's options only reorders `possibleChoices`, into a stable position order, and leaves a question without options as it is |
| EditPoll.PrepareForForm | src/pages/EditPollPage.tsx:47-58 | the loaded list is a permutation of the input, stably sorted by position, with every question's options sorted the same way |
| EditPoll.FormIdentityOnSorted | src/pages/EditPollPage.tsx:47-58 | a list already in position order, options too, loads unchanged |
| EditPoll.FormIdempotent | src/pages/EditPollPage.tsx:47-58 | loading is idempotent |
| EditPoll.LoadAfterSave | src/pages/EditPollPage.tsx:34-58 | a saved list loads back unchanged |
| EditPoll.SaveAfterLoad | src/pages/EditPollPage.tsx:34-58 | saving a loaded list numbers positions 0..n-1 in the position-sorted order of the input, with the same contents |
| EditPoll.NewQuestion | src/pages/EditPollPage.tsx:246-273 | the three appended defaults: text gets maxLength 1000, needAiSummary true and no options; choice types get an empty option list; all get an empty name, isRequired true and position 0 |
| EditPoll.SavePayload | src/pages/EditPollPage.tsx:105-108 | "Save Changes" sends something exactly when every question text, and every option text of a choice question, is non-empty; what it sends is the prepared list, `PrepareForSave` of the form's questions, which is normalised |
| EditPoll.NewQuestionBlocksSave | src/pages/EditPollPage.tsx:246-273 | a freshly appended question blocks saving until it gets a text |
| EditPoll.BlankIffAllWhitespace | src/pages/EditPollPage.tsx:118 | the prompt trims to empty exactly when every character is ECMAScript white space or a line terminator |
| EditPoll.EditPageFor | src/pages/EditPollPage.tsx:145-180 | Start only on a draft, Finish only on an active poll, the editing form only on a draft, and never Start and Finish together |
| EditPoll.PollEditorForm.constructor | src/pages/EditPollPage.tsx:66-92 | the form starts with no questions and an empty prompt |
| EditPoll.PollEditorForm.Load | src/pages/EditPollPage.tsx:99-103 | loading a poll resets the list to the prepared questions |
| EditPoll.PollEditorForm.SetPrompt | src/pages/EditPollPage.tsx:200-201 | typing in the prompt changes only the prompt |
| EditPoll.PollEditorForm.AppendQuestion | src/pages/EditPollPage.tsx:246-273 | the default question of the pressed button is appended and nothing else changes |
| EditPoll.PollEditorForm.RemoveQuestion | src/components/questions/QuestionCard.tsx:66 | exactly the question at the index is removed |
| EditPoll.PollEditorForm.MoveQuestionUp | src/components/questions/QuestionCard.tsx:53 | with the arrow enabled (`index !== 0`), the question swaps with its upper neighbour |
| EditPoll.PollEditorForm.MoveQuestionDown | src/components/questions/QuestionCard.tsx:60 | with the arrow enabled (not last), the question swaps with its lower neighbour |
| EditPoll.PollEditorForm.EditQuestion | src/components/questions/QuestionCard.tsx:74-137 | the card's controls change that question's own fields and never its type or other questions; the maximum length and the AI-summary switch change only on a text card, the only card that shows them |
| EditPoll.PollEditorForm.AppendChoice | src/components/questions/ChoiceOptionsEditor.tsx:57-63 | an empty option is appended to that question's options |
| EditPoll.PollEditorForm.RemoveChoice | src/components/questions/ChoiceOptionsEditor.tsx:51 | exactly option k of that question is removed |
| EditPoll.PollEditorForm.MoveChoiceUp | src/components/questions/ChoiceOptionsEditor.tsx:45 | with the arrow enabled, the option list is `Move(k, k-1)`, which is option k swapping with option k-1; nothing else changes |
| EditPoll.PollEditorForm.MoveChoiceDown | src/components/questions/ChoiceOptionsEditor.tsx:48 | with the arrow enabled, the option list is `Move(k, k+1)`, which is option k swapping with option k+1; nothing else changes |
| EditPoll.PollEditorForm.RenameChoice | src/components/questions/ChoiceOptionsEditor.tsx:29-43 | typing in option k changes only that option's name |
| EditPoll.PollEditorForm.OnAiGenerate | src/pages/EditPollPage.tsx:117-138 | failing field rules or a prompt that trims to empty: no call and no change. Otherwise: save the prepared list, then send the prompt. Returned questions reload the form and clear the prompt. A failure leaves both as they were |
| EditPoll.ReorderOptionsThenSave | src/components/questions/ChoiceOptionsEditor.tsx:45-63 | adding two options, swapping them and saving sends them in the new order, numbered 0 and 1, without ids |
| QuestionInput.EffectiveMaxLength | src/components/questions/QuestionInputFactory.tsx:39 | the limit is `maxLength` when it is set and non-zero, otherwise 2000 |
| QuestionInput.MaxLengthMessage | src/components/questions/QuestionInputFactory.tsx:40 | the length message names the limit that is enforced |
| QuestionInput.MaxLengthMessageAsWritten | src/components/questions/QuestionInputFactory.tsx:40 | the message the page shows names the question's `maxLength` field, and reads "Max length: undefined symbols" when it is absent |
| QuestionInput.MessagesAgreeWhenLimitSet | src/components/questions/QuestionInputFactory.tsx:39-40 | with a non-zero `maxLength` the message as written is the corrected one: they differ only for an absent or zero `maxLength` |
| QuestionInput.MaxLengthMessageNamesUndefined | src/components/questions/QuestionInputFactory.tsx:39-40 | without `maxLength`, the message as written reads "undefined" while the enforced limit is 2000 |
| QuestionInput.Validate | src/components/questions/QuestionInputFactory.tsx:25-94 | an empty value fails exactly when the question is required. Non-empty text fails exactly when it is longer than the limit, and then with the message as the page writes it. A required empty text or radio value fails with "This field is required". A non-empty choice never fails. The multi-choice error is "Select at least one option". Unknown types never fail |
| QuestionInput.MaxLengthBoundary | src/components/questions/QuestionInputFactory.tsx:38-41 | text of exactly the limit passes, and one character more fails with the length message as written: the enforced limit when `maxLength` is set and non-zero, "undefined" when it is absent |
| QuestionInput.InputFor | src/components/questions/QuestionInputFactory.tsx:30-132 | text field with the limit, radio group or checkbox group over the options; any other dtype gets "Unknown question type: dtype" and no input |
| QuestionInput.RadioValue | src/components/questions/QuestionInputFactory.tsx:69 | an option's radio value reads back, through `Number`, as its id |
| QuestionInput.MultiChoiceDefaultIsNoValue | src/components/questions/QuestionInputFactory.tsx:87-98 | the checkbox group's starting value `[]` validates and selects exactly like no value: a required group so left fails with "Select at least one option", an optional one passes |
| QuestionInput.Checked | src/components/questions/QuestionInputFactory.tsx:115 | a checkbox is checked exactly when its id is in the selection |
| QuestionInput.WithoutMembers | src/components/questions/QuestionInputFactory.tsx:102 | the filter keeps exactly the ids different from the toggled one |
| QuestionInput.Toggle | src/components/questions/QuestionInputFactory.tsx:100-106 | the toggled id's membership flips and every other id's is kept. An absent id is appended at the end. Removing the toggled id gives the same list before and after |
| QuestionInput.ToggleTwice | src/components/questions/QuestionInputFactory.tsx:100-106 | toggling twice restores the set of selected ids; it restores the sequence when the id was absent, or was last in a duplicate-free selection |
| QuestionInput.ToggleTwiceMovesToEnd | src/components/questions/QuestionInputFactory.tsx:100-106 | toggling 1 twice in [1, 2] gives [2, 1] |
| TakePoll.AnswerFor | src/pages/TakePollPage.tsx:35-59 | an undefined, '' or [] value, or an unknown type, gives no answer. Otherwise one answer tagged by type with the question's id: the text unchanged, `Number(value)` of the radio value, or the ticked ids in order |
| TakePoll.RadioAnswerIsOptionId | src/pages/TakePollPage.tsx:47-52 | choosing an option's radio button submits that option's id |
| TakePoll.AnsweredIndices | src/pages/TakePollPage.tsx:34-60 | the answering questions' indices are strictly increasing, each matches its answer, and every question left out contributes nothing: answers follow `poll.questions` order, at most one per question |
| TakePoll.AnswersAtMostQuestions | src/pages/TakePollPage.tsx:34-60 | there are never more answers than questions |
| TakePoll.AssembleAnswers | src/pages/TakePollPage.tsx:32-60 | the `forEach`/`push` loop builds exactly the answer list |
| TakePoll.Rendered | src/pages/TakePollPage.tsx:95 | the form renders a permutation of the questions, sorted by position; questions sharing a position keep the order the server sent them in |
| TakePoll.Submit | src/pages/TakePollPage.tsx:29-64 | any failing input blocks the whole submission; a poll without questions sends nothing; otherwise the assembled answers are sent |
| TakePoll.RequiredQuestionsAnswered | src/pages/TakePollPage.tsx:29-60 | every required question of a known type has an answer in a submission that is sent |
| TakePoll.SubmitScenario | src/pages/TakePollPage.tsx:29-64 | a required text question and an optional single-choice one: nothing filled in is blocked; "hi" alone sends exactly one text answer |
| TakePoll.TakePollPage | src/pages/TakePollPage.tsx:75-95 | the spinner exactly while loading; "not found" exactly on an error or a missing poll once loaded. Draft: "not started". Finished: "already finished". Otherwise thank-you exactly when (submitted now or before) and not admin, and the form in every remaining case, showing `Rendered` of the poll's questions |
| TakePoll.TakePollState.constructor | src/pages/TakePollPage.tsx:20 | no submission has succeeded yet |
| TakePoll.TakePollState.OnSubmit | src/pages/TakePollPage.tsx:29-73 | what is sent is `Submit`'s result, built by the loop; success is recorded when the server accepts it and never reset |
| PollNavigation.CurrentTab | src/components/PollNavigation.tsx:18-21 | the selected tab is the first of edit, stats, take whose route the path matches; otherwise none |
| PollNavigation.HandleChange | src/components/PollNavigation.tsx:23-27 | each tab's value navigates to its path; any other value goes nowhere |
| PollNavigation.PathSelectsItsTab | src/components/PollNavigation.tsx:18-27 | the path a tab leads to selects that tab |
| PollNavigation.HandleChangeSelectsTab | src/components/PollNavigation.tsx:23-27 | after selecting a tab, the new path reads back as that tab |
| PollNavigation.Navigation | src/components/PollNavigation.tsx:16-59 | nothing without a status. Editor tab: shown for a draft or when selected, disabled unless draft. Stats tab: shown for active or finished or when selected. The take tab is labelled "Preview" exactly on a draft, "Poll Link" otherwise |
| PollNavigation.SelectedTabIsRendered | src/components/PollNavigation.tsx:38-47 | the tab the path selects is always rendered |
| PollNavigation.DraftHidesStats | src/components/PollNavigation.tsx:47 | on a draft, the Stats tab appears only on its own path |
| HomePage.DisplayName | src/pages/HomePage.tsx:26 | an absent or empty name falls back to "Poll" |
| HomePage.Title | src/pages/HomePage.tsx:26 | the title is the display name, " #", then the id |
| HomePage.PollActions | src/pages/HomePage.tsx:31-33 | Edit exactly for a draft, Answer exactly for an active poll, Stats exactly for active or finished |
| HomePage.ActionsExclusive | src/pages/HomePage.tsx:31-33 | a draft never offers Answer or Stats, a finished poll never Edit or Answer, and Answer always comes with Stats |
| HomePage.Rows | src/pages/HomePage.tsx:21-36 | one row per poll, in order, with its title and actions |
| HomePage.HomeViewFor | src/pages/HomePage.tsx:17-36 | the "no polls" message exactly for a loaded empty list; otherwise the list holds exactly `Rows` of the loaded polls, one row per poll in order |
| AuthProvider.AuthSession.constructor | src/auth/AuthProvider.tsx:14 | the token starts as what storage holds under 'poll_token' |
| AuthProvider.AuthSession.InitSession | src/auth/AuthProvider.tsx:28-44 | only without a (non-empty) token: a created token is written to storage and state; a failure changes nothing |
| AuthProvider.AuthSession.Logout | src/auth/AuthProvider.tsx:46-51 | once the server logout succeeds, the token is absent from state and storage |
| AuthProvider.AuthSession.Login | src/auth/AuthProvider.tsx:53-64 | success replaces the token with the returned one; failure is rethrown and the token is unchanged |
| AuthProvider.AuthSession.Register | src/auth/AuthProvider.tsx:66-69 | reports failure and never changes the token |
| AuthProvider.IsAdmin | src/auth/AuthProvider.tsx:82 | admin exactly when the loaded roles contain 'ADMIN' |
| AuthProvider.IsRegistered | src/auth/AuthProvider.tsx:83 | registered exactly when the identity says true; false by default |
| AuthProvider.UserLogin | src/auth/AuthProvider.tsx:84 | the login, or none when no identity or an empty login |
| AuthProvider.ProviderViewFor | src/auth/AuthProvider.tsx:71-85 | "Initializing session" exactly without a token while creation is pending; otherwise the context carries the token, `isAuthenticated` = token non-empty, and the derived flags |
| AuthProvider.LogoutStartsNewAnonymousSession | src/auth/AuthProvider.tsx:28-73 | a session created anonymously is authenticated; a logout the server accepts clears the token, which re-runs the session effect: "Initializing session..." shows while it is pending, and then a new anonymous session is authenticated |
| AuthPage.ErrorMessage | src/pages/AuthPage.tsx:35-41 | 401/404 are bad credentials, 409 a taken login, anything else (including no response) a server error |
| AuthPage.LoginError | src/pages/AuthPage.tsx:77-80 | the login passes exactly when it has at least 5 characters |
| AuthPage.PasswordError | src/pages/AuthPage.tsx:90-93 | the password passes exactly when it has at least 6 characters |
| AuthPage.LengthRule | src/pages/AuthPage.tsx:77-93 | empty gives the required message, too short the length message |
| AuthPage.RedirectTarget | src/pages/AuthPage.tsx:14 | the redirect target is the originating path, or "/" when absent or empty |
| AuthPage.AuthPageState.constructor | src/pages/AuthPage.tsx:16-18 | login mode, no error, not loading |
| AuthPage.AuthPageState.SwitchMode | src/pages/AuthPage.tsx:53 | switching tabs sets the mode and clears the error |
| AuthPage.AuthPageState.BeginSubmit | src/pages/AuthPage.tsx:24-33 | with both rules passing: error cleared, loading, and exactly one call (register in register mode, login otherwise). Otherwise nothing happens |
| AuthPage.AuthPageState.FinishSubmit | src/pages/AuthPage.tsx:33-45 | success navigates to the redirect target; failure shows the status's message; loading ends on both paths |
| AuthPage.AuthPageState.ButtonLabel | src/pages/AuthPage.tsx:106-108 | "Loading..." while loading, otherwise "Log In" or "Sign Up" by mode |
| AuthPage.RejectedLogin | src/pages/AuthPage.tsx:24-45 | a login rejected with 401 ends not loading, with the bad-credentials message and no navigation |
| StatsPage.FindQuestion | src/pages/StatsPage.tsx:78-82 | the first question with the id, or none exactly when no question has it |
| StatsPage.QuestionTitle | src/pages/StatsPage.tsx:23-25 | the first matching question's name, or "Question #id" when none or empty |
| StatsPage.FirstQuestionWins | src/pages/StatsPage.tsx:23-25 | with two questions sharing an id, the first one's name and data are used |
| StatsPage.PageTitle | src/pages/StatsPage.tsx:55 | the poll's name, or "Poll results" |
| StatsPage.StatsPageView | src/pages/StatsPage.tsx:27-102 | skeleton exactly while loading without data; otherwise failure on error or no data; otherwise one card per item in order, text items to the text card and every other dtype to the choice card, each titled by its question and carrying that question's data |
| ChoiceStats.TotalAnswers | src/components/stats/ChoiceStats.tsx:9 | `answerCount`, or 0 when absent |
| ChoiceStats.SortedChoices | src/components/stats/ChoiceStats.tsx:11 | the options shown are a permutation of `choiceStats`, in non-increasing count order, with ties in their original order |
| ChoiceStats.Percent | src/components/stats/ChoiceStats.tsx:24 | 0 without answers; otherwise the exact quotient 100·count/total rounded to the nearest integer, halves up (the page's floating-point rounding is not modelled, see "Left out") |
| ChoiceStats.PercentInRange | src/components/stats/ChoiceStats.tsx:24 | a count within the total gives 0..100 |
| ChoiceStats.ZeroPercentIffUnderHalf | src/components/stats/ChoiceStats.tsx:24-48 | the percent (and the bar, transparent at 0) is 0 exactly when the count is under half a percent of the total |
| ChoiceStats.FindChoice | src/components/stats/ChoiceStats.tsx:30-32 | the first option with the id, or none exactly when there is none |
| ChoiceStats.ChoiceLabel | src/components/stats/ChoiceStats.tsx:30-33 | the matching option's name, otherwise "Option #id". A question without an option list makes the lookup throw |
| ChoiceStats.FallbackLabel | src/components/stats/ChoiceStats.tsx:33 | "Option #" followed by the id |
| ChoiceStats.ChoiceCardFor | src/components/stats/ChoiceStats.tsx:9-59 | one row per option in display order with label, count, percent, and a transparent bar exactly when the percent is not positive; "No options" exactly when there are none |
| TextStats.HasTags | src/components/stats/TextStats.tsx:27 | tags present and non-empty |
| TextStats.SortedTags | src/components/stats/TextStats.tsx:28-29 | the tags shown are a permutation in non-increasing count order, ties kept in order |
| TextStats.NeedAiSummary | src/components/stats/TextStats.tsx:31 | true exactly when the question is loaded and asks for a summary |
| TextStats.TextCardFor | src/components/stats/TextStats.tsx:45-95 | the AI button only when a summary is wanted, disabled while pending, just clicked, or with 0 answers. With tags, the first three are emphasised. Without tags: "No answers yet" exactly at 0 answers, else the AI hint exactly when a summary is wanted |
| TextStats.TextStatsCard.BeginAiClick | src/components/stats/TextStats.tsx:18 | a click sets `justTriggered` before the request |
| TextStats.TextStatsCard.FinishAiClick | src/components/stats/TextStats.tsx:19-23 | a failure clears `justTriggered`; a success leaves it set |
| TextStats.ClickDisablesButton | src/components/stats/TextStats.tsx:45-54 | right after a click the button is disabled and reads "Summarizing..." |
| StatusGate.EditOfferMatchesEditor | src/pages/HomePage.tsx:31 | Edit is offered on the list exactly when the editor shows its form, and then the Editor tab is enabled |
| StatusGate.AnswerOfferLeadsToForm | src/pages/HomePage.tsx:32 | following Answer never reaches "not started" or "already finished" |
| StatusGate.StatsOfferMatchesStatsTab | src/pages/HomePage.tsx:33 | Stats is offered exactly where the tab bar shows the Stats tab on every path |
| StatusGate.FinishedIsClosed | src/pages/TakePollPage.tsx:78 | a finished poll offers no editing, answering, Start or Finish anywhere, and its page says it is finished |

## Left out

- Network calls, react-query caching and refetching, and `localStorage` are not modelled. Each server outcome is a parameter of the operation that awaits it: `AiOutcome`, `CallOutcome`, `serverOk`, `serverAccepts`, `created`, `response`. Storage is the `stored` field that mirrors the token.
- The timer that clears `justTriggered` two seconds after a successful AI request is not modelled. Neither is the two-second statistics refetch.
- Route matching covers `/polls/:id`, `/polls/:id/edit` and `/polls/:id/stats` with at most one trailing slash. react-router also accepts a run of several trailing slashes (`/polls/7//` selects the answer tab there, no tab here); that, case-insensitive matching and URL decoding are not modelled.
- `Number(value)` is modelled for decimal integer strings, optionally negative, and for the empty string. Every other string gives none here, standing for NaN serialised as JSON null, although JavaScript gives a number for some of them: a leading `+` (`"+5"`), fractions (`"1.5"`, `".5"`), hexadecimal, exponent and surrounding white-space forms are not modelled. Radio values are always rendered integer ids, which the modelled form covers.
- String lengths are counted in Unicode scalar values. JavaScript counts UTF-16 code units, so the two differ for characters outside the Basic Multilingual Plane in the max-length and min-length rules.
- Ids are `Option<int>`. JavaScript's `null` and `undefined`, and loose `==` versus strict `===` between them, are not distinguished.
- ChoiceStats.Percent: rounds the exact quotient 100·count/total. The page divides and multiplies in IEEE double precision first, so an exact half can come out just below .5 and round down: for 23 answers of 40 the page shows 57% and the model 58%, and for 29 of 200 the page shows 14% and the model 15%. Floating-point arithmetic is not modelled.
- QuestionInput.RadioValue: requires the option to have an id. The radio value of an option without one would be the string "undefined".
- ChoiceStats.ChoiceLabel: statistic option ids are integers, so the "Option #undefined" label of an id-less option is not modelled.
- FieldArray.Move: requires both indices in range. react-hook-form's behaviour for out-of-range moves is not modelled. `EnabledMovesSwapNeighbours` shows that the enabled arrows only issue in-range moves.
- QuestionInput.ToggleTwice: proves set equality always, and sequence equality only when the id was absent or last. The stronger claim, that toggling twice restores any duplicate-free selection, is false: `ToggleTwiceMovesToEnd` shows [1, 2] becoming [2, 1].
- EditPoll.PollEditorForm.EditQuestion: models the card's controls as one update of all the question's own fields. It does not model keystroke-level edits or the number-field coercion of `maxLength`.
- These are not modelled because they only disable controls or change captions while a request runs: the editor's loading flags (`isSaving`, `isGenerating`, `isStarting`, `isFinishing`) and the answer form's `isSubmitting`.
- Starting and finishing a poll, and their navigation to the statistics page, are network calls with a redirect. The model covers only when the buttons show.
- The statistics page's status chip colour, MUI layout and styling, `PollStatus`, `CreatePollPage`, `App` routing and `MainLayout` are not part of this model.
- The provider's query invalidation after login, logout and register is not modelled; it is cache behaviour.

## Findings

| source | as written | input that shows it | evidently intended | confidence | as-written member | corrected member |
|---|---|---|---|---|---|---|
| src/components/questions/QuestionInputFactory.tsx:39-40 | the max-length message interpolates `question.maxLength`, while the rule enforces `question.maxLength \|\| 2000` | a text question without `maxLength`, answered with 2001 characters, is rejected with "Max length: undefined symbols" (and with `maxLength` 0, "Max length: 0 symbols") | the message names the limit that is enforced, "Max length: 2000 symbols" | not executed | QuestionInput.MaxLengthMessageNamesUndefined | QuestionInput.MaxLengthMessage |
