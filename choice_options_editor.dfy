/**
 * The options editor of a choice question: a field array of options with a
 * required text each, up/down/remove arrows per row and an "Add option"
 * button. The list operations themselves are EditPoll.PollEditorForm's
 * AppendChoice, RemoveChoice, MoveChoiceUp and MoveChoiceDown.
 */
module ChoiceOptionsEditor {
  import opened Wrappers
  import opened PollModel

  const OptionRequiredMessage := "Option text is required"

  /** The option the "Add option" button appends; its position is a placeholder renumbered on save. */
  function NewChoice(): (c: Choice)
    ensures c.id == None && c.position == 0
    ensures OptionNameError(c.name).Some?
  {
    Choice(None, "", 0)
  }

  /** Each option's text is required: the rule fails exactly on the empty string. */
  function OptionNameError(name: string): (e: Option<string>)
    ensures e.None? <==> name != ""
    ensures e.Some? ==> e.value == OptionRequiredMessage
  {
    if name == "" then Some(OptionRequiredMessage) else None
  }
}
