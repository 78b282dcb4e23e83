/**
 * One question of the poll editor: its type badge, its heading, the rule on
 * its text, and which type-specific settings it shows. Its move and remove
 * arrows act on the editor's question list (see EditPoll.PollEditorForm).
 */
module QuestionCard {
  import opened Wrappers
  import opened PollModel
  import Decimal

  const NameRequiredMessage := "Question text is required"

  /** The badge: TEXT, SINGLE or MULTI for the three known types, nothing otherwise. */
  function Badge(dtype: string): (b: string)
    ensures b == "" <==> KindOf(dtype) == Unknown
    ensures KindOf(dtype) == Text ==> b == "TEXT"
    ensures KindOf(dtype) == SingleChoice ==> b == "SINGLE"
    ensures KindOf(dtype) == MultiChoice ==> b == "MULTI"
  {
    (if dtype == TextTag then "TEXT" else "")
    + (if dtype == SingleChoiceTag then "SINGLE" else "")
    + (if dtype == MultiChoiceTag then "MULTI" else "")
  }

  /** The heading shows the 1-based number of the question. */
  function Heading(index: nat): (h: string)
    ensures |h| > 10 && h[..10] == "Question #"
    ensures Decimal.ParseNumber(h[10..]) == Some(index + 1)
  {
    Decimal.IntStringRoundTrip(index + 1);
    var h := "Question #" + Decimal.IntString(index + 1);
    assert h[10..] == Decimal.IntString(index + 1);
    h
  }

  /** The question text is required: the rule fails exactly on the empty string. */
  function NameError(name: string): (e: Option<string>)
    ensures e.None? <==> name != ""
    ensures e.Some? ==> e.value == NameRequiredMessage
  {
    if name == "" then Some(NameRequiredMessage) else None
  }

  /** The type-specific controls of a card. */
  datatype Settings = Settings(aiSummarySwitch: bool, maxLengthField: bool, optionsEditor: bool)

  /**
   * The AI-summary switch and the maximum-length field appear only on text
   * questions, the options editor only on choice questions; no card shows both
   * kinds, and an unknown type shows neither.
   */
  function SettingsFor(dtype: string): (s: Settings)
    ensures s.aiSummarySwitch <==> KindOf(dtype) == Text
    ensures s.maxLengthField <==> KindOf(dtype) == Text
    ensures s.optionsEditor <==> IsChoiceKind(KindOf(dtype))
    ensures !(s.maxLengthField && s.optionsEditor)
    ensures KindOf(dtype) == Unknown ==> s == Settings(false, false, false)
  {
    Settings(dtype == TextTag, dtype == TextTag, dtype == SingleChoiceTag || dtype == MultiChoiceTag)
  }
}
