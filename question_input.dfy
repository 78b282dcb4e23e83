/**
 * The answer form's input for one question: which control a question type
 * gets, the validation rule it registers, and the multi-choice toggle.
 */
module QuestionInput {
  import opened Wrappers
  import opened PollModel
  import Decimal

  /**
   * The value held for one question in the answer form: nothing yet, the text
   * of a text field or the value string of the chosen radio button, or the ids
   * ticked in a checkbox group.
   */
  datatype FormValue = Absent | Str(s: string) | Ids(ids: seq<int>)

  /** Empty, as react-hook-form's `required` rule and the submit handler both test it. */
  predicate IsEmptyValue(v: FormValue) {
    v == Absent || v == Str("") || v == Ids([])
  }

  /** The value shapes each kind of input can produce. */
  predicate Fits(k: Kind, v: FormValue) {
    match k
    case Text => !v.Ids?
    case SingleChoice => !v.Ids?
    case MultiChoice => !v.Str?
    case Unknown => true
  }

  const RequiredMessage := "This field is required"
  const AtLeastOneMessage := "Select at least one option"
  const DefaultMaxLength := 2000

  /** `question.maxLength || 2000`: an absent or zero limit falls back to 2000. */
  function EffectiveMaxLength(q: Question): (n: int)
    ensures q.maxLength.Some? && q.maxLength.value != 0 ==> n == q.maxLength.value
    ensures q.maxLength.None? || q.maxLength == Some(0) ==> n == DefaultMaxLength
  {
    match q.maxLength
    case Some(m) => if m != 0 then m else DefaultMaxLength
    case None => DefaultMaxLength
  }

  /**
   * The length message as the page builds it: it interpolates the question's
   * `maxLength` field, which reads "undefined" when absent, rather than the
   * limit the rule enforces.
   */
  function MaxLengthMessageAsWritten(q: Question): (m: string)
    ensures |m| > 20 && m[..12] == "Max length: " && m[|m| - 8..] == " symbols"
    ensures q.maxLength.None? ==> m == "Max length: undefined symbols"
    ensures q.maxLength.Some? ==> Decimal.ParseNumber(m[12..|m| - 8]) == q.maxLength
  {
    var n := if q.maxLength.Some? then Decimal.IntString(q.maxLength.value) else "undefined";
    if q.maxLength.Some? then
      Decimal.IntStringRoundTrip(q.maxLength.value);
      var m := "Max length: " + n + " symbols";
      assert m[12..|m| - 8] == n;
      m
    else
      "Max length: undefined symbols"
  }

  /** The length message naming the limit that is actually enforced. */
  function MaxLengthMessage(q: Question): (m: string)
    ensures |m| > 20 && m[..12] == "Max length: " && m[|m| - 8..] == " symbols"
    ensures Decimal.ParseNumber(m[12..|m| - 8]) == Some(EffectiveMaxLength(q))
  {
    var n := Decimal.IntString(EffectiveMaxLength(q));
    Decimal.IntStringRoundTrip(EffectiveMaxLength(q));
    var m := "Max length: " + n + " symbols";
    assert m[12..|m| - 8] == n;
    m
  }

  /**
   * Whenever `maxLength` is set to a non-zero limit, the message as written
   * and the corrected one coincide: the discrepancy is confined to an absent
   * or zero `maxLength`.
   */
  lemma MessagesAgreeWhenLimitSet(q: Question)
    requires q.maxLength.Some? && q.maxLength.value != 0
    ensures MaxLengthMessageAsWritten(q) == MaxLengthMessage(q)
  {
    assert EffectiveMaxLength(q) == q.maxLength.value;
  }

  /**
   * The message of a text answer that is too long and has no `maxLength`:
   * the page says "undefined" where the enforced limit is 2000.
   */
  lemma MaxLengthMessageNamesUndefined(q: Question)
    requires KindOfQuestion(q) == Text && q.maxLength.None?
    ensures MaxLengthMessageAsWritten(q) == "Max length: undefined symbols"
    ensures EffectiveMaxLength(q) == 2000
    ensures MaxLengthMessageAsWritten(q) != MaxLengthMessage(q)
  {
    var w := MaxLengthMessageAsWritten(q);
    assert w[12..|w| - 8] == "undefined";
    var m := MaxLengthMessage(q);
    assert m[12..|m| - 8] != w[12..|w| - 8] by {
      assert Decimal.ParseNumber("undefined") == None by {
        assert !Decimal.IsDigit("undefined"[0]);
      }
    }
  }

  /**
   * The error (if any) react-hook-form reports for a question's value: `required`
   * first, then the length limit on non-empty text, reported with the message
   * as the page writes it; the multi-choice group has
   * its own "at least one" rule; an unknown type registers no input and so
   * never fails.
   */
  function Validate(q: Question, v: FormValue): (r: Option<string>)
    requires Fits(KindOfQuestion(q), v)
    ensures KindOfQuestion(q) == Unknown ==> r == None
    ensures IsEmptyValue(v) && KindOfQuestion(q) != Unknown ==> (r.Some? <==> q.isRequired)
    ensures KindOfQuestion(q) == Text && v.Str? && v.s != "" ==> (r.Some? <==> |v.s| > EffectiveMaxLength(q))
    ensures KindOfQuestion(q) in {SingleChoice, MultiChoice} && !IsEmptyValue(v) ==> r == None
    ensures KindOfQuestion(q) == MultiChoice && r.Some? ==> r.value == AtLeastOneMessage
    ensures KindOfQuestion(q) in {Text, SingleChoice} && IsEmptyValue(v) && r.Some? ==> r.value == RequiredMessage
    ensures KindOfQuestion(q) == Text && !IsEmptyValue(v) && r.Some? ==> r.value == MaxLengthMessageAsWritten(q)
  {
    match KindOfQuestion(q)
    case Text =>
      if q.isRequired && IsEmptyValue(v) then Some(RequiredMessage)
      else if v.Str? && v.s != "" && |v.s| > EffectiveMaxLength(q) then Some(MaxLengthMessageAsWritten(q))
      else None
    case SingleChoice =>
      if q.isRequired && IsEmptyValue(v) then Some(RequiredMessage) else None
    case MultiChoice =>
      if q.isRequired && IsEmptyValue(v) then Some(AtLeastOneMessage) else None
    case Unknown => None
  }

  /**
   * A text answer exactly at the limit passes; one character more fails, with
   * the message as written, which names the enforced limit only when
   * `maxLength` is set and non-zero.
   */
  lemma MaxLengthBoundary(q: Question, s: string, c: char)
    requires KindOfQuestion(q) == Text && |s| == EffectiveMaxLength(q) && |s| > 0
    ensures Validate(q, Str(s)) == None
    ensures Validate(q, Str(s + [c])) == Some(MaxLengthMessageAsWritten(q))
    ensures q.maxLength.Some? && q.maxLength.value != 0 ==> Validate(q, Str(s + [c])) == Some(MaxLengthMessage(q))
    ensures q.maxLength.None? ==> Validate(q, Str(s + [c])) == Some("Max length: undefined symbols")
  {
    if q.maxLength.Some? && q.maxLength.value != 0 {
      MessagesAgreeWhenLimitSet(q);
    }
  }

  // ---------------------------------------------------------------- controls

  datatype InputControl =
    | TextInput(maxLength: int)
    | RadioGroup(options: seq<Choice>)
    | CheckboxGroup(options: seq<Choice>)
    | UnknownTypeAlert(message: string)

  /**
   * The control a question renders: a text field, a radio group or a checkbox
   * group over its options, and for any other type an error message naming the
   * type instead of an input.
   */
  function InputFor(q: Question): (c: InputControl)
    ensures c.UnknownTypeAlert? <==> KindOfQuestion(q) == Unknown
    ensures c.UnknownTypeAlert? ==> c.message == "Unknown question type: " + q.dtype
    ensures c.TextInput? ==> c.maxLength == EffectiveMaxLength(q)
    ensures c.RadioGroup? || c.CheckboxGroup? ==> c.options == Choices(q)
  {
    match KindOfQuestion(q)
    case Text => TextInput(EffectiveMaxLength(q))
    case SingleChoice => RadioGroup(Choices(q))
    case MultiChoice => CheckboxGroup(Choices(q))
    case Unknown => UnknownTypeAlert("Unknown question type: " + q.dtype)
  }

  /** The value string of an option's radio button (`value={opt.id}`). */
  function RadioValue(c: Choice): (s: string)
    requires c.id.Some?
    ensures Decimal.ParseNumber(s) == c.id
  {
    Decimal.IntStringRoundTrip(c.id.value);
    Decimal.IntString(c.id.value)
  }

  // ---------------------------------------------------------------- multi-choice

  /** `(value as number[]) || []`: the selection, empty before anything is ticked. */
  function Selected(v: FormValue): seq<int> {
    if v.Ids? then v.ids else []
  }

  /**
   * The checkbox group starts from `[]` (its `defaultValue`); for the rule and
   * for the selection that is the same as no value at all, and a required
   * group left so fails with "at least one".
   */
  lemma MultiChoiceDefaultIsNoValue(q: Question)
    requires KindOfQuestion(q) == MultiChoice
    ensures Validate(q, Ids([])) == Validate(q, Absent)
    ensures Selected(Ids([])) == Selected(Absent) == []
    ensures Validate(q, Ids([])).Some? <==> q.isRequired
    ensures q.isRequired ==> Validate(q, Ids([])) == Some(AtLeastOneMessage)
  {
  }

  /** A checkbox is ticked exactly when its option id is in the selection. */
  function Checked(v: FormValue, optionId: int): (b: bool)
    ensures b <==> exists i :: 0 <= i < |Selected(v)| && Selected(v)[i] == optionId
  {
    optionId in Selected(v)
  }

  /** `filter(id => id !== x)`. */
  function Without(s: seq<int>, x: int): seq<int> {
    if s == [] then [] else (if s[0] == x then [] else [s[0]]) + Without(s[1..], x)
  }

  lemma {:induction false} WithoutMembers(s: seq<int>, x: int)
    ensures forall y :: y in Without(s, x) <==> y in s && y != x
  {
    if s != [] {
      WithoutMembers(s[1..], x);
      assert s == [s[0]] + s[1..];
    }
  }

  lemma {:induction false} WithoutAbsent(s: seq<int>, x: int)
    requires x !in s
    ensures Without(s, x) == s
  {
    if s != [] {
      WithoutAbsent(s[1..], x);
      assert s == [s[0]] + s[1..];
    }
  }

  lemma {:induction false} WithoutAppend(s: seq<int>, y: int, x: int)
    ensures Without(s + [y], x) == Without(s, x) + (if y == x then [] else [y])
  {
    var tail := if y == x then [] else [y];
    if s == [] {
      assert s + [y] == [y];
      assert [y][1..] == [];
      assert Without([y], x) == tail + Without([], x);
    } else {
      var head := if s[0] == x then [] else [s[0]];
      assert (s + [y])[0] == s[0];
      assert (s + [y])[1..] == s[1..] + [y];
      assert Without(s + [y], x) == head + Without(s[1..] + [y], x);
      WithoutAppend(s[1..], y, x);
      assert Without(s, x) == head + Without(s[1..], x);
      assert head + (Without(s[1..], x) + tail) == (head + Without(s[1..], x)) + tail;
    }
  }

  /**
   * `handleToggle`: an id already selected is removed (every occurrence of
   * it); an absent id is appended at the end; every other id stays, in its
   * relative order.
   */
  function Toggle(selected: seq<int>, id: int): (r: seq<int>)
    ensures id in r <==> id !in selected
    ensures forall x :: x != id ==> (x in r <==> x in selected)
    ensures id !in selected ==> r == selected + [id]
    ensures Without(r, id) == Without(selected, id)
  {
    WithoutMembers(selected, id);
    if id in selected then
      WithoutMembers(Without(selected, id), id);
      WithoutAbsent(Without(selected, id), id);
      Without(selected, id)
    else
      WithoutAppend(selected, id, id);
      selected + [id]
  }

  predicate NoDuplicates(s: seq<int>) {
    forall i, j :: 0 <= i < j < |s| ==> s[i] != s[j]
  }

  /**
   * Toggling the same id twice restores the selection as a set, and as a
   * sequence when the id was absent or the last one selected.
   */
  lemma ToggleTwice(s: seq<int>, id: int)
    ensures forall x :: x in Toggle(Toggle(s, id), id) <==> x in s
    ensures id !in s || (NoDuplicates(s) && s[|s| - 1] == id) ==> Toggle(Toggle(s, id), id) == s
  {
    if id in s && NoDuplicates(s) && s[|s| - 1] == id {
      var init := s[..|s| - 1];
      assert s == init + [id];
      assert id !in init;
      WithoutAppend(init, id, id);
      WithoutAbsent(init, id);
    } else if id !in s {
      WithoutAppend(s, id, id);
      WithoutAbsent(s, id);
    }
  }

  /** On a duplicate-free selection, toggling a present id that is not last twice moves it to the end. */
  lemma ToggleTwiceMovesToEnd()
    ensures Toggle(Toggle([1, 2], 1), 1) == [2, 1]
  {
    assert Without([1, 2], 1) == [2] by {
      assert [1, 2][1..] == [2];
      assert [2][1..] == [];
    }
  }
}
