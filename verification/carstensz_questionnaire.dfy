/**
 * The questionnaire of the Carstensz (passport) form,
 * `app/carstensz/form/Questionnaire.tsx`: which input each question type gets,
 * how checkbox answers change, and when a section heading is shown.
 */
module CarstenszQuestionnaire {
  import opened Base
  import opened JsString
  import opened ScreeningTypes
  import opened AnswerRules

  /** An option whose text contains this clears every other choice. */
  const NoneMarker: string := "None of the above"
  /** The `checkbox_textarea` option whose free text is kept. */
  const DetailOption: string := "Drug allergies"

  /** The control rendered for a question. */
  datatype Input = TextInput | NumberInput | DateInput | TextareaInput | CheckboxGroup | ComboGroup | SelectInput

  /** `renderQuestion`'s switch: every one of the seven types has a control here. */
  function InputFor(kind: QuestionType): (r: Input)
    ensures kind == Number <==> r == NumberInput
    ensures kind == Checkbox <==> r == CheckboxGroup
    ensures kind == CheckboxTextarea <==> r == ComboGroup
  {
    match kind
    case Text => TextInput
    case Number => NumberInput
    case Textarea => TextareaInput
    case Date => DateInput
    case Checkbox => CheckboxGroup
    case CheckboxTextarea => ComboGroup
    case Select => SelectInput
  }

  /** Distinct question types get distinct controls. */
  lemma InputForInjective(a: QuestionType, b: QuestionType)
    requires a != b
    ensures InputFor(a) != InputFor(b)
  {
  }

  /** The answer written when the `option` checkbox of a `checkbox` question is set to `checked`. */
  function OnCheckboxChange(stored: Option<AnswerValue>, option: string, checked: bool): (r: AnswerValue)
    ensures checked && Contains(option, NoneMarker) ==> r == ListAnswer([option])
    ensures r.ListAnswer? && r.items == ToggleCheckbox(CurrentSelection(stored), option, checked, NoneMarker)
  {
    ListAnswer(ToggleCheckbox(CurrentSelection(stored), option, checked, NoneMarker))
  }

  /** The answer written when an option of a `checkbox_textarea` question is toggled. */
  function OnComboChange(stored: Option<AnswerValue>, option: string, checked: bool): (r: AnswerValue)
    ensures r.ComboAnswer? && |r.combo.options| <= 1
    ensures r.combo.textarea == Some(if option == DetailOption then TextareaValue(stored) else "")
  {
    ComboAnswer(ToggleCombo(stored, option, checked, DetailOption))
  }

  /** The answer written when the free text under 'Drug allergies' is edited. */
  function OnComboTextChange(stored: Option<AnswerValue>, text: string): (r: AnswerValue)
    ensures r.ComboAnswer? && r.combo.options == SelectedOptions(stored) && r.combo.textarea == Some(text)
  {
    ComboAnswer(EditComboText(stored, text))
  }

  /** Whether the free-text box is rendered. */
  predicate ShowsTextarea(stored: Option<AnswerValue>) {
    TextareaOffered(stored, DetailOption)
  }

  /** `question.section && question.section !== prevSection`, with no previous section for the first question. */
  predicate ShowSection(qs: seq<Question>, i: int)
    requires 0 <= i < |qs|
  {
    qs[i].section.Some? && qs[i].section.value != "" &&
    (i == 0 || qs[i - 1].section != qs[i].section)
  }

  /** A heading appears exactly where a non-empty section starts: never twice in a row for the same section. */
  lemma SectionHeadingOnChange(qs: seq<Question>, i: int)
    requires 0 < i < |qs|
    ensures qs[i].section == qs[i - 1].section ==> !ShowSection(qs, i)
    ensures qs[i].section.Some? && qs[i].section.value != "" && qs[i].section != qs[i - 1].section ==> ShowSection(qs, i)
  {
  }

  /** Every question with a non-empty section sits under a heading for that section: the nearest
      heading at or before it names the same section, and no question in between changes it. */
  lemma {:induction false} EveryQuestionUnderItsHeading(qs: seq<Question>, i: int, s: string)
    requires 0 <= i < |qs| && qs[i].section == Some(s) && s != ""
    ensures exists j :: 0 <= j <= i && ShowSection(qs, j) && forall k :: j <= k <= i ==> qs[k].section == Some(s)
  {
    if ShowSection(qs, i) {
      assert forall k :: i <= k <= i ==> qs[k].section == Some(s);
    } else {
      EveryQuestionUnderItsHeading(qs, i - 1, s);
      var j :| 0 <= j <= i - 1 && ShowSection(qs, j) && forall k :: j <= k <= i - 1 ==> qs[k].section == Some(s);
      assert forall k :: j <= k <= i ==> qs[k].section == Some(s);
    }
  }

  /** Checking 'None of the above' leaves it the only choice; checking any other option leaves no
      'None of the above' entry. Either way the result is exclusive. */
  lemma NoneOfTheAboveExclusive(stored: Option<AnswerValue>, option: string, checked: bool)
    requires checked || Exclusive(CurrentSelection(stored), NoneMarker)
    ensures Exclusive(OnCheckboxChange(stored, option, checked).items, NoneMarker)
  {
    if checked {
      CheckSelectsExclusively(CurrentSelection(stored), option, NoneMarker);
    } else {
      UncheckPreservesExclusive(CurrentSelection(stored), option, NoneMarker);
    }
  }
}
