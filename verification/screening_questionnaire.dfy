/**
 * The questionnaire of the citizen (KTP) screening form,
 * `components/screening/Questionnaire.tsx`: the same answer rules with the
 * Indonesian sentinels 'Tidak ada' and 'Ya', no control for `number`
 * questions, and headings numbered by list position.
 */
module ScreeningQuestionnaire {
  import opened Base
  import opened JsString
  import opened ScreeningTypes
  import opened AnswerRules

  const NoneMarker: string := "Tidak ada"
  const DetailOption: string := "Ya"

  datatype Input = TextInput | DateInput | TextareaInput | CheckboxGroup | ComboGroup | SelectInput

  /** `renderQuestion`'s switch: `number` has no case and falls through to `null`. */
  function InputFor(kind: QuestionType): (r: Option<Input>)
    ensures r.None? <==> kind == Number
    ensures kind == Checkbox <==> r == Some(CheckboxGroup)
    ensures kind == CheckboxTextarea <==> r == Some(ComboGroup)
  {
    match kind
    case Text => Some(TextInput)
    case Textarea => Some(TextareaInput)
    case Date => Some(DateInput)
    case Checkbox => Some(CheckboxGroup)
    case CheckboxTextarea => Some(ComboGroup)
    case Select => Some(SelectInput)
    case Number => None
  }

  function OnCheckboxChange(stored: Option<AnswerValue>, option: string, checked: bool): (r: AnswerValue)
    ensures checked && Contains(option, NoneMarker) ==> r == ListAnswer([option])
    ensures r.ListAnswer? && r.items == ToggleCheckbox(CurrentSelection(stored), option, checked, NoneMarker)
  {
    ListAnswer(ToggleCheckbox(CurrentSelection(stored), option, checked, NoneMarker))
  }

  function OnComboChange(stored: Option<AnswerValue>, option: string, checked: bool): (r: AnswerValue)
    ensures r.ComboAnswer? && |r.combo.options| <= 1
    ensures r.combo.textarea == Some(if option == DetailOption then TextareaValue(stored) else "")
  {
    ComboAnswer(ToggleCombo(stored, option, checked, DetailOption))
  }

  function OnComboTextChange(stored: Option<AnswerValue>, text: string): (r: AnswerValue)
    ensures r.ComboAnswer? && r.combo.options == SelectedOptions(stored) && r.combo.textarea == Some(text)
  {
    ComboAnswer(EditComboText(stored, text))
  }

  /** The free-text box is rendered only while 'Ya' is selected. */
  predicate ShowsTextarea(stored: Option<AnswerValue>) {
    TextareaOffered(stored, DetailOption)
  }

  /** The heading of the question at list position `index`: `${index + 1}. ${question}`.
      It starts with the decimal digits of the 1-based position, without leading zeros,
      followed by ". " and the text. */
  function Heading(qs: seq<Question>, index: nat): (r: string)
    requires index < |qs|
    ensures var n := |r| - |qs[index].question| - 2;
      0 < n && r[n..] == ". " + qs[index].question
      && (forall i :: 0 <= i < n ==> IsDigit(r[i]))
      && DecimalValue(r[..n]) == index + 1
      && (n > 1 ==> r[0] != '0')
  {
    var number := NatToString(index + 1);
    var r := number + ". " + qs[index].question;
    assert r[..|number|] == number;
    r
  }

  /** No two positions share a heading, whatever the question texts: the digits before the
      first '.' give the position back. */
  lemma HeadingsDistinct(qs: seq<Question>, i: nat, j: nat)
    requires i < |qs| && j < |qs| && i != j
    ensures Heading(qs, i) != Heading(qs, j)
  {
    var a, b := Heading(qs, i), Heading(qs, j);
    var n1 := |a| - |qs[i].question| - 2;
    var n2 := |b| - |qs[j].question| - 2;
    assert a[n1] == '.' && b[n2] == '.';
  }

  /** Checking 'Tidak ada' leaves it the only choice; checking any other option drops every
      'Tidak ada' entry; unchecking keeps an exclusive selection exclusive. */
  lemma TidakAdaExclusive(stored: Option<AnswerValue>, option: string, checked: bool)
    requires checked || Exclusive(CurrentSelection(stored), NoneMarker)
    ensures Exclusive(OnCheckboxChange(stored, option, checked).items, NoneMarker)
  {
    if checked {
      CheckSelectsExclusively(CurrentSelection(stored), option, NoneMarker);
    } else {
      UncheckPreservesExclusive(CurrentSelection(stored), option, NoneMarker);
    }
  }

  /** 'Ya' keeps its text across a toggle; after checking any other option the box is hidden and its text is ''. */
  lemma OnlyYaKeepsText(stored: Option<AnswerValue>, option: string)
    requires option != DetailOption
    ensures !ShowsTextarea(Some(OnComboChange(stored, option, true)))
    ensures TextareaValue(Some(OnComboChange(stored, option, true))) == ""
  {
  }
}
