/**
 * How a questionnaire answer changes when a checkbox is toggled or the free
 * text of a `checkbox_textarea` question is edited. Both questionnaires use
 * these rules; they differ only in the sentinel option texts.
 */
module AnswerRules {
  import opened Base
  import opened JsString
  import opened ScreeningTypes

  /** `Array.isArray(answers[id]) ? answers[id] : []`: anything but a list counts as no selection. */
  function CurrentSelection(stored: Option<AnswerValue>): (r: seq<string>)
    ensures stored.Some? && stored.value.ListAnswer? ==> r == stored.value.items
    ensures !(stored.Some? && stored.value.ListAnswer?) ==> r == []
  {
    if stored.Some? && stored.value.ListAnswer? then stored.value.items else []
  }

  /** The checkbox's `checked` flag: the stored answer is a list holding the option text. */
  predicate IsChecked(stored: Option<AnswerValue>, option: string) {
    option in CurrentSelection(stored)
  }

  /** `xs.filter(a => !a.includes(marker))` */
  function DropContaining(xs: seq<string>, marker: string): (r: seq<string>)
    ensures forall y :: y in r <==> y in xs && !Contains(y, marker)
    ensures IsSubsequence(r, xs)
  {
    if |xs| == 0 then []
    else
      var rest := DropContaining(xs[1..], marker);
      if Contains(xs[0], marker) then SubsequenceExtend(rest, xs); rest else [xs[0]] + rest
  }

  /** `xs.filter(a => a !== v)` */
  function DropEqual(xs: seq<string>, v: string): (r: seq<string>)
    ensures forall y :: y in r <==> y in xs && y != v
    ensures IsSubsequence(r, xs)
    ensures |r| <= |xs|
  {
    if |xs| == 0 then []
    else
      var rest := DropEqual(xs[1..], v);
      if xs[0] == v then SubsequenceExtend(rest, xs); rest else [xs[0]] + rest
  }

  /** The new answer list after the `option` checkbox is set to `checked`. */
  function ToggleCheckbox(current: seq<string>, option: string, checked: bool, marker: string): (r: seq<string>)
    ensures checked && Contains(option, marker) ==> r == [option]
    ensures checked && !Contains(option, marker) ==>
      |r| > 0 && r[|r| - 1] == option && r[..|r| - 1] == DropContaining(current, marker)
    ensures !checked ==> r == DropEqual(current, option)
  {
    if Contains(option, marker) && checked then [option]
    else if checked then DropContaining(current, marker) + [option]
    else DropEqual(current, option)
  }

  /** An entry containing the "none" marker is the only entry. */
  predicate Exclusive(xs: seq<string>, marker: string) {
    forall i :: 0 <= i < |xs| && Contains(xs[i], marker) ==> |xs| == 1
  }

  /** Checking any option leaves the option selected and the "none" choice exclusive, whatever was stored. */
  lemma CheckSelectsExclusively(current: seq<string>, option: string, marker: string)
    ensures option in ToggleCheckbox(current, option, true, marker)
    ensures Exclusive(ToggleCheckbox(current, option, true, marker), marker)
  {
    var r := ToggleCheckbox(current, option, true, marker);
    if !Contains(option, marker) {
      forall i | 0 <= i < |r| ensures !Contains(r[i], marker) {
        if i < |r| - 1 {
          assert r[i] in r[..|r| - 1];
        }
      }
    }
  }

  /** Unchecking deselects the option, keeps every other entry in order, and keeps the "none" choice exclusive. */
  lemma UncheckPreservesExclusive(current: seq<string>, option: string, marker: string)
    requires Exclusive(current, marker)
    ensures option !in ToggleCheckbox(current, option, false, marker)
    ensures IsSubsequence(ToggleCheckbox(current, option, false, marker), current)
    ensures Exclusive(ToggleCheckbox(current, option, false, marker), marker)
  {
    var r := ToggleCheckbox(current, option, false, marker);
    forall i | 0 <= i < |r| && Contains(r[i], marker) ensures |r| == 1 {
      assert r[i] in r;
      var j :| 0 <= j < |current| && current[j] == r[i];
      assert |current| == 1;
      assert |r| <= 1;
    }
  }

  /** Toggling never touches an option that is neither the toggled one nor a "none" entry. */
  lemma ToggleKeepsOthers(current: seq<string>, option: string, checked: bool, marker: string, other: string)
    requires other != option && !Contains(other, marker)
    requires !(checked && Contains(option, marker))
    ensures other in ToggleCheckbox(current, option, checked, marker) <==> other in current
  {
    var r := ToggleCheckbox(current, option, checked, marker);
    if checked {
      assert r == r[..|r| - 1] + [option];
    }
  }

  /** `currentAnswer?.options || []` for a `checkbox_textarea` question. */
  function SelectedOptions(stored: Option<AnswerValue>): (r: seq<string>)
    ensures stored.Some? && stored.value.ComboAnswer? ==> r == stored.value.combo.options
    ensures !(stored.Some? && stored.value.ComboAnswer?) ==> r == []
  {
    if stored.Some? && stored.value.ComboAnswer? then stored.value.combo.options else []
  }

  /** `currentAnswer?.textarea || ''` */
  function TextareaValue(stored: Option<AnswerValue>): (r: string)
    ensures stored.Some? && stored.value.ComboAnswer? && stored.value.combo.textarea.Some? ==> r == stored.value.combo.textarea.value
    ensures !(stored.Some? && stored.value.ComboAnswer? && stored.value.combo.textarea.Some?) ==> r == ""
  {
    if stored.Some? && stored.value.ComboAnswer? && stored.value.combo.textarea.Some? then stored.value.combo.textarea.value else ""
  }

  /** The answer after the `option` checkbox of a `checkbox_textarea` question is set to `checked`;
      the free text survives only when `option` is `keepFor`. */
  function ToggleCombo(stored: Option<AnswerValue>, option: string, checked: bool, keepFor: string): (r: CheckboxTextareaAnswer)
    ensures checked ==> r.options == [option]
    ensures !checked ==> r.options == []
    ensures option == keepFor ==> r.textarea == Some(TextareaValue(stored))
    ensures option != keepFor ==> r.textarea == Some("")
  {
    CheckboxTextareaAnswer(
      if checked then [option] else [],
      Some(if option == keepFor then TextareaValue(stored) else ""))
  }

  /** The answer after the free text is edited: the selection is kept, the text replaced. */
  function EditComboText(stored: Option<AnswerValue>, text: string): (r: CheckboxTextareaAnswer)
    ensures r.options == SelectedOptions(stored)
    ensures r.textarea == Some(text)
  {
    CheckboxTextareaAnswer(SelectedOptions(stored), Some(text))
  }

  /** The textarea is rendered only while `keepFor` is selected. */
  predicate TextareaOffered(stored: Option<AnswerValue>, keepFor: string) {
    keepFor in SelectedOptions(stored)
  }

  /** A `checkbox_textarea` answer written by a toggle holds at most one selection, and the
      textarea is offered afterwards exactly when `keepFor` was checked. */
  lemma ComboSingleChoice(stored: Option<AnswerValue>, option: string, checked: bool, keepFor: string)
    ensures |ToggleCombo(stored, option, checked, keepFor).options| <= 1
    ensures TextareaOffered(Some(ComboAnswer(ToggleCombo(stored, option, checked, keepFor))), keepFor)
        <==> checked && option == keepFor
  {
  }

  /** Editing the free text keeps the textarea offered and the text reads back as typed. */
  lemma EditKeepsSelection(stored: Option<AnswerValue>, text: string, keepFor: string)
    ensures var next := Some(ComboAnswer(EditComboText(stored, text)));
      SelectedOptions(next) == SelectedOptions(stored)
      && (TextareaOffered(next, keepFor) <==> TextareaOffered(stored, keepFor))
      && TextareaValue(next) == text
  {
  }

  /** Any free text other than the `keepFor` option's is cleared: a later read gives ''. */
  lemma OtherOptionClearsText(stored: Option<AnswerValue>, option: string, checked: bool, keepFor: string)
    requires option != keepFor
    ensures TextareaValue(Some(ComboAnswer(ToggleCombo(stored, option, checked, keepFor)))) == ""
  {
  }
}
