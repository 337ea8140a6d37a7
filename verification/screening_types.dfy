/** The records of `types/screening.ts`. */
module ScreeningTypes {
  import opened Base

  /** A question's answer kind: exactly one of the seven tags `Question.type` allows. */
  datatype QuestionType = Text | Number | Date | Checkbox | Select | CheckboxTextarea | Textarea

  /** The tag as it appears in the backend's JSON. */
  function TypeTag(t: QuestionType): string {
    match t
    case Text => "text"
    case Number => "number"
    case Date => "date"
    case Checkbox => "checkbox"
    case Select => "select"
    case CheckboxTextarea => "checkbox_textarea"
    case Textarea => "textarea"
  }

  /** Reads a tag back; any string outside the seven tags has no question type. */
  function ParseTypeTag(s: string): (r: Option<QuestionType>)
    ensures r.Some? ==> TypeTag(r.value) == s
    ensures forall t: QuestionType :: TypeTag(t) == s ==> r == Some(t)
  {
    match s
    case "text" => Some(Text)
    case "number" => Some(Number)
    case "date" => Some(Date)
    case "checkbox" => Some(Checkbox)
    case "select" => Some(Select)
    case "checkbox_textarea" => Some(CheckboxTextarea)
    case "textarea" => Some(Textarea)
    case _ => None
  }

  /** An answer choice: a numeric id and its text. */
  datatype QuestionOption = QuestionOption(id: int, text: string)

  /** A questionnaire item; `section` is optional and nullable (`None` for both). */
  datatype Question = Question(id: int, section: Option<string>, question: string,
                               kind: QuestionType, options: seq<QuestionOption>)

  /** A browser `File`: its name, MIME type and size in bytes. */
  datatype FileRef = FileRef(name: string, mimeType: string, size: nat)

  /** The answer to a `checkbox_textarea` question. */
  datatype CheckboxTextareaAnswer = CheckboxTextareaAnswer(options: seq<string>, textarea: Option<string>)

  /** `Answer.answer`: a string, a list of strings, or `{options, textarea?}`. */
  datatype AnswerValue =
    | TextAnswer(text: string)
    | ListAnswer(items: seq<string>)
    | ComboAnswer(combo: CheckboxTextareaAnswer)

  /** One submitted answer. */
  datatype Answer = Answer(questionerId: int, answer: AnswerValue)

  /** A value held in a patient record (`PatientData`, `PatientDataWna`): text,
      a document image, or `null` for an image not (yet) attached. */
  datatype FieldValue = Str(s: string) | Image(file: FileRef) | Null
}
