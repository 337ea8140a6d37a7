/**
 * The screening detail view, `components/screening/detail.tsx`: how a stored
 * answer is turned into display text, which patient fields are shown, and the
 * title of a question without text.
 */
module ScreeningDetail {
  import opened Base
  import opened JsString
  import T = ScreeningTypes

  /** A JavaScript value as the backend's JSON can deliver it; numbers are integers here. */
  datatype JsValue =
    | Undefined
    | Null
    | Bool(b: bool)
    | Number(n: int)
    | Text(s: string)
    | Array(items: seq<JsValue>)
    | Object(fields: map<string, JsValue>)

  /** JavaScript truthiness: `undefined`, `null`, `false`, `0` and `''` are falsy; arrays and objects never are. */
  predicate Truthy(v: JsValue) {
    match v
    case Undefined => false
    case Null => false
    case Bool(b) => b
    case Number(n) => n != 0
    case Text(s) => s != ""
    case Array(_) => true
    case Object(_) => true
  }

  /** `String(v)`; an array converts as `join(',')`. */
  function ToJsString(v: JsValue): string
    decreases v, 1
  {
    match v
    case Undefined => "undefined"
    case Null => "null"
    case Bool(b) => if b then "true" else "false"
    case Number(n) => IntToString(n)
    case Text(s) => s
    case Array(items) => Join(ElementStrings(items), ",")
    case Object(_) => "[object Object]"
  }

  /** The strings `Array.prototype.join` puts between separators: `null` and `undefined` give ''. */
  function ElementStrings(items: seq<JsValue>): (r: seq<string>)
    ensures |r| == |items|
    decreases items, 0
  {
    if |items| == 0 then []
    else
      var head := if items[0].Null? || items[0].Undefined? then "" else ToJsString(items[0]);
      [head] + ElementStrings(items[1..])
  }

  /** A list of plain strings joins to exactly those strings. */
  lemma {:induction false} ElementStringsOfTexts(xs: seq<string>)
    ensures ElementStrings(TextItems(xs)) == xs
  {
    if |xs| > 0 {
      assert TextItems(xs)[1..] == TextItems(xs[1..]);
      ElementStringsOfTexts(xs[1..]);
    }
  }

  function TextItems(xs: seq<string>): (r: seq<JsValue>)
    ensures |r| == |xs| && forall i :: 0 <= i < |xs| ==> r[i] == Text(xs[i])
  {
    seq(|xs|, i requires 0 <= i < |xs| => Text(xs[i]))
  }

  /** The property `key` of a decoded value; only objects carry own properties here. */
  function Property(v: JsValue, key: string): JsValue {
    if v.Object? && key in v.fields then v.fields[key] else Undefined
  }

  /** The display text of a decoded answer string (the body of the `try` after `JSON.parse`). */
  function DecodedText(parsed: JsValue, raw: string): (r: string)
    ensures parsed.Null? || parsed.Undefined? ==> r == raw
    ensures Truthy(Property(parsed, "options")) && Property(parsed, "options").Array? ==>
      var opts := Join(ElementStrings(Property(parsed, "options").items), ", ");
      r == (if Truthy(Property(parsed, "textarea"))
            then opts + " (" + ToJsString(Property(parsed, "textarea")) + ")" else opts)
    ensures parsed.Array? ==> r == Join(ElementStrings(parsed.items), ", ")
    ensures (!parsed.Null? && !parsed.Undefined? && !parsed.Array? &&
             !(Truthy(Property(parsed, "options")) && Property(parsed, "options").Array?)) ==> r == ToJsString(parsed)
  {
    // reading `.options` of `null` or `undefined` throws; the catch returns the raw string
    if parsed.Null? || parsed.Undefined? then raw
    else
      var options := Property(parsed, "options");
      if Truthy(options) && options.Array? then
        var opts := Join(ElementStrings(options.items), ", ");
        var textarea := Property(parsed, "textarea");
        if Truthy(textarea) then opts + " (" + ToJsString(textarea) + ")" else opts
      else if parsed.Array? then Join(ElementStrings(parsed.items), ", ")
      else ToJsString(parsed)
  }

  /** `parseAnswer(answer)`; `decode` is `JSON.parse`, `None` when it throws. */
  function ParseAnswer(answer: JsValue, decode: string -> Option<JsValue>): (r: string)
    ensures !Truthy(answer) ==> r == "-"
    ensures answer.Array? ==> r == Join(ElementStrings(answer.items), ", ")
    ensures answer.Text? && answer.s != "" && decode(answer.s).None? ==> r == answer.s
    ensures answer.Text? && answer.s != "" && decode(answer.s).Some? ==> r == DecodedText(decode(answer.s).value, answer.s)
    ensures Truthy(answer) && !answer.Array? && !answer.Text? ==> r == ToJsString(answer)
  {
    if !Truthy(answer) then "-"
    else match answer
      case Array(items) => Join(ElementStrings(items), ", ")
      case Text(s) =>
        (match decode(s)
         case None => s
         case Some(parsed) => DecodedText(parsed, s))
      case _ => ToJsString(answer)
  }

  /** The JSON form in which an `Answer.answer` is stored. */
  function AnswerJson(a: T.AnswerValue): JsValue {
    match a
    case TextAnswer(t) => Text(t)
    case ListAnswer(items) => Array(TextItems(items))
    case ComboAnswer(c) =>
      Object(if c.textarea.Some? then map["options" := Array(TextItems(c.options)), "textarea" := Text(c.textarea.value)]
             else map["options" := Array(TextItems(c.options))])
  }

  /** A list answer displays as its choices joined by ', ' (an empty list as ''). */
  lemma ListAnswerDisplay(items: seq<string>, decode: string -> Option<JsValue>)
    ensures ParseAnswer(AnswerJson(T.ListAnswer(items)), decode) == Join(items, ", ")
  {
    ElementStringsOfTexts(items);
  }

  /** A `checkbox_textarea` answer stored as a JSON string displays as its options joined by ', ',
      followed by ' (text)' only when the free text is non-empty. */
  lemma ComboAnswerDisplay(raw: string, c: T.CheckboxTextareaAnswer, decode: string -> Option<JsValue>)
    requires raw != "" && decode(raw) == Some(AnswerJson(T.ComboAnswer(c)))
    ensures var opts := Join(c.options, ", ");
      ParseAnswer(Text(raw), decode) ==
        (if c.textarea.Some? && c.textarea.value != "" then opts + " (" + c.textarea.value + ")" else opts)
  {
    ElementStringsOfTexts(c.options);
    var parsed := AnswerJson(T.ComboAnswer(c));
    assert Property(parsed, "options") == Array(TextItems(c.options));
  }

  /** A string that decodes to a list of strings displays as those strings joined by ', ', like a stored list. */
  lemma DecodedListDisplay(raw: string, items: seq<string>, decode: string -> Option<JsValue>)
    requires raw != "" && decode(raw) == Some(Array(TextItems(items)))
    ensures ParseAnswer(Text(raw), decode) == Join(items, ", ")
  {
    ElementStringsOfTexts(items);
  }

  /** A string that decodes to a number or a boolean displays as that value's string form. */
  lemma DecodedScalarDisplay(raw: string, v: JsValue, decode: string -> Option<JsValue>)
    requires raw != "" && decode(raw) == Some(v) && (v.Number? || v.Bool?)
    ensures ParseAnswer(Text(raw), decode) == ToJsString(v)
    ensures v.Bool? ==> ParseAnswer(Text(raw), decode) == (if v.b then "true" else "false")
  {
  }

  /** A string that is not JSON displays unchanged. */
  lemma PlainTextDisplay(raw: string, decode: string -> Option<JsValue>)
    requires raw != "" && decode(raw).None?
    ensures ParseAnswer(Text(raw), decode) == raw
  {
  }

  /** `FIELD_LABELS` */
  const FieldLabels: map<string, string> := map[
    "name" := "Nama",
    "email" := "Email",
    "contact" := "Nomor Telepon",
    "date_of_birth" := "Tanggal Lahir",
    "gender" := "Jenis Kelamin",
    "nationality" := "Kewarganegaraan",
    "passport_number" := "No. Paspor"]

  /** One displayed patient field: its label and its text. */
  datatype Row = Row(key: string, caption: string, text: string)

  /** `value != null ? String(value) : '-'` (loose inequality: `undefined` is also shown as '-'). */
  function FieldText(v: JsValue): (r: string)
    ensures v.Null? || v.Undefined? ==> r == "-"
    ensures !(v.Null? || v.Undefined?) ==> r == ToJsString(v)
  {
    if v.Null? || v.Undefined? then "-" else ToJsString(v)
  }

  /** `Object.entries(patient).filter(labelled).map(row)`, the entries in the object's key order. */
  function PatientRows(entries: seq<(string, JsValue)>): (r: seq<Row>)
    ensures |r| <= |entries|
    ensures forall row :: row in r ==> row.key in FieldLabels && row.caption == FieldLabels[row.key]
    ensures forall row :: row in r <==> exists e :: e in entries && e.0 in FieldLabels && row == Row(e.0, FieldLabels[e.0], FieldText(e.1))
  {
    if |entries| == 0 then []
    else
      var rest := PatientRows(entries[1..]);
      var (key, value) := entries[0];
      if key in FieldLabels then [Row(key, FieldLabels[key], FieldText(value))] + rest else rest
  }

  /** Unlabelled keys (nik, address, the images, ...) never produce a row, whatever their value. */
  lemma UnlabelledHidden(entries: seq<(string, JsValue)>, key: string)
    requires key !in FieldLabels
    ensures forall row :: row in PatientRows(entries) ==> row.key != key
  {
  }

  /** `qa.question_text || \`Question ${qa.question_id}\`` */
  function QuestionTitle(text: Option<string>, id: int): (r: string)
    ensures text.Some? && text.value != "" ==> r == text.value
    ensures !(text.Some? && text.value != "") ==> r == "Question " + IntToString(id)
  {
    if text.Some? && text.value != "" then text.value else "Question " + IntToString(id)
  }
}
