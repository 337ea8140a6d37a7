/**
 * The Carstensz (passport) screening page, `app/carstensz/form/page.tsx`:
 * the date normalisation applied to passport OCR output, the mapping of an
 * analysis result into the form, and submission — validation, the offline
 * check, answer formatting and the multipart form fields.
 */
module CarstenszForm {
  import opened Base
  import opened JsString
  import opened ScreeningTypes
  import opened PatientRecord
  import ScreeningWna
  import ApiClient

  /** `/^\d{4}-\d{2}-\d{2}$/`: the whole string is YYYY-MM-DD shaped. */
  predicate IsIsoShape(s: string) {
    |s| == 10 && s[4] == '-' && s[7] == '-' &&
    IsDigit(s[0]) && IsDigit(s[1]) && IsDigit(s[2]) && IsDigit(s[3]) &&
    IsDigit(s[5]) && IsDigit(s[6]) && IsDigit(s[8]) && IsDigit(s[9])
  }

  /** `/(\d{2})-(\d{2})-(\d{4})/` matches at index `i`. */
  predicate DmyAt(s: string, i: int) {
    0 <= i && i + 10 <= |s| &&
    IsDigit(s[i]) && IsDigit(s[i + 1]) && s[i + 2] == '-' &&
    IsDigit(s[i + 3]) && IsDigit(s[i + 4]) && s[i + 5] == '-' &&
    IsDigit(s[i + 6]) && IsDigit(s[i + 7]) && IsDigit(s[i + 8]) && IsDigit(s[i + 9])
  }

  /** The leftmost index at or after `from` where the DD-MM-YYYY pattern matches, as `String.prototype.match` finds it. */
  function FirstDmy(s: string, from: nat): (r: Option<nat>)
    ensures r.Some? ==> from <= r.value && DmyAt(s, r.value)
    ensures r.Some? ==> forall j :: from <= j < r.value ==> !DmyAt(s, j)
    ensures r.None? ==> forall j :: from <= j ==> !DmyAt(s, j)
    decreases |s| - from
  {
    if from + 10 > |s| then None
    else if DmyAt(s, from) then Some(from)
    else FirstDmy(s, from + 1)
  }

  /** `${match[3]}-${match[2]}-${match[1]}` for the match at `i`. */
  function Reorder(s: string, i: nat): (r: string)
    requires DmyAt(s, i)
    ensures IsIsoShape(r)
    ensures r[..4] == s[i + 6..i + 10] && r[5..7] == s[i + 3..i + 5] && r[8..] == s[i..i + 2]
  {
    s[i + 6..i + 10] + "-" + s[i + 3..i + 5] + "-" + s[i..i + 2]
  }

  /** `parseDateToISO(dateStr)` */
  function ParseDateToISO(s: string): (r: string)
    ensures s == "" ==> r == ""
    ensures IsIsoShape(s) ==> r == s
    ensures !IsIsoShape(s) && FirstDmy(s, 0).Some? ==> r == Reorder(s, FirstDmy(s, 0).value)
    ensures FirstDmy(s, 0).None? ==> r == s
  {
    if s == "" then ""
    else if IsIsoShape(s) then s
    else match FirstDmy(s, 0)
      case Some(i) => Reorder(s, i)
      case None => s
  }

  /** Whatever the input, the result is either YYYY-MM-DD shaped or the input itself. */
  lemma ParseDateShape(s: string)
    ensures IsIsoShape(ParseDateToISO(s)) || ParseDateToISO(s) == s
  {
  }

  /** Normalising twice is normalising once. */
  lemma ParseDateIdempotent(s: string)
    ensures ParseDateToISO(ParseDateToISO(s)) == ParseDateToISO(s)
  {
  }

  /** A date written DD-MM-YYYY comes back as YYYY-MM-DD with the same three fields. */
  lemma DmyRoundTrip(d: string, m: string, y: string)
    requires |d| == 2 && |m| == 2 && |y| == 4
    requires forall i :: 0 <= i < 2 ==> IsDigit(d[i]) && IsDigit(m[i])
    requires forall i :: 0 <= i < 4 ==> IsDigit(y[i])
    ensures ParseDateToISO(d + "-" + m + "-" + y) == y + "-" + m + "-" + d
  {
    var s := d + "-" + m + "-" + y;
    assert s[2] == '-' && IsDigit(s[3]);
    assert DmyAt(s, 0);
    assert s[0..2] == d && s[3..5] == m && s[6..10] == y;
  }

  /** The OCR result for a passport: every field may be absent. */
  datatype PassportAnalysis = PassportAnalysis(
    passportNumber: Option<string>, fullName: Option<string>, dateOfBirth: Option<string>,
    gender: Option<string>, nationality: Option<string>)

  /** `x || ''` for an optional string. */
  function OrEmpty(x: Option<string>): string {
    x.GetOr("")
  }

  /** The record after the six `updatePatientData` calls of `handlePassportAnalysis`, each through the gender guard. */
  function ApplyPassport(rec: Record, data: PassportAnalysis, file: FileRef): Record {
    var r1 := ScreeningWna.Updated(rec, "passport_images", Image(file));
    var r2 := ScreeningWna.Updated(r1, "passport_number", Str(OrEmpty(data.passportNumber)));
    var r3 := ScreeningWna.Updated(r2, "name", Str(OrEmpty(data.fullName)));
    var r4 := ScreeningWna.Updated(r3, "date_of_birth", Str(ParseDateToISO(OrEmpty(data.dateOfBirth))));
    var r5 := ScreeningWna.Updated(r4, "gender", Str(GenderText(data)));
    ScreeningWna.Updated(r5, "nationality", Str(OrEmpty(data.nationality)))
  }

  /** Passport analysis sets the image and five fields; absent fields become '', the date is normalised,
      the gender is lower-cased and kept only when the guard accepts it; nothing else changes. */
  lemma PassportFieldsSet(rec: Record, data: PassportAnalysis, file: FileRef)
    ensures var r := ApplyPassport(rec, data, file);
      r["passport_images"] == Image(file)
      && r["passport_number"] == Str(OrEmpty(data.passportNumber))
      && r["name"] == Str(OrEmpty(data.fullName))
      && r["date_of_birth"] == Str(ParseDateToISO(OrEmpty(data.dateOfBirth)))
      && r["nationality"] == Str(OrEmpty(data.nationality))
    ensures ScreeningWna.GenderAllowed(Str(GenderText(data))) ==> ApplyPassport(rec, data, file)["gender"] == Str(GenderText(data))
    ensures !ScreeningWna.GenderAllowed(Str(GenderText(data))) ==>
      ("gender" in ApplyPassport(rec, data, file) <==> "gender" in rec)
      && ("gender" in rec ==> ApplyPassport(rec, data, file)["gender"] == rec["gender"])
    ensures forall k :: k !in {"passport_images", "passport_number", "name", "date_of_birth", "gender", "nationality"} ==>
      (k in ApplyPassport(rec, data, file) <==> k in rec)
      && (k in rec ==> ApplyPassport(rec, data, file)[k] == rec[k])
  {
    assert "passport_images"[9] != "passport_number"[9];
  }

  /** `data['Gender']?.toLowerCase() || ''` */
  function GenderText(data: PassportAnalysis): (r: string)
    ensures data.gender.None? ==> r == ""
    ensures data.gender.Some? ==> r == ToLower(data.gender.value)
  {
    match data.gender
    case Some(g) => ToLower(g)
    case None => ""
  }

  /** An OCR gender of any letter case ('MALE', 'Female', ...) reaches the form; an abbreviation such as
      'M' lower-cases to 'm', which the gender guard rejects, so the previous gender stays. */
  lemma PassportGenderThroughGuard(rec: Record, data: PassportAnalysis, file: FileRef)
    requires "gender" in rec
    ensures data.gender == Some("MALE") ==> ApplyPassport(rec, data, file)["gender"] == Str("male")
    ensures data.gender == Some("Female") ==> ApplyPassport(rec, data, file)["gender"] == Str("female")
    ensures data.gender == Some("M") ==> ApplyPassport(rec, data, file)["gender"] == rec["gender"]
  {
    if data.gender == Some("MALE") {
      assert ToLower("MALE") == "male";
    } else if data.gender == Some("Female") {
      assert ToLower("Female") == "female";
    } else if data.gender == Some("M") {
      assert ToLower("M") == "m";
    }
  }

  /** The value part of one multipart field. */
  datatype FormValue =
    | TextValue(text: string)
    | FileValue(file: FileRef)
    /** `JSON.stringify(formattedAnswers)`; the JSON text itself is not modelled. */
    | AnswersJson(answers: seq<Answer>)

  datatype FormEntry = FormEntry(name: string, value: FormValue)

  const ImageKey: string := "passport_images"

  /** The field one patient key contributes: nothing for null, the file for the passport image, text otherwise
      (`toString()` of any other file is "[object File]"). */
  function FieldEntry(rec: Record, key: string): (r: Option<FormEntry>)
    ensures r.None? <==> key !in rec || rec[key].Null?
    ensures r.Some? ==> r.value.name == key
    ensures key in rec && rec[key].Str? ==> r == Some(FormEntry(key, TextValue(rec[key].s)))
    ensures key == ImageKey && key in rec && rec[key].Image? ==> r == Some(FormEntry(key, FileValue(rec[key].file)))
  {
    if key !in rec then None
    else match rec[key]
      case Null => None
      case Str(s) => Some(FormEntry(key, TextValue(s)))
      case Image(f) => Some(FormEntry(key, if key == ImageKey then FileValue(f) else TextValue("[object File]")))
  }

  /** The patient fields in `keys` order, null values left out. */
  function PatientEntries(rec: Record, keys: seq<string>): (r: seq<FormEntry>)
    ensures |r| <= |keys|
    ensures forall e :: e in r ==> e.name in keys && FieldEntry(rec, e.name) == Some(e)
  {
    if |keys| == 0 then []
    else
      var init := PatientEntries(rec, keys[..|keys| - 1]);
      match FieldEntry(rec, keys[|keys| - 1])
      case Some(e) => init + [e]
      case None => init
  }

  /** Every key with a non-null value gets a field. */
  lemma {:induction false} EveryPresentFieldSent(rec: Record, keys: seq<string>, key: string)
    requires key in keys && key in rec && !rec[key].Null?
    ensures exists e :: e in PatientEntries(rec, keys) && e.name == key
  {
    var last := keys[|keys| - 1];
    if key == last {
      var e := FieldEntry(rec, key).value;
      assert e in PatientEntries(rec, keys);
    } else {
      assert key in keys[..|keys| - 1];
      EveryPresentFieldSent(rec, keys[..|keys| - 1], key);
      var e :| e in PatientEntries(rec, keys[..|keys| - 1]) && e.name == key;
      assert e in PatientEntries(rec, keys);
    }
  }

  /** The `Object.keys(patientData).forEach` loop: appends one field per non-null value, in key order. */
  method AppendPatientFields(rec: Record, keys: seq<string>) returns (form: seq<FormEntry>)
    ensures form == PatientEntries(rec, keys)
  {
    form := [];
    var i := 0;
    while i < |keys|
      invariant 0 <= i <= |keys|
      invariant form == PatientEntries(rec, keys[..i])
    {
      assert keys[..i + 1][..i] == keys[..i];
      var value := if keys[i] in rec then rec[keys[i]] else Null;
      if value != Null {
        if keys[i] == ImageKey && value.Image? {
          form := form + [FormEntry(keys[i], FileValue(value.file))];
        } else {
          form := form + [FormEntry(keys[i], TextValue(if value.Str? then value.s else "[object File]"))];
        }
      }
      i := i + 1;
    }
    assert keys[..|keys|] == keys;
  }

  /** `Object.keys(answers).map(id => ({questioner_id: parseInt(id), answer: answers[id]}))`, with the
      key enumeration order given as `order`. */
  function FormatAnswers(answers: map<int, AnswerValue>, order: seq<int>): (r: seq<Answer>)
    requires forall i :: 0 <= i < |order| ==> order[i] in answers
    ensures |r| == |order|
    ensures forall i :: 0 <= i < |order| ==> r[i] == Answer(order[i], answers[order[i]])
  {
    seq(|order|, i requires 0 <= i < |order| => Answer(order[i], answers[order[i]]))
  }

  /** When `order` lists each answer-map key once, each question id yields exactly one entry, carrying its answer. */
  lemma OneEntryPerKey(answers: map<int, AnswerValue>, order: seq<int>, id: int)
    requires forall k :: k in order <==> k in answers
    requires forall i, j :: 0 <= i < j < |order| ==> order[i] != order[j]
    requires id in answers
    ensures exists i :: 0 <= i < |order| && FormatAnswers(answers, order)[i] == Answer(id, answers[id])
    ensures forall i, j ::
      0 <= i < |order| && 0 <= j < |order| &&
      FormatAnswers(answers, order)[i].questionerId == id && FormatAnswers(answers, order)[j].questionerId == id
      ==> i == j
  {
    var i :| 0 <= i < |order| && order[i] == id;
    assert FormatAnswers(answers, order)[i] == Answer(id, answers[id]);
  }

  /** The submission endpoint's reply: its `status`, `data.patient.uuid` and `message`, if any. */
  datatype SubmitReply = SubmitReply(status: string, uuid: Option<string>, message: Option<string>)

  const OfflineMessage: string := "No internet connection. Please check your connection"
  const SubmitFailedMessage: string := "Gagal mengirim data. Silakan coba lagi."
  const ThanksPath: string := "/carstensz/thanks"
  const SubmitPath: string := "/screening/cartensz"

  /** `response.status === 'success' && response.data?.patient?.uuid`: a truthy uuid is a non-empty one. */
  predicate Accepted(reply: Result<SubmitReply, ApiClient.CallFailure>) {
    reply.Success? && reply.value.status == "success" && reply.value.uuid.Some? && reply.value.uuid.value != ""
  }

  /** What the client's interceptors see of the submission: the reply's message, or the failure. */
  function InterceptorReply(reply: Result<SubmitReply, ApiClient.CallFailure>): (r: Result<Option<string>, ApiClient.CallFailure>)
    ensures reply.Success? <==> r.Success?
    ensures reply.Success? ==> r.value == reply.value.message
    ensures reply.Failure? ==> r.error == reply.error
  {
    match reply
    case Success(v) => Success(v.message)
    case Failure(f) => Failure(f)
  }

  /** The submission ends the session: a 401 on it, in a browser. */
  predicate SubmitEndsSession(reply: Result<SubmitReply, ApiClient.CallFailure>, inBrowser: bool) {
    reply.Failure? && ApiClient.EndsSession(ApiClient.CallError(SubmitPath, reply.error), inBrowser)
  }

  /** The page around the passport screening hook and the API client; toasts go to the client's single toast
      log, and navigations and sent forms are recorded. */
  class ScreeningPage {
    const form: ScreeningWna.ScreeningWnaForm
    const api: ApiClient.Client
    var navigations: seq<string>
    var sent: seq<seq<FormEntry>>

    constructor (form: ScreeningWna.ScreeningWnaForm, api: ApiClient.Client)
      ensures this.form == form && this.api == api && navigations == [] && sent == []
    {
      this.form := form;
      this.api := api;
      navigations, sent := [], [];
    }

    /** `handlePassportAnalysis(data, file)`: six guarded updates of the hook's record. */
    method HandlePassportAnalysis(data: PassportAnalysis, file: FileRef)
      requires form.Valid()
      modifies form
      ensures form.Valid()
      ensures form.patient == ApplyPassport(old(form.patient), data, file)
      ensures form.answers == old(form.answers) && form.isLoading == old(form.isLoading)
    {
      form.UpdatePatientData("passport_images", Image(file));
      form.UpdatePatientData("passport_number", Str(OrEmpty(data.passportNumber)));
      form.UpdatePatientData("name", Str(OrEmpty(data.fullName)));
      form.UpdatePatientData("date_of_birth", Str(ParseDateToISO(OrEmpty(data.dateOfBirth))));
      form.UpdatePatientData("gender", Str(GenderText(data)));
      form.UpdatePatientData("nationality", Str(OrEmpty(data.nationality)));
    }

    /** The awaited submission: the interceptors' toast, then the thanks page or the page's failure toast. */
    method Deliver(reply: Result<SubmitReply, ApiClient.CallFailure>)
      modifies this, api
      ensures sent == old(sent)
      ensures Accepted(reply) ==>
        navigations == old(navigations) + [ThanksPath]
        && api.toasts == old(api.toasts) + [ApiClient.PostToast(SubmitPath, InterceptorReply(reply), api.inBrowser)]
      ensures !Accepted(reply) ==>
        navigations == old(navigations)
        && api.toasts == old(api.toasts) + [ApiClient.PostToast(SubmitPath, InterceptorReply(reply), api.inBrowser),
                                            ApiClient.ErrorToast(Some(SubmitFailedMessage))]
      ensures !SubmitEndsSession(reply, api.inBrowser) ==>
        api.token == old(api.token) && api.storage == old(api.storage) && api.cookies == old(api.cookies)
        && api.location == old(api.location)
      ensures SubmitEndsSession(reply, api.inBrowser) ==>
        api.token.None? && api.storage == old(api.storage) - ApiClient.AuthKeys
        && api.cookies == old(api.cookies) - ApiClient.AuthKeys && api.location == Some(ApiClient.LoginPath)
    {
      api.Post(SubmitPath, InterceptorReply(reply));
      if Accepted(reply) {
        navigations := navigations + [ThanksPath];
      } else {
        api.toasts := api.toasts + [ApiClient.ErrorToast(Some(SubmitFailedMessage))];
      }
    }

    /** `handleSubmit`: `online` is `navigator.onLine`, `order` the keys of the answers as `Object.keys`
        enumerates them (each once), `reply` the awaited submission. Question validation always passes. The
        POST goes through the client's interceptors, whose toast comes before the page's own failure toast. */
    method HandleSubmit(online: bool, order: seq<int>, reply: Result<SubmitReply, ApiClient.CallFailure>)
      requires form.Valid()
      requires forall i :: 0 <= i < |order| ==> order[i] in form.answers
      requires forall k :: k in form.answers ==> k in order
      requires forall i, j :: 0 <= i < j < |order| ==> order[i] != order[j]
      modifies this, form, api
      ensures form.Valid() && form.patient == old(form.patient) && form.answers == old(form.answers)
      ensures Validate(ScreeningWna.Required, form.patient, ScreeningWna.MissingPrefix).Failed? ==>
        sent == old(sent) && navigations == old(navigations) && form.isLoading == old(form.isLoading)
        && api.toasts == old(api.toasts) + [ApiClient.ErrorToast(Some(Validate(ScreeningWna.Required, form.patient, ScreeningWna.MissingPrefix).toast))]
      ensures Validate(ScreeningWna.Required, form.patient, ScreeningWna.MissingPrefix).Passed? && !online ==>
        sent == old(sent) && navigations == old(navigations) && form.isLoading == old(form.isLoading)
        && api.toasts == old(api.toasts) + [ApiClient.ErrorToast(Some(OfflineMessage))]
      ensures Validate(ScreeningWna.Required, form.patient, ScreeningWna.MissingPrefix).Passed? && online ==>
        sent == old(sent) + [PatientEntries(form.patient, ScreeningWna.PatientKeys)
                             + [FormEntry("answers", AnswersJson(FormatAnswers(form.answers, order)))]]
        && !form.isLoading
        && (Accepted(reply) ==>
              navigations == old(navigations) + [ThanksPath]
              && api.toasts == old(api.toasts) + [ApiClient.PostToast(SubmitPath, InterceptorReply(reply), api.inBrowser)])
        && (!Accepted(reply) ==>
              navigations == old(navigations)
              && api.toasts == old(api.toasts) + [ApiClient.PostToast(SubmitPath, InterceptorReply(reply), api.inBrowser),
                                                  ApiClient.ErrorToast(Some(SubmitFailedMessage))])
      ensures !(Validate(ScreeningWna.Required, form.patient, ScreeningWna.MissingPrefix).Passed? && online
                && SubmitEndsSession(reply, api.inBrowser)) ==>
        api.token == old(api.token) && api.storage == old(api.storage) && api.cookies == old(api.cookies)
        && api.location == old(api.location)
      ensures Validate(ScreeningWna.Required, form.patient, ScreeningWna.MissingPrefix).Passed? && online
              && SubmitEndsSession(reply, api.inBrowser) ==>
        api.token.None? && api.storage == old(api.storage) - ApiClient.AuthKeys
        && api.cookies == old(api.cookies) - ApiClient.AuthKeys && api.location == Some(ApiClient.LoginPath)
    {
      var ok, message := form.ValidatePatientData();
      if !ok {
        api.toasts := api.toasts + [ApiClient.ErrorToast(message)];
        return;
      }
      if !online {
        api.toasts := api.toasts + [ApiClient.ErrorToast(Some(OfflineMessage))];
        return;
      }
      Send(order, reply);
    }

    /** The `try`/`finally` of `handleSubmit` once validation passed and the browser is online: the form is
        built and sent, the reply delivered, and `isLoading` is set for the call and reset afterwards. */
    method Send(order: seq<int>, reply: Result<SubmitReply, ApiClient.CallFailure>)
      requires form.Valid()
      requires forall i :: 0 <= i < |order| ==> order[i] in form.answers
      modifies this, form, api
      ensures form.Valid() && form.patient == old(form.patient) && form.answers == old(form.answers) && !form.isLoading
      ensures sent == old(sent) + [PatientEntries(form.patient, ScreeningWna.PatientKeys)
                                   + [FormEntry("answers", AnswersJson(FormatAnswers(form.answers, order)))]]
      ensures Accepted(reply) ==>
        navigations == old(navigations) + [ThanksPath]
        && api.toasts == old(api.toasts) + [ApiClient.PostToast(SubmitPath, InterceptorReply(reply), api.inBrowser)]
      ensures !Accepted(reply) ==>
        navigations == old(navigations)
        && api.toasts == old(api.toasts) + [ApiClient.PostToast(SubmitPath, InterceptorReply(reply), api.inBrowser),
                                            ApiClient.ErrorToast(Some(SubmitFailedMessage))]
      ensures !SubmitEndsSession(reply, api.inBrowser) ==>
        api.token == old(api.token) && api.storage == old(api.storage) && api.cookies == old(api.cookies)
        && api.location == old(api.location)
      ensures SubmitEndsSession(reply, api.inBrowser) ==>
        api.token.None? && api.storage == old(api.storage) - ApiClient.AuthKeys
        && api.cookies == old(api.cookies) - ApiClient.AuthKeys && api.location == Some(ApiClient.LoginPath)
    {
      form.SetIsLoading(true);
      var formatted := FormatAnswers(form.answers, order);
      var fields := AppendPatientFields(form.patient, ScreeningWna.PatientKeys);
      fields := fields + [FormEntry("answers", AnswersJson(formatted))];
      sent := sent + [fields];
      Deliver(reply);
      form.SetIsLoading(false);
    }
  }
}
