/**
 * `useScreeningWna` of `hooks/useScreeningWna.ts`: the state of the foreign
 * national (passport) screening form, with a guard on the gender field.
 */
module ScreeningWna {
  import opened Base
  import opened JsString
  import opened ScreeningTypes
  import opened PatientRecord

  /** The fields of `PatientDataWna`, in the order of the initial object. */
  const PatientKeys: seq<string> := [
    "passport_number", "name", "date_of_birth", "gender", "nationality", "email", "contact", "passport_images"]

  const ImageKey: string := "passport_images"
  const GenderKey: string := "gender"

  const Required: seq<RequiredField> := [
    RequiredField("passport_number", "Passport number"),
    RequiredField("name", "Full Name"),
    RequiredField("date_of_birth", "Date Of Birth"),
    RequiredField("gender", "Gender"),
    RequiredField("email", "Email")]

  const MissingPrefix: string := "Please complete the data "

  /** The values `PatientDataWna.gender` may hold: 'male', 'female' or ''. */
  predicate GenderAllowed(v: FieldValue) {
    v == Str("male") || v == Str("female") || v == Str("")
  }

  function InitialPatient(): Record {
    map k | k in PatientKeys :: if k == ImageKey then Null else Str("")
  }

  /** The update `updatePatientData(key, value)` performs: none when it would set an illegal gender. */
  function Updated(rec: Record, key: string, value: FieldValue): (r: Record)
    ensures key == GenderKey && !GenderAllowed(value) ==> r == rec
    ensures !(key == GenderKey && !GenderAllowed(value)) ==> r == rec[key := value]
  {
    if key == GenderKey && !GenderAllowed(value) then rec else rec[key := value]
  }

  class ScreeningWnaForm {
    var patient: Record
    var answers: map<int, AnswerValue>
    var isLoading: bool

    /** The record has exactly the `PatientDataWna` keys and its gender is one of the three allowed values. */
    ghost predicate Valid()
      reads this
    {
      (forall k :: k in patient <==> k in PatientKeys) && GenderAllowed(patient[GenderKey])
    }

    constructor ()
      ensures Valid()
      ensures patient == InitialPatient() && answers == map[] && !isLoading
    {
      patient := InitialPatient();
      answers := map[];
      isLoading := false;
    }

    /** `updatePatientData(key, value)`: an illegal gender is ignored, any other update changes exactly the named field. */
    method UpdatePatientData(key: string, value: FieldValue)
      requires Valid() && key in PatientKeys
      modifies this
      ensures Valid()
      ensures patient == Updated(old(patient), key, value)
      ensures answers == old(answers) && isLoading == old(isLoading)
    {
      if key == GenderKey && value != Str("male") && value != Str("female") && value != Str("") {
        return;
      }
      patient := patient[key := value];
    }

    method UpdateAnswer(questionId: int, answer: AnswerValue)
      modifies this
      ensures answers == old(answers)[questionId := answer]
      ensures patient == old(patient) && isLoading == old(isLoading)
    {
      answers := answers[questionId := answer];
    }

    method SetIsLoading(value: bool)
      modifies this
      ensures isLoading == value && patient == old(patient) && answers == old(answers)
    {
      isLoading := value;
    }

    method ValidatePatientData() returns (ok: bool, toast: Option<string>)
      ensures ok <==> forall f :: f in Required ==> !IsMissing(patient, f.key)
      ensures ok ==> toast.None?
      ensures !ok ==> toast == Some(MissingPrefix + Join(Labels(MissingFields(Required, patient)), ", "))
    {
      match Validate(Required, patient, MissingPrefix) {
        case Passed =>
          ok, toast := true, None;
        case Failed(message) =>
          ok, toast := false, Some(message);
      }
    }
  }

  /** The guard keeps the gender field within 'male', 'female' and ''. */
  lemma GuardKeepsGenderAllowed(rec: Record, key: string, value: FieldValue)
    requires GenderKey in rec && GenderAllowed(rec[GenderKey])
    ensures GenderKey in Updated(rec, key, value) && GenderAllowed(Updated(rec, key, value)[GenderKey])
  {
  }

  /** Validation fails iff one of passport_number, name, date_of_birth, gender, email is absent, null or blank. */
  lemma FailsIffRequiredBlank(rec: Record)
    ensures Validate(Required, rec, MissingPrefix).Failed?
        <==> exists f :: f in Required && (f.key !in rec || rec[f.key].Null? || (rec[f.key].Str? && IsBlank(rec[f.key].s)))
  {
    forall f | f in Required {
      MissingIffBlank(rec, f.key);
    }
  }

  /** nationality and contact are not required: changing them never changes validation. */
  lemma NationalityAndContactOptional(rec: Record, key: string, value: FieldValue)
    requires key == "nationality" || key == "contact"
    ensures Validate(Required, rec[key := value], MissingPrefix) == Validate(Required, rec, MissingPrefix)
  {
    OnlyRequiredFieldsMatter(Required, rec[key := value], rec);
  }

  /** A fresh form reports all five required fields, in order. */
  lemma InitialMissesAllRequired()
    ensures MissingFields(Required, InitialPatient()) == Required
  {
    forall f | f in Required ensures IsMissing(InitialPatient(), f.key) {
      assert f.key in PatientKeys && f.key != ImageKey;
    }
    AllMissingReported(Required, InitialPatient());
  }
}
