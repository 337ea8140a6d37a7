/**
 * `useScreening` of `hooks/useScreening.ts`: the state of the citizen (KTP)
 * screening form, a patient record and an answer map, replaced key by key.
 */
module Screening {
  import opened Base
  import opened JsString
  import opened ScreeningTypes
  import opened PatientRecord

  /** The fields of `PatientData`, in the order of the initial object. */
  const PatientKeys: seq<string> := [
    "nik", "name", "email", "age", "gender", "contact", "place_of_birth", "date_of_birth",
    "address", "rt_rw", "village", "district", "religion", "marital_status", "occupation",
    "nationality", "valid_until", "blood_type", "ktp_images", "tinggi_badan", "berat_badan"]

  const ImageKey: string := "ktp_images"

  /** `requiredFields`, in order. */
  const Required: seq<RequiredField> := [
    RequiredField("nik", "NIK"),
    RequiredField("name", "Nama"),
    RequiredField("place_of_birth", "Tempat Lahir"),
    RequiredField("date_of_birth", "Tanggal Lahir"),
    RequiredField("gender", "Jenis Kelamin"),
    RequiredField("address", "Alamat"),
    RequiredField("email", "Email"),
    RequiredField("contact", "Nomor Telepon")]

  const MissingPrefix: string := "Silakan lengkapi data: "

  /** The initial `patientData`: every text field '', the image null. */
  function InitialPatient(): Record {
    map k | k in PatientKeys :: if k == ImageKey then Null else Str("")
  }

  /** The initial record lacks every required field: all eight are reported, in order. */
  lemma InitialMissesAllRequired()
    ensures MissingFields(Required, InitialPatient()) == Required
    ensures forall k :: k in PatientKeys ==> k in InitialPatient()
  {
    forall f | f in Required ensures IsMissing(InitialPatient(), f.key) {
      assert f.key in PatientKeys && f.key != ImageKey;
    }
    AllMissingReported(Required, InitialPatient());
  }

  /** The hook's state. */
  class ScreeningForm {
    var patient: Record
    var answers: map<int, AnswerValue>
    var isLoading: bool

    /** The record always has exactly the `PatientData` keys. */
    ghost predicate Valid()
      reads this
    {
      forall k :: k in patient <==> k in PatientKeys
    }

    constructor ()
      ensures Valid()
      ensures patient == InitialPatient() && answers == map[] && !isLoading
    {
      patient := InitialPatient();
      answers := map[];
      isLoading := false;
    }

    /** `updatePatientData(key, value)`: exactly the named field changes. */
    method UpdatePatientData(key: string, value: FieldValue)
      requires Valid() && key in PatientKeys
      modifies this
      ensures Valid()
      ensures patient == old(patient)[key := value]
      ensures answers == old(answers) && isLoading == old(isLoading)
    {
      patient := patient[key := value];
    }

    /** `updateAnswer(questionId, answer)`: sets or overwrites one entry. */
    method UpdateAnswer(questionId: int, answer: AnswerValue)
      modifies this
      ensures answers == old(answers)[questionId := answer]
      ensures patient == old(patient) && isLoading == old(isLoading)
    {
      answers := answers[questionId := answer];
    }

    /** `setIsLoading(value)` */
    method SetIsLoading(value: bool)
      modifies this
      ensures isLoading == value && patient == old(patient) && answers == old(answers)
    {
      isLoading := value;
    }

    /** `validatePatientData()`: the result and the error toast it shows; the record is only read. */
    method ValidatePatientData() returns (ok: bool, toast: Option<string>)
      ensures ok <==> forall f :: f in Required ==> !IsMissing(patient, f.key)
      ensures ok ==> toast.None?
      ensures !ok ==> toast == Some(MissingPrefix + Join(Labels(MissingFields(Required, patient)), ", "))
    {
      match Validate(Required, patient, MissingPrefix) {
        case Passed =>
          ok, toast := true, None;
        case Failed(message) =>
          ok, toast := false, Some(message);
      }
    }
  }

  /** Validation fails iff one of the eight required fields is absent, null or white space only. */
  lemma FailsIffRequiredBlank(rec: Record)
    ensures Validate(Required, rec, MissingPrefix).Failed?
        <==> exists f :: f in Required && (f.key !in rec || rec[f.key].Null? || (rec[f.key].Str? && IsBlank(rec[f.key].s)))
  {
    forall f | f in Required {
      MissingIffBlank(rec, f.key);
    }
  }

  /** Changing a field that is not required (rt_rw, village, blood_type, height, weight, ...) never changes validation. */
  lemma NonRequiredFieldIrrelevant(rec: Record, key: string, value: FieldValue)
    requires forall f :: f in Required ==> f.key != key
    ensures Validate(Required, rec[key := value], MissingPrefix) == Validate(Required, rec, MissingPrefix)
  {
    OnlyRequiredFieldsMatter(Required, rec[key := value], rec);
  }
}
