/**
 * The patient record both screening hooks hold, and the required-field check
 * their `validatePatientData` runs: filter the required fields whose value is
 * falsy or trims to '', then join the labels of those fields with ', '.
 */
module PatientRecord {
  import opened Base
  import opened JsString
  import opened ScreeningTypes

  /** A patient record as a JavaScript object: field name to value. */
  type Record = map<string, FieldValue>

  /** One entry of `requiredFields`. */
  datatype RequiredField = RequiredField(key: string, caption: string)

  /** `!patientData[key] || patientData[key].toString().trim() === ''`; an image is never missing
      (its string form is "[object File]"). */
  predicate IsMissing(rec: Record, key: string) {
    key !in rec ||
    match rec[key]
    case Null => true
    case Str(s) => s == "" || Trim(s) == ""
    case Image(_) => false
  }

  /** A field is missing exactly when it is absent, null, or a white-space-only string. */
  lemma MissingIffBlank(rec: Record, key: string)
    ensures IsMissing(rec, key) <==> key !in rec || rec[key].Null? || (rec[key].Str? && IsBlank(rec[key].s))
  {
    if key in rec && rec[key].Str? {
      TrimEmptyIffBlank(rec[key].s);
    }
  }

  /** `requiredFields.filter(f => missing)` */
  function MissingFields(required: seq<RequiredField>, rec: Record): (r: seq<RequiredField>)
    ensures forall f :: f in r <==> f in required && IsMissing(rec, f.key)
    ensures IsSubsequence(r, required)
    ensures |r| <= |required|
  {
    if |required| == 0 then []
    else
      var rest := MissingFields(required[1..], rec);
      if IsMissing(rec, required[0].key) then [required[0]] + rest
      else SubsequenceExtend(rest, required); rest
  }

  /** `missing.map(f => f.label)` */
  function Labels(fields: seq<RequiredField>): (r: seq<string>)
    ensures |r| == |fields| && forall i :: 0 <= i < |fields| ==> r[i] == fields[i].caption
  {
    seq(|fields|, i requires 0 <= i < |fields| => fields[i].caption)
  }

  /** The outcome of `validatePatientData`: pass, or fail with the error toast. */
  datatype Validation = Passed | Failed(toast: string)

  function Validate(required: seq<RequiredField>, rec: Record, prefix: string): (v: Validation)
    ensures v.Passed? <==> forall f :: f in required ==> !IsMissing(rec, f.key)
    ensures v.Failed? ==> v.toast == prefix + Join(Labels(MissingFields(required, rec)), ", ")
  {
    var missing := MissingFields(required, rec);
    if |missing| > 0 then Failed(prefix + Join(Labels(missing), ", ")) else Passed
  }

  /** Two records that agree on the required keys validate alike: fields that are not required never matter. */
  lemma {:induction false} OnlyRequiredFieldsMatter(required: seq<RequiredField>, a: Record, b: Record)
    requires forall f :: f in required ==> (f.key in a <==> f.key in b) && (f.key in a ==> a[f.key] == b[f.key])
    ensures MissingFields(required, a) == MissingFields(required, b)
  {
    if |required| > 0 {
      assert required[0] in required;
      OnlyRequiredFieldsMatter(required[1..], a, b);
    }
  }

  /** When every required field is missing, all of them are reported, in order. */
  lemma {:induction false} AllMissingReported(required: seq<RequiredField>, rec: Record)
    requires forall f :: f in required ==> IsMissing(rec, f.key)
    ensures MissingFields(required, rec) == required
  {
    if |required| > 0 {
      assert required[0] in required;
      AllMissingReported(required[1..], rec);
    }
  }
}
