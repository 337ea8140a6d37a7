/**
 * The citizen patient form, `components/screening/PatientForm.tsx`: the age
 * computed from the birth date, the effect that writes it into the record,
 * and the age shown under the date input. Dates arrive already parsed.
 */
module PatientForm {
  import opened Base
  import opened JsString
  import opened ScreeningTypes
  import opened PatientRecord
  import Screening

  /** A calendar date as `getFullYear()`, `getMonth()` and `getDate()` report it. */
  datatype CalendarDate = CalendarDate(year: int, month: int, day: int)

  /** `a` is the same day as `b` or a later one. */
  predicate OnOrAfter(a: CalendarDate, b: CalendarDate) {
    a.year > b.year || (a.year == b.year && (a.month > b.month || (a.month == b.month && a.day >= b.day)))
  }

  /** The `n`-th anniversary of `birth`. */
  function Anniversary(birth: CalendarDate, n: int): CalendarDate {
    CalendarDate(birth.year + n, birth.month, birth.day)
  }

  /** On `today` a person born on `birth` is `n` years old: the `n`-th anniversary has been reached and the next has not. */
  predicate IsAgeOn(birth: CalendarDate, today: CalendarDate, n: int) {
    OnOrAfter(today, Anniversary(birth, n)) && !OnOrAfter(today, Anniversary(birth, n + 1))
  }

  /** There is one age per pair of dates. */
  lemma AgeUnique(birth: CalendarDate, today: CalendarDate, n: int, m: int)
    requires IsAgeOn(birth, today, n) && IsAgeOn(birth, today, m)
    ensures n == m
  {
  }

  /** The age as the year difference, one less while this year's (month, day) is before the birth (month, day). */
  function AgeOn(birth: CalendarDate, today: CalendarDate): (n: int)
    ensures IsAgeOn(birth, today, n)
    ensures n == today.year - birth.year || n == today.year - birth.year - 1
  {
    var m := today.month - birth.month;
    if m < 0 || (m == 0 && today.day < birth.day) then today.year - birth.year - 1 else today.year - birth.year
  }

  /** On the birthday itself the age is already the full year difference. */
  lemma BirthdayCounts(birth: CalendarDate, years: int)
    ensures AgeOn(birth, Anniversary(birth, years)) == years
  {
  }

  /** `calculateAge(dateString)`: `birth` is `new Date(dateString)`, `today` is `new Date()`. */
  method CalculateAge(dateString: string, today: CalendarDate, birth: CalendarDate) returns (r: string)
    ensures dateString == "" ==> r == ""
    ensures dateString != "" ==> r == IntToString(AgeOn(birth, today))
  {
    if dateString == "" {
      return "";
    }
    var age := today.year - birth.year;
    var m := today.month - birth.month;
    if m < 0 || (m == 0 && today.day < birth.day) {
      age := age - 1;
    }
    r := IntToString(age);
  }

  /** The birth date text, if the record holds one. */
  function BirthText(rec: Record): string {
    if "date_of_birth" in rec && rec["date_of_birth"].Str? then rec["date_of_birth"].s else ""
  }

  /** The effect on `date_of_birth`: a non-empty birth date overwrites `age` with the computed age. */
  method SyncAge(form: Screening.ScreeningForm, today: CalendarDate, birth: CalendarDate)
    requires form.Valid()
    modifies form
    ensures form.Valid()
    ensures BirthText(old(form.patient)) != "" ==>
      form.patient == old(form.patient)["age" := Str(IntToString(AgeOn(birth, today)))]
    ensures BirthText(old(form.patient)) == "" ==> form.patient == old(form.patient)
    ensures form.answers == old(form.answers) && form.isLoading == old(form.isLoading)
  {
    var dob := BirthText(form.patient);
    if dob != "" {
      var age := CalculateAge(dob, today, birth);
      form.UpdatePatientData("age", Str(age));
    }
  }

  /** The "Umur: … tahun" line: shown only for a non-empty birth date, with the age computed from it. */
  function DisplayedAge(rec: Record, today: CalendarDate, birth: CalendarDate): (r: Option<string>)
    ensures r.None? <==> BirthText(rec) == ""
    ensures r.Some? ==> r.value == IntToString(AgeOn(birth, today))
  {
    if BirthText(rec) == "" then None else Some(IntToString(AgeOn(birth, today)))
  }

  /** Editing the `age` field by hand never changes the displayed age. */
  lemma DisplayIgnoresAgeField(rec: Record, v: FieldValue, today: CalendarDate, birth: CalendarDate)
    ensures DisplayedAge(rec["age" := v], today, birth) == DisplayedAge(rec, today, birth)
  {
    assert BirthText(rec["age" := v]) == BirthText(rec);
  }
}
