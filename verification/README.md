# Carstensz front end: gating, forms and client decisions in Dafny

This project models the decision logic of the Carstensz screening front end, a
Next.js application used by patients filling in a health screening, and by
admin, nurse, cashier and doctor staff working on dashboards. The model covers:

- who may see which route: the edge middleware, the two client-side guards and
  the login form's landing route;
- the patient-data hooks: their held record, their key-by-key updates, the
  passport gender guard and the required-field validation;
- the answer-update rules of the two questionnaires: exclusive "none" options,
  single-choice checkbox-with-text answers, section headings and numbering;
- the Carstensz submission page: date normalisation, passport field mapping and
  the form it posts;
- the screening detail view, the patient form's age, and the KTP and passport
  upload widgets;
- the two paginated tables, the API client's token and error handling, the
  payment report form and the API proxy route.

Each source file is one module. Shared logic sits in shared modules:

- `Roles` holds the four-role dashboard table.
- `PatientRecord` holds the required-field validation used by both hooks.
- `AnswerRules` holds the checkbox rules, parameterised by the sentinel texts.
- `Upload` holds the upload flow shared by both widgets.
- `PaymentReport` holds the report form used by both services.
- `JsString` models the JavaScript string operations the code relies on.

State that the source updates in place is a class with `modifies` clauses. This
covers the screening hooks, the `withAuth` component, the login form, the
upload widget, the doctor page, the submission page and the API client. Browser
effects are recorded in fields: toasts, router calls, local storage, cookies and
`window.location`. Awaited results are parameters of the method that continues
after the `await`.

## Model

| member | source | states |
|---|---|---|
| Roles.ParseRole | middleware.ts:7-12 | a role string maps to a role exactly when it is admin, nurse, cashier or doctor, and then to the role of that name |
| Roles.DashboardPath | middleware.ts:7-12 | every role's dashboard is `/dashboard/` followed by the role name |
| Roles.IncludesIffParsesToAllowed | lib/authWrapper.tsx:39 | `allowedRoles.includes(role)` holds iff the string names one of the allowed roles |
| Middleware.CurrentRolePath | middleware.ts:24 | the role path is under `/dashboard` and is never the login page; a known role gets `/dashboard/<role>`, any other role `/dashboard` |
| Middleware.Decide | middleware.ts:3-49 | the whole decision; its lemmas below state the logged-out gate, the login-page redirect, the management and role-prefix rules, the redirect targets and the absence of redirect loops |
| Middleware.Route | middleware.ts:51-53 | unmatched paths pass; matched paths get the middleware's decision |
| Middleware.LoginNotUnderDashboard | middleware.ts:15-31 | `/auth/login` does not start with `/dashboard` |
| Middleware.LoggedOutGate | middleware.ts:15-22 | with no role cookie, a path redirects to `/auth/login` iff it starts with `/dashboard`; every other path passes |
| Middleware.LoginPageRedirectsToRolePath | middleware.ts:27-31 | a logged-in user asking for `/auth/login` is redirected to the role path, which is `/dashboard/<role>` for a known role |
| Middleware.UnknownRoleNeverRedirectedInDashboard | middleware.ts:24-46 | a role outside the table is never redirected on any `/dashboard` path |
| Middleware.ManagementOpenToAllRoles | middleware.ts:36-38 | every path under `/dashboard/management` passes for every logged-in role |
| Middleware.DashboardPrefixEnforced | middleware.ts:41-45 | any other `/dashboard` path redirects to the role path iff it does not start with it, and passes iff it does |
| Middleware.PrefixIsNotSegmentMatch | middleware.ts:41 | the test is a raw prefix: admin passes on `/dashboard/administrator` |
| Middleware.OutsideDashboardPasses | middleware.ts:48 | a logged-in user's paths outside `/dashboard`, other than the login page, pass |
| Middleware.RedirectTargets | middleware.ts:15-46 | a redirect goes to `/auth/login` when logged out and to the role path when logged in |
| Middleware.NoRedirectLoop | middleware.ts:15-46 | the target of any redirect passes on the next request with the same cookie |
| Middleware.MatcherNarrowsPrefix | middleware.ts:51-53 | `/dashboardx` would be redirected by the function but is not matched, so it passes |
| AuthWrapper.Gate | lib/authWrapper.tsx:25-55 | the rendered view and the redirect; its lemmas below state the spinner while loading, login on failure, the mismatch and unknown-role targets, and children iff allowed |
| AuthWrapper.LoadingShowsSpinnerOnly | lib/authWrapper.tsx:25-31 | while `me` loads, only the spinner renders and no redirect is issued |
| AuthWrapper.FailureGoesToLogin | lib/authWrapper.tsx:34-37 | an errored or empty result renders nothing and replaces the route with `/auth/login` |
| AuthWrapper.MismatchGoesToOwnDashboard | lib/authWrapper.tsx:39-47 | a known role outside `allowedRoles` renders nothing and goes to its own dashboard |
| AuthWrapper.UnknownRoleGoesToLogin | lib/authWrapper.tsx:46-50 | a role outside the role map goes to `/auth/login` |
| AuthWrapper.ChildrenIffAllowed | lib/authWrapper.tsx:34-55 | children render iff the query settled with data whose role is allowed, and never together with a redirect |
| AuthWrapper.DashboardRedirectPassesMiddleware | lib/authWrapper.tsx:39-47 | the dashboard a mismatched role is sent to is let through by the middleware for that role's cookie |
| WithAuth.FetchUser | lib/withAuth.tsx:14-18 | the fetch fails iff the network failed, the response is not ok, or its body is not a readable object, and otherwise yields the body's role |
| WithAuth.FailureTarget | lib/withAuth.tsx:45 | the failure target is `redirectTo` when non-empty, else `/auth/login` |
| WithAuth.Settle | lib/withAuth.tsx:30-46 | a role is stored only if allowed and then nothing navigates; without a stored role some navigation is issued |
| WithAuth.ProtectedComponent.constructor | lib/withAuth.tsx:26-27 | the component starts loading, with no role and no navigation |
| WithAuth.ProtectedComponent.OnFetched | lib/withAuth.tsx:29-49 | after any outcome `isLoading` is false, the stored role and the navigations follow `Settle`, and the stored role stays allowed |
| WithAuth.ProtectedComponent.Render | lib/withAuth.tsx:52-65 | the spinner shows iff loading; the component renders iff loading is done and a role is set |
| WithAuth.FailureRedirects | lib/withAuth.tsx:44-46 | a failed fetch stores no role and navigates to `redirectTo` or `/auth/login` |
| WithAuth.MismatchRedirects | lib/withAuth.tsx:32-39 | a role outside `allowedRoles` stores nothing and goes to its own dashboard, or to `router.replace(undefined)` for a role outside the map |
| WithAuth.AllowedRoleStored | lib/withAuth.tsx:41 | an allowed role is stored and nothing navigates |
| WithAuth.RendersOnlyAllowed | lib/withAuth.tsx:41-65 | the wrapped component renders only after loading and only for a role in `allowedRoles` |
| LoginForm.LandingRoute | components/login-form.tsx:37-52 | admin, nurse, cashier and doctor land on `/dashboard/<role>`; any other role lands on `/dashboard/dashboard` |
| LoginForm.ErrorMessage | components/login-form.tsx:55-59 | the message is `data.message` if non-empty, else `data.error` if non-empty, else 'Email atau password salah'; it is never empty |
| LoginForm.LoginForm.constructor | components/login-form.tsx:21-23 | the form starts idle, with no error, no cookie and no navigation |
| LoginForm.LoginForm.BeginSubmit | components/login-form.tsx:27-28 | a submit clears the error and sets `loading` |
| LoginForm.LoginForm.FinishSubmit | components/login-form.tsx:31-61 | on success the `user_role` cookie holds the returned role and the landing route is pushed; on failure the error follows `ErrorMessage`; `loading` ends false |
| LoginForm.LoginForm.HandleSubmit | components/login-form.tsx:25-61 | a whole submit ends with `loading` false, the error cleared on success or set from `ErrorMessage` on failure, and the cookie written only on success |
| LoginForm.LandingPassesMiddleware | components/login-form.tsx:34-52 | for any non-empty role, the middleware lets the landing route through on the next request |
| LoginForm.EmptyRoleLandsOnLogin | components/login-form.tsx:34-52 | an empty role writes an empty cookie, and the landing route then redirects to `/auth/login` |
| PatientRecord.MissingIffBlank | hooks/useScreening.ts:53-55 | a field is missing iff it is absent, null or white space only |
| PatientRecord.MissingFields | hooks/useScreening.ts:53-56 | the missing fields are exactly the required fields that are missing, in required order |
| PatientRecord.Labels | hooks/useScreening.ts:58 | the labels are the missing fields' captions, one per field, in order |
| PatientRecord.Validate | hooks/useScreening.ts:41-64 | validation passes iff no required field is missing; a failure's toast is the prefix plus the missing captions joined by ', ' |
| PatientRecord.OnlyRequiredFieldsMatter | hooks/useScreening.ts:42-56 | two records that agree on the required keys report the same missing fields |
| PatientRecord.AllMissingReported | hooks/useScreening.ts:53-59 | when every required field is missing, all of them are reported in order |
| Screening.InitialMissesAllRequired | hooks/useScreening.ts:6-28 | the initial record holds every `PatientData` key, and all eight required fields are reported missing, in order |
| Screening.ScreeningForm.constructor | hooks/useScreening.ts:6-31 | the hook starts with the initial record, an empty answer map and `isLoading` false |
| Screening.ScreeningForm.UpdatePatientData | hooks/useScreening.ts:33-35 | exactly the named field takes the new value; the answers and the key set are unchanged |
| Screening.ScreeningForm.UpdateAnswer | hooks/useScreening.ts:37-39 | exactly the given question's answer is set or overwritten |
| Screening.ScreeningForm.SetIsLoading | hooks/useScreening.ts:31 | only `isLoading` changes |
| Screening.ScreeningForm.ValidatePatientData | hooks/useScreening.ts:41-64 | the result is true iff no required field is missing, and a failure shows 'Silakan lengkapi data: ' plus the missing captions; the record is only read |
| Screening.FailsIffRequiredBlank | hooks/useScreening.ts:42-63 | validation fails iff one of nik, name, place_of_birth, date_of_birth, gender, address, email, contact is missing |
| Screening.NonRequiredFieldIrrelevant | hooks/useScreening.ts:42-51 | changing a field outside the required list never changes the validation outcome |
| ScreeningWna.Updated | hooks/useScreeningWna.ts:20-25 | a gender other than 'male', 'female' or '' leaves the record unchanged; any other update sets exactly the named field |
| ScreeningWna.ScreeningWnaForm.constructor | hooks/useScreeningWna.ts:6-18 | the hook starts with the initial record, an empty answer map and `isLoading` false |
| ScreeningWna.ScreeningWnaForm.UpdatePatientData | hooks/useScreeningWna.ts:20-25 | the record becomes `Updated(record, key, value)`, keeping the gender within the allowed values |
| ScreeningWna.ScreeningWnaForm.UpdateAnswer | hooks/useScreeningWna.ts:27-29 | exactly the given question's answer is set or overwritten |
| ScreeningWna.ScreeningWnaForm.SetIsLoading | hooks/useScreeningWna.ts:18 | only `isLoading` changes |
| ScreeningWna.ScreeningWnaForm.ValidatePatientData | hooks/useScreeningWna.ts:31-51 | the result is true iff no required field is missing, and a failure shows 'Please complete the data ' plus the missing captions |
| ScreeningWna.GuardKeepsGenderAllowed | hooks/useScreeningWna.ts:22 | no update can put an illegal value in the gender field |
| ScreeningWna.FailsIffRequiredBlank | hooks/useScreeningWna.ts:32-50 | validation fails iff one of passport_number, name, date_of_birth, gender, email is missing |
| ScreeningWna.NationalityAndContactOptional | hooks/useScreeningWna.ts:32-38 | nationality and contact never change the validation outcome |
| ScreeningWna.InitialMissesAllRequired | hooks/useScreeningWna.ts:6-15 | the initial record reports all five required fields, in order |
| AnswerRules.CurrentSelection | app/carstensz/form/Questionnaire.tsx:72 | a stored list is the selection; anything else counts as none |
| AnswerRules.DropContaining | app/carstensz/form/Questionnaire.tsx:78-79 | the kept entries are exactly those not containing the marker, in their original order |
| AnswerRules.DropEqual | app/carstensz/form/Questionnaire.tsx:80 | the kept entries are exactly those different from the option, in their original order |
| AnswerRules.ToggleCheckbox | app/carstensz/form/Questionnaire.tsx:73-80 | checking a "none" option gives exactly that option; checking another drops "none" entries and appends it; unchecking drops every equal entry |
| AnswerRules.CheckSelectsExclusively | app/carstensz/form/Questionnaire.tsx:73-79 | after any check the option is selected, and a "none" entry is the only entry |
| AnswerRules.UncheckPreservesExclusive | app/carstensz/form/Questionnaire.tsx:80 | unchecking deselects the option, keeps the rest in order and keeps "none" exclusive |
| AnswerRules.ToggleKeepsOthers | app/carstensz/form/Questionnaire.tsx:78-80 | an unrelated option stays selected iff it was selected |
| AnswerRules.SelectedOptions | app/carstensz/form/Questionnaire.tsx:93-94 | the stored combined answer's options, or none |
| AnswerRules.TextareaValue | app/carstensz/form/Questionnaire.tsx:93-94 | the stored free text, or '' |
| AnswerRules.ToggleCombo | app/carstensz/form/Questionnaire.tsx:104-108 | checking selects only the option, unchecking selects nothing, and the text is kept only for the designated option |
| AnswerRules.EditComboText | app/carstensz/form/Questionnaire.tsx:117-126 | editing the text keeps the selection and stores the new text |
| AnswerRules.ComboSingleChoice | app/carstensz/form/Questionnaire.tsx:104 | a toggled combined answer holds at most one option, and its text box shows iff the designated option is the one selected |
| AnswerRules.EditKeepsSelection | app/carstensz/form/Questionnaire.tsx:117-126 | editing keeps the text box shown and reads back the typed text |
| AnswerRules.OtherOptionClearsText | app/carstensz/form/Questionnaire.tsx:107-108 | toggling any other option leaves the text '' |
| CarstenszQuestionnaire.InputFor | app/carstensz/form/Questionnaire.tsx:25-155 | number, checkbox and checkbox_textarea questions get their own controls, and no other type shares them |
| CarstenszQuestionnaire.InputForInjective | app/carstensz/form/Questionnaire.tsx:25-155 | distinct question types render distinct controls |
| CarstenszQuestionnaire.OnCheckboxChange | app/carstensz/form/Questionnaire.tsx:64-89 | the new answer is the toggled list with 'None of the above' as the exclusive marker |
| CarstenszQuestionnaire.OnComboChange | app/carstensz/form/Questionnaire.tsx:91-110 | the new answer holds at most one option and keeps its text only for 'Drug allergies' |
| CarstenszQuestionnaire.OnComboTextChange | app/carstensz/form/Questionnaire.tsx:117-126 | editing the text keeps the selected options |
| CarstenszQuestionnaire.SectionHeadingOnChange | app/carstensz/form/Questionnaire.tsx:160-163 | no heading repeats the previous section, and a changed non-empty section always gets one |
| CarstenszQuestionnaire.EveryQuestionUnderItsHeading | app/carstensz/form/Questionnaire.tsx:160-163 | every question with a non-empty section follows a heading for that section, with only that section in between |
| CarstenszQuestionnaire.NoneOfTheAboveExclusive | app/carstensz/form/Questionnaire.tsx:73-80 | starting from an exclusive list, or on any check, 'None of the above' stays the only entry whenever present |
| ScreeningQuestionnaire.InputFor | components/screening/Questionnaire.tsx:24-147 | a number question renders no input; checkbox and checkbox_textarea questions get their own controls |
| ScreeningQuestionnaire.OnCheckboxChange | components/screening/Questionnaire.tsx:53-80 | the new answer is the toggled list with 'Tidak ada' as the exclusive marker |
| ScreeningQuestionnaire.OnComboChange | components/screening/Questionnaire.tsx:82-100 | the new answer holds at most one option and keeps its text only for 'Ya' |
| ScreeningQuestionnaire.OnComboTextChange | components/screening/Questionnaire.tsx:108-121 | editing the text keeps the selected options |
| ScreeningQuestionnaire.Heading | components/screening/Questionnaire.tsx:151-153 | the heading is the decimal digits of `index + 1` without leading zeros, then '. ', then the question text |
| ScreeningQuestionnaire.HeadingsDistinct | components/screening/Questionnaire.tsx:151-153 | two positions never share a heading, whatever their texts |
| ScreeningQuestionnaire.TidakAdaExclusive | components/screening/Questionnaire.tsx:64-71 | 'Tidak ada' stays the only entry whenever present |
| ScreeningQuestionnaire.OnlyYaKeepsText | components/screening/Questionnaire.tsx:95-121 | after checking any option but 'Ya' the text box is hidden and its text is '' |
| CarstenszForm.FirstDmy | app/carstensz/form/page.tsx:50 | the result is the leftmost DD-MM-YYYY match at or after the start, or none if there is no match |
| CarstenszForm.Reorder | app/carstensz/form/page.tsx:51 | the result is YYYY-MM-DD shaped, with year, month and day taken from the match |
| CarstenszForm.ParseDateToISO | app/carstensz/form/page.tsx:47-53 | '' stays ''; a YYYY-MM-DD string is kept; otherwise the first DD-MM-YYYY match is reordered, or the input is kept |
| CarstenszForm.ParseDateShape | app/carstensz/form/page.tsx:47-53 | the result is YYYY-MM-DD shaped or the input itself |
| CarstenszForm.ParseDateIdempotent | app/carstensz/form/page.tsx:47-53 | normalising twice is normalising once |
| CarstenszForm.DmyRoundTrip | app/carstensz/form/page.tsx:50-52 | DD-MM-YYYY comes back as YYYY-MM-DD with the same fields |
| CarstenszForm.ApplyPassport | app/carstensz/form/page.tsx:55-60 | the six `updatePatientData` calls in order, each through the hook's `Updated`; `PassportFieldsSet` states the resulting fields |
| CarstenszForm.PassportFieldsSet | app/carstensz/form/page.tsx:55-60 | the image and five fields are set, absent ones to '', the date normalised; the gender only passes the hook's guard; other fields are untouched |
| CarstenszForm.GenderText | app/carstensz/form/page.tsx:59 | the gender is the lower-cased value, or '' when absent |
| CarstenszForm.PassportGenderThroughGuard | app/carstensz/form/page.tsx:59 | 'MALE' becomes 'male', 'Female' becomes 'female', and 'M' is refused by the guard |
| CarstenszForm.FieldEntry | app/carstensz/form/page.tsx:88-98 | null or absent fields are skipped, strings are sent as text, the passport image as a file |
| CarstenszForm.PatientEntries | app/carstensz/form/page.tsx:88-98 | each entry names one of the keys and is that key's field entry |
| CarstenszForm.EveryPresentFieldSent | app/carstensz/form/page.tsx:88-98 | every present, non-null field is sent |
| CarstenszForm.AppendPatientFields | app/carstensz/form/page.tsx:88-98 | the loop over the keys builds exactly `PatientEntries` |
| CarstenszForm.FormatAnswers | app/carstensz/form/page.tsx:82-85 | one `{questioner_id, answer}` per key, in key order |
| CarstenszForm.OneEntryPerKey | app/carstensz/form/page.tsx:82-85 | every answered question appears exactly once |
| CarstenszForm.InterceptorReply | lib/api/client.ts:353-360 | what the client's interceptors see of the submission: the reply's `message` on success, the same failure otherwise |
| CarstenszForm.ScreeningPage.constructor | app/carstensz/form/page.tsx:15-25 | the page works on the given passport-form hook and API client and starts with no navigations or submissions |
| CarstenszForm.ScreeningPage.HandlePassportAnalysis | app/carstensz/form/page.tsx:46-61 | the hook's record becomes `ApplyPassport` of the old record |
| CarstenszForm.ScreeningPage.Deliver | app/carstensz/form/page.tsx:100-109 | the interceptors' toast of the POST comes first; an accepted reply then goes to `/carstensz/thanks`, anything else adds 'Gagal mengirim data. Silakan coba lagi.'; a session-ending 401 also clears the session |
| CarstenszForm.ScreeningPage.Send | app/carstensz/form/page.tsx:80-112 | the patient fields plus the answers JSON are sent once, the reply is delivered as in `Deliver`, and `isLoading` ends false |
| CarstenszForm.ScreeningPage.HandleSubmit | app/carstensz/form/page.tsx:70-113 | invalid data or offline stops before sending with one error toast and the session untouched; otherwise the form is sent, the interceptors' success or error toast is shown, an accepted reply goes to `/carstensz/thanks` and any other outcome adds the failure toast, and `isLoading` ends false; `order` lists each answer key once, so by `OneEntryPerKey` every answer is sent exactly once |
| ScreeningDetail.Truthy | components/screening/detail.tsx:16 | JavaScript truthiness of a JSON value: `undefined`, `null`, `false`, `0` and `''` are falsy |
| ScreeningDetail.ToJsString | components/screening/detail.tsx:27-32 | `String(value)`: an array as its `join(',')`, an object as `[object Object]`; used by `ParseAnswer` and `FieldText` |
| ScreeningDetail.ElementStrings | components/screening/detail.tsx:17 | one string per array element |
| ScreeningDetail.ElementStringsOfTexts | components/screening/detail.tsx:17 | string elements display as themselves |
| ScreeningDetail.TextItems | components/screening/detail.tsx:17 | a list of strings as a JavaScript array |
| ScreeningDetail.DecodedText | components/screening/detail.tsx:19-30 | a decoded `{options}` displays as the options joined by ', ', plus ' (text)' only for a truthy text; a decoded array is joined by ', '; any other value shows its `toString()`; null or undefined throws and shows the raw string |
| ScreeningDetail.ParseAnswer | components/screening/detail.tsx:15-33 | falsy shows '-', arrays are joined by ', ', undecodable strings show as they are, decoded strings follow `DecodedText`, other values show `String(value)` |
| ScreeningDetail.ListAnswerDisplay | components/screening/detail.tsx:17 | a list answer displays as its items joined by ', ' |
| ScreeningDetail.ComboAnswerDisplay | components/screening/detail.tsx:21-25 | a stored combined answer displays its options, with its text in parentheses only when non-empty |
| ScreeningDetail.DecodedListDisplay | components/screening/detail.tsx:26 | a string that decodes to a list of strings displays as those strings joined by ', ' |
| ScreeningDetail.DecodedScalarDisplay | components/screening/detail.tsx:27 | a string that decodes to a number or boolean displays as its `toString()`, e.g. 'true' or 'false' |
| ScreeningDetail.PlainTextDisplay | components/screening/detail.tsx:28-30 | an undecodable string displays unchanged |
| ScreeningDetail.FieldText | components/screening/detail.tsx:121-126 | null or undefined shows '-', anything else its string form |
| ScreeningDetail.PatientRows | components/screening/detail.tsx:35-43 | the rows are exactly the entries with one of the seven labels, shown with that label |
| ScreeningDetail.UnlabelledHidden | components/screening/detail.tsx:121-126 | a key outside `FIELD_LABELS` never produces a row |
| ScreeningDetail.QuestionTitle | components/screening/detail.tsx:148 | the question text, or `Question <id>` when missing or empty |
| PatientForm.AgeUnique | components/screening/PatientForm.tsx:24-34 | a birth date has at most one age on a given day |
| PatientForm.AgeOn | components/screening/PatientForm.tsx:28-33 | the age is the number of birthdays reached, which is the year difference or one less |
| PatientForm.BirthdayCounts | components/screening/PatientForm.tsx:29-32 | on the n-th birthday itself the age is n |
| PatientForm.CalculateAge | components/screening/PatientForm.tsx:24-34 | an empty birth date gives ''; otherwise the decrementing computation gives the age in decimal |
| PatientForm.SyncAge | components/screening/PatientForm.tsx:38-42 | with a non-empty birth date the `age` field is overwritten with the age; otherwise nothing changes |
| PatientForm.DisplayedAge | components/screening/PatientForm.tsx:90-94 | the displayed age is computed from the birth date, or absent without one |
| PatientForm.DisplayIgnoresAgeField | components/screening/PatientForm.tsx:90-94 | editing the `age` field never changes the displayed age |
| Upload.Extension | components/screening/KTPupload.tsx:33 | the extension is the dot-free tail of the lower-cased name after its last '.', or the whole lower-cased name |
| Upload.HeicExtensionIsAllowed | components/screening/KTPupload.tsx:32-40 | a heic or heif extension passes the type check |
| Upload.UpperCaseExtensionAccepted | components/screening/KTPupload.tsx:33-40 | 'SCAN.JPG' is accepted whatever its MIME type |
| Upload.PreprocessOutcomes | components/screening/KTPupload.tsx:32-77 | the type check comes first, then the 20 MiB cap, then the HEIC conversion; a converted file is a JPEG; other files pass unchanged |
| Upload.Preprocess | components/screening/KTPupload.tsx:32-71 | the file the widget goes on with, or why it stops; `PreprocessOutcomes`, `SizeCapBoundary` and `ConvertedIsJpeg` state its order of checks, its size cap and its JPEG result |
| Upload.PreprocessToasts | components/screening/KTPupload.tsx:37-71 | the toasts of the checks: one error toast for a rejected type or size, none for a file that needs no conversion, and the loading toast followed by the success or error toast of a conversion; `CheckFile` ties them to `Preprocess` |
| Upload.SizeCapBoundary | components/screening/KTPupload.tsx:43-46 | exactly 20·1024·1024 bytes is accepted and one more byte is rejected |
| Upload.ConvertedIsJpeg | components/screening/KTPupload.tsx:51-64 | a converted file goes on as image/jpeg |
| Upload.ErrorMessageFor | components/screening/KTPupload.tsx:110-116 | status 429 gives the rate-limit text; else 'network' or 'connection' in the message gives the connection text; else the generic text |
| Upload.AnalysisError | components/screening/KTPupload.tsx:98-116 | there is no error iff the reply succeeded with data; any error text is one of the three classified texts |
| Upload.CheckFile | components/screening/KTPupload.tsx:32-71 | the checks and the conversion give `Preprocess` and its toasts |
| Upload.UploadWidget.constructor | components/screening/KTPupload.tsx:20-22 | the widget starts with no image, not analysing, no error and nothing recorded |
| Upload.UploadWidget.Analyze | components/screening/KTPupload.tsx:88-123 | only a successful reply with data reaches `onAnalysisComplete`; the error follows `AnalysisError`; `isAnalyzing` ends false |
| Upload.UploadWidget.CheckAndConvert | components/screening/KTPupload.tsx:32-71 | the outcome is `Preprocess` and its toasts are shown; nothing else changes |
| Upload.UploadWidget.HandleFileChange | components/screening/KTPupload.tsx:24-86 | no file changes nothing; a rejected file selects and analyses nothing; an accepted file is selected and then analysed |
| KtpUpload.NewKtpUpload | components/screening/KTPupload.tsx:18-22 | a fresh widget with the Indonesian messages |
| KtpUpload.WrongTypeReportedFirst | components/screening/KTPupload.tsx:37-40 | a wrong type is reported, with its message, before any size check |
| KtpUpload.ConversionFailureStops | components/screening/KTPupload.tsx:65-70 | a failed conversion stops the flow with its error toast |
| KtpUpload.AnalysisErrorTexts | components/screening/KTPupload.tsx:110-116 | 429 and network failures get their own Indonesian texts |
| PassportUpload.NewPassportUpload | components/screening/wna/PasportUpload.tsx:18-22 | a fresh widget with the English messages |
| PassportUpload.WrongTypeReportedFirst | components/screening/wna/PasportUpload.tsx:31-39 | a wrong type is reported before any size check |
| PassportUpload.OversizeRejected | components/screening/wna/PasportUpload.tsx:41-44 | a file over 20 MiB is rejected with 'Maximum file size is 20MB.' |
| PassportUpload.ConversionFailureStops | components/screening/wna/PasportUpload.tsx:48-64 | a failed conversion stops the flow with its error toast |
| PassportUpload.AnalysisErrorTexts | components/screening/wna/PasportUpload.tsx:99-104 | 429 and connection failures get their own English texts |
| DataTablePagination.Resolve | components/data-table/data-table-pagination.tsx:37-42 | missing props default to pageCount 1, pageIndex 0, pageSize 10 and totalItems 0 |
| DataTablePagination.PreviousPage | components/data-table/data-table-pagination.tsx:67-71 | `onPageChange` is called iff it exists and `pageIndex > 0`, with the 1-based previous page |
| DataTablePagination.NextPage | components/data-table/data-table-pagination.tsx:73-77 | `onPageChange` is called iff it exists and `pageIndex < pageCount - 1`, with the 1-based next page, never beyond `pageCount` |
| DataTablePagination.DisabledMatchesGuards | components/data-table/data-table-pagination.tsx:142-151 | a button is enabled iff its handler would act and nothing is loading |
| DataTablePagination.NegativeIndexPreviousInert | components/data-table/data-table-pagination.tsx:67-71 | a negative index enables Previous but its handler does nothing |
| DataTablePagination.Label | components/data-table/data-table-pagination.tsx:135-136 | the label runs from `pageIndex*pageSize+1` to the smaller of the page end and the total |
| DataTablePagination.LabelWithinPage | components/data-table/data-table-pagination.tsx:135-136 | for a page that holds items, the label lies within the total and spans at most one page |
| DataTablePagination.DefaultsAreInert | components/data-table/data-table-pagination.tsx:37-77 | with default props neither handler acts |
| DoctorScreenings.TotalPages | app/dashboard/doctor/page.tsx:75-76 | the page count is `meta.last_page` when present and non-zero, else 1 |
| DoctorScreenings.GrandTotal | app/dashboard/doctor/page.tsx:77 | the total is `meta.total` when present, else 0 |
| DoctorScreenings.RangeLabel | app/dashboard/doctor/page.tsx:135-136 | the range is `(page-1)*10+1` to the smaller of `page*10` and the total |
| DoctorScreenings.RangeWithinPage | app/dashboard/doctor/page.tsx:135-136 | for a page that holds rows, the range lies within the total and spans at most ten rows |
| DoctorScreenings.EmptyStateAndPaginationExclusive | app/dashboard/doctor/page.tsx:114-132 | the empty state and the pager never show together, and neither shows while the first fetch runs |
| DoctorScreenings.ScreeningsPage.constructor | app/dashboard/doctor/page.tsx:15-18 | the page starts on page 1 with an empty search |
| DoctorScreenings.ScreeningsPage.SetSearchInput | app/dashboard/doctor/page.tsx:16 | typing changes only the search input |
| DoctorScreenings.ScreeningsPage.ApplySearch | app/dashboard/doctor/page.tsx:21-27 | a settled search becomes the query and resets the page to 1 |
| DoctorScreenings.ScreeningsPage.Query | app/dashboard/doctor/page.tsx:31-36 | the query asks for the current page, 10 per page, and an empty search is sent as undefined |
| DoctorScreenings.ScreeningsPage.ClickPrevious | app/dashboard/doctor/page.tsx:142-143 | Previous moves back one page unless disabled, never below 1 |
| DoctorScreenings.ScreeningsPage.ClickNext | app/dashboard/doctor/page.tsx:151-152 | Next moves forward one page unless disabled, never beyond the page count |
| PaymentReport.PeriodTag | lib/api/paymentService.ts:3 | the `period_type` literal of each period; `PeriodTagInjective` shows no two periods share one |
| PaymentReport.AppendedText | lib/api/paymentService.ts:46-47 | the text `FormData.append` stores for an optional date: the date, or "undefined" when absent |
| PaymentReport.PeriodTagInjective | lib/api/paymentService.ts:42 | distinct periods send distinct `period_type` values |
| PaymentReport.ReportForm | lib/api/paymentService.ts:41-48 | `period_type` then `format` are always sent first; `start_date` and `end_date` follow iff the period is custom |
| PaymentReport.DatesIgnoredUnlessCustom | lib/api/paymentService.ts:45-48 | outside the custom period the dates never reach the form |
| PaymentReport.BuildReportForm | lib/api/client.ts:309-316 | the sequential appends build exactly `ReportForm` |
| PaymentReport.DownloadFilename | lib/api/paymentService.ts:67 | the file is `laporan_pembayaran.pdf` for pdf and `laporan_pembayaran.xlsx` otherwise |
| PaymentReport.FilenamesDiffer | lib/api/client.ts:336 | the two formats download under different names |
| PaymentReport.DownloadPaymentReport | lib/api/paymentService.ts:57-71 | the download posts the report form for the same parameters; the name it saves under once the report arrives is `laporan_pembayaran.pdf` or `.xlsx` after the format |
| ProxyRoute.StripProxyPrefix | app/api/proxy/route.ts:11-12 | a leading `/api/proxy` is removed and the rest kept; other paths are unchanged |
| ProxyRoute.StripsOnce | app/api/proxy/route.ts:12 | only one leading `/api/proxy` is removed |
| ProxyRoute.PrefixIsNotSegment | app/api/proxy/route.ts:12 | the prefix is removed even without a following '/' |
| ProxyRoute.TargetUrl | app/api/proxy/route.ts:17 | the target is the backend URL followed by the stripped path and the query string as is |
| ProxyRoute.ProxiedPathKept | app/api/proxy/route.ts:17 | `/api/proxy/<path>?<q>` is forwarded to the backend as `/<path>?<q>` |
| ProxyRoute.RequestBody | app/api/proxy/route.ts:13 | GET carries no body; other methods forward the parsed JSON, and a JSON parse failure is an error |
| ProxyRoute.HandleProxy | app/api/proxy/route.ts:9-27 | a body error forwards nothing and answers 500; otherwise the request is forwarded; a 2xx answer's body and status pass through, except that 204 and 205 make `NextResponse.json` throw and answer 500; a failed call answers 500 with its message |
| ProxyRoute.FailuresAre500 | app/api/proxy/route.ts:10-26 | an error body comes iff the body read, the call or the response construction failed, and always with status 500; a passed-through answer is 2xx other than 204 and 205 |
| ProxyRoute.NoContentBecomes500 | app/api/proxy/route.ts:23-25 | a DELETE answered with 204 No Content reaches the browser as a 500 error |
| ScreeningTypes.ParseTypeTag | types/screening.ts:5 | a type string maps to a question type exactly when it is one of the seven names, and then to that type |
| ApiClient.IsMutating | lib/api/client.ts:41-42 | the lower-cased method is one of post, put, patch and delete; `GetIsSilent` and `PostIsAnnounced` pin it down for GET and POST |
| ApiClient.SuccessText | lib/api/client.ts:41-45 | a success toast appears iff the method is post, put, patch or delete, with the body's message or 'Operasi berhasil' |
| ApiClient.GetIsSilent | lib/api/apiClient.ts:46-51 | a GET never toasts, in either letter case |
| ApiClient.PostIsAnnounced | lib/api/apiClient.ts:46-51 | every POST toasts, with the message or the default |
| ApiClient.LoginErrorKeepsSession | lib/api/client.ts:51-56 | an error from the login request never ends the session |
| ApiClient.EndsSession | lib/api/client.ts:51-56 | a 401 on a request with a non-empty URL not containing `/auth/login`, in a browser; `LoginErrorKeepsSession` and `LogoutUnauthorizedEndsSession` settle it for the two auth calls |
| ApiClient.CallError | lib/api/client.ts:48-49 | a rejected call to a URL as the error interceptor sees it: that URL, with the call's response and sent flag |
| ApiClient.PostToast | lib/api/client.ts:39-80 | the one toast of a POST: the success toast with the reply's message or 'Operasi berhasil', the session-expired toast when the failure ends the session, and the `ErrorText` toast otherwise |
| ApiClient.ReportSuccessAnnounced | lib/api/client.ts:41-45 | a successful report download is announced as 'Operasi berhasil', since a blob has no message |
| ApiClient.ReportPathIsNotLogin | lib/api/client.ts:54 | the report URL does not contain `/auth/login` |
| ApiClient.ReportUnauthorizedEndsSession | lib/api/client.ts:51-56 | a 401 on the report request in a browser ends the session |
| ApiClient.ReportUnauthorizedToast | lib/api/client.ts:51-60 | so it shows the session-expired toast rather than the server's message |
| ApiClient.BlobFailure | lib/api/client.ts:319 | a failed report request as the interceptor sees it with `responseType: 'blob'`: same status and sent flag, no `message` and no `errors` |
| ApiClient.ReportFailureToastIsDefault | lib/api/client.ts:63-77 | any error answer to the report request that does not end the session shows 'Terjadi kesalahan', whatever the server wrote |
| ApiClient.LogoutUnauthorizedEndsSession | lib/api/client.ts:51-56 | a 401 on the logout call ends the session in a browser and never outside one, since `/auth/logout` does not contain `/auth/login` |
| ApiClient.ErrorText | lib/api/client.ts:63-77 | no response and a sent request gives the connectivity text, nothing sent gives the unexpected text, a 422 with errors uses the first error, any other response its message |
| ApiClient.ResponseMessage | lib/api/client.ts:64 | never empty: the body message if non-empty, and 'Terjadi kesalahan' when it is absent or empty |
| ApiClient.FirstValidationError | lib/api/apiClient.ts:74-78 | a list first entry gives its first message (undefined when empty); anything else gives the body message |
| ApiClient.ErrorToastHasText | lib/api/apiClient.ts:70-85 | the error toast has a text unless a 422's first error list is empty |
| ApiClient.Client.constructor | lib/api/client.ts:7-25 | a client starts with no token, no toasts and no navigation |
| ApiClient.Client.AuthHeader | lib/api/apiClient.ts:33-36 | the in-memory token wins, else the stored `auth_token` in a browser; no header without a non-empty token |
| ApiClient.Client.SetToken | lib/api/apiClient.ts:102-104 | only the token changes |
| ApiClient.Client.ClearAuthData | lib/api/apiClient.ts:92-100 | the token is null; in a browser both keys leave storage and cookies; nothing else changes |
| ApiClient.Client.OnResponse | lib/api/client.ts:39-47 | the success toast follows `SuccessText` and nothing else changes |
| ApiClient.Client.OnError | lib/api/client.ts:48-80 | the error is always rejected as is; a session-ending 401 clears auth, toasts and goes to `/auth/login`; any other error shows `ErrorText` and changes nothing else |
| ApiClient.Client.Login | lib/api/client.ts:268-278 | success stores the token and role in a browser, toasts and returns the user, reduced here to its role (the only field the login form reads), without touching the in-memory token; failure is shown and rejected and keeps the session |
| ApiClient.Client.LogoutCall | lib/api/client.ts:280-284 | the interceptors leave exactly one toast: the POST's success toast, the session-expired toast with a cleared token and `/auth/login` when the 401 ends the session, or the `ErrorText` toast with token and location unchanged; non-auth keys always survive |
| ApiClient.Client.Logout | lib/api/client.ts:280-291 | whatever the call returns, the token is null, both auth keys are gone and a browser goes to `/auth/login`; the one toast left is the success toast, the session-expired toast or the `ErrorText` toast of the failed call |
| ApiClient.Client.Post | lib/api/client.ts:39-80 | a POST through the interceptors adds exactly `PostToast`; a session-ending failure clears the token and both auth keys and goes to `/auth/login`, any other outcome leaves the session as it was |
| ApiClient.Client.GetPaymentReport | lib/api/client.ts:303-323 | the posted form is `ReportForm` of the parameters; a success shows 'Operasi berhasil', a failure is seen through `BlobFailure` (status only) and rejected with its `PostToast`, and only a session-ending 401 changes the session |
| ApiClient.NoHeaderAfterClear | lib/api/apiClient.ts:33-36 | after the auth data is cleared no bearer header is sent |

## Left out

- Network I/O is left out: the fetch and axios calls themselves, the HEIC conversion service and the OCR service. Their answers are method parameters, and a non-2xx answer appears as a rejection.
- The endpoint wrappers of the management, screening, nurse and auth services are left out. So are `me`, `requestAIAnalysis` and the other single-request methods of `APIClient`. Each is one call with a backend-defined result.
- Toast dismissal, loading-toast ids, React rendering markup, styling and the `isMobile` user-agent test are not modelled.
- Cookie strings are not modelled: cookies are a map from name to value, and an expired cookie is a removed key.
- `JSON.parse` is a parameter of `ScreeningDetail.ParseAnswer`. `JSON.stringify` of the answers is the `AnswersJson` value, not its text.
- The enumeration order of `Object.keys(answers)` is a parameter of `CarstenszForm.ScreeningPage.HandleSubmit`, since JavaScript orders integer keys numerically.
- `new Date(...)` parsing and time zones are left out: `PatientForm.CalculateAge` takes today and the birth date as calendar triples.
- The 500 ms search debounce on the doctor page is timing, so only its effect is modelled: a settled search resets the page to 1.
- `fetchQuestions`, camera capture and the landing, thanks and navigation pages are not part of this model.
- The outer `try/catch` of `handleFileChange` that catches unexpected exceptions is not modelled. Every modelled step is total.
- `Middleware.CurrentRolePath`: treats the role table as a plain dictionary. A cookie naming an inherited object property such as `toString` is treated as an unknown role, although JavaScript's lookup would find a function there.
- `AuthWrapper.UnknownRoleGoesToLogin`: reads `data.role in dashboardMap` as own-key membership. Inherited property names such as `constructor` count as unknown roles here.
- `JsString.ToLower`: only ASCII letters are case-mapped, so gender and extension handling is exact for ASCII text only.
- `WithAuth.MismatchRedirects`: treats the role table as a plain dictionary. For a role naming an inherited object property such as `toString`, JavaScript's `dashboardMap[role]` is a function rather than `undefined`, so the source calls `router.replace` with that function.
- `ProxyRoute.NullBodyError`: the text of the error thrown for a 204 or 205 answer is the runtime's own; the model fixes it to one message naming the status.
- `ScreeningDetail.ToJsString`: numbers are integers written out in plain decimal, so `String(value)` of fractional numbers, NaN and Infinity is not modelled, nor the exponent form JavaScript uses for integers of magnitude 1e21 and above ("1e+21"), nor the rounding of integers beyond 2^53 to the nearest double.
- `ScreeningDetail.DecodedText`: a decoded object with its own `toString` key makes `parsed.toString()` throw, so the source shows the raw string; the model shows "[object Object]" for every object.
- The proxy route forwards the incoming request headers to the backend; headers are not modelled.
- `ApiClient.ErrorText`: `data.message` is modelled as a string or absent. A truthy non-string message is not modelled.
