/**
 * The passport upload widget, `components/screening/wna/PasportUpload.tsx`:
 * the shared upload flow with its English messages; a completed analysis
 * feeds the passport form.
 */
module PassportUpload {
  import opened Base
  import opened ScreeningTypes
  import opened Upload
  import CarstenszForm

  const PassportMessages: Messages := Messages(
    badType := "File format not supported. Use JPG, PNG, WebP, or HEIC.",
    tooLarge := "Maximum file size is 20MB.",
    converting := "Converting HEIC format...",
    converted := "HEIC file successfully converted",
    conversionFailed := "Failed to convert HEIC. Please use JPG or PNG.",
    analyzing := "Analyzing Passport with AI...",
    analyzed := "Passport successfully analyzed! Please review the filled data.",
    incomplete := "Analysis result incomplete",
    rateLimited := "Too many requests. Please wait a moment and try again.",
    connection := "Connection issue. Please ensure stable internet.",
    generic := "Failed to analyze Passport. Please fill in the data manually.")

  method NewPassportUpload() returns (w: UploadWidget<CarstenszForm.PassportAnalysis>)
    ensures fresh(w) && w.messages == PassportMessages
    ensures w.imageFile.None? && !w.isAnalyzing && w.analysisError.None?
    ensures w.toasts == [] && w.selected == [] && w.completed == []
  {
    w := new UploadWidget(PassportMessages);
  }

  /** A file of the wrong type gets only the format message, even when it is also too large. */
  lemma WrongTypeReportedFirst(file: FileRef, conversion: Result<Converted, string>)
    requires !IsValidType(file)
    ensures Preprocess(file, conversion) == Failure(BadType)
    ensures PreprocessToasts(file, conversion, PassportMessages) == [ErrorToast("File format not supported. Use JPG, PNG, WebP, or HEIC.")]
  {
  }

  /** A valid file over 20 MiB gets the size message and goes no further. */
  lemma OversizeRejected(file: FileRef, conversion: Result<Converted, string>)
    requires IsValidType(file) && file.size > MaxUploadBytes
    ensures Preprocess(file, conversion) == Failure(TooLarge)
    ensures PreprocessToasts(file, conversion, PassportMessages) == [ErrorToast("Maximum file size is 20MB.")]
  {
  }

  /** A failed HEIC conversion ends the flow with the conversion message. */
  lemma ConversionFailureStops(file: FileRef, error: string)
    requires IsValidType(file) && file.size <= MaxUploadBytes && NeedsConversion(file)
    ensures Preprocess(file, Failure(error)) == Failure(ConversionFailed)
    ensures PreprocessToasts(file, Failure(error), PassportMessages) ==
      [LoadingToast("Converting HEIC format..."), ErrorToast("Failed to convert HEIC. Please use JPG or PNG.")]
  {
  }

  /** Status 429 wins over the message; a message mentioning the connection gives the connection text. */
  lemma AnalysisErrorTexts(message: Option<string>)
    ensures AnalysisError<CarstenszForm.PassportAnalysis>(Rejected(Some(429), message), PassportMessages)
      == Some("Too many requests. Please wait a moment and try again.")
    ensures AnalysisError<CarstenszForm.PassportAnalysis>(Rejected(Some(500), Some("connection reset")), PassportMessages)
      == Some("Connection issue. Please ensure stable internet.")
  {
    assert JsString.StartsWith("connection reset", "connection");
  }
}
