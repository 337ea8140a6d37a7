/**
 * The identity card (KTP) upload widget, `components/screening/KTPupload.tsx`:
 * the shared upload flow with its Indonesian messages.
 */
module KtpUpload {
  import opened Base
  import opened ScreeningTypes
  import opened Upload

  /** The fields the KTP reader extracts, by name. */
  type KtpAnalysis = map<string, string>

  const KtpMessages: Messages := Messages(
    badType := "Format file tidak didukung. Gunakan JPG, PNG, WebP, atau HEIC.",
    tooLarge := "Ukuran file maksimal 20MB",
    converting := "Mengkonversi format HEIC...",
    converted := "File HEIC berhasil dikonversi",
    conversionFailed := "Gagal mengkonversi HEIC. Silakan gunakan format JPG atau PNG.",
    analyzing := "Menganalisis KTP dengan AI...",
    analyzed := "KTP berhasil dianalisis! Silakan cek data yang terisi.",
    incomplete := "Hasil analisis tidak lengkap",
    rateLimited := "Terlalu banyak permintaan. Silakan tunggu sebentar dan coba lagi.",
    connection := "Koneksi bermasalah. Pastikan internet stabil.",
    generic := "Gagal menganalisis KTP. Silakan isi data secara manual.")

  /** A freshly mounted widget: no image, not analysing, no error. */
  method NewKtpUpload() returns (w: UploadWidget<KtpAnalysis>)
    ensures fresh(w) && w.messages == KtpMessages
    ensures w.imageFile.None? && !w.isAnalyzing && w.analysisError.None?
    ensures w.toasts == [] && w.selected == [] && w.completed == []
  {
    w := new UploadWidget(KtpMessages);
  }

  /** A file of the wrong type gets only the format message, even when it is also too large. */
  lemma WrongTypeReportedFirst(file: FileRef, conversion: Result<Converted, string>)
    requires !IsValidType(file)
    ensures Preprocess(file, conversion) == Failure(BadType)
    ensures PreprocessToasts(file, conversion, KtpMessages) == [ErrorToast("Format file tidak didukung. Gunakan JPG, PNG, WebP, atau HEIC.")]
  {
  }

  /** A failed HEIC conversion ends the flow with the conversion message: nothing is selected or analysed. */
  lemma ConversionFailureStops(file: FileRef, error: string)
    requires IsValidType(file) && file.size <= MaxUploadBytes && NeedsConversion(file)
    ensures Preprocess(file, Failure(error)) == Failure(ConversionFailed)
    ensures PreprocessToasts(file, Failure(error), KtpMessages) ==
      [LoadingToast("Mengkonversi format HEIC..."), ErrorToast("Gagal mengkonversi HEIC. Silakan gunakan format JPG atau PNG.")]
  {
  }

  /** Status 429 wins over the message; a network error message without it gives the connection text. */
  lemma AnalysisErrorTexts(message: Option<string>)
    ensures AnalysisError<KtpAnalysis>(Rejected(Some(429), message), KtpMessages)
      == Some("Terlalu banyak permintaan. Silakan tunggu sebentar dan coba lagi.")
    ensures AnalysisError<KtpAnalysis>(Rejected(None, Some("network error")), KtpMessages)
      == Some("Koneksi bermasalah. Pastikan internet stabil.")
  {
    assert JsString.StartsWith("network error", "network");
  }
}
