/**
 * The document upload widgets (`components/screening/KTPupload.tsx` and
 * `components/screening/wna/PasportUpload.tsx`) share one flow: check the
 * file type, then the size, convert HEIC/HEIF images, select the file and
 * send it for analysis. They differ only in their messages.
 */
module Upload {
  import opened Base
  import opened JsString
  import opened ScreeningTypes

  const AllowedMimeTypes: seq<string> := ["image/jpeg", "image/jpg", "image/png", "image/webp", "image/heic", "image/heif"]
  const AllowedExtensions: seq<string> := ["jpg", "jpeg", "png", "webp", "heic", "heif"]
  const HeicExtensions: seq<string> := ["heic", "heif"]

  /** `20 * 1024 * 1024` bytes. */
  const MaxUploadBytes: nat := 20 * 1024 * 1024

  /** `file.name.toLowerCase().split('.').pop()` */
  function Extension(name: string): (r: string)
    ensures '.' !in r
    ensures |r| <= |name| && r == ToLower(name)[|name| - |r|..]
    ensures |r| < |name| ==> ToLower(name)[|name| - |r| - 1] == '.'
  {
    LastSegment(ToLower(name), '.')
  }

  /** `allowedTypes.includes(file.type) || allowedExtensions.includes(extension)` */
  predicate IsValidType(file: FileRef) {
    file.mimeType in AllowedMimeTypes || Extension(file.name) in AllowedExtensions
  }

  /** The HEIC route: the MIME type mentions heic or heif, or the extension is one of them. */
  predicate NeedsConversion(file: FileRef) {
    Contains(file.mimeType, "heic") || Contains(file.mimeType, "heif") || Extension(file.name) in HeicExtensions
  }

  /** A file the HEIC route takes passes the type check. */
  lemma HeicExtensionIsAllowed(file: FileRef)
    requires Extension(file.name) in HeicExtensions
    ensures IsValidType(file)
  {
  }

  /** The extension check ignores letter case: 'SCAN.JPG' is accepted whatever its MIME type. */
  lemma UpperCaseExtensionAccepted(mimeType: string, size: nat)
    ensures IsValidType(FileRef("SCAN.JPG", mimeType, size))
  {
    LowerScanJpg();
    ScanJpgExtension();
  }

  lemma LowerScanJpg()
    ensures ToLower("SCAN.JPG") == "scan.jpg"
  {
    var lower := ToLower("SCAN.JPG");
    assert lower[0] == 's' && lower[1] == 'c' && lower[2] == 'a' && lower[3] == 'n';
    assert lower[4] == '.' && lower[5] == 'j' && lower[6] == 'p' && lower[7] == 'g';
  }

  lemma ScanJpgExtension()
    ensures LastSegment("scan.jpg", '.') == "jpg"
  {
    assert LastSegment("scan.", '.') == "";
    assert "scan.j"[..5] == "scan.";
    assert LastSegment("scan.j", '.') == "j";
    assert "scan.jp"[..6] == "scan.j";
    assert LastSegment("scan.jp", '.') == "jp";
    assert "scan.jpg"[..7] == "scan.jp";
  }

  /** The JPEG the conversion service returns. */
  datatype Converted = Converted(filename: string, size: nat)

  /** Why a chosen file goes no further. */
  datatype Rejection = BadType | TooLarge | ConversionFailed

  /** The file `handleFileChange` passes on, or the check that stopped it: type first, then size, then conversion. */
  function Preprocess(file: FileRef, conversion: Result<Converted, string>): Result<FileRef, Rejection> {
    if !IsValidType(file) then Failure(BadType)
    else if file.size > MaxUploadBytes then Failure(TooLarge)
    else if NeedsConversion(file) then
      match conversion
      case Success(c) => Success(FileRef(c.filename, "image/jpeg", c.size))
      case Failure(_) => Failure(ConversionFailed)
    else Success(file)
  }

  /** Each rejection happens exactly when its check is the first to fail; an accepted file is passed on as it is,
      or as the converted JPEG when it needed conversion. */
  lemma PreprocessOutcomes(file: FileRef, conversion: Result<Converted, string>)
    ensures Preprocess(file, conversion) == Failure(BadType) <==> !IsValidType(file)
    ensures Preprocess(file, conversion) == Failure(TooLarge) <==> IsValidType(file) && file.size > MaxUploadBytes
    ensures Preprocess(file, conversion) == Failure(ConversionFailed) <==>
      IsValidType(file) && file.size <= MaxUploadBytes && NeedsConversion(file) && conversion.Failure?
    ensures Preprocess(file, conversion).Success? && !NeedsConversion(file) ==> Preprocess(file, conversion).value == file
    ensures Preprocess(file, conversion).Success? && NeedsConversion(file) ==>
      Preprocess(file, conversion).value == FileRef(conversion.value.filename, "image/jpeg", conversion.value.size)
  {
  }

  /** Exactly 20 MiB is accepted; one byte more is rejected. */
  lemma SizeCapBoundary(name: string, mimeType: string, conversion: Result<Converted, string>)
    requires IsValidType(FileRef(name, mimeType, MaxUploadBytes))
    ensures Preprocess(FileRef(name, mimeType, MaxUploadBytes), conversion) != Failure(TooLarge)
    ensures Preprocess(FileRef(name, mimeType, MaxUploadBytes + 1), conversion) == Failure(TooLarge)
  {
  }

  /** A file that needed conversion goes on to analysis as image/jpeg. */
  lemma ConvertedIsJpeg(file: FileRef, conversion: Result<Converted, string>)
    requires NeedsConversion(file) && Preprocess(file, conversion).Success?
    ensures Preprocess(file, conversion).value.mimeType == "image/jpeg"
  {
  }

  /** The reply of the analysis endpoint, or the rejection of the call with its HTTP status and error message. */
  datatype AnalysisReply<D> =
    | Reply(success: bool, data: Option<D>)
    | Rejected(status: Option<int>, message: Option<string>)

  /** The texts one widget shows. */
  datatype Messages = Messages(
    badType: string, tooLarge: string,
    converting: string, converted: string, conversionFailed: string,
    analyzing: string, analyzed: string, incomplete: string,
    rateLimited: string, connection: string, generic: string)

  /** The error text for a failed analysis: status 429 first, then 'network' or 'connection' in the message. */
  function ErrorMessageFor(status: Option<int>, message: Option<string>, msgs: Messages): (r: string)
    ensures status == Some(429) ==> r == msgs.rateLimited
    ensures status != Some(429) && message.Some? && (Contains(message.value, "network") || Contains(message.value, "connection"))
      ==> r == msgs.connection
    ensures status != Some(429) && !(message.Some? && (Contains(message.value, "network") || Contains(message.value, "connection")))
      ==> r == msgs.generic
  {
    if status == Some(429) then msgs.rateLimited
    else if message.Some? && (Contains(message.value, "network") || Contains(message.value, "connection")) then msgs.connection
    else msgs.generic
  }

  /** The error an analysis ends with, if any: an incomplete reply is thrown as an error carrying `incomplete`. */
  function AnalysisError<D>(reply: AnalysisReply<D>, msgs: Messages): (r: Option<string>)
    ensures r.None? <==> reply.Reply? && reply.success && reply.data.Some?
    ensures r.Some? ==> r.value in {msgs.rateLimited, msgs.connection, msgs.generic}
  {
    match reply
    case Reply(success, data) =>
      if success && data.Some? then None else Some(ErrorMessageFor(None, Some(msgs.incomplete), msgs))
    case Rejected(status, message) => Some(ErrorMessageFor(status, message, msgs))
  }

  datatype Toast = LoadingToast(text: string) | SuccessToast(text: string) | ErrorToast(text: string)

  /** The toasts of the pre-analysis steps (toast dismissal is not recorded). */
  function PreprocessToasts(file: FileRef, conversion: Result<Converted, string>, msgs: Messages): seq<Toast> {
    if !IsValidType(file) then [ErrorToast(msgs.badType)]
    else if file.size > MaxUploadBytes then [ErrorToast(msgs.tooLarge)]
    else if !NeedsConversion(file) then []
    else if conversion.Success? then [LoadingToast(msgs.converting), SuccessToast(msgs.converted)]
    else [LoadingToast(msgs.converting), ErrorToast(msgs.conversionFailed)]
  }

  /** The toasts of one analysis. */
  function AnalysisToasts<D>(reply: AnalysisReply<D>, msgs: Messages): seq<Toast> {
    match AnalysisError(reply, msgs)
    case None => [LoadingToast(msgs.analyzing), SuccessToast(msgs.analyzed)]
    case Some(e) => [LoadingToast(msgs.analyzing), ErrorToast(e)]
  }

  /** The type check, the size check and the HEIC conversion, with the toasts they show. */
  method CheckFile(f: FileRef, conversion: Result<Converted, string>, msgs: Messages)
    returns (outcome: Result<FileRef, Rejection>, shown: seq<Toast>)
    ensures outcome == Preprocess(f, conversion)
    ensures shown == PreprocessToasts(f, conversion, msgs)
  {
    var extension := Extension(f.name);
    var isValidType := f.mimeType in AllowedMimeTypes || extension in AllowedExtensions;
    if !isValidType {
      return Failure(BadType), [ErrorToast(msgs.badType)];
    }
    if f.size > MaxUploadBytes {
      return Failure(TooLarge), [ErrorToast(msgs.tooLarge)];
    }
    if Contains(f.mimeType, "heic") || Contains(f.mimeType, "heif") || extension in HeicExtensions {
      match conversion {
        case Success(c) =>
          return Success(FileRef(c.filename, "image/jpeg", c.size)), [LoadingToast(msgs.converting), SuccessToast(msgs.converted)];
        case Failure(_) =>
          return Failure(ConversionFailed), [LoadingToast(msgs.converting), ErrorToast(msgs.conversionFailed)];
      }
    }
    return Success(f), [];
  }

  /** One upload widget's state; `selected` and `completed` record the `onFileSelect` and `onAnalysisComplete` calls. */
  class UploadWidget<D> {
    const messages: Messages
    var imageFile: Option<FileRef>
    var isAnalyzing: bool
    var analysisError: Option<string>
    var toasts: seq<Toast>
    var selected: seq<FileRef>
    var completed: seq<(D, FileRef)>

    constructor (messages: Messages)
      ensures this.messages == messages
      ensures imageFile.None? && !isAnalyzing && analysisError.None?
      ensures toasts == [] && selected == [] && completed == []
    {
      this.messages := messages;
      imageFile, isAnalyzing, analysisError := None, false, None;
      toasts, selected, completed := [], [], [];
    }

    /** `analyzeKTP` / `analyzePassport`: only a successful reply with data reaches `onAnalysisComplete`;
        `isAnalyzing` is false again afterwards. */
    method Analyze(file: FileRef, reply: AnalysisReply<D>)
      modifies this
      ensures !isAnalyzing
      ensures analysisError == AnalysisError(reply, messages)
      ensures AnalysisError(reply, messages).None? ==> completed == old(completed) + [(reply.data.value, file)]
      ensures AnalysisError(reply, messages).Some? ==> completed == old(completed)
      ensures toasts == old(toasts) + AnalysisToasts(reply, messages)
      ensures imageFile == old(imageFile) && selected == old(selected)
    {
      isAnalyzing := true;
      analysisError := None;
      toasts := toasts + [LoadingToast(messages.analyzing)];
      if reply.Reply? && reply.success && reply.data.Some? {
        toasts := toasts + [SuccessToast(messages.analyzed)];
        completed := completed + [(reply.data.value, file)];
      } else {
        var errorMessage := messages.generic;
        var status := if reply.Rejected? then reply.status else None;
        var message := if reply.Rejected? then reply.message else Some(messages.incomplete);
        if status == Some(429) {
          errorMessage := messages.rateLimited;
        } else if message.Some? && (Contains(message.value, "network") || Contains(message.value, "connection")) {
          errorMessage := messages.connection;
        }
        toasts := toasts + [ErrorToast(errorMessage)];
        analysisError := Some(errorMessage);
      }
      isAnalyzing := false;
    }

    /** The checks and the conversion of `handleFileChange`, up to the file it selects. */
    method CheckAndConvert(f: FileRef, conversion: Result<Converted, string>) returns (outcome: Result<FileRef, Rejection>)
      modifies this
      ensures outcome == Preprocess(f, conversion)
      ensures toasts == old(toasts) + PreprocessToasts(f, conversion, messages)
      ensures imageFile == old(imageFile) && analysisError == old(analysisError) && isAnalyzing == old(isAnalyzing)
      ensures selected == old(selected) && completed == old(completed)
    {
      var shown;
      outcome, shown := CheckFile(f, conversion, messages);
      toasts := toasts + shown;
    }

    /** `handleFileChange`: `file` is the first chosen file, `conversion` the HEIC service's answer and
        `reply` the analysis endpoint's, each used only if that step is reached. */
    method HandleFileChange(file: Option<FileRef>, conversion: Result<Converted, string>, reply: AnalysisReply<D>)
      modifies this
      ensures file.None? ==>
        imageFile == old(imageFile) && analysisError == old(analysisError) && toasts == old(toasts)
        && selected == old(selected) && completed == old(completed) && isAnalyzing == old(isAnalyzing)
      ensures file.Some? && Preprocess(file.value, conversion).Failure? ==>
        imageFile == old(imageFile) && analysisError.None? && isAnalyzing == old(isAnalyzing)
        && selected == old(selected) && completed == old(completed)
        && toasts == old(toasts) + PreprocessToasts(file.value, conversion, messages)
      ensures file.Some? && Preprocess(file.value, conversion).Success? ==>
        var processed := Preprocess(file.value, conversion).value;
        imageFile == Some(processed) && selected == old(selected) + [processed] && !isAnalyzing
        && analysisError == AnalysisError(reply, messages)
        && toasts == old(toasts) + PreprocessToasts(file.value, conversion, messages) + AnalysisToasts(reply, messages)
      ensures file.Some? && Preprocess(file.value, conversion).Success? && AnalysisError(reply, messages).None? ==>
        completed == old(completed) + [(reply.data.value, Preprocess(file.value, conversion).value)]
      ensures file.Some? && Preprocess(file.value, conversion).Success? && AnalysisError(reply, messages).Some? ==>
        completed == old(completed)
    {
      if file.None? {
        return;
      }
      analysisError := None;
      var outcome := CheckAndConvert(file.value, conversion);
      if outcome.Failure? {
        return;
      }
      var processedFile := outcome.value;
      imageFile := Some(processedFile);
      selected := selected + [processedFile];
      Analyze(processedFile, reply);
    }
  }
}
