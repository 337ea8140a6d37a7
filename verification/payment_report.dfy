/**
 * The payment report request, `lib/api/paymentService.ts` (and the identical
 * methods of `lib/api/client.ts`): the multipart fields it sends and the name
 * under which the downloaded report is saved.
 */
module PaymentReport {
  import opened Base

  datatype PeriodType = Today | ThisWeek | ThisMonth | LastMonth | Custom
  datatype Format = Pdf | Excel

  function PeriodTag(p: PeriodType): string {
    match p
    case Today => "today"
    case ThisWeek => "this_week"
    case ThisMonth => "this_month"
    case LastMonth => "last_month"
    case Custom => "custom"
  }

  function FormatTag(f: Format): string {
    match f
    case Pdf => "pdf"
    case Excel => "excel"
  }

  /** The five period tags are distinct, so the backend can tell every period apart. */
  lemma PeriodTagInjective(a: PeriodType, b: PeriodType)
    requires PeriodTag(a) == PeriodTag(b)
    ensures a == b
  {
  }

  datatype ReportParams = ReportParams(periodType: PeriodType, startDate: Option<string>, endDate: Option<string>, format: Format)

  /** One `formData.append(name, value)`. */
  datatype FormField = FormField(name: string, value: string)

  /** `formData.append(name, value)` with a possibly undefined value: FormData stores `String(undefined)`. */
  function AppendedText(v: Option<string>): string {
    v.GetOr("undefined")
  }

  /** The fields of the report request: period_type and format always, in that order, then
      start_date and end_date only for a custom period. */
  function ReportForm(params: ReportParams): (r: seq<FormField>)
    ensures |r| >= 2 && r[0] == FormField("period_type", PeriodTag(params.periodType)) && r[1] == FormField("format", FormatTag(params.format))
    ensures params.periodType == Custom <==> |r| == 4
    ensures params.periodType != Custom ==> |r| == 2
    ensures |r| == 4 ==> r[2] == FormField("start_date", AppendedText(params.startDate)) && r[3] == FormField("end_date", AppendedText(params.endDate))
  {
    var base := [FormField("period_type", PeriodTag(params.periodType)), FormField("format", FormatTag(params.format))];
    if params.periodType == Custom then
      base + [FormField("start_date", AppendedText(params.startDate)), FormField("end_date", AppendedText(params.endDate))]
    else base
  }

  /** A non-custom period never sends dates, whatever dates the caller passed. */
  lemma DatesIgnoredUnlessCustom(params: ReportParams, start: Option<string>, end: Option<string>)
    requires params.periodType != Custom
    ensures ReportForm(params.(startDate := start, endDate := end)) == ReportForm(params)
  {
  }

  /** `getPaymentReport`'s sequential appends. */
  method BuildReportForm(params: ReportParams) returns (form: seq<FormField>)
    ensures form == ReportForm(params)
  {
    form := [];
    form := form + [FormField("period_type", PeriodTag(params.periodType))];
    form := form + [FormField("format", FormatTag(params.format))];
    if params.periodType == Custom {
      form := form + [FormField("start_date", AppendedText(params.startDate))];
      form := form + [FormField("end_date", AppendedText(params.endDate))];
    }
  }

  /** `laporan_pembayaran.pdf` for pdf, `laporan_pembayaran.xlsx` for every other format. */
  function DownloadFilename(format: Format): (r: string)
    ensures format == Pdf ==> r == "laporan_pembayaran.pdf"
    ensures format != Pdf ==> r == "laporan_pembayaran.xlsx"
  {
    "laporan_pembayaran." + (if format == Pdf then "pdf" else "xlsx")
  }

  /** The two formats are saved under different names. */
  lemma FilenamesDiffer()
    ensures DownloadFilename(Pdf) != DownloadFilename(Excel)
  {
    assert DownloadFilename(Pdf)[19] != DownloadFilename(Excel)[19];
  }

  /** `downloadPaymentReport`: the report request it sends and the name it saves under once the report arrives;
      the blob and the link are not modelled. */
  method DownloadPaymentReport(params: ReportParams) returns (request: seq<FormField>, filename: string)
    ensures request == ReportForm(params)
    ensures filename == DownloadFilename(params.format)
  {
    request := BuildReportForm(params);
    filename := "laporan_pembayaran." + (if params.format == Pdf then "pdf" else "xlsx");
  }
}
