/** The PDF slots of an annual account, as far as the backfills of AfsDigitizationService read and write them. */
module AnnualAccounts {
  import opened Basics
  import opened Text

  datatype AuditType = Audited | UnAudited

  datatype PdfField = BalSheet | BalSheetSchedules | IncExp | IncExpSchedules | CashFlow | AuditorReport

  datatype Slot = Slot(audit: AuditType, field: PdfField)

  /** A numeric field that may be missing altogether, null, or a number. */
  datatype Num = Absent | Null | Number(n: int)

  /** `url` is None when missing or null, which neither the code nor the filters tell apart. */
  datatype Pdf = Pdf(url: Option<string>, pageCount: Num, fileSizeBytes: Num,
                     retryCount: Option<nat>, retryUrl: Option<string>,
                     isDuplicate: Option<bool>, duplicateOf: Option<PdfField>)

  /** One document: the slots that have a `pdf` object. */
  type Account = map<Slot, Pdf>

  function Position(f: PdfField): nat {
    match f case BalSheet => 0 case BalSheetSchedules => 1 case IncExp => 2
    case IncExpSchedules => 3 case CashFlow => 4 case AuditorReport => 5
  }

  function FieldAt(i: nat): PdfField {
    match i case 0 => BalSheet case 1 => BalSheetSchedules case 2 => IncExp
    case 3 => IncExpSchedules case 4 => CashFlow case _ => AuditorReport
  }

  /** The order in which the loops over audit types and fields visit the twelve slots. */
  function Slots(): seq<Slot> {
    seq(12, i requires 0 <= i < 12 => if i < 6 then Slot(Audited, FieldAt(i)) else Slot(UnAudited, FieldAt(i - 6)))
  }

  lemma SlotsAreAll(s: Slot)
    ensures s in Slots()
  {
    assert Slots()[if s.audit.Audited? then Position(s.field) else 6 + Position(s.field)] == s;
  }

  /** Nothing is left of the url after `trim()`. */
  predicate Blank(url: Option<string>) { url.None? || Trim(url.value) == "" }

  /** The url passes the Mongo condition `{ $exists: true, $nin: [null, ''] }`. */
  predicate HasUrl(pdf: Pdf) { pdf.url.Some? && pdf.url.value != "" }
}
