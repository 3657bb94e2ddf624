/**
 * The document-format policy of the Write activity: which MIME types are
 * edited as plain text, which type a document is saved as, and the plain-text
 * summary kept in the journal entry. Pure decisions only; the activity's
 * `read_file` and `write_file` (module Activity) carry them out.
 */
module MimePolicy {

  const PlainText := "text/plain"
  const Csv := "text/csv"
  /** Types whose declared parents include text/plain but which are rich text. */
  const RichExceptions: seq<string> := ["application/rtf", "text/rtf", "text/html"]
  const OpenDocumentText := "application/vnd.oasis.opendocument.text"
  const MsWord := "application/msword"
  const Rtf := "application/rtf"
  /** Longest summary kept in the `fulltext` metadata field. */
  const SummaryLimit := 3000

  /**
   * `_is_plain_text` exactly as written: the exception list is checked
   * against the argument, while the plain/CSV test and the parent lookup read
   * the type stored in the metadata. `parents` is the external MIME taxonomy
   * (`sugar.mime.get_mime_parents`).
   */
  function IsPlainTextAsWritten(argument: string, stored: string, parents: string -> seq<string>): (plain: bool)
    ensures argument in RichExceptions ==> !plain
    ensures stored in RichExceptions && PlainText !in parents(stored) ==> !plain
  {
    if argument in RichExceptions then false
    else stored in [PlainText, Csv] || PlainText in parents(stored)
  }

  /** Outside the exception list the argument has no say: whatever is passed,
      the stored type alone decides, and with the two equal this is the
      one-argument classifier the call sites use. A rich type that is stored
      but not passed is classified by its parents alone. */
  lemma ClassifierReadsStoredType(argument: string, other: string, stored: string,
                                  parents: string -> seq<string>)
    requires argument !in RichExceptions && other !in RichExceptions
    ensures IsPlainTextAsWritten(argument, stored, parents) == IsPlainTextAsWritten(other, stored, parents)
    ensures stored !in RichExceptions ==>
              IsPlainTextAsWritten(argument, stored, parents) == IsPlainText(stored, parents)
    ensures stored in RichExceptions ==>
              (IsPlainTextAsWritten(argument, stored, parents) <==> PlainText in parents(stored))
  {
  }

  /** The classifier as every call site uses it: argument and stored type agree. */
  function IsPlainText(mimeType: string, parents: string -> seq<string>): (plain: bool)
    ensures mimeType in RichExceptions ==> !plain
    ensures mimeType == PlainText || mimeType == Csv ==> plain
    ensures mimeType !in RichExceptions ==>
              (plain <==> mimeType == PlainText || mimeType == Csv || PlainText in parents(mimeType))
  {
    IsPlainTextAsWritten(mimeType, mimeType, parents)
  }

  /** The exception list wins over whatever parents the taxonomy declares. */
  lemma RichTextWhateverParents(mimeType: string, parents: string -> seq<string>)
    requires mimeType in RichExceptions
    requires PlainText in parents(mimeType)
    ensures !IsPlainText(mimeType, parents)
  {
  }

  /** The hint `read_file` passes to `load_file`: text/plain, or none at all
      so that the engine detects the format itself. */
  function LoadHint(mimeType: string, parents: string -> seq<string>): (hint: string)
    ensures hint == PlainText <==> IsPlainText(mimeType, parents)
    ensures hint != PlainText ==> hint == ""
  {
    if IsPlainText(mimeType, parents) then PlainText else ""
  }

  /**
   * The rewrite `write_file` applies to a rich-text type before saving: a new
   * document (no type yet) becomes OpenDocument text, and Word, which the
   * engine cannot write, becomes RTF.
   */
  function Substitute(mimeType: string): (saved: string)
    ensures saved != "" && saved != MsWord
    ensures mimeType == "" ==> saved == OpenDocumentText
    ensures mimeType == MsWord ==> saved == Rtf
    ensures mimeType != "" && mimeType != MsWord ==> saved == mimeType
  {
    var named := if mimeType == "" then OpenDocumentText else mimeType;
    if named == MsWord then Rtf else named
  }

  /** What one save does: the type handed to the engine, and the type left in
      the metadata afterwards. */
  datatype SavePlan = SavePlan(saveAs: string, recorded: string)

  function PlanSave(mimeType: string, parents: string -> seq<string>): (plan: SavePlan)
    ensures IsPlainText(mimeType, parents) ==> plan == SavePlan(PlainText, mimeType)
    ensures !IsPlainText(mimeType, parents) ==>
              plan == SavePlan(Substitute(mimeType), Substitute(mimeType))
    ensures !IsPlainText(mimeType, parents) ==> plan.recorded != "" && plan.recorded != MsWord
  {
    if IsPlainText(mimeType, parents) then SavePlan(PlainText, mimeType)
    else var saved := Substitute(mimeType); SavePlan(saved, saved)
  }

  /** The engine is always handed the type the metadata records, except on the
      plain-text path, which saves as text/plain and leaves the type alone. */
  lemma SaveUsesRecordedType(mimeType: string, parents: string -> seq<string>)
    ensures var plan := PlanSave(mimeType, parents);
            plan.saveAs == plan.recorded || (plan.saveAs == PlainText && plan.recorded == mimeType)
  {
  }

  /** Saving twice: the second save records the same type as the first. */
  lemma SaveTwiceRecordsSameType(mimeType: string, parents: string -> seq<string>)
    ensures var once := PlanSave(mimeType, parents).recorded;
            PlanSave(once, parents).recorded == once
  {
  }

  /** The `fulltext` summary: the first `SummaryLimit` characters of the text. */
  function Summary(text: string): (summary: string)
    ensures |summary| == if |text| < SummaryLimit then |text| else SummaryLimit
    ensures summary <= text
  {
    if |text| < SummaryLimit then text else text[..SummaryLimit]
  }
}
