/** Document pre-processing (`app/utils/fileUtils.ts`): the content sent to the
    chat for an attached document, chosen by the first branch its MIME type
    matches. */
module FileUtils {
  import opened Common

  datatype Processed = Processed(name: string, content: string, mimeType: string)

  /** The branch of the `if`/`else if` chain a MIME type takes. */
  datatype Kind = PlainText | Pdf | Word | Spreadsheet | Other

  /** The branches in source order; the first that matches wins. */
  function Classify(mimeType: string): Kind
  {
    if mimeType == "text/plain" || mimeType == "text/csv" then PlainText
    else if mimeType == "application/pdf" then Pdf
    else if Contains(mimeType, "word") || Contains(mimeType, "document") then Word
    else if Contains(mimeType, "sheet") || Contains(mimeType, "excel") then Spreadsheet
    else Other
  }

  function PdfNote(name: string): string
  {
    "[Archivo PDF: " + name + "]\n\nNota: El contenido del PDF será procesado por Claude directamente."
  }

  function WordNote(name: string): string
  {
    "[Documento Word: " + name + "]\n\nNota: El contenido del documento será procesado por Claude directamente."
  }

  function SpreadsheetNote(name: string): string
  {
    "[Hoja de cálculo: " + name + "]\n\nNota: El contenido de la hoja de cálculo será procesado por Claude directamente."
  }

  function ReadError(name: string): string
  {
    "Error al leer el archivo: " + name
  }

  /** `processDocument`. `text` is what `file.text()` resolves to, `None` when
      it rejects; only the plain-text branch reads it, and a rejection there
      is caught and turned into an error message. */
  function ProcessDocument(f: FileMeta, text: Option<string>): (r: Processed)
    ensures r.name == f.name && r.mimeType == f.mimeType
  {
    Processed(f.name, Content(Classify(f.mimeType), f.name, text), f.mimeType)
  }

  /** The content each branch sets. */
  function Content(k: Kind, name: string, text: Option<string>): string
  {
    match k
    case PlainText => if text.Some? then text.value else ReadError(name)
    case Pdf => PdfNote(name)
    case Word => WordNote(name)
    case Spreadsheet => SpreadsheetNote(name)
    case Other => ""
  }

  // ---------------------------------------------------------------------
  // Properties.

  /** Only the plain-text branch reads the file: for every other type the
      result does not depend on what reading it would give. */
  lemma OnlyPlainTextReads(f: FileMeta, text: Option<string>, other: Option<string>)
    requires Classify(f.mimeType) != PlainText
    ensures ProcessDocument(f, text) == ProcessDocument(f, other)
  {
  }

  lemma ContainsMiddle(pre: string, sub: string, post: string)
    ensures Contains(pre + sub + post, sub)
  {
    var s := pre + sub + post;
    assert StartsWith(s[|pre|..], sub) by {
      assert s[|pre|..][..|sub|] == sub;
    }
  }

  /** Every character of an occurring substring is a character of the string;
      so a string lacking one of them does not contain it. */
  lemma ContainsHasChars(s: string, sub: string, j: nat)
    requires j < |sub|
    ensures Contains(s, sub) ==> sub[j] in s
  {
    if Contains(s, sub) {
      var i :| 0 <= i <= |s| - |sub| && StartsWith(s[i..], sub);
      assert s[i + j] == sub[j];
    }
  }

  /** The exact text types give the file's text, or the error message
      naming the file when reading it fails. */
  lemma TextContent(f: FileMeta, text: Option<string>)
    requires f.mimeType == "text/plain" || f.mimeType == "text/csv"
    ensures text.Some? ==> ProcessDocument(f, text).content == text.value
    ensures text.None? ==> ProcessDocument(f, text).content == ReadError(f.name)
  {
  }

  /** The exact PDF type gives the PDF placeholder naming the file. */
  lemma PdfContent(f: FileMeta, text: Option<string>)
    requires f.mimeType == "application/pdf"
    ensures ProcessDocument(f, text).content == PdfNote(f.name)
  {
  }

  /** Any other type containing `word` or `document` gives the Word
      placeholder naming the file. */
  lemma WordContent(f: FileMeta, text: Option<string>)
    requires f.mimeType != "text/plain" && f.mimeType != "text/csv" && f.mimeType != "application/pdf"
    requires Contains(f.mimeType, "word") || Contains(f.mimeType, "document")
    ensures ProcessDocument(f, text).content == WordNote(f.name)
  {
  }

  /** A type containing `sheet` or `excel` but neither `word` nor `document`
      gives the spreadsheet placeholder naming the file. */
  lemma SpreadsheetContent(f: FileMeta, text: Option<string>)
    requires f.mimeType != "text/plain" && f.mimeType != "text/csv" && f.mimeType != "application/pdf"
    requires !Contains(f.mimeType, "word") && !Contains(f.mimeType, "document")
    requires Contains(f.mimeType, "sheet") || Contains(f.mimeType, "excel")
    ensures ProcessDocument(f, text).content == SpreadsheetNote(f.name)
  {
  }

  /** A type matching no branch gives empty content. */
  lemma OtherContent(f: FileMeta, text: Option<string>)
    requires f.mimeType != "text/plain" && f.mimeType != "text/csv" && f.mimeType != "application/pdf"
    requires !Contains(f.mimeType, "word") && !Contains(f.mimeType, "document")
    requires !Contains(f.mimeType, "sheet") && !Contains(f.mimeType, "excel")
    ensures ProcessDocument(f, text).content == ""
  {
  }

  /** The branch order: a type reaches the spreadsheet branch only when it
      contains `sheet` or `excel` and neither `word` nor `document` (nor is an
      exact text or PDF type); and any type containing `word` or `document`
      that is not an exact text or PDF type is treated as Word. */
  lemma BranchOrder(t: string)
    ensures Classify(t) == Spreadsheet <==>
      && t != "text/plain" && t != "text/csv" && t != "application/pdf"
      && !Contains(t, "word") && !Contains(t, "document")
      && (Contains(t, "sheet") || Contains(t, "excel"))
    ensures (t != "text/plain" && t != "text/csv" && t != "application/pdf" &&
             (Contains(t, "word") || Contains(t, "document"))) ==> Classify(t) == Word
  {
  }

  /** The Office Open XML prefix shared by the DOCX and XLSX types, in the
      pieces the substring checks look at. */
  const OfficeVendor: string := "application/vnd.openxmlformats-office"
  const OfficeDocument: string := OfficeVendor + "document"

  const DocxType: string := OfficeDocument + ".wordprocessingml.document"
  const XlsxType: string := OfficeDocument + ".spreadsheetml.sheet"
  const XlsType: string := "application/vnd.ms-" + "excel"

  lemma XlsxContainsDocument()
    ensures Contains(XlsxType, "document")
  {
    ContainsMiddle(OfficeVendor, "document", ".spreadsheetml.sheet");
  }

  lemma XlsxContainsSheet()
    ensures Contains(XlsxType, "sheet")
  {
    var pre := OfficeDocument + ".spreadsheetml.";
    assert XlsxType == pre + "sheet" + "";
    ContainsMiddle(pre, "sheet", "");
  }

  /** The XLSX MIME type contains `officedocument`, so the Word branch, which
      runs first, takes it: an XLSX file gets the Word placeholder although
      its type also contains `sheet`. */
  lemma XlsxTakesWordBranch(f: FileMeta, text: Option<string>)
    requires f.mimeType == XlsxType
    ensures Classify(f.mimeType) == Word
    ensures ProcessDocument(f, text).content == WordNote(f.name)
    ensures Contains(f.mimeType, "sheet")
  {
    XlsxContainsDocument();
    XlsxContainsSheet();
    NotExactTypes(XlsxType);
  }

  lemma XlsContainsExcel()
    ensures Contains(XlsType, "excel")
  {
    var pre := "application/vnd.ms-";
    assert XlsType == pre + "excel" + "";
    ContainsMiddle(pre, "excel", "");
  }

  lemma XlsLacksWordAndDocument()
    ensures !Contains(XlsType, "word") && !Contains(XlsType, "document")
  {
    assert 'w' !in XlsType;
    assert 'u' !in XlsType;
    ContainsHasChars(XlsType, "word", 0);
    ContainsHasChars(XlsType, "document", 3);
  }

  /** The legacy Excel type reaches the spreadsheet branch. */
  lemma XlsTakesSpreadsheetBranch(f: FileMeta, text: Option<string>)
    requires f.mimeType == XlsType
    ensures Classify(f.mimeType) == Spreadsheet
    ensures ProcessDocument(f, text).content == SpreadsheetNote(f.name)
  {
    XlsContainsExcel();
    XlsLacksWordAndDocument();
    NotExactTypes(XlsType);
  }

  /** The DOCX type reaches the Word branch. */
  lemma DocxTakesWordBranch()
    ensures Classify(DocxType) == Word
  {
    ContainsMiddle(OfficeVendor, "document", ".wordprocessingml.document");
    NotExactTypes(DocxType);
  }

  /** The legacy Word type reaches the Word branch. */
  lemma DocTakesWordBranch()
    ensures Classify("application/msword") == Word
  {
    var pre := "application/ms";
    assert "application/msword" == pre + "word" + "";
    ContainsMiddle(pre, "word", "");
    NotExactTypes("application/msword");
  }

  lemma NotExactTypes(t: string)
    requires |t| > |"application/pdf"|
    ensures t != "text/plain" && t != "text/csv" && t != "application/pdf"
  {
  }
}
