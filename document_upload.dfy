/** The document attachment widget (`app/components/DocumentUpload.tsx`): which
    files it hands on, what it shows for them, and how it prints small sizes. */
module DocumentUpload {
  import opened Common
  import FileUtils

  datatype FileInfo = FileInfo(ext: string, icon: string, color: string)

  /** `ACCEPTED_TYPES`, in declaration order. */
  const AcceptedTypes: seq<(string, FileInfo)> := [
    ("application/pdf", FileInfo("PDF", "📄", "#ef4444")),
    (FileUtils.DocxType, FileInfo("DOCX", "📘", "#2563eb")),
    ("application/msword", FileInfo("DOC", "📘", "#2563eb")),
    ("text/plain", FileInfo("TXT", "📝", "#64748b")),
    (FileUtils.XlsxType, FileInfo("XLSX", "📊", "#16a34a")),
    (FileUtils.XlsType, FileInfo("XLS", "📊", "#16a34a")),
    ("text/csv", FileInfo("CSV", "📋", "#8b5cf6"))
  ]

  /** `Object.keys(ACCEPTED_TYPES)`. */
  function AcceptedKeys(): (keys: seq<string>)
    ensures |keys| == |AcceptedTypes| && forall i :: 0 <= i < |keys| ==> keys[i] == AcceptedTypes[i].0
  {
    seq(|AcceptedTypes|, i requires 0 <= i < |AcceptedTypes| => AcceptedTypes[i].0)
  }

  /** The 25 MiB limit. */
  const MaxDocumentBytes: nat := 25 * 1024 * 1024

  const UnsupportedTypeAlert: string := "Tipo de archivo no soportado. Por favor sube PDF, Word, Excel, CSV o TXT."
  const TooLargeAlert: string := "El archivo no debe superar 25MB"

  /** What selecting a file does: an alert, or `onDocumentSelect(file)`. */
  datatype Selection = Alert(message: string) | Selected(file: FileMeta)

  /** `handleFileSelect`: the type check, then the size check. */
  function HandleFileSelect(f: FileMeta): Selection
  {
    if f.mimeType !in AcceptedKeys() then Alert(UnsupportedTypeAlert)
    else if f.size > MaxDocumentBytes then Alert(TooLargeAlert)
    else Selected(f)
  }

  /** `handleDrop`: only the first dropped file is considered; `None` when
      nothing was dropped. */
  function HandleDrop(files: seq<FileMeta>): Option<Selection>
  {
    if |files| == 0 then None else Some(HandleFileSelect(files[0]))
  }

  /** `ACCEPTED_TYPES[type]`: the entry for a key, if there is one. */
  function Lookup(table: seq<(string, FileInfo)>, key: string): (r: Option<FileInfo>)
    ensures r.Some? <==> exists i :: 0 <= i < |table| && table[i].0 == key
    ensures r.Some? ==> exists i :: 0 <= i < |table| && table[i] == (key, r.value)
  {
    if table == [] then None
    else if table[0].0 == key then Some(table[0].1)
    else Lookup(table[1..], key)
  }

  const FallbackInfo: FileInfo := FileInfo("FILE", "📎", "#64748b")

  /** `getFileInfo`: the table's entry, or the generic one. */
  function GetFileInfo(f: FileMeta): FileInfo
  {
    match Lookup(AcceptedTypes, f.mimeType)
    case Some(info) => info
    case None => FallbackInfo
  }

  // Sizes below 1024 bytes.

  function DigitChar(d: nat): char
    requires d < 10
  {
    "0123456789"[d]
  }

  /** The decimal rendering of a whole number, as `String(n)` gives it. */
  function NatToString(n: nat): (s: string)
    ensures |s| > 0
    ensures forall i :: 0 <= i < |s| ==> '0' <= s[i] <= '9'
    ensures n == 0 ==> s == "0"
    ensures n > 0 ==> s[0] != '0'
    decreases n
  {
    if n < 10 then [DigitChar(n)] else NatToString(n / 10) + [DigitChar(n % 10)]
  }

  /** Reads a string of decimal digits back as a number. */
  function ParseDigits(s: string): nat
    requires forall i :: 0 <= i < |s| ==> '0' <= s[i] <= '9'
  {
    if s == [] then 0 else 10 * ParseDigits(s[..|s| - 1]) + (s[|s| - 1] as int - '0' as int)
  }

  /** The bytes branch of `formatFileSize`: `bytes + ' B'`. The kilobyte and
      megabyte branches print fractions and are not modelled (`None`). */
  function FormatFileSize(bytes: nat): Option<string>
  {
    if bytes < 1024 then Some(NatToString(bytes) + " B") else None
  }

  // ---------------------------------------------------------------------
  // Properties.

  /** The file is handed on, unchanged, exactly when its type is one of the
      seven keys and its size is at most 25 MiB; the type is checked first, so
      an unsupported file gets the type alert whatever its size. */
  lemma SelectionRule(f: FileMeta)
    ensures HandleFileSelect(f).Selected? <==> f.mimeType in AcceptedKeys() && f.size <= MaxDocumentBytes
    ensures HandleFileSelect(f).Selected? ==> HandleFileSelect(f).file == f
    ensures f.mimeType !in AcceptedKeys() ==> HandleFileSelect(f) == Alert(UnsupportedTypeAlert)
    ensures f.mimeType in AcceptedKeys() && f.size > MaxDocumentBytes ==> HandleFileSelect(f) == Alert(TooLargeAlert)
  {
  }

  /** The limit is inclusive: exactly 25 MiB passes, one byte more does not. */
  lemma SizeBoundary(f: FileMeta)
    requires f.mimeType in AcceptedKeys()
    ensures f.size == 26214400 ==> HandleFileSelect(f).Selected?
    ensures f.size == 26214401 ==> HandleFileSelect(f) == Alert(TooLargeAlert)
  {
  }

  /** The seven accepted types, in order, and no others. */
  lemma AcceptedKeysAreSeven()
    ensures AcceptedKeys() == [
      "application/pdf",
      FileUtils.DocxType,
      "application/msword",
      "text/plain",
      FileUtils.XlsxType,
      FileUtils.XlsType,
      "text/csv"]
  {
  }

  /** A drop looks only at its first file, and an empty drop does nothing. */
  lemma DropUsesFirstFile(files: seq<FileMeta>, rest: seq<FileMeta>)
    ensures HandleDrop([]) == None
    ensures |files| > 0 ==> HandleDrop(files + rest) == Some(HandleFileSelect(files[0]))
  {
    if |files| > 0 {
      assert (files + rest)[0] == files[0];
    }
  }

  /** An accepted type shows its table entry; any other shows the generic
      entry, which no accepted type has. */
  lemma FileInfoRule(f: FileMeta)
    ensures f.mimeType in AcceptedKeys() ==>
      exists i :: 0 <= i < |AcceptedTypes| && AcceptedTypes[i] == (f.mimeType, GetFileInfo(f))
    ensures f.mimeType !in AcceptedKeys() ==> GetFileInfo(f) == FallbackInfo
    ensures f.mimeType in AcceptedKeys() ==> GetFileInfo(f).ext != "FILE"
  {
    if f.mimeType in AcceptedKeys() {
      var i :| 0 <= i < |AcceptedKeys()| && AcceptedKeys()[i] == f.mimeType;
      assert AcceptedTypes[i].0 == f.mimeType;
      var j :| 0 <= j < |AcceptedTypes| && AcceptedTypes[j] == (f.mimeType, GetFileInfo(f));
      assert AcceptedTypes[j].1.ext != "FILE";
    } else {
      forall i | 0 <= i < |AcceptedTypes|
        ensures AcceptedTypes[i].0 != f.mimeType
      {
        assert AcceptedKeys()[i] in AcceptedKeys();
      }
    }
  }

  /** The decimal rendering reads back as the number it renders. */
  lemma {:induction false} NatToStringRoundTrip(n: nat)
    ensures ParseDigits(NatToString(n)) == n
    decreases n
  {
    if n >= 10 {
      NatToStringRoundTrip(n / 10);
      var s := NatToString(n);
      assert s[..|s| - 1] == NatToString(n / 10);
    }
  }

  /** Below 1024 bytes the size is the number of bytes in decimal, without
      leading zeros, then " B". */
  lemma SmallSizeShown(bytes: nat)
    requires bytes < 1024
    ensures FormatFileSize(bytes).Some?
    ensures var s := FormatFileSize(bytes).value;
      && |s| >= 3 && s[|s| - 2..] == " B"
      && ParseDigits(s[..|s| - 2]) == bytes
      && (bytes == 0 ==> s == "0 B")
      && (bytes > 0 ==> s[0] != '0')
  {
    var s := FormatFileSize(bytes).value;
    assert s[..|s| - 2] == NatToString(bytes);
    NatToStringRoundTrip(bytes);
  }

  /** How the document pre-processor treats each accepted type: text and
      CSV are read, PDF gets the PDF note, only XLS reaches the spreadsheet
      branch, and the two Word types and also XLSX get the Word note. So no
      accepted type falls through to the empty content. */
  lemma AcceptedTypeProcessed(k: string)
    requires k in AcceptedKeys()
    ensures FileUtils.Classify(k) ==
      if k == "text/plain" || k == "text/csv" then FileUtils.PlainText
      else if k == "application/pdf" then FileUtils.Pdf
      else if k == FileUtils.XlsType then FileUtils.Spreadsheet
      else FileUtils.Word
  {
    AcceptedKeysAreSeven();
    if k == FileUtils.XlsxType {
      FileUtils.XlsxTakesWordBranch(FileMeta("", k, 0), None);
    } else if k == FileUtils.XlsType {
      FileUtils.XlsTakesSpreadsheetBranch(FileMeta("", k, 0), None);
    } else if k == FileUtils.DocxType {
      FileUtils.DocxTakesWordBranch();
    } else if k == "application/msword" {
      FileUtils.DocTakesWordBranch();
    }
  }

  /** Both Office Open XML types begin with `a`. */
  lemma OfficeTypesHead()
    ensures FileUtils.DocxType[0] == 'a' && FileUtils.XlsxType[0] == 'a'
  {
    assert FileUtils.OfficeDocument[0] == FileUtils.OfficeVendor[0];
  }

  /** Every document type begins with `a` (`application/`) or `t` (`text/`). */
  lemma DocumentTypeHead(i: nat)
    requires i < |AcceptedTypes|
    ensures AcceptedTypes[i].0[0] == 'a' || AcceptedTypes[i].0[0] == 't'
  {
    if i == 1 || i == 4 {
      OfficeTypesHead();
    }
  }
}
