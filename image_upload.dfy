/** The image attachment widget (`app/components/ImageUpload.tsx`): which
    files it reads, and what it hands to its caller once the read finishes. */
module ImageUpload {
  import opened Common
  import DocumentUpload

  /** The 10 MiB limit. */
  const MaxImageBytes: nat := 10 * 1024 * 1024

  const NotAnImageAlert: string := "Por favor selecciona un archivo de imagen"
  const TooLargeAlert: string := "La imagen no debe superar 10MB"

  /** What selecting a file does: an alert, or starting `readAsDataURL(file)`. */
  datatype Selection = Alert(message: string) | Read(file: FileMeta)

  /** `handleFileSelect` up to the start of the read: the type check, then the
      size check. */
  function HandleFileSelect(f: FileMeta): Selection
  {
    if !StartsWith(f.mimeType, "image/") then Alert(NotAnImageAlert)
    else if f.size > MaxImageBytes then Alert(TooLargeAlert)
    else Read(f)
  }

  /** The `onImageSelect(file, preview)` call that follows, if any. `dataUrl`
      is the reader's result, `None` when the read fails: there is no error
      handler, so a failed read calls nothing. */
  function Delivered(s: Selection, dataUrl: Option<string>): Option<(FileMeta, string)>
  {
    if s.Read? && dataUrl.Some? then Some((s.file, dataUrl.value)) else None
  }

  /** `handleDrop`: only the first dropped file is considered; `None` when
      nothing was dropped. */
  function HandleDrop(files: seq<FileMeta>): Option<Selection>
  {
    if |files| == 0 then None else Some(HandleFileSelect(files[0]))
  }

  // ---------------------------------------------------------------------
  // Properties.

  /** A file is read exactly when its type starts with `image/` and it is at
      most 10 MiB; a non-image gets the type alert whatever its size. */
  lemma SelectionRule(f: FileMeta)
    ensures HandleFileSelect(f).Read? <==> StartsWith(f.mimeType, "image/") && f.size <= MaxImageBytes
    ensures HandleFileSelect(f).Read? ==> HandleFileSelect(f).file == f
    ensures !StartsWith(f.mimeType, "image/") ==> HandleFileSelect(f) == Alert(NotAnImageAlert)
    ensures StartsWith(f.mimeType, "image/") && f.size > MaxImageBytes ==> HandleFileSelect(f) == Alert(TooLargeAlert)
  {
  }

  /** The limit is inclusive: exactly 10 MiB is read, one byte more is not. */
  lemma SizeBoundary(f: FileMeta)
    requires StartsWith(f.mimeType, "image/")
    ensures f.size == 10485760 ==> HandleFileSelect(f).Read?
    ensures f.size == 10485761 ==> HandleFileSelect(f) == Alert(TooLargeAlert)
  {
  }

  /** The caller hears of a file only when it passed both checks and the read
      succeeded, and then gets that same file with the reader's data URL. */
  lemma CallbackRule(f: FileMeta, dataUrl: Option<string>)
    ensures Delivered(HandleFileSelect(f), dataUrl).Some? <==>
      StartsWith(f.mimeType, "image/") && f.size <= MaxImageBytes && dataUrl.Some?
    ensures Delivered(HandleFileSelect(f), dataUrl).Some? ==>
      Delivered(HandleFileSelect(f), dataUrl).value == (f, dataUrl.value)
  {
    SelectionRule(f);
  }

  /** A drop looks only at its first file, and an empty drop does nothing. */
  lemma DropUsesFirstFile(files: seq<FileMeta>, rest: seq<FileMeta>)
    ensures HandleDrop([]) == None
    ensures |files| > 0 ==> HandleDrop(files + rest) == Some(HandleFileSelect(files[0]))
  {
    if |files| > 0 {
      assert (files + rest)[0] == files[0];
    }
  }

  /** The two widgets accept disjoint sets of files: every document type
      starts with `application/` or `text/`, never with `image/`. */
  lemma WidgetsDisjoint(f: FileMeta)
    ensures !(HandleFileSelect(f).Read? && DocumentUpload.HandleFileSelect(f).Selected?)
  {
    var keys := DocumentUpload.AcceptedKeys();
    if f.mimeType in keys {
      var k :| 0 <= k < |keys| && keys[k] == f.mimeType;
      DocumentUpload.DocumentTypeHead(k);
    }
  }
}
