/**
 * The browser `File` objects the upload handlers receive, the document MIME
 * types they accept, and `Array.prototype.find` over a dropped file list.
 */
module Files {
  import opened Wrappers

  /** The fields of a `File` the handlers look at (the size only appears in the "Maksimal 10MB" label). */
  datatype File = File(name: string, mimeType: string, size: nat)

  const PdfMime: string := "application/pdf"
  const DocxMime: string := "application/vnd.openxmlformats-officedocument.wordprocessingml.document"

  /** What the upload page accepts: PDF and DOCX. */
  const DocumentTypes: set<string> := {PdfMime, DocxMime}
  /** What the upload component accepts: PDF only. */
  const PdfOnly: set<string> := {PdfMime}

  predicate Accepted(f: File, types: set<string>) {
    f.mimeType in types
  }

  /** `files.find(file => accepted)`, as an index: the first file whose type is accepted, or none
      when no file is. */
  function FindFirst(files: seq<File>, types: set<string>): (r: Option<nat>)
    ensures r.Some? ==> r.value < |files| && Accepted(files[r.value], types)
    ensures r.Some? ==> forall j :: 0 <= j < r.value ==> !Accepted(files[j], types)
    ensures r.None? <==> forall j :: 0 <= j < |files| ==> !Accepted(files[j], types)
  {
    if files == [] then None
    else if Accepted(files[0], types) then Some(0)
    else match FindFirst(files[1..], types)
      case None => None
      case Some(i) => Some(i + 1)
  }

  /** `e.target.files?.[0]` passed through the type test: the first selected file when it is
      accepted; later files are never looked at. */
  function FirstIfAccepted(files: seq<File>, types: set<string>): (r: Option<File>)
    ensures r.Some? <==> files != [] && Accepted(files[0], types)
    ensures r.Some? ==> r.value == files[0]
  {
    if files != [] && Accepted(files[0], types) then Some(files[0]) else None
  }

  /** Two file lists with the same MIME types, position by position, give the same pick: names
      and sizes play no part, so no size limit is enforced. */
  lemma FindFirstTypesOnly(a: seq<File>, b: seq<File>, types: set<string>)
    requires |a| == |b|
    requires forall j :: 0 <= j < |a| ==> a[j].mimeType == b[j].mimeType
    ensures FindFirst(a, types) == FindFirst(b, types)
  {
    var ra, rb := FindFirst(a, types), FindFirst(b, types);
    if ra.Some? {
      assert Accepted(b[ra.value], types);
    }
    if rb.Some? {
      assert Accepted(a[rb.value], types);
    }
  }

  /** Accepting more types can only move the pick earlier: whenever the PDF-only search finds a
      file, the PDF-or-DOCX search finds that file or one before it. */
  lemma WiderTypesPickEarlier(files: seq<File>, narrow: set<string>, wide: set<string>)
    requires narrow <= wide
    requires FindFirst(files, narrow).Some?
    ensures FindFirst(files, wide).Some?
    ensures FindFirst(files, wide).value <= FindFirst(files, narrow).value
  {
    var i := FindFirst(files, narrow).value;
    assert Accepted(files[i], wide);
  }
}
