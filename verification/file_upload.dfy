/**
 * The `FileUpload` component: like the upload page's drop zone, but it keeps
 * PDFs only and reports each kept file's name to its parent through the
 * `onFileUploaded` callback. The callback's calls are recorded, in order, in
 * `uploadedNames`.
 */
module FileUploadComponent {
  import opened Wrappers
  import opened Files

  class FileUpload {
    var isDragOver: bool
    var selectedFile: Option<File>
    /** The arguments of every `onFileUploaded` call so far. */
    var uploadedNames: seq<string>

    /** A kept file is a PDF, and it is the one the parent heard about last. */
    ghost predicate Valid()
      reads this
    {
      selectedFile.Some? ==>
        Accepted(selectedFile.value, PdfOnly)
        && uploadedNames != []
        && uploadedNames[|uploadedNames| - 1] == selectedFile.value.name
    }

    constructor ()
      ensures Valid() && !isDragOver && selectedFile == None && uploadedNames == []
    {
      isDragOver := false;
      selectedFile := None;
      uploadedNames := [];
    }

    /** `handleDragOver`. */
    method DragOver()
      requires Valid()
      modifies this`isDragOver
      ensures Valid() && isDragOver
    {
      isDragOver := true;
    }

    /** `handleDragLeave`. */
    method DragLeave()
      requires Valid()
      modifies this`isDragOver
      ensures Valid() && !isDragOver
    {
      isDragOver := false;
    }

    /** `handleDrop`: the first dropped PDF is kept and its name reported once; a drop without a
        PDF reports nothing and keeps the selection. */
    method Drop(files: seq<File>)
      requires Valid()
      modifies this`isDragOver, this`selectedFile, this`uploadedNames
      ensures Valid() && !isDragOver
      ensures FindFirst(files, PdfOnly).None? ==>
        selectedFile == old(selectedFile) && uploadedNames == old(uploadedNames)
      ensures FindFirst(files, PdfOnly).Some? ==>
        var f := files[FindFirst(files, PdfOnly).value];
        selectedFile == Some(f) && uploadedNames == old(uploadedNames) + [f.name]
    {
      isDragOver := false;
      var found := FindFirst(files, PdfOnly);
      if found.Some? {
        var f := files[found.value];
        selectedFile := Some(f);
        uploadedNames := uploadedNames + [f.name];
      }
    }

    /** `handleFileSelect`: the first chosen file is kept and reported when it is a PDF. */
    method FileSelect(files: seq<File>)
      requires Valid()
      modifies this`selectedFile, this`uploadedNames
      ensures Valid()
      ensures FirstIfAccepted(files, PdfOnly).None? ==>
        selectedFile == old(selectedFile) && uploadedNames == old(uploadedNames)
      ensures FirstIfAccepted(files, PdfOnly).Some? ==>
        selectedFile == Some(files[0]) && uploadedNames == old(uploadedNames) + [files[0].name]
    {
      var chosen := FirstIfAccepted(files, PdfOnly);
      if chosen.Some? {
        selectedFile := chosen;
        uploadedNames := uploadedNames + [chosen.value.name];
      }
    }
  }
}
