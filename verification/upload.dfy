/**
 * The upload page: a drop zone and a file input that keep one PDF or DOCX
 * document, and a button that moves on to processing only once a document
 * is selected.
 */
module UploadPage {
  import opened Wrappers
  import opened Files

  /** What `handleSimulasi` does: go to the processing page, or alert with the given message. */
  datatype Navigation = GoToProcessing | Alert(message: string)

  const MissingDocumentText: string := "Silakan unggah dokumen terlebih dahulu."

  class FileUploadPage {
    var isDragOver: bool
    var selectedFile: Option<File>

    /** A kept document is always a PDF or a DOCX. */
    ghost predicate Valid()
      reads this
    {
      selectedFile.Some? ==> Accepted(selectedFile.value, DocumentTypes)
    }

    constructor ()
      ensures Valid() && !isDragOver && selectedFile == None
    {
      isDragOver := false;
      selectedFile := None;
    }

    /** `handleDragOver`: the drop zone is highlighted. */
    method DragOver()
      requires Valid()
      modifies this`isDragOver
      ensures Valid() && isDragOver
    {
      isDragOver := true;
    }

    /** `handleDragLeave`: the highlight goes away. */
    method DragLeave()
      requires Valid()
      modifies this`isDragOver
      ensures Valid() && !isDragOver
    {
      isDragOver := false;
    }

    /** `handleDrop`: the highlight goes away and the first PDF or DOCX among the dropped files
        replaces the selection; a drop with none keeps the previous selection. */
    method Drop(files: seq<File>)
      requires Valid()
      modifies this`isDragOver, this`selectedFile
      ensures Valid() && !isDragOver
      ensures FindFirst(files, DocumentTypes).None? ==> selectedFile == old(selectedFile)
      ensures FindFirst(files, DocumentTypes).Some? ==>
        selectedFile == Some(files[FindFirst(files, DocumentTypes).value])
    {
      isDragOver := false;
      var found := FindFirst(files, DocumentTypes);
      if found.Some? {
        selectedFile := Some(files[found.value]);
      }
    }

    /** `handleFileSelect`: the first chosen file replaces the selection when it is a PDF or a DOCX;
        otherwise the selection stays. */
    method FileSelect(files: seq<File>)
      requires Valid()
      modifies this`selectedFile
      ensures Valid()
      ensures FirstIfAccepted(files, DocumentTypes).Some? ==> selectedFile == FirstIfAccepted(files, DocumentTypes)
      ensures FirstIfAccepted(files, DocumentTypes).None? ==> selectedFile == old(selectedFile)
    {
      var chosen := FirstIfAccepted(files, DocumentTypes);
      if chosen.Some? {
        selectedFile := chosen;
      }
    }

    /** `handleSimulasi`: on to processing exactly when a document is selected, else an alert. */
    method Simulasi() returns (nav: Navigation)
      requires Valid()
      ensures nav == GoToProcessing <==> selectedFile.Some?
      ensures nav != GoToProcessing ==> nav == Alert(MissingDocumentText)
    {
      if selectedFile.Some? {
        nav := GoToProcessing;
      } else {
        nav := Alert(MissingDocumentText);
      }
    }
  }
}
