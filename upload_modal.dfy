/**
 * The screenshot upload dialog: which picked file it accepts, the selected
 * file and preview it keeps, the Upload button's gate, and the
 * delete-confirmation overlay over the list of uploaded screenshots.
 */
module UploadModal {
  import opened Wrappers
  import opened Http

  /** Ten mebibytes: the largest accepted file, inclusive. */
  const MaxFileSize: int := 10 * 1024 * 1024

  const NotAnImage: string := "Please select an image file"
  const TooLarge: string := "File size should be less than 10MB"

  /** A picked file: its name, MIME type and size in bytes. */
  datatype File = File(name: string, mimeType: string, size: int)

  /** An uploaded screenshot as the list holds it. */
  datatype Screenshot = Screenshot(id: string, screenShot: string, isActive: bool, createdAt: string)

  /** The confirmation overlay: whether it is open and which screenshot it is about. */
  datatype Confirmation = Confirmation(isOpen: bool, screenshotId: Option<string>)

  const Closed: Confirmation := Confirmation(false, None)

  /** The toast a picked file raises, if any: the type is checked before the size. */
  function FileError(f: File): (m: Option<string>)
    ensures m.None? <==> StartsWith(f.mimeType, "image/") && f.size <= MaxFileSize
    ensures m == Some(NotAnImage) <==> !StartsWith(f.mimeType, "image/")
    ensures m == Some(TooLarge) <==> StartsWith(f.mimeType, "image/") && f.size > MaxFileSize
  {
    if !StartsWith(f.mimeType, "image/") then Some(NotAnImage)
    else if f.size > MaxFileSize then Some(TooLarge)
    else None
  }

  /** The size limit is inclusive: exactly ten mebibytes passes, one byte more does not. */
  lemma SizeBoundary(name: string, mimeType: string)
    requires StartsWith(mimeType, "image/")
    ensures FileError(File(name, mimeType, 10485760)) == None
    ensures FileError(File(name, mimeType, 10485761)) == Some(TooLarge)
  {
  }

  /** The type check is a prefix test on the MIME type only, so `image/svg+xml` passes and `IMAGE/PNG` does not. */
  lemma TypeIsPrefixTest()
    ensures FileError(File("a.svg", "image/svg+xml", 0)) == None
    ensures FileError(File("a.png", "IMAGE/PNG", 0)) == Some(NotAnImage)
  {
    assert "IMAGE/PNG"[0] != "image/"[0];
  }

  class Modal {
    var selectedFile: Option<File>
    /** The data URL the file reader produced for the selected file. */
    var preview: Option<string>
    var deleteConfirmation: Confirmation

    constructor ()
      ensures selectedFile == None && preview == None && deleteConfirmation == Closed
    {
      selectedFile := None;
      preview := None;
      deleteConfirmation := Closed;
    }

    /**
     * `handleFileChange`: `picked` is the first file of the input, if any. An
     * accepted file becomes the selection; a rejected one raises a toast and
     * keeps the previous selection.
     */
    method HandleFileChange(picked: Option<File>) returns (toast: Option<string>)
      modifies this`selectedFile
      ensures picked.None? ==> toast == None && selectedFile == old(selectedFile)
      ensures picked.Some? ==> toast == FileError(picked.value)
      ensures picked.Some? && toast.None? ==> selectedFile == picked
      ensures toast.Some? ==> selectedFile == old(selectedFile)
    {
      toast := None;
      if picked.Some? {
        toast := FileError(picked.value);
        if toast.None? {
          selectedFile := picked;
        }
      }
    }

    /** The file reader's `onloadend`: the preview shows the data URL. */
    method PreviewLoaded(dataUrl: string)
      modifies this`preview
      ensures preview == Some(dataUrl)
    {
      preview := Some(dataUrl);
    }

    /** The Upload button is disabled without a selection or while an upload runs. */
    function UploadDisabled(isUploading: bool): (b: bool)
      reads this
      ensures !b <==> selectedFile.Some? && !isUploading
    {
      selectedFile.None? || isUploading
    }

    /**
     * `handleSubmit`: with a selection, hand it to `onUpload`; when that does
     * not reject, clear the selection and the preview, which disables the
     * button again. Without a selection (the button's disabled state) nothing happens.
     */
    method HandleSubmit(uploadRejected: bool) returns (uploaded: Option<File>)
      modifies this`selectedFile, this`preview
      ensures uploaded == old(selectedFile)
      ensures uploaded.Some? <==> !old(UploadDisabled(false))
      ensures uploaded.Some? && !uploadRejected ==> UploadDisabled(false)
      ensures uploaded.Some? && !uploadRejected ==> selectedFile == None && preview == None
      ensures uploaded.None? || uploadRejected ==> selectedFile == old(selectedFile) && preview == old(preview)
    {
      uploaded := selectedFile;
      if selectedFile.Some? && !uploadRejected {
        preview := None;
        selectedFile := None;
      }
    }

    /** A trash button opens the confirmation for its screenshot. */
    method HandleDeleteClick(screenshotId: string)
      modifies this`deleteConfirmation
      ensures deleteConfirmation == Confirmation(true, Some(screenshotId))
    {
      deleteConfirmation := Confirmation(true, Some(screenshotId));
    }

    /** Cancel closes the confirmation without deleting. */
    method CancelDelete()
      modifies this`deleteConfirmation
      ensures deleteConfirmation == Closed
    {
      deleteConfirmation := Closed;
    }

    /**
     * `handleConfirmDelete`: with a non-empty id, `onDelete` gets exactly that
     * id and, when it does not reject, the overlay closes. An empty id does
     * nothing and leaves the overlay open.
     */
    method HandleConfirmDelete(deleteRejected: bool) returns (deleted: Option<string>)
      modifies this`deleteConfirmation
      ensures Truthy(old(deleteConfirmation.screenshotId)) <==> deleted.Some?
      ensures deleted.Some? ==> deleted == old(deleteConfirmation.screenshotId)
      ensures deleted.Some? && !deleteRejected ==> deleteConfirmation == Closed
      ensures deleted.None? || deleteRejected ==> deleteConfirmation == old(deleteConfirmation)
    {
      deleted := None;
      if Truthy(deleteConfirmation.screenshotId) {
        deleted := deleteConfirmation.screenshotId;
        if !deleteRejected {
          deleteConfirmation := Closed;
        }
      }
    }
  }
}
