/** The image upload button: the type check, then the size check, then the
    upload, with `isUploading` set around the upload. */
module MediaUpload {
  import opened Outcomes

  /** The picked file as the handler sees it: its MIME type and byte size. */
  datatype File = File(mimeType: string, size: nat)

  const ValidTypes: seq<string> := ["image/jpeg", "image/png", "image/gif"]

  /** 5 MiB. */
  const MaxBytes: nat := 5 * 1024 * 1024

  /** Why a file is refused, or that it may be uploaded. */
  datatype Verdict = WrongType | TooLarge | Accepted

  /** The two checks in source order: the type is checked first. */
  function Validate(file: File): (v: Verdict)
    ensures v == WrongType <==> file.mimeType !in ValidTypes
    ensures v == TooLarge <==> file.mimeType in ValidTypes && file.size > MaxBytes
    ensures v == Accepted <==> file.mimeType in ValidTypes && file.size <= MaxBytes
  {
    if file.mimeType !in ValidTypes then WrongType
    else if file.size > MaxBytes then TooLarge
    else Accepted
  }

  /** The user-facing message for a refused file; an accepted file has none. */
  function RefusalMessage(v: Verdict): (m: string)
    ensures m != "" <==> v != Accepted
    ensures v == WrongType ==> m == "Please upload a valid image file (JPEG, PNG, or GIF)"
    ensures v == TooLarge ==> m == "File size must be less than 5MB"
  {
    match v
    case WrongType => "Please upload a valid image file (JPEG, PNG, or GIF)"
    case TooLarge => "File size must be less than 5MB"
    case Accepted => ""
  }

  /** A file of exactly 5 MiB passes; one byte more does not. */
  lemma LimitIsInclusive(mimeType: string)
    requires mimeType in ValidTypes
    ensures Validate(File(mimeType, 5242880)) == Accepted
    ensures Validate(File(mimeType, 5242881)) == TooLarge
  {
  }

  /** An oversized file of the wrong type reports the type error. */
  lemma TypeCheckedFirst(file: File)
    requires file.mimeType !in ValidTypes && file.size > MaxBytes
    ensures Validate(file) == WrongType
  {
  }

  /** Only the three image types pass the type check. */
  lemma AllowedTypes(file: File)
    requires file.size <= MaxBytes
    ensures Validate(file) == Accepted <==>
              file.mimeType == "image/jpeg" || file.mimeType == "image/png" || file.mimeType == "image/gif"
  {
  }

  class MediaUpload {
    var isUploading: bool
    /** The file the hidden input holds: the browser sets it when the user
        picks a file, and the handler clears the input only after a
        successful upload. */
    var selected: Option<File>

    constructor ()
      ensures !isUploading && selected == None
    {
      isUploading, selected := false, None;
    }

    /** The button is disabled while an upload is in progress. */
    function ButtonDisabled(): bool
      reads this
    {
      isUploading
    }

    /** `handleUpload`, with the awaited upload's outcome (the public URL or a
        thrown error). Nothing happens without a file; a refused file is
        reported and never uploaded; on success `onUploadComplete` receives the
        URL and the input is cleared; on failure the callback is not called.
        A refused or failed file stays selected in the input. */
    method HandleUpload(file: Option<File>, upload: Settled<string>)
      returns (uploaded: Option<File>, completed: Option<string>, toast: Option<Toast>)
      modifies this
      ensures uploaded == if file.Some? && Validate(file.value) == Accepted then file else None
      ensures completed == if uploaded.Some? && upload.Returned? then Some(upload.value) else None
      ensures completed.Some? ==> selected == None
      ensures completed.None? ==> selected == file
      ensures uploaded.Some? ==> !isUploading
      ensures uploaded.None? ==> isUploading == old(isUploading)
      ensures toast == if file.None? then None
                       else if Validate(file.value) != Accepted then Some(ErrorToast(RefusalMessage(Validate(file.value))))
                       else if upload.Threw? then Some(ErrorToast("Failed to upload image"))
                       else None
    {
      uploaded, completed, toast := None, None, None;
      selected := file;
      if file.None? {
        return;
      }
      var verdict := Validate(file.value);
      if verdict != Accepted {
        toast := Some(ErrorToast(RefusalMessage(verdict)));
        return;
      }
      isUploading := true;
      uploaded := file;
      if upload.Returned? {
        completed := Some(upload.value);
        selected := None;
      } else {
        toast := Some(ErrorToast("Failed to upload image"));
      }
      isUploading := false;
    }
  }
}
