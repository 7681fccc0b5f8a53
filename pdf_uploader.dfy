/**
 * The PDF uploader: a dropped or chosen file is checked for its type and
 * then for its size, and an accepted file is shown through an object URL.
 * The URL the browser creates is a parameter.
 */
module PdfUploader {
  import opened Wrappers
  import opened Strings

  /** What the uploader reads of a browser `File`: its name, MIME type and size in bytes. */
  datatype FileInfo = FileInfo(name: string, mimeType: string, size: nat)

  const AllowedTypes: seq<string> := ["application/pdf"]

  /** Ten mebibytes. */
  const MaxFileSize: nat := 10 * 1024 * 1024

  const TypeError: string := "Please upload a PDF file"

  /** The size message, with the limit written in megabytes. */
  function SizeError(): string {
    "File size exceeds maximum limit (" + NatToString(MaxFileSize / (1024 * 1024)) + "MB)"
  }

  /** The limit is written as 10. */
  lemma SizeErrorNamesTenMegabytes()
    ensures SizeError() == "File size exceeds maximum limit (" + "10" + "MB)"
  {
    assert MaxFileSize / (1024 * 1024) == 10;
    assert NatToString(10) == "10";
  }

  datatype Verdict = WrongType | TooLarge | Accepted

  /** The checks of `handleFileChange` in their order: the type first, then the size. */
  function Check(f: FileInfo): (v: Verdict)
    ensures v == WrongType <==> f.mimeType !in AllowedTypes
    ensures v == TooLarge <==> f.mimeType in AllowedTypes && f.size > MaxFileSize
    ensures v == Accepted <==> f.mimeType in AllowedTypes && f.size <= MaxFileSize
  {
    if f.mimeType !in AllowedTypes then WrongType
    else if f.size > MaxFileSize then TooLarge
    else Accepted
  }

  /** The limit is inclusive: a PDF of exactly 10 MiB is accepted and one byte more is refused. */
  lemma LimitIsInclusive(name: string)
    ensures Check(FileInfo(name, "application/pdf", 10 * 1024 * 1024)) == Accepted
    ensures Check(FileInfo(name, "application/pdf", 10 * 1024 * 1024 + 1)) == TooLarge
  {
    assert "application/pdf" in AllowedTypes;
  }

  /** A file of another type is refused for its type even when it is also too large. */
  lemma TypeCheckedFirst(f: FileInfo)
    requires f.mimeType != "application/pdf"
    ensures Check(f) == WrongType
  {
  }

  /** The message shown for a refused file. */
  function ErrorOf(v: Verdict): (e: Option<string>)
    ensures e.None? <==> v == Accepted
  {
    match v
    case WrongType => Some(TypeError)
    case TooLarge => Some(SizeError())
    case Accepted => None
  }

  datatype UploaderState = UploaderState(
    uploadedFile: Option<FileInfo>,
    fileUrl: Option<string>,
    error: Option<string>,
    isDragging: bool,
    notified: seq<FileInfo>,
    revoked: seq<string>)

  /**
   * The uploader. `hasCallback` says whether `onUploadComplete` was given;
   * `notified` records the files passed to it and `revoked` the object URLs
   * released, oldest first.
   */
  class Uploader {
    const hasCallback: bool
    var uploadedFile: Option<FileInfo>
    var fileUrl: Option<string>
    var error: Option<string>
    var isDragging: bool
    var notified: seq<FileInfo>
    var revoked: seq<string>

    function State(): UploaderState
      reads this
    {
      UploaderState(uploadedFile, fileUrl, error, isDragging, notified, revoked)
    }

    /** A file is shown exactly when it has a URL, and only a PDF within the limit is ever shown. */
    predicate Valid()
      reads this
    {
      && (uploadedFile.Some? <==> fileUrl.Some?)
      && (uploadedFile.Some? ==> Check(uploadedFile.value) == Accepted)
      && (!hasCallback ==> notified == [])
    }

    /** Whether the viewer replaces the drop zone. */
    predicate ShowsViewer()
      reads this
    {
      uploadedFile.Some?
    }

    constructor (hasCallback: bool)
      ensures Valid() && this.hasCallback == hasCallback
      ensures State() == UploaderState(None, None, None, false, [], [])
    {
      this.hasCallback := hasCallback;
      uploadedFile := None;
      fileUrl := None;
      error := None;
      isDragging := false;
      notified := [];
      revoked := [];
    }

    /**
     * `handleFileChange`. An empty list changes nothing and only the first
     * file is examined. A refused file sets the error and leaves the shown
     * file as it was; an accepted one clears the error, is shown through
     * `url`, and is passed to the callback when there is one.
     */
    method FileChange(files: seq<FileInfo>, url: string)
      requires Valid()
      modifies this
      ensures Valid()
      ensures |files| == 0 ==> State() == old(State())
      ensures |files| > 0 && Check(files[0]) != Accepted ==>
        State() == old(State()).(error := ErrorOf(Check(files[0])))
      ensures |files| > 0 && Check(files[0]) == Accepted ==>
        State() == old(State()).(error := None, uploadedFile := Some(files[0]), fileUrl := Some(url),
          notified := if hasCallback then old(notified) + [files[0]] else old(notified))
    {
      if |files| == 0 {
        return;
      }
      var file := files[0];
      if file.mimeType !in AllowedTypes {
        error := Some(TypeError);
        return;
      }
      if file.size > MaxFileSize {
        error := Some(SizeError());
        return;
      }
      error := None;
      uploadedFile := Some(file);
      fileUrl := Some(url);
      if hasCallback {
        notified := notified + [file];
      }
    }

    method DragOver()
      requires Valid()
      modifies this
      ensures Valid()
      ensures State() == old(State()).(isDragging := true)
    {
      isDragging := true;
    }

    method DragLeave()
      requires Valid()
      modifies this
      ensures Valid()
      ensures State() == old(State()).(isDragging := false)
    {
      isDragging := false;
    }

    /** `handleDrop`: the highlight goes off and the dropped files are handled as a choice. */
    method Drop(files: seq<FileInfo>, url: string)
      requires Valid()
      modifies this
      ensures Valid()
      ensures !isDragging
      ensures |files| == 0 ==> State() == old(State()).(isDragging := false)
      ensures |files| > 0 && Check(files[0]) != Accepted ==>
        State() == old(State()).(isDragging := false, error := ErrorOf(Check(files[0])))
      ensures |files| > 0 && Check(files[0]) == Accepted ==>
        State() == old(State()).(isDragging := false, error := None, uploadedFile := Some(files[0]), fileUrl := Some(url),
          notified := if hasCallback then old(notified) + [files[0]] else old(notified))
    {
      isDragging := false;
      FileChange(files, url);
    }

    /** `handleRemoveFile`: a non-empty URL is released, and neither file nor URL remains; the error stays. */
    method RemoveFile()
      requires Valid()
      modifies this
      ensures Valid() && !ShowsViewer()
      ensures State() == old(State()).(uploadedFile := None, fileUrl := None,
        revoked := if old(fileUrl).Some? && old(fileUrl).value != "" then old(revoked) + [old(fileUrl).value] else old(revoked))
    {
      if fileUrl.Some? && fileUrl.value != "" {
        revoked := revoked + [fileUrl.value];
      }
      uploadedFile := None;
      fileUrl := None;
    }
  }
}
