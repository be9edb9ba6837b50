/**
 * The upload zone: the file validator, the choice of the first dropped or
 * picked file, and the drag-active flag.
 */
module Upload {
  import opened Wrappers

  /** What the component reads of a browser `File`. */
  datatype FileInfo = FileInfo(name: string, mimeType: string, size: nat)

  const ValidTypes: seq<string> := ["image/jpeg", "image/png", "image/webp"]

  /** 20 MiB. */
  const MaxSize: nat := 20 * 1024 * 1024

  /** The two rejections, each surfaced to the user as a blocking alert. */
  datatype ValidationError = UnsupportedFormat | FileTooLarge

  datatype Verdict = Accepted | Rejected(error: ValidationError)

  /**
   * The type is checked first, then the size; a file at exactly MaxSize is
   * accepted.
   */
  function Validate(f: FileInfo): (v: Verdict)
    ensures v == Accepted <==> f.mimeType in ValidTypes && f.size <= MaxSize
    ensures f.mimeType !in ValidTypes ==> v == Rejected(UnsupportedFormat)
    ensures f.mimeType in ValidTypes && f.size > MaxSize ==> v == Rejected(FileTooLarge)
  {
    if f.mimeType !in ValidTypes then Rejected(UnsupportedFormat)
    else if f.size > MaxSize then Rejected(FileTooLarge)
    else Accepted
  }

  /** What a drop or a pick hands on: the file given to `onFileSelect`, or the alert raised. */
  datatype Delivery = Delivery(selected: Option<FileInfo>, alert: Option<ValidationError>)

  /** `file && validateFile(file)`: only a present file that validates is handed on. */
  function Deliver(file: Option<FileInfo>): (d: Delivery)
    ensures d.selected.Some? <==> file.Some? && Validate(file.value).Accepted?
    ensures d.selected.Some? ==> d.selected == file
    ensures d.alert.Some? <==> file.Some? && Validate(file.value).Rejected?
    ensures d.alert.Some? ==> Validate(file.value) == Rejected(d.alert.value)
    ensures !(d.selected.Some? && d.alert.Some?)
  {
    match file
    case None => Delivery(None, None)
    case Some(f) =>
      match Validate(f)
      case Accepted => Delivery(Some(f), None)
      case Rejected(e) => Delivery(None, Some(e))
  }

  /** `files[0]` of a drop's file list: absent when the list is empty. */
  function FirstFile(files: seq<FileInfo>): (r: Option<FileInfo>)
    ensures r.Some? <==> |files| > 0
    ensures r.Some? ==> r.value == files[0]
  {
    if |files| > 0 then Some(files[0]) else None
  }

  /** `files?.[0]` of a file input, whose list may itself be absent. */
  function PickedFile(files: Option<seq<FileInfo>>): (r: Option<FileInfo>)
    ensures r.Some? <==> files.Some? && |files.value| > 0
    ensures r.Some? ==> r.value == files.value[0]
  {
    match files
    case None => None
    case Some(fs) => FirstFile(fs)
  }

  /** A file with an accepted type and exactly the size limit is accepted; one byte more is not. */
  lemma SizeLimitInclusive(name: string, mimeType: string)
    requires mimeType in ValidTypes
    ensures Validate(FileInfo(name, mimeType, 20971520)) == Accepted
    ensures Validate(FileInfo(name, mimeType, 20971521)) == Rejected(FileTooLarge)
  {
  }

  /** Dropping a list and picking the same list deliver the same thing. */
  lemma DropAgreesWithPick(files: seq<FileInfo>)
    ensures Deliver(FirstFile(files)) == Deliver(PickedFile(Some(files)))
  {
  }

  /** Whatever reaches `onFileSelect` from either path is a valid file of that list. */
  lemma DeliveredFileIsValid(files: seq<FileInfo>)
    ensures Deliver(FirstFile(files)).selected.Some? ==>
      var f := Deliver(FirstFile(files)).selected.value;
      f == files[0] && f.mimeType in ValidTypes && f.size <= MaxSize
  {
  }

  /** The drop target; its only state is the drag-active flag. */
  class UploadZone {
    var isDragging: bool

    constructor ()
      ensures !isDragging
    {
      isDragging := false;
    }

    method HandleDragOver()
      modifies this
      ensures isDragging
    {
      isDragging := true;
    }

    method HandleDragLeave()
      modifies this
      ensures !isDragging
    {
      isDragging := false;
    }

    /** A drop clears the flag and hands on the first file if it validates. */
    method HandleDrop(files: seq<FileInfo>) returns (d: Delivery)
      modifies this
      ensures !isDragging
      ensures d == Deliver(FirstFile(files))
    {
      isDragging := false;
      var file := if |files| > 0 then Some(files[0]) else None;
      d := Deliver(file);
    }

    /** A pick leaves the flag alone and hands on the first file if it validates. */
    method HandleFileInput(files: Option<seq<FileInfo>>) returns (d: Delivery)
      ensures d == Deliver(PickedFile(files))
    {
      var file := if files.Some? && |files.value| > 0 then Some(files.value[0]) else None;
      d := Deliver(file);
    }
  }
}
