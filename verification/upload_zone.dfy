/**
 * The drop zone: each dropped file is checked for a media type of top-level type `image`
 * or `video` (section 4.2 of RFC 6838, tested by string prefix) and then for a size of at
 * most 10 MiB; the files that pass replace the uploaded list and are handed on.
 * Notifications are kept as an abstract list of notices.
 */
module UploadZone {
  import opened Wrappers
  import Seqs
  import Text

  datatype DroppedFile = DroppedFile(name: string, mimeType: string, size: nat)

  const MaxFileSize: nat := 10 * 1024 * 1024

  /** The outcome of checking one file; the type check comes first. */
  datatype Verdict = NotMedia | TooLarge | Accepted

  predicate IsMedia(f: DroppedFile)
  {
    Text.StartsWith(f.mimeType, "image/") || Text.StartsWith(f.mimeType, "video/")
  }

  function VerdictOf(f: DroppedFile): (v: Verdict)
    ensures v == Accepted <==> IsMedia(f) && f.size <= MaxFileSize
    ensures v == NotMedia <==> !IsMedia(f)
  {
    if !IsMedia(f) then NotMedia
    else if f.size > MaxFileSize then TooLarge
    else Accepted
  }

  predicate IsValid(f: DroppedFile)
  {
    VerdictOf(f) == Accepted
  }

  /** The notifications a drop raises. */
  datatype Notice = NotValidMedia(name: string) | FileTooLarge(name: string) | UploadedCount(count: nat)

  /** The error notice, if any, for one file. */
  function RejectionOf(f: DroppedFile): (r: seq<Notice>)
    ensures VerdictOf(f) == NotMedia ==> r == [NotValidMedia(f.name)]
    ensures VerdictOf(f) == TooLarge ==> r == [FileTooLarge(f.name)]
    ensures VerdictOf(f) == Accepted <==> r == []
  {
    match VerdictOf(f)
    case NotMedia => [NotValidMedia(f.name)]
    case TooLarge => [FileTooLarge(f.name)]
    case Accepted => []
  }

  /** The per-file error notices of a drop, in file order. */
  function Rejections(files: seq<DroppedFile>): (r: seq<Notice>)
    ensures |r| == |files| - |ValidFiles(files)|
  {
    if files == [] then [] else RejectionOf(files[0]) + Rejections(files[1..])
  }

  /** The notices of two drops in a row are those of the first followed by those of the second. */
  lemma {:induction false} RejectionsAppend(s: seq<DroppedFile>, t: seq<DroppedFile>)
    ensures Rejections(s + t) == Rejections(s) + Rejections(t)
  {
    if s == [] {
      assert s + t == t;
    } else {
      assert (s + t)[1..] == s[1..] + t;
      RejectionsAppend(s[1..], t);
    }
  }

  /** `acceptedFiles.filter(...)`: the files that pass both checks, in drop order. */
  function ValidFiles(files: seq<DroppedFile>): (r: seq<DroppedFile>)
    ensures |r| <= |files|
    ensures forall f :: f in r <==> f in files && IsValid(f)
  {
    Seqs.Filter(IsValid, files)
  }

  /** The accepted files are the dropped files in order, less the rejected ones. */
  lemma ValidFilesIsSubsequence(files: seq<DroppedFile>)
    ensures Seqs.IsSubsequence(ValidFiles(files), files)
  {
    Seqs.FilterIsSubsequence(IsValid, files);
  }

  /** A non-media file is rejected for its type whatever its size, and gets only that notice. */
  lemma TypeCheckedBeforeSize(f: DroppedFile)
    requires !IsMedia(f) && f.size > MaxFileSize
    ensures RejectionOf(f) == [NotValidMedia(f.name)]
  {
  }

  /** When every dropped file is valid, all of them are accepted and no error is raised. */
  lemma {:induction false} AllValidAllKept(files: seq<DroppedFile>)
    requires forall i :: 0 <= i < |files| ==> IsValid(files[i])
    ensures ValidFiles(files) == files && Rejections(files) == []
  {
    Seqs.FilterKeepsAll(IsValid, files);
  }

  class DropZone {
    var uploadedFiles: seq<DroppedFile>
    /**
     * The `disabled` prop, fixed for one rendering. The analysis chat passes its busy flag
     * here, which is why `AnalysisChat.Chat.HandleFileUpload` requires that no analysis is
     * under way.
     */
    const disabled: bool

    constructor (disabled: bool)
      ensures uploadedFiles == [] && this.disabled == disabled
    {
      uploadedFiles := [];
      this.disabled := disabled;
    }

    /**
     * `onDrop`: when disabled nothing happens. Otherwise every rejected file raises its
     * notice; if some files are valid they replace the uploaded list, are returned as the
     * files passed to `onFilesSelected`, and a success notice with their count follows.
     */
    method OnDrop(files: seq<DroppedFile>) returns (selected: Option<seq<DroppedFile>>, notices: seq<Notice>)
      modifies this
      ensures disabled ==> selected == None && notices == [] && uploadedFiles == old(uploadedFiles)
      ensures !disabled && ValidFiles(files) == [] ==>
        selected == None && notices == Rejections(files) && uploadedFiles == old(uploadedFiles)
      ensures !disabled && ValidFiles(files) != [] ==>
        && selected == Some(ValidFiles(files)) && uploadedFiles == ValidFiles(files)
        && notices == Rejections(files) + [UploadedCount(|ValidFiles(files)|)]
    {
      if disabled {
        return None, [];
      }
      var valid := ValidFiles(files);
      notices := Rejections(files);
      if |valid| > 0 {
        uploadedFiles := valid;
        selected := Some(valid);
        notices := notices + [UploadedCount(|valid|)];
      } else {
        selected := None;
      }
    }

    /** `removeFile`: drops position `index`, keeping the other files in order. */
    method RemoveFile(index: int)
      modifies this
      ensures uploadedFiles == Seqs.RemoveAt(old(uploadedFiles), index)
      ensures 0 <= index < |old(uploadedFiles)| ==> |uploadedFiles| == |old(uploadedFiles)| - 1
      ensures !(0 <= index < |old(uploadedFiles)|) ==> uploadedFiles == old(uploadedFiles)
    {
      uploadedFiles := Seqs.RemoveAt(uploadedFiles, index);
    }
  }
}
