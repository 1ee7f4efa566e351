/**
 * The client-side gate a chosen file must pass before it can be uploaded:
 * a video type or extension, and a size of at most 1 GiB.
 */
module FileValidator {
  import opened Text

  /** What the browser tells the page about a chosen file; `mimeType` is "" when unknown. */
  datatype File = File(name: string, size: nat, mimeType: string)

  /** 1 GiB, the largest size accepted. */
  const MaxFileSize: nat := 1073741824

  /** The lower-case extensions recognised as video when the type says nothing. */
  const VideoExtensions: seq<string> :=
    [".mp4", ".avi", ".mov", ".wmv", ".flv", ".webm", ".mkv", ".m4v", ".3gp", ".ogv"]

  const NotVideoMessage := "Please select a video file."
  const TooLargeMessage := "File size exceeds 1GB limit. Please select a smaller file."

  /** `exts.some((ext) => name.endsWith(ext))`. */
  function AnyEndsWith(name: string, exts: seq<string>): (r: bool)
    ensures r <==> exists i :: 0 <= i < |exts| && EndsWith(name, exts[i])
  {
    if |exts| == 0 then false
    else if EndsWith(name, exts[0]) then true
    else
      assert forall i :: 1 <= i < |exts| ==> exts[i] == exts[1..][i - 1];
      AnyEndsWith(name, exts[1..])
  }

  /**
   * A file counts as video when its declared type starts with `video/`, or
   * else when its lower-cased name ends with a recognised extension.
   */
  predicate IsVideoFile(f: File): (r: bool)
    ensures r <==>
      || (f.mimeType != "" && StartsWith(f.mimeType, "video/"))
      || exists e :: e in VideoExtensions && EndsWith(Lower(f.name), e)
  {
    (f.mimeType != "" && StartsWith(f.mimeType, "video/"))
    || AnyEndsWith(Lower(f.name), VideoExtensions)
  }

  /** The extension match ignores case: a name and its lower-cased form are judged alike. */
  lemma ExtensionMatchIgnoresCase(f: File)
    ensures IsVideoFile(f) <==> IsVideoFile(f.(name := Lower(f.name)))
  {
    var low := Lower(f.name);
    var g := f.(name := low);
    assert Lower(low) == low by {
      assert |Lower(low)| == |low|;
      forall i | 0 <= i < |low| ensures Lower(low)[i] == low[i] {
        assert low[i] == LowerChar(f.name[i]);
      }
    }
    assert g.mimeType == f.mimeType && Lower(g.name) == Lower(f.name);
  }

  datatype Verdict = Accepted | Rejected(reason: string)

  /** The checks `handleFileChange` applies to a chosen file, type first, then size. */
  function Check(f: File): (v: Verdict)
    ensures v.Accepted? <==>
      && ((f.mimeType != "" && StartsWith(f.mimeType, "video/"))
          || exists e :: e in VideoExtensions && EndsWith(Lower(f.name), e))
      && f.size <= 1024 * 1024 * 1024
    ensures !IsVideoFile(f) ==> v == Rejected(NotVideoMessage)
    ensures IsVideoFile(f) && f.size > MaxFileSize ==> v == Rejected(TooLargeMessage)
  {
    if !IsVideoFile(f) then Rejected(NotVideoMessage)
    else if f.size > MaxFileSize then Rejected(TooLargeMessage)
    else Accepted
  }

  /** A type-less `MOVIE.MKV` is accepted: the extension match ignores case. */
  lemma UpperCaseExtensionAccepted()
    ensures Check(File("MOVIE.MKV", 1000, "")) == Accepted
  {
    var low := Lower("MOVIE.MKV");
    assert low[5..] == ".mkv";
    assert EndsWith(low, VideoExtensions[6]);
  }

  /** A type-less `clip.txt` is refused as not being a video. */
  lemma TextFileRejected()
    ensures Check(File("clip.txt", 1000, "")) == Rejected(NotVideoMessage)
  {
    var name := "clip.txt";
    assert Lower(name) == "clip.txt";
    forall i | 0 <= i < |VideoExtensions| ensures !EndsWith(Lower(name), VideoExtensions[i]) {
      assert Lower(name)[|name| - 1] == 't';
      assert VideoExtensions[i][|VideoExtensions[i]| - 1] != 't';
    }
  }

  /** The size limit is inclusive: exactly 1 GiB passes, one byte more does not. */
  lemma SizeBoundary(name: string, mimeType: string)
    requires IsVideoFile(File(name, 0, mimeType))
    ensures Check(File(name, 1073741824, mimeType)) == Accepted
    ensures Check(File(name, 1073741825, mimeType)) == Rejected(TooLargeMessage)
  {
  }

  /** An oversized file that is not a video is told it is not a video. */
  lemma TypeCheckedBeforeSize(name: string, mimeType: string, size: nat)
    requires !IsVideoFile(File(name, 0, mimeType))
    ensures Check(File(name, size, mimeType)) == Rejected(NotVideoMessage)
  {
  }
}
