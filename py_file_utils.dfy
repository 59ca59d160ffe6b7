/** `get_file_info` and `is_supported_file_type` of api/utils/file_utils.py: a file's
    lower-cased extension and its MIME type from a fixed table. */
module PyFileUtils {
  import opened Wrappers
  import opened Strings

  const MimeTypes: map<string, string> := map[
    ".txt" := "text/plain",
    ".md" := "text/markdown",
    ".csv" := "text/csv",
    ".pdf" := "application/pdf",
    ".doc" := "application/msword",
    ".docx" := "application/vnd.openxmlformats-officedocument.wordprocessingml.document",
    ".jpg" := "image/jpeg",
    ".jpeg" := "image/jpeg",
    ".png" := "image/png",
    ".gif" := "image/gif",
    ".webp" := "image/webp"
  ]

  /** `get_file_info(filename)`: `(ext, mime_type)`. */
  function GetFileInfo(filename: string): (r: (string, Option<string>))
    ensures r.0 == Lower(SplitExt(filename))
    ensures r.1.Some? <==> r.0 in MimeTypes
    ensures r.1.Some? ==> r.1.value == MimeTypes[r.0]
  {
    var ext := Lower(SplitExt(filename));
    (ext, if ext in MimeTypes then Some(MimeTypes[ext]) else None)
  }

  /** `is_supported_file_type(filename)`: the MIME type is present and non-empty. */
  function IsSupportedFileType(filename: string): (ok: bool)
    ensures ok <==> GetFileInfo(filename).1.Some? && GetFileInfo(filename).1.value != ""
  {
    var (_, mime) := GetFileInfo(filename);
    mime.Some? && mime.value != ""
  }

  /** Every type in the table is non-empty, so a file is supported exactly when its
      lower-cased extension is in the table. */
  lemma SupportedIffMapped(filename: string)
    ensures IsSupportedFileType(filename) <==> Lower(SplitExt(filename)) in MimeTypes
  {
    var ext := Lower(SplitExt(filename));
    if ext in MimeTypes {
      assert MimeTypes[ext] != "";
    }
  }

  /** The table maps exactly these eleven extensions. */
  lemma MimeTableKeys()
    ensures MimeTypes.Keys == {".txt", ".md", ".csv", ".pdf", ".doc", ".docx", ".jpg", ".jpeg", ".png", ".gif", ".webp"}
  {
  }

  /** The lookup ignores the case of ASCII letters: `report.PDF` and `report.pdf` agree. */
  lemma FileInfoIgnoresCase(filename: string, other: string)
    requires |filename| == |other|
    requires forall i :: 0 <= i < |filename| ==> LowerChar(filename[i]) == LowerChar(other[i])
    ensures GetFileInfo(filename) == GetFileInfo(other)
  {
    LowerSplitExtIgnoresCase(filename, other);
  }

  /** A name without a dot has no extension and is not supported. */
  lemma NoDotUnsupported(filename: string)
    requires forall i :: 0 <= i < |filename| ==> filename[i] != '.'
    ensures GetFileInfo(filename).0 == ""
    ensures !IsSupportedFileType(filename)
  {
    assert SplitExt(filename) == "";
    assert Lower("") == "";
    assert "" !in MimeTypes;
  }

  /** A dot-file such as `.txt` has no extension either. */
  lemma DotFileUnsupported(rest: string)
    requires forall i :: 0 <= i < |rest| ==> rest[i] != '.' && rest[i] != '/'
    ensures GetFileInfo("." + rest).0 == ""
    ensures !IsSupportedFileType("." + rest)
  {
    var path := "." + rest;
    assert forall i :: 0 < i < |path| ==> path[i] == rest[i - 1];
    assert LastIndex(path, '.') == 0 by {
      assert path[0] == '.';
    }
    assert SplitExt(path) == "";
    assert Lower("") == "";
    assert "" !in MimeTypes;
  }
}
