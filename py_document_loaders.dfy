/** `DocumentLoaderFactory` of api/models/document_loaders.py: a file's MIME type,
    guessed by the `mimetypes` module with a small fallback table, and the loader
    chosen for it. The guess of `mimetypes.guess_type` is a parameter. */
module PyDocumentLoaders {
  import opened Wrappers
  import opened Strings

  /** The Word (docx) MIME type, written in two parts so that its first letters are
      easy to read off. */
  const DocxMime: string := "application/" + "vnd.openxmlformats-officedocument.wordprocessingml.document"

  const FallbackMimeTypes: map<string, string> := map[
    ".txt" := "text/plain",
    ".pdf" := "application/pdf",
    ".docx" := DocxMime,
    ".doc" := "application/msword",
    ".jpg" := "image/jpeg",
    ".jpeg" := "image/jpeg",
    ".png" := "image/png"
  ]

  /** The LangChain loaders the backend uses. */
  datatype LoaderKind = PdfLoader | DocxLoader | TextLoader | ImageLoader

  /** Python truthiness of an optional string. */
  predicate Present(s: Option<string>) {
    s.Some? && s.value != ""
  }

  /** `get_mime_type(filename)`: the guess when it is truthy, otherwise the table entry
      for the lower-cased extension, if any. */
  function GetMimeType(filename: string, guessed: Option<string>): (r: Option<string>)
    ensures Present(guessed) ==> r == guessed
    ensures !Present(guessed) ==>
              r == (if Lower(SplitExt(filename)) in FallbackMimeTypes
                    then Some(FallbackMimeTypes[Lower(SplitExt(filename))]) else None)
  {
    if Present(guessed) then guessed
    else
      var ext := Lower(SplitExt(filename));
      if ext in FallbackMimeTypes then Some(FallbackMimeTypes[ext]) else None
  }

  /** The four tests of `create_loader`, each by MIME type or by lower-cased extension. */
  predicate PdfMatch(mime: string, ext: string) {
    mime == "application/pdf" || ext == ".pdf"
  }

  predicate WordMatch(mime: string, ext: string) {
    mime in [DocxMime, "application/msword"] || ext in [".docx", ".doc"]
  }

  predicate TextMatch(mime: string, ext: string) {
    StartsWith(mime, "text") || ext in [".txt", ".md"]
  }

  predicate ImageMatch(mime: string, ext: string) {
    StartsWith(mime, "image") || ext in [".jpg", ".jpeg", ".png"]
  }

  /** `create_loader(file_path)`: no loader without a MIME type; otherwise PDF, Word,
      text and image are tried in this order, and the first test that holds decides. */
  function CreateLoader(filePath: string, guessed: Option<string>): (r: Option<LoaderKind>)
    ensures var mime, ext := GetMimeType(filePath, guessed), Lower(SplitExt(filePath));
      && (r == Some(PdfLoader) <==> Present(mime) && PdfMatch(mime.value, ext))
      && (r == Some(DocxLoader) <==> Present(mime) && !PdfMatch(mime.value, ext) && WordMatch(mime.value, ext))
      && (r == Some(TextLoader) <==>
            Present(mime) && !PdfMatch(mime.value, ext) && !WordMatch(mime.value, ext) && TextMatch(mime.value, ext))
      && (r == Some(ImageLoader) <==>
            Present(mime) && !PdfMatch(mime.value, ext) && !WordMatch(mime.value, ext)
            && !TextMatch(mime.value, ext) && ImageMatch(mime.value, ext))
      && (r.None? <==>
            !Present(mime) || (!PdfMatch(mime.value, ext) && !WordMatch(mime.value, ext)
                               && !TextMatch(mime.value, ext) && !ImageMatch(mime.value, ext)))
  {
    var mime := GetMimeType(filePath, guessed);
    if !Present(mime) then None
    else
      var m := mime.value;
      var ext := Lower(SplitExt(filePath));
      if PdfMatch(m, ext) then Some(PdfLoader)
      else if WordMatch(m, ext) then Some(DocxLoader)
      else if TextMatch(m, ext) then Some(TextLoader)
      else if ImageMatch(m, ext) then Some(ImageLoader)
      else None
  }

  lemma FallbackAlwaysLoads(filePath: string)
    requires Lower(SplitExt(filePath)) in FallbackMimeTypes
    ensures CreateLoader(filePath, None).Some?
  {
    var ext := Lower(SplitExt(filePath));
    assert ext in {".txt", ".pdf", ".docx", ".doc", ".jpg", ".jpeg", ".png"};
    if ext == ".txt" {
      assert StartsWith(FallbackMimeTypes[ext], "text");
    } else if ext in {".jpg", ".jpeg", ".png"} {
      assert ext in [".jpg", ".jpeg", ".png"];
    }
  }
}
