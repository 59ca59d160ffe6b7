/** `DocumentProcessor` of api/models/document_processor.py: choosing a loader by MIME
    type, loading every file into documents and keeping a vector store over them. The
    outcome of each loader's `load()` and of the similarity search are parameters; the
    vector store is represented by the documents it was built from. */
module PyDocumentProcessor {
  import opened Wrappers
  import opened Strings
  import opened PyTypes
  import opened PyDocumentLoaders

  /** What `loader.load()` does for a file: its documents, or an exception. */
  datatype LoadOutcome = Loaded(documents: seq<Document>) | LoadFailed

  /** `_get_loader(file)`: any `text/` type, PDF, the exact Word (docx) type and any `image/` type. */
  function GetLoader(file: FileContent): (r: Option<LoaderKind>)
    ensures r == Some(TextLoader) <==> StartsWith(file.mimeType, "text/")
    ensures r == Some(PdfLoader) <==> !StartsWith(file.mimeType, "text/") && file.mimeType == "application/pdf"
    ensures r == Some(DocxLoader) <==> file.mimeType == DocxMime
    ensures r == Some(ImageLoader) <==>
              !StartsWith(file.mimeType, "text/") && file.mimeType != "application/pdf"
              && file.mimeType != DocxMime && StartsWith(file.mimeType, "image/")
  {
    var m := file.mimeType;
    assert !StartsWith(DocxMime, "text/") by { assert DocxMime[0] != "text/"[0]; }
    if StartsWith(m, "text/") then Some(TextLoader)
    else if m == "application/pdf" then Some(PdfLoader)
    else if m == DocxMime then Some(DocxLoader)
    else if StartsWith(m, "image/") then Some(ImageLoader)
    else None
  }

  /** The older Word format has no loader here, although the loader factory gives it one. */
  lemma MswordHasNoLoader(file: FileContent)
    requires file.mimeType == "application/msword"
    ensures GetLoader(file).None?
    ensures CreateLoader("notes.doc", Some("application/msword")) == Some(DocxLoader)
  {
    assert !StartsWith(file.mimeType, "text/") by { assert file.mimeType[4] != "text/"[4]; }
    assert !StartsWith(file.mimeType, "image/") by { assert file.mimeType[0] != "image/"[0]; }
    assert "application/msword" in [DocxMime, "application/msword"];
    assert "application/msword" != "application/pdf" by { assert "application/msword"[12] != "application/pdf"[12]; }
  }

  /** `_load_and_split(loader)`: the loaded documents, or none when loading raises. */
  function LoadAndSplit(outcome: LoadOutcome): (docs: seq<Document>)
    ensures outcome.Loaded? ==> docs == outcome.documents
    ensures outcome.LoadFailed? ==> docs == []
  {
    match outcome
    case Loaded(ds) => ds
    case LoadFailed => []
  }

  /** The documents of one file: none when it has no loader. */
  function FileDocuments(file: FileContent, load: FileContent -> LoadOutcome): seq<Document> {
    if GetLoader(file).Some? then LoadAndSplit(load(file)) else []
  }

  /** The documents `process_files` collects, file by file, in order. */
  function CollectDocuments(files: seq<FileContent>, load: FileContent -> LoadOutcome): seq<Document> {
    if files == [] then [] else CollectDocuments(files[..|files| - 1], load) + FileDocuments(files[|files| - 1], load)
  }

  /** Collecting over two batches gives the first batch's documents then the second's. */
  lemma {:induction false} CollectAppend(a: seq<FileContent>, b: seq<FileContent>, load: FileContent -> LoadOutcome)
    ensures CollectDocuments(a + b, load) == CollectDocuments(a, load) + CollectDocuments(b, load)
    decreases |b|
  {
    if b == [] {
      assert a + b == a;
    } else {
      var front := b[..|b| - 1];
      assert (a + b)[..|a + b| - 1] == a + front;
      assert (a + b)[|a + b| - 1] == b[|b| - 1];
      CollectAppend(a, front, load);
    }
  }

  /** Files without a loader, and files whose loading fails, contribute nothing. */
  lemma {:induction false} UnloadableFilesSkipped(files: seq<FileContent>, load: FileContent -> LoadOutcome)
    requires forall i :: 0 <= i < |files| ==> GetLoader(files[i]).None? || load(files[i]).LoadFailed?
    ensures CollectDocuments(files, load) == []
  {
    if files != [] {
      UnloadableFilesSkipped(files[..|files| - 1], load);
    }
  }

  class DocumentProcessor {
    const apiKey: string
    var vectorStore: Option<seq<Document>>

    /** `__init__(api_key)`: no store yet. */
    constructor (apiKey: string)
      ensures this.apiKey == apiKey && vectorStore.None?
    {
      this.apiKey := apiKey;
      vectorStore := None;
    }

    /** `process_files(files)`: the documents of every loadable file, in file order; the
        store is rebuilt from them only when there are some. */
    method ProcessFiles(files: seq<FileContent>, load: FileContent -> LoadOutcome) returns (documents: seq<Document>)
      modifies this
      ensures documents == CollectDocuments(files, load)
      ensures vectorStore == (if documents != [] then Some(documents) else old(vectorStore))
    {
      documents := [];
      var i := 0;
      while i < |files|
        invariant 0 <= i <= |files|
        invariant documents == CollectDocuments(files[..i], load)
      {
        var file := files[i];
        var loader := GetLoader(file);
        if loader.Some? {
          var docs := LoadAndSplit(load(file));
          documents := documents + docs;
        }
        assert files[..i + 1][..i] == files[..i];
        i := i + 1;
      }
      assert files[..i] == files;
      if documents != [] {
        vectorStore := Some(documents);
      }
    }

    /** `get_relevant_context(query, k)`: nothing without a store, otherwise what the
        similarity search over the store returns. */
    function GetRelevantContext(query: string, k: int, search: seq<Document>): (r: seq<Document>)
      reads this
      ensures vectorStore.None? ==> r == []
      ensures vectorStore.Some? ==> r == search
    {
      if vectorStore.None? then [] else search
    }
  }
}
