/** The knowledge-base service's scan endpoint (on_premise/knowledge_base_mcp/app.py):
    validate the request, check the directory, walk it and count the documents. The
    file system is given as two parameters: which paths are directories, and what
    walking a directory yields. */
module KnowledgeBase {
  import opened Wrappers
  import opened Text

  const MissingPathError := "Missing 'path' in request body"

  /** One step of `os.walk`: a directory, its sub-directories and its file names. */
  datatype WalkEntry = WalkEntry(root: string, dirs: seq<string>, files: seq<string>)

  /** The JSON answer: an error with its HTTP status, or the completed scan. */
  datatype ScanReply =
    | ScanError(code: int, error: string)
    | ScanComplete(status: string, foundFiles: nat)

  /** The extensions the scan counts. */
  const DocumentExtensions: seq<string> := [".pdf", ".docx", ".txt", ".md"]

  /** A document is a file whose lower-cased name ends in one of the four extensions:
      the name's tail of that length, lower-cased, is the extension. */
  function IsDocument(name: string): (d: bool)
    ensures d <==> exists ext :: ext in DocumentExtensions && TailLowersTo(name, ext)
  {
    var lowered := ToLower(name);
    EndsWithLowered(name, ".pdf");
    EndsWithLowered(name, ".docx");
    EndsWithLowered(name, ".txt");
    EndsWithLowered(name, ".md");
    assert DocumentExtensions[0] == ".pdf" && DocumentExtensions[1] == ".docx";
    assert DocumentExtensions[2] == ".txt" && DocumentExtensions[3] == ".md";
    EndsWith(lowered, ".pdf") || EndsWith(lowered, ".docx") || EndsWith(lowered, ".txt") || EndsWith(lowered, ".md")
  }

  /** The number of documents among some file names. */
  function DocumentsIn(files: seq<string>): (n: nat)
    ensures n <= |files|
    ensures n == 0 <==> forall i :: 0 <= i < |files| ==> !IsDocument(files[i])
  {
    if files == [] then 0
    else DocumentsIn(files[..|files| - 1]) + (if IsDocument(files[|files| - 1]) then 1 else 0)
  }

  /** The number of files a walk lists. */
  function TotalFiles(walk: seq<WalkEntry>): nat {
    if walk == [] then 0 else TotalFiles(walk[..|walk| - 1]) + |walk[|walk| - 1].files|
  }

  /** The number of documents a walk lists. */
  function DocumentsInWalk(walk: seq<WalkEntry>): (n: nat)
    ensures n <= TotalFiles(walk)
  {
    if walk == [] then 0 else DocumentsInWalk(walk[..|walk| - 1]) + DocumentsIn(walk[|walk| - 1].files)
  }

  /** `POST /scan`. A missing or empty body, or one without "path", is a 400; a path that
      is not a directory is a 400 naming it; otherwise every file of the walk is looked
      at and the documents among them are counted. */
  method ScanDocuments(body: Option<map<string, string>>, isDirectory: string -> bool,
                       walk: string -> seq<WalkEntry>) returns (reply: ScanReply)
    ensures body.None? || "path" !in body.value ==> reply == ScanError(400, MissingPathError)
    ensures body.Some? && "path" in body.value && !isDirectory(body.value["path"]) ==>
      reply == ScanError(400, "Directory not found: " + body.value["path"])
    ensures body.Some? && "path" in body.value && isDirectory(body.value["path"]) ==>
      reply == ScanComplete("scan_complete", DocumentsInWalk(walk(body.value["path"])))
  {
    if body.None? || "path" !in body.value {
      return ScanError(400, MissingPathError);
    }
    var docPath := body.value["path"];
    if !isDirectory(docPath) {
      return ScanError(400, "Directory not found: " + docPath);
    }
    var entries := walk(docPath);
    var foundCount := 0;
    for i := 0 to |entries|
      invariant foundCount == DocumentsInWalk(entries[..i])
    {
      var files := entries[i].files;
      var before := foundCount;
      for j := 0 to |files|
        invariant foundCount == before + DocumentsIn(files[..j])
      {
        if IsDocument(files[j]) {
          foundCount := foundCount + 1;
        }
        FilesStep(files, j);
      }
      assert files[..|files|] == files;
      WalkStep(entries, i);
    }
    assert entries[..|entries|] == entries;
    return ScanComplete("scan_complete", foundCount);
  }

  lemma FilesStep(files: seq<string>, j: nat)
    requires j < |files|
    ensures DocumentsIn(files[..j + 1]) == DocumentsIn(files[..j]) + if IsDocument(files[j]) then 1 else 0
  {
    assert files[..j + 1][..j] == files[..j];
  }

  lemma WalkStep(walk: seq<WalkEntry>, i: nat)
    requires i < |walk|
    ensures DocumentsInWalk(walk[..i + 1]) == DocumentsInWalk(walk[..i]) + DocumentsIn(walk[i].files)
  {
    assert walk[..i + 1][..i] == walk[..i];
  }

  /** Case does not matter: a name and its lower-cased form are both documents or neither. */
  lemma ExtensionMatchIgnoresCase(name: string)
    ensures IsDocument(name) <==> IsDocument(ToLower(name))
  {
    ToLowerIdempotent(name);
  }

  /** An upper-case extension counts: "REPORT.PDF" is a document. */
  lemma UpperCaseExtensionCounts()
    ensures IsDocument("REPORT.PDF")
  {
  }
}
