/** The legal document processor: dispatch on the file extension, the
    Vietnamese post-processing of a processed document (metadata update and
    re-chunking), text normalisation and structure extraction, and the
    upload handler's validation. Text extraction and the structure regexes
    are inputs. */
module DocumentProcessor {
  import opened Wrappers
  import opened Strings
  import opened Normalization

  // ------------------------------------------------------------ file names

  /** The position of the last `c` in `s`, or -1 (`str.rfind`). */
  function LastIndex(s: string, c: char): (i: int)
    ensures -1 <= i < |s|
    ensures i >= 0 ==> s[i] == c
    ensures forall k | i < k < |s| :: s[k] != c
  {
    if s == [] then -1
    else if s[|s| - 1] == c then |s| - 1
    else LastIndex(s[..|s| - 1], c)
  }

  lemma {:induction false} LastIndexAppend(a: string, b: string, c: char)
    requires c !in b
    ensures LastIndex(a + b, c) == LastIndex(a, c)
  {
    if b != [] {
      assert (a + b)[..|a + b| - 1] == a + b[..|b| - 1];
      assert (a + b)[|a + b| - 1] == b[|b| - 1];
      LastIndexAppend(a, b[..|b| - 1], c);
    } else {
      assert a + b == a;
    }
  }

  /** The final path component (`Path.name`). */
  function Name(path: string): (r: string)
    ensures |r| <= |path| && r == path[|path| - |r|..] && '/' !in r
  {
    path[LastIndex(path, '/') + 1..]
  }

  /** `Path.suffix`: from the last dot of the name, provided that dot is
      neither the first nor the last character of the name. */
  function Suffix(path: string): (r: string)
    ensures r == [] || (r[0] == '.' && |r| >= 2 && '.' !in r[1..] && '/' !in r)
    ensures |r| <= |Name(path)| && r == Name(path)[|Name(path)| - |r|..]
    ensures |r| <= |path| && r == path[|path| - |r|..]
  {
    var name := Name(path);
    var i := LastIndex(name, '.');
    if 0 < i < |name| - 1 then name[i..] else ""
  }

  /** `Path.stem`: the name without its suffix. */
  function Stem(path: string): (r: string)
    ensures r + Suffix(path) == Name(path)
  {
    var name := Name(path);
    var suffix := Suffix(path);
    TakeDrop(name, |name| - |suffix|);
    name[..|name| - |suffix|]
  }

  lemma TakeDrop(s: string, k: nat)
    requires k <= |s|
    ensures s[..k] + s[k..] == s
  {
  }

  /** A path ending in a non-empty component followed by an extension `ext`
      (a dot and at least one more character, none a dot or slash) has
      suffix `ext`. */
  lemma SuffixOfAppended(stem: string, ext: string)
    requires stem != [] && stem[|stem| - 1] != '/'
    requires |ext| >= 2 && ext[0] == '.' && '.' !in ext[1..] && '/' !in ext
    ensures Suffix(stem + ext) == ext
  {
    var base := Name(stem);
    NameAppend(stem, ext);
    assert base + ext == (base + ".") + ext[1..];
    DotIsLast(base, ext[1..]);
    assert (base + ext)[|base|..] == ext;
  }

  lemma NameAppend(stem: string, ext: string)
    requires stem != [] && stem[|stem| - 1] != '/' && '/' !in ext
    ensures Name(stem + ext) == Name(stem) + ext && Name(stem) != []
  {
    LastIndexAppend(stem, ext, '/');
    var j := LastIndex(stem, '/');
    assert (stem + ext)[j + 1..] == stem[j + 1..] + ext;
  }

  lemma DotIsLast(base: string, rest: string)
    requires '.' !in rest
    ensures LastIndex((base + ".") + rest, '.') == |base|
  {
    LastIndexAppend(base + ".", rest, '.');
    assert (base + ".")[|base|] == '.';
  }

  /** The extension as `process_legal_document` sees it. */
  function Extension(path: string): string
  {
    Lower(Suffix(path))
  }

  datatype Format = Pdf | Word

  /** The processor table: `.pdf`, `.docx` and `.doc`. */
  function ProcessorFor(ext: string): (r: Option<Format>)
    ensures r.Some? <==> ext in {".pdf", ".docx", ".doc"}
  {
    if ext == ".pdf" then Some(Pdf)
    else if ext == ".docx" || ext == ".doc" then Some(Word)
    else None
  }

  lemma ExtensionsLowered()
    ensures Lower(".PDF") == ".pdf" && Lower(".txt") == ".txt"
  {
  }

  /** Upper-case extensions are accepted: the extension is lower-cased. */
  lemma UpperCasePdfAccepted(stem: string)
    requires stem != [] && stem[|stem| - 1] != '/'
    ensures ProcessorFor(Extension(stem + ".PDF")) == Some(Pdf)
  {
    SuffixOfAppended(stem, ".PDF");
    ExtensionsLowered();
  }

  /** Plain-text files have no processor. */
  lemma TextFilesRejected(stem: string)
    requires stem != [] && stem[|stem| - 1] != '/'
    ensures Extension(stem + ".txt") == ".txt"
    ensures ProcessorFor(Extension(stem + ".txt")) == None
  {
    SuffixOfAppended(stem, ".txt");
    ExtensionsLowered();
  }

  // ------------------------------------------------------------- documents

  /** A metadata value: text, or the extracted legal structure. */
  datatype Meta = Text(text: string) | Structure(structure: map<string, seq<(string, string)>>)

  datatype Chunk = Chunk(content: string, metadata: map<string, string>)

  /** `ProcessedDocument`; its metadata and chunks are updated in place. */
  class ProcessedDocument {
    var content: string
    var metadata: map<string, Meta>
    var chunks: seq<Chunk>
    var language: string
    var documentType: string

    constructor (content: string, documentType: string)
      ensures this.content == content && metadata == map[] && chunks == []
      ensures language == "vietnamese" && this.documentType == documentType
    {
      this.content := content;
      metadata := map[];
      chunks := [];
      language := "vietnamese";
      this.documentType := documentType;
    }
  }

  /** The structure keys, always all present. */
  const StructureKeys: set<string> := {"chapters", "articles", "clauses", "points", "sections"}

  /** `_extract_legal_structure` over the chapter and article matches, which
      the two regexes produce in text order. */
  function ExtractLegalStructure(chapters: seq<(string, string)>, articles: seq<(string, string)>)
    : (r: map<string, seq<(string, string)>>)
    ensures r.Keys == StructureKeys
    ensures r["chapters"] == chapters && r["articles"] == articles
    ensures r["clauses"] == [] && r["points"] == [] && r["sections"] == []
  {
    map["chapters" := chapters, "articles" := articles, "clauses" := [], "points" := [], "sections" := []]
  }

  /** `_normalize_vietnamese_text`: collapse whitespace, keep the first of a
      run of terminal marks, strip. */
  function NormalizeDocText(text: string): (r: string)
    ensures SingleSpaced(r) && NoAdjacentMarks(r)
  {
    var d := DedupMarks(CollapseSpaces(text));
    CollapseSpacesCollapsed(text);
    DedupMarksCollapsed(CollapseSpaces(text));
    DedupMarksNoAdjacent(CollapseSpaces(text));
    StripSingleSpaced(d);
    SuffixKeepsShape(d, TrimStart(d));
    SliceKeepsShape(TrimStart(d), 0, |Strip(d)|);
    Strip(d)
  }

  /** `_apply_vietnamese_legal_processing`'s metadata: the old entries with
      the three processing entries on top. */
  function ProcessedMetadata(before: map<string, Meta>, structure: map<string, seq<(string, string)>>)
    : (r: map<string, Meta>)
    ensures r.Keys == before.Keys + {"detected_document_type", "legal_structure", "processing_applied"}
    ensures r["detected_document_type"] == Text("unknown")
    ensures r["processing_applied"] == Text("vietnamese_legal")
    ensures r["legal_structure"] == Structure(structure)
    ensures forall k | k in before && k !in {"detected_document_type", "legal_structure", "processing_applied"} ::
      r[k] == before[k]
  {
    before + map["detected_document_type" := Text("unknown"), "legal_structure" := Structure(structure),
               "processing_applied" := Text("vietnamese_legal")]
  }

  /** `VietnameseLegalDocumentProcessor`. */
  class LegalDocumentProcessor {
    const chunkSize: int
    const chunkOverlap: int
    const preserveLegalStructure: bool

    constructor (chunkSize: int, chunkOverlap: int, preserveLegalStructure: bool)
      ensures this.chunkSize == chunkSize && this.chunkOverlap == chunkOverlap
      ensures this.preserveLegalStructure == preserveLegalStructure
    {
      this.chunkSize := chunkSize;
      this.chunkOverlap := chunkOverlap;
      this.preserveLegalStructure := preserveLegalStructure;
    }

    /** Updates `doc` in place. With structure preservation on, the chunks
        become the (empty) structure chunks; the content is not replaced. */
    method ApplyLegalProcessing(doc: ProcessedDocument, chapters: seq<(string, string)>,
                                articles: seq<(string, string)>)
      modifies doc
      ensures doc.metadata == ProcessedMetadata(old(doc.metadata), ExtractLegalStructure(chapters, articles))
      ensures doc.chunks == if preserveLegalStructure then [] else old(doc.chunks)
      ensures doc.content == old(doc.content) && doc.language == old(doc.language)
      ensures doc.documentType == old(doc.documentType)
    {
      var structure := ExtractLegalStructure(chapters, articles);
      doc.metadata := ProcessedMetadata(doc.metadata, structure);
      if preserveLegalStructure {
        doc.chunks := [];
      }
    }

    /** `process_legal_document`. `extracted` is the text the format's
        extractor returns; `chapters` and `articles` the structure matches. */
    method ProcessLegalDocument(path: string, extracted: string, chapters: seq<(string, string)>,
                                articles: seq<(string, string)>)
      returns (r: Result<ProcessedDocument, string>)
      ensures r.Err? <==> ProcessorFor(Extension(path)).None?
      ensures r.Err? ==> r.error == "Unsupported file type: " + Extension(path)
      ensures r.Ok? ==>
        fresh(r.value) && r.value.content == extracted && r.value.language == "vietnamese"
        && r.value.documentType == (if ProcessorFor(Extension(path)) == Some(Pdf) then "pdf" else "docx")
        && r.value.metadata == ProcessedMetadata(map[], ExtractLegalStructure(chapters, articles))
        && r.value.chunks == []
    {
      var ext := Extension(path);
      var format := ProcessorFor(ext);
      if format.None? {
        return Err("Unsupported file type: " + ext);
      }
      var doc := new ProcessedDocument(extracted, if format.value == Pdf then "pdf" else "docx");
      ApplyLegalProcessing(doc, chapters, articles);
      return Ok(doc);
    }
  }

  // ---------------------------------------------------------------- upload

  const AllowedTypes: seq<string> := [".pdf", ".docx", ".doc", ".txt"]

  /** `validate_upload`: every file is accepted. */
  function ValidateUpload(filename: string): (r: (bool, string))
    ensures r.0 && r.1 == "File is valid"
  {
    (true, "File is valid")
  }

  /** The upload handler lists and accepts `.txt`, which the processor it
      hands files to has no processor for. */
  lemma UploadedTextHasNoProcessor(stem: string)
    requires stem != [] && stem[|stem| - 1] != '/'
    ensures Extension(stem + ".txt") in AllowedTypes && ValidateUpload(stem + ".txt").0
    ensures ProcessorFor(Extension(stem + ".txt")).None?
  {
    TextFilesRejected(stem);
  }
}
