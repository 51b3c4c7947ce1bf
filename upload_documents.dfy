/** The batch document uploader: files found per extension are processed in
    consecutive batches, with per-batch and run totals; domain and document
    type detection by ordered keyword tables. The file system and the
    per-file processing are inputs. */
module UploadDocuments {
  import opened Wrappers
  import opened Strings
  import opened Rules
  import opened DocumentProcessor

  const DefaultExtensions: seq<string> := [".pdf", ".docx", ".txt", ".md"]

  /** One entry of `file_results`. */
  datatype FileResult = FileResult(filePath: string, status: string, documentId: Option<string>,
                                   chunksCount: Option<nat>, error: Option<string>)

  datatype BatchResult = BatchResult(batchNumber: nat, filesCount: nat, uploaded: nat, failed: nat,
                                     skipped: nat, fileResults: seq<FileResult>)

  datatype UploadResults = UploadResults(totalFiles: nat, uploaded: nat, failed: nat, skipped: nat,
                                         batchResults: seq<BatchResult>)

  /** The placeholder `_process_single_document`. */
  function ProcessSingleDocument(path: string): (r: FileResult)
    ensures r.filePath == path && r.status == "uploaded"
    ensures r.documentId == Some("doc_" + Stem(path)) && r.chunksCount == Some(5) && r.error.None?
  {
    FileResult(path, "uploaded", Some("doc_" + Stem(path)), Some(5), None)
  }

  /** What the batch loop records for one file: the processing result, or a
      failure carrying the raised error. */
  function Outcome(path: string, process: string -> Result<FileResult, string>): (r: FileResult)
    ensures process(path).Err? ==> r.status == "failed" && r.error == Some(process(path).error)
  {
    match process(path)
    case Ok(fr) => fr
    case Err(e) => FileResult(path, "failed", None, None, Some(e))
  }

  /** The number of results that satisfy `p`. */
  function CountWhere(rs: seq<FileResult>, p: FileResult -> bool): (n: nat)
    ensures n <= |rs|
  {
    if rs == [] then 0 else CountWhere(rs[..|rs| - 1], p) + (if p(rs[|rs| - 1]) then 1 else 0)
  }

  predicate IsUploaded(r: FileResult) { r.status == "uploaded" }
  predicate IsFailed(r: FileResult) { r.status == "failed" }
  predicate IsSkipped(r: FileResult) { r.status != "uploaded" && r.status != "failed" }

  lemma OutcomesSnoc(files: seq<string>, i: nat, process: string -> Result<FileResult, string>)
    requires i < |files|
    ensures seq(i + 1, k requires 0 <= k < i + 1 => Outcome(files[k], process))
            == seq(i, k requires 0 <= k < i => Outcome(files[k], process)) + [Outcome(files[i], process)]
  {
  }

  lemma CountsSnoc(rs: seq<FileResult>, x: FileResult)
    ensures CountWhere(rs + [x], IsUploaded) == CountWhere(rs, IsUploaded) + (if IsUploaded(x) then 1 else 0)
    ensures CountWhere(rs + [x], IsFailed) == CountWhere(rs, IsFailed) + (if IsFailed(x) then 1 else 0)
    ensures CountWhere(rs + [x], IsSkipped) == CountWhere(rs, IsSkipped) + (if IsSkipped(x) then 1 else 0)
  {
    assert (rs + [x])[..|rs|] == rs;
  }

  /** Every result is counted exactly once. */
  lemma {:induction false} CountsPartition(rs: seq<FileResult>)
    ensures CountWhere(rs, IsUploaded) + CountWhere(rs, IsFailed) + CountWhere(rs, IsSkipped) == |rs|
  {
    if rs != [] {
      CountsPartition(rs[..|rs| - 1]);
    }
  }

  /** `_process_document_batch`'s result for `files`. */
  function BatchFor(files: seq<string>, number: nat, process: string -> Result<FileResult, string>)
    : (r: BatchResult)
    ensures r.batchNumber == number && r.filesCount == |files| && |r.fileResults| == |files|
    ensures forall i | 0 <= i < |files| :: r.fileResults[i] == Outcome(files[i], process)
    ensures r.uploaded + r.failed + r.skipped == r.filesCount
  {
    var rs := seq(|files|, i requires 0 <= i < |files| => Outcome(files[i], process));
    CountsPartition(rs);
    BatchResult(number, |files|, CountWhere(rs, IsUploaded), CountWhere(rs, IsFailed),
                CountWhere(rs, IsSkipped), rs)
  }

  /** The consecutive slices of at most `size` files that
      `range(0, len(files), size)` cuts. */
  function Batches(files: seq<string>, size: nat): (bs: seq<seq<string>>)
    requires size > 0
    ensures forall j | 0 <= j < |bs| :: 0 < |bs[j]| <= size
    ensures files == [] <==> bs == []
    decreases |files|
  {
    if files == [] then []
    else if |files| <= size then [files]
    else [files[..size]] + Batches(files[size..], size)
  }

  function Flatten(bs: seq<seq<string>>): seq<string>
  {
    if bs == [] then [] else bs[0] + Flatten(bs[1..])
  }

  /** The batches together are the file list, in order. */
  lemma {:induction false} BatchesCoverFiles(files: seq<string>, size: nat)
    requires size > 0
    ensures Flatten(Batches(files, size)) == files
    decreases |files|
  {
    if files != [] && |files| > size {
      BatchesCoverFiles(files[size..], size);
      assert Batches(files, size)[1..] == Batches(files[size..], size);
      assert files == files[..size] + files[size..];
    }
  }

  /** Every batch but the last is full. */
  lemma {:induction false} BatchesFull(files: seq<string>, size: nat)
    requires size > 0
    ensures var bs := Batches(files, size); forall j | 0 <= j < |bs| - 1 :: |bs[j]| == size
    decreases |files|
  {
    if files != [] && |files| > size {
      BatchesFull(files[size..], size);
      assert Batches(files, size)[1..] == Batches(files[size..], size);
    }
  }

  /** One step of the batch loop: the batch at `i` and the batches after it. */
  lemma BatchesStep(files: seq<string>, size: nat, i: nat)
    requires size > 0 && i < |files|
    ensures var hi := if i + size <= |files| then i + size else |files|;
      Batches(files[i..], size) == [files[i..hi]] + Batches(files[hi..], size)
  {
    var hi := if i + size <= |files| then i + size else |files|;
    if |files[i..]| > size {
      assert files[i..][..size] == files[i..hi];
      assert files[i..][size..] == files[hi..];
    } else {
      assert files[hi..] == [];
      assert files[i..hi] == files[i..];
    }
  }

  lemma SumSnoc(bs: seq<BatchResult>, b: BatchResult, f: BatchResult -> nat)
    ensures SumBy(bs + [b], f) == SumBy(bs, f) + f(b)
  {
    assert (bs + [b])[..|bs|] == bs;
  }

  function UploadedOf(b: BatchResult): nat { b.uploaded }
  function FailedOf(b: BatchResult): nat { b.failed }
  function SkippedOf(b: BatchResult): nat { b.skipped }

  /** The sum of `f` over the batch results. */
  function SumBy(bs: seq<BatchResult>, f: BatchResult -> nat): nat
  {
    if bs == [] then 0 else SumBy(bs[..|bs| - 1], f) + f(bs[|bs| - 1])
  }

  /** The detected domain of `_detect_legal_domain`, in declared order. */
  const UploadDomainRules: seq<Rule<string>> := [
    Rule("dan_su", ["dân sự", "dân su", "civil"]),
    Rule("hinh_su", ["hình sự", "hinh su", "criminal"]),
    Rule("lao_dong", ["lao động", "lao dong", "labor"]),
    Rule("thuong_mai", ["thương mại", "thuong mai", "commercial", "doanh nghiệp"]),
    Rule("hanh_chinh", ["hành chính", "hanh chinh", "administrative"]),
    Rule("hien_phap", ["hiến pháp", "hien phap", "constitution"]),
    Rule("gia_dinh", ["gia đình", "gia dinh", "family"]),
    Rule("bat_dong_san", ["bất động sản", "bat dong san", "real estate"])
  ]

  /** `_detect_legal_domain`: the first domain with a keyword in the
      lower-cased file name or content, else `khac`. */
  function DetectLegalDomain(path: string, content: string): (r: string)
    ensures Selects(UploadDomainRules, [Lower(Name(path)), Lower(content)], "khac", r)
  {
    FirstMatch(UploadDomainRules, [Lower(Name(path)), Lower(content)], "khac")
  }

  /** The detected domain is always a table domain or `khac`, and a table
      domain is the first that hits. */
  lemma DetectedDomainWitness(path: string, content: string)
    ensures var d := DetectLegalDomain(path, content);
      d == "khac" || exists i | 0 <= i < |UploadDomainRules| ::
        UploadDomainRules[i].outcome == d && Hits([Lower(Name(path)), Lower(content)], UploadDomainRules[i].keywords)
        && forall j | 0 <= j < i :: !Hits([Lower(Name(path)), Lower(content)], UploadDomainRules[j].keywords)
  {
    FirstMatchWitness(UploadDomainRules, [Lower(Name(path)), Lower(content)], "khac");
  }

  /** A file name mentioning `civil` gives `dan_su`, whatever the content. */
  lemma CivilFileName(path: string, content: string)
    requires Contains(Lower(Name(path)), "civil")
    ensures DetectLegalDomain(path, content) == "dan_su"
  {
    var texts := [Lower(Name(path)), Lower(content)];
    assert Contains(texts[0], UploadDomainRules[0].keywords[2]);
    FirstMatchAt(UploadDomainRules, texts, "khac", 0);
  }

  const DocumentTypeRules: seq<Rule<string>> := [
    Rule("bo_luat", ["bộ luật", "bo luat"]),
    Rule("luat", ["luật", "luat"]),
    Rule("nghi_dinh", ["nghị định", "nghi dinh"]),
    Rule("thong_tu", ["thông tư", "thong tu"]),
    Rule("quyet_dinh", ["quyết định", "quyet dinh"])
  ]

  /** `_detect_document_type` on the lower-cased content. */
  function DetectDocumentType(content: string): (r: string)
    ensures Selects(DocumentTypeRules, [Lower(content)], "tai_lieu_khac", r)
  {
    FirstMatch(DocumentTypeRules, [Lower(content)], "tai_lieu_khac")
  }

  /** `bộ luật` is tried first, so content naming a code is a code, although
      it also contains `luật`. */
  lemma CodeBeforeLaw(content: string)
    requires Contains(Lower(content), "bộ luật")
    ensures DetectDocumentType(content) == "bo_luat"
    ensures Hits([Lower(content)], DocumentTypeRules[1].keywords)
  {
    HitsBy(Lower(content), DocumentTypeRules[0].keywords, 0);
    FirstMatchAt(DocumentTypeRules, [Lower(content)], "tai_lieu_khac", 0);
    assert IsAt("bộ luật", "luật", 3);
    ContainsTrans(Lower(content), "bộ luật", "luật");
    HitsBy(Lower(content), DocumentTypeRules[1].keywords, 0);
  }

  lemma DocumentTypeDefault(content: string)
    ensures DetectDocumentType(content) == "tai_lieu_khac" <==>
      forall i | 0 <= i < |DocumentTypeRules| :: !Hits([Lower(content)], DocumentTypeRules[i].keywords)
  {
    var k := FirstHit(DocumentTypeRules, [Lower(content)]);
    if k < |DocumentTypeRules| {
      assert DocumentTypeRules[k].outcome != "tai_lieu_khac";
    }
  }

  /** `_read_document`: only `.txt` and `.md` files are read (`read` is what
      reading gives, `None` when it raises); the other branches give None. */
  function ReadDocument(path: string, read: Option<string>): (r: Option<string>)
    ensures r.Some? ==> Extension(path) in {".txt", ".md"} && r == read
    ensures Extension(path) in {".txt", ".md"} ==> r == read
  {
    if Extension(path) == ".txt" || Extension(path) == ".md" then read else None
  }

  /** The batch results stay those of the batches in order. */
  lemma BatchesExtended(batches: seq<BatchResult>, batch: BatchResult, all: seq<seq<string>>,
                        process: string -> Result<FileResult, string>)
    requires |batches| < |all|
    requires forall j | 0 <= j < |batches| :: batches[j] == BatchFor(all[j], j + 1, process)
    requires batch == BatchFor(all[|batches|], |batches| + 1, process)
    ensures forall j | 0 <= j < |batches| + 1 :: (batches + [batch])[j] == BatchFor(all[j], j + 1, process)
  {
  }

  /** `DocumentUploader`. Its run counters are never updated. */
  class DocumentUploader {
    var uploadedCount: nat
    var failedCount: nat
    var uploadLog: seq<string>

    constructor ()
      ensures uploadedCount == 0 && failedCount == 0 && uploadLog == []
    {
      uploadedCount := 0;
      failedCount := 0;
      uploadLog := [];
    }

    /** Counts a batch of results with the oracle's status. */
    method ProcessDocumentBatch(files: seq<string>, number: nat, process: string -> Result<FileResult, string>)
      returns (r: BatchResult)
      ensures r == BatchFor(files, number, process)
    {
      var results: seq<FileResult> := [];
      var uploaded, failed, skipped := 0, 0, 0;
      var i := 0;
      while i < |files|
        invariant 0 <= i <= |files|
        invariant results == seq(i, k requires 0 <= k < i => Outcome(files[k], process))
        invariant uploaded == CountWhere(results, IsUploaded) && failed == CountWhere(results, IsFailed)
        invariant skipped == CountWhere(results, IsSkipped)
      {
        var outcome := process(files[i]);
        ghost var before := results;
        match outcome {
          case Ok(fr) =>
            CountsSnoc(results, fr);
            results := results + [fr];
            if fr.status == "uploaded" {
              uploaded := uploaded + 1;
            } else if fr.status == "failed" {
              failed := failed + 1;
            } else {
              skipped := skipped + 1;
            }
          case Err(e) =>
            CountsSnoc(results, FileResult(files[i], "failed", None, None, Some(e)));
            failed := failed + 1;
            results := results + [FileResult(files[i], "failed", None, None, Some(e))];
        }
        assert results == before + [Outcome(files[i], process)];
        OutcomesSnoc(files, i, process);
        i := i + 1;
      }
      r := BatchResult(number, |files|, uploaded, failed, skipped, results);
    }

    /** `upload_documents_from_directory`. `directoryExists` and `glob`
        stand for the file system; `extensions` None means the defaults.
        A zero batch size raises, as `range` does. */
    method UploadDocumentsFromDirectory(directory: string, directoryExists: bool,
                                        glob: string -> seq<string>, extensions: Option<seq<string>>,
                                        batchSize: int, process: string -> Result<FileResult, string>)
      returns (r: Result<UploadResults, string>)
      ensures !directoryExists ==> r == Err("Directory not found: " + directory)
      ensures directoryExists && batchSize == 0 ==> r.Err?
      ensures directoryExists && batchSize != 0 ==> r.Ok?
      ensures r.Ok? ==>
        var files := FilesFound(glob, if extensions.Some? then extensions.value else DefaultExtensions);
        var res := r.value;
        res.totalFiles == |files|
        && res.uploaded == SumBy(res.batchResults, UploadedOf)
        && res.failed == SumBy(res.batchResults, FailedOf)
        && res.skipped == SumBy(res.batchResults, SkippedOf)
        && (batchSize < 0 ==> res.batchResults == [])
        && (batchSize > 0 ==>
              |res.batchResults| == |Batches(files, batchSize)|
              && (forall j | 0 <= j < |res.batchResults| ::
                    res.batchResults[j] == BatchFor(Batches(files, batchSize)[j], j + 1, process))
              && res.uploaded + res.failed + res.skipped == res.totalFiles)
    {
      if !directoryExists {
        return Err("Directory not found: " + directory);
      }
      var exts := if extensions.Some? then extensions.value else DefaultExtensions;
      var files := CollectFiles(glob, exts);
      if batchSize == 0 {
        return Err("range() arg 3 must not be zero");
      }
      var batches: seq<BatchResult> := [];
      var uploaded, failed, skipped := 0, 0, 0;
      if batchSize > 0 {
        batches, uploaded, failed, skipped := ProcessBatches(files, batchSize, process);
      }
      r := Ok(UploadResults(|files|, uploaded, failed, skipped, batches));
    }

    /** The batch loop of `upload_documents_from_directory`. */
    method ProcessBatches(files: seq<string>, size: nat, process: string -> Result<FileResult, string>)
      returns (batches: seq<BatchResult>, uploaded: nat, failed: nat, skipped: nat)
      requires size > 0
      ensures |batches| == |Batches(files, size)|
      ensures forall j | 0 <= j < |batches| :: batches[j] == BatchFor(Batches(files, size)[j], j + 1, process)
      ensures uploaded == SumBy(batches, UploadedOf) && failed == SumBy(batches, FailedOf)
      ensures skipped == SumBy(batches, SkippedOf)
      ensures uploaded + failed + skipped == |files|
    {
      batches := [];
      uploaded, failed, skipped := 0, 0, 0;
      var i, number := 0, 1;
      ghost var all := Batches(files, size);
      while i < |files|
        invariant i <= |files| && |batches| <= |all| && number == |batches| + 1
        invariant all[|batches|..] == Batches(files[i..], size)
        invariant forall j | 0 <= j < |batches| :: batches[j] == BatchFor(all[j], j + 1, process)
        invariant uploaded == SumBy(batches, UploadedOf) && failed == SumBy(batches, FailedOf)
        invariant skipped == SumBy(batches, SkippedOf)
        invariant uploaded + failed + skipped == i
      {
        var hi := if i + size <= |files| then i + size else |files|;
        BatchesStep(files, size, i);
        assert all[|batches|] == files[i..hi] by {
          assert all[|batches|..][0] == all[|batches|];
        }
        assert all[|batches| + 1..] == all[|batches|..][1..];
        var batch := ProcessDocumentBatch(files[i..hi], number, process);
        SumSnoc(batches, batch, UploadedOf);
        SumSnoc(batches, batch, FailedOf);
        SumSnoc(batches, batch, SkippedOf);
        BatchesExtended(batches, batch, all, process);
        batches := batches + [batch];
        uploaded := uploaded + batch.uploaded;
        failed := failed + batch.failed;
        skipped := skipped + batch.skipped;
        // the next `range` value; past the end it stops the loop as `range` does
        i := hi;
        number := number + 1;
      }
      assert files[|files|..] == [];
    }

    /** `upload_single_document`: a missing file raises. */
    method UploadSingleDocument(path: string, fileExists: bool) returns (r: Result<FileResult, string>)
      ensures !fileExists ==> r == Err("File not found: " + path)
      ensures fileExists ==> r == Ok(ProcessSingleDocument(path))
    {
      if !fileExists {
        return Err("File not found: " + path);
      }
      return Ok(ProcessSingleDocument(path));
    }

    /** `get_upload_statistics`. */
    method GetUploadStatistics() returns (uploaded: nat, failed: nat, log: seq<string>)
      ensures uploaded == uploadedCount && failed == failedCount && log == uploadLog
    {
      return uploadedCount, failedCount, uploadLog;
    }
  }

  /** The files the globs find, extension by extension. */
  function FilesFound(glob: string -> seq<string>, extensions: seq<string>): seq<string>
  {
    if extensions == [] then []
    else FilesFound(glob, extensions[..|extensions| - 1]) + glob(extensions[|extensions| - 1])
  }

  method CollectFiles(glob: string -> seq<string>, extensions: seq<string>) returns (files: seq<string>)
    ensures files == FilesFound(glob, extensions)
  {
    files := [];
    var i := 0;
    while i < |extensions|
      invariant 0 <= i <= |extensions|
      invariant files == FilesFound(glob, extensions[..i])
    {
      assert extensions[..i + 1][..i] == extensions[..i];
      files := files + glob(extensions[i]);
      i := i + 1;
    }
    assert extensions[..i] == extensions;
  }

  /** With the placeholder processing, every file of a batch is uploaded. */
  lemma PlaceholderUploadsAll(files: seq<string>, number: nat)
    ensures var b := BatchFor(files, number, p => Ok(ProcessSingleDocument(p)));
      b.uploaded == |files| && b.failed == 0 && b.skipped == 0
  {
    var b := BatchFor(files, number, p => Ok(ProcessSingleDocument(p)));
    AllUploaded(b.fileResults);
  }

  lemma {:induction false} AllUploaded(rs: seq<FileResult>)
    requires forall i | 0 <= i < |rs| :: rs[i].status == "uploaded"
    ensures CountWhere(rs, IsUploaded) == |rs| && CountWhere(rs, IsFailed) == 0
  {
    if rs != [] {
      AllUploaded(rs[..|rs| - 1]);
    }
  }
}
