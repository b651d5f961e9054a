/**
 * The whole script run against a store of two files: load the summary, load
 * the metadata, merge, and only then open the summary for writing.
 *
 * File contents are already-parsed documents; a file that cannot be opened
 * and one that is not JSON are the two ways a load fails.
 */
module Store {
  import opened Wrappers
  import opened Json
  import opened Augmenter

  /** The two files the script touches. */
  datatype Doc = Summary | Metadata

  /** What a file holds, as the script's `open` followed by `json.load` sees it. */
  datatype FileContent = Missing | NotJson | Parsed(doc: Json)

  /** Why a run stops. */
  datatype Error =
    | CannotOpen(doc: Doc)        // `open(path, "r")` raises
    | CannotParse(doc: Doc)       // `json.load` raises
    | MetadataNotObject           // the metadata root has no `.get`
    | SummaryNotObject            // the summary root does not take item assignment

  /** One opening of a file, in the order the script performs them. */
  datatype Access = OpenRead(doc: Doc) | OpenWrite(doc: Doc)

  /**
   * The document a run writes back to the summary file, or why it stops.
   * Python evaluates the right-hand side of `summary["DQN_training"] = {...}`
   * before it assigns, so a metadata root without `.get` is reported before a
   * summary root that does not take item assignment.
   */
  function Outcome(summaryFile: FileContent, metaFile: FileContent): (r: Result<Json, Error>)
    ensures r.Success? <==>
      summaryFile.Parsed? && summaryFile.doc.JObject? && metaFile.Parsed? && metaFile.doc.JObject?
    ensures summaryFile.Missing? ==> r == Failure(CannotOpen(Summary))
    ensures summaryFile.NotJson? ==> r == Failure(CannotParse(Summary))
    ensures summaryFile.Parsed? && metaFile.Missing? ==> r == Failure(CannotOpen(Metadata))
    ensures summaryFile.Parsed? && metaFile.NotJson? ==> r == Failure(CannotParse(Metadata))
    ensures summaryFile.Parsed? && metaFile.Parsed? && !metaFile.doc.JObject? ==> r == Failure(MetadataNotObject)
    ensures summaryFile.Parsed? && !summaryFile.doc.JObject? && metaFile.Parsed? && metaFile.doc.JObject? ==>
      r == Failure(SummaryNotObject)
    ensures r.Success? ==> r.value == JObject(Augment(summaryFile.doc.members, metaFile.doc.members))
  {
    match summaryFile
    case Missing => Failure(CannotOpen(Summary))
    case NotJson => Failure(CannotParse(Summary))
    case Parsed(summary) =>
      match metaFile
      case Missing => Failure(CannotOpen(Metadata))
      case NotJson => Failure(CannotParse(Metadata))
      case Parsed(meta) =>
        if !meta.JObject? then Failure(MetadataNotObject)
        else if !summary.JObject? then Failure(SummaryNotObject)
        else Success(JObject(Augment(summary.members, meta.members)))
  }

  /** The files a run opens, in order: it stops at the first failed load and writes only on success. */
  function Trace(summaryFile: FileContent, metaFile: FileContent): (r: seq<Access>)
    ensures |r| >= 1 && r[0] == OpenRead(Summary)
    ensures OpenRead(Metadata) in r <==> summaryFile.Parsed?
    ensures OpenWrite(Summary) in r <==> Outcome(summaryFile, metaFile).Success?
    ensures OpenWrite(Summary) in r ==> r[|r| - 1] == OpenWrite(Summary)
  {
    [OpenRead(Summary)]
    + (if summaryFile.Parsed? then [OpenRead(Metadata)] else [])
    + (if Outcome(summaryFile, metaFile).Success? then [OpenWrite(Summary)] else [])
  }

  /**
   * A run opens the metadata for reading at most once and never for writing,
   * opens the summary for writing exactly when it succeeds, and that write is
   * its last step, after both reads.
   */
  lemma TraceOrder(summaryFile: FileContent, metaFile: FileContent)
    ensures OpenWrite(Metadata) !in Trace(summaryFile, metaFile)
    ensures OpenWrite(Summary) in Trace(summaryFile, metaFile) <==> Outcome(summaryFile, metaFile).Success?
    ensures Outcome(summaryFile, metaFile).Success? ==>
      Trace(summaryFile, metaFile) == [OpenRead(Summary), OpenRead(Metadata), OpenWrite(Summary)]
  {
  }

  /** Running the script a second time with the same metadata leaves the summary as the first run wrote it. */
  lemma RerunIsIdempotent(summaryFile: FileContent, metaFile: FileContent)
    requires Outcome(summaryFile, metaFile).Success?
    ensures Outcome(Parsed(Outcome(summaryFile, metaFile).value), metaFile) == Outcome(summaryFile, metaFile)
  {
    AugmentIdempotent(summaryFile.doc.members, metaFile.doc.members);
  }

  /** A run over parsed (well-formed) documents writes a well-formed document. */
  lemma OutcomeWellFormed(summaryFile: FileContent, metaFile: FileContent)
    requires summaryFile.Parsed? ==> WellFormed(summaryFile.doc)
    requires metaFile.Parsed? ==> WellFormed(metaFile.doc)
    ensures Outcome(summaryFile, metaFile).Success? ==> WellFormed(Outcome(summaryFile, metaFile).value)
  {
    if Outcome(summaryFile, metaFile).Success? {
      AugmentWellFormed(summaryFile.doc.members, metaFile.doc.members);
    }
  }

  /** The two files and the record of every time one was opened. */
  class FileStore {
    var summaryFile: FileContent
    var metaFile: FileContent
    var log: seq<Access>

    constructor (summaryFile: FileContent, metaFile: FileContent)
      ensures this.summaryFile == summaryFile && this.metaFile == metaFile && log == []
    {
      this.summaryFile := summaryFile;
      this.metaFile := metaFile;
      log := [];
    }

    /** `with open(path, "r") as f: json.load(f)` */
    method Load(doc: Doc) returns (r: Result<Json, Error>)
      modifies this`log
      ensures log == old(log) + [OpenRead(doc)]
      ensures var content := if doc == Summary then summaryFile else metaFile;
        r == match content
             case Missing => Failure(CannotOpen(doc))
             case NotJson => Failure(CannotParse(doc))
             case Parsed(j) => Success(j)
    {
      log := log + [OpenRead(doc)];
      var content := if doc == Summary then summaryFile else metaFile;
      match content
      case Missing => r := Failure(CannotOpen(doc));
      case NotJson => r := Failure(CannotParse(doc));
      case Parsed(j) => r := Success(j);
    }

    /** `with open(path, "w") as f: json.dump(doc, f)`; only the summary is ever written. */
    method Save(doc: Json)
      modifies this`summaryFile, this`log
      ensures summaryFile == Parsed(doc)
      ensures log == old(log) + [OpenWrite(Summary)]
    {
      log := log + [OpenWrite(Summary)];
      summaryFile := Parsed(doc);
    }

    /**
     * The script: load, load, merge, save. The metadata file never changes; the
     * summary file changes only on success and then holds the merged document.
     */
    method Run() returns (r: Result<Json, Error>)
      modifies this`summaryFile, this`log
      ensures r == Outcome(old(summaryFile), old(metaFile))
      ensures metaFile == old(metaFile)
      ensures summaryFile == if r.Success? then Parsed(r.value) else old(summaryFile)
      ensures log == old(log) + Trace(old(summaryFile), old(metaFile))
    {
      var loadedSummary := Load(Summary);
      if loadedSummary.Failure? {
        return Failure(loadedSummary.error);
      }
      var loadedMeta := Load(Metadata);
      if loadedMeta.Failure? {
        return Failure(loadedMeta.error);
      }
      var summary, meta := loadedSummary.value, loadedMeta.value;
      if !meta.JObject? {
        return Failure(MetadataNotObject);
      }
      if !summary.JObject? {
        return Failure(SummaryNotObject);
      }
      var updated := JObject(Augment(summary.members, meta.members));
      Save(updated);
      r := Success(updated);
    }
  }
}
