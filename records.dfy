/** The metadata record a capture produces and the persistence layer reads:
    the dictionary built by the `metadata` property of a website object. */
module Records {
  import opened Wrappers

  /** One entry of the `logs` list: a plain message, or a dictionary, of
      which only the set of keys matters here. */
  datatype LogEntry = Message(text: string) | Fields(keys: set<string>)

  /** An entry that records an exception: a dictionary with an `Exception` key. */
  predicate IsException(e: LogEntry)
  {
    e.Fields? && "Exception" in e.keys
  }

  /** The `{saved, filename}` record kept for each artifact. */
  datatype Artifact = Artifact(saved: bool, filename: Option<string>)

  const Unsaved := Artifact(false, None)

  /** A saved artifact names its file, an unsaved one names none. */
  predicate Consistent(a: Artifact)
  {
    a.saved <==> a.filename.Some?
  }

  /** The metadata dictionary; `logs` is None for a dictionary without a
      `logs` key. */
  datatype MetadataRecord = MetadataRecord(
    name: string,
    queriedUrl: string,
    scrapedUrl: Option<string>,
    scrapeTime: string,
    logs: Option<seq<LogEntry>>,
    folderPath: string,
    source: Artifact,
    screenshot: Artifact,
    mhtmlArchive: Artifact)
}
