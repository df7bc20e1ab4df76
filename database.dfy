/** The `snapshots` row that `database.save_snapshot` inserts for a metadata
    record: eight values, three of them the paths of the saved artifacts. */
module Database {
  import opened Wrappers
  import opened Strings
  import opened Records
  import Websites

  /** A value bound to one `?` of the insert statement. `Document` stands
      for the JSON text of the whole record. */
  datatype Value = Text(text: string) | Null | Flag(flag: bool) | Document(record: MetadataRecord)

  /** Why no row can be built: the artifact record of this column is marked
      saved but names no file, so the path concatenation raises. */
  datatype Error = MissingFilename(column: string)

  const Columns: seq<string> := [
    "website_name", "queried_url", "scraped_url", "path_to_source",
    "path_to_screenshot", "path_to_archive", "snapshot_date", "metadata"]

  /** A string that may be `None`, stored as SQL NULL when absent. */
  function Nullable(o: Option<string>): Value
  {
    if o.Some? then Text(o.value) else Null
  }

  /** The path column of one artifact: the folder followed by the file name
      when the artifact is saved, absent otherwise, and an error when a saved
      artifact names no file. */
  function ArtifactPath(folder: string, a: Artifact): (p: Result<Option<string>, ()>)
    ensures p.Failure? <==> a.saved && a.filename.None?
    ensures p.Success? ==> (p.value.Some? <==> a.saved)
    ensures p.Success? && p.value.Some? ==> HasPrefix(p.value.value, folder)
    ensures p.Success? && p.value.Some? ==> p.value.value[|folder|..] == a.filename.value
  {
    if !a.saved then Success(None)
    else if a.filename.None? then Failure(())
    else Success(Some(folder + a.filename.value))
  }

  /** A consistent artifact record always yields a path column, and the
      file name is recovered from the path by removing the folder. */
  lemma ArtifactPathRoundTrip(folder: string, a: Artifact)
    requires Consistent(a)
    ensures ArtifactPath(folder, a).Success?
    ensures ArtifactPath(folder, a).value.Some? ==>
              Some(StripPrefix(ArtifactPath(folder, a).value.value, folder)) == a.filename
    ensures ArtifactPath(folder, a).value.None? ==> a == Unsaved
  {
    var p := ArtifactPath(folder, a);
    if p.value.Some? {
      var r := StripPrefix(p.value.value, folder);
      assert p.value.value == folder + r;
    }
  }

  /** The path column of an artifact whose path could be computed: the
      folder followed by the file name when it is saved, NULL when it is not. */
  function PathValue(folder: string, a: Artifact): Value
  {
    if a.saved && a.filename.Some? then Text(folder + a.filename.value) else Null
  }

  /** The first column whose artifact is saved without a file name, in the
      order the paths are computed. */
  function FirstMissing(m: MetadataRecord): Option<string>
  {
    if m.source.saved && m.source.filename.None? then Some("path_to_source")
    else if m.screenshot.saved && m.screenshot.filename.None? then Some("path_to_screenshot")
    else if m.mhtmlArchive.saved && m.mhtmlArchive.filename.None? then Some("path_to_archive")
    else None
  }

  /** The values of `save_snapshot`, in the column order of `Columns`. */
  function SnapshotRow(m: MetadataRecord): (r: Result<seq<Value>, Error>)
    ensures r.Failure? <==> FirstMissing(m).Some?
    ensures r.Failure? ==> r.error == MissingFilename(FirstMissing(m).value)
    ensures r.Success? ==> |r.value| == |Columns|
    ensures r.Success? ==>
              && r.value[0] == Text(m.name)
              && r.value[1] == Text(m.queriedUrl)
              && r.value[2] == (if m.scrapedUrl.Some? then Text(m.scrapedUrl.value) else Null)
              && r.value[6] == Text(m.scrapeTime)
              && r.value[7] == Document(m)
    ensures r.Success? ==>
              && r.value[3] == PathValue(m.folderPath, m.source)
              && r.value[4] == PathValue(m.folderPath, m.screenshot)
              && r.value[5] == PathValue(m.folderPath, m.mhtmlArchive)
  {
    var source := ArtifactPath(m.folderPath, m.source);
    var screenshot := ArtifactPath(m.folderPath, m.screenshot);
    var archive := ArtifactPath(m.folderPath, m.mhtmlArchive);
    if source.Failure? then Failure(MissingFilename("path_to_source"))
    else if screenshot.Failure? then Failure(MissingFilename("path_to_screenshot"))
    else if archive.Failure? then Failure(MissingFilename("path_to_archive"))
    else Success([
      Text(m.name), Text(m.queriedUrl), Nullable(m.scrapedUrl),
      Nullable(source.value), Nullable(screenshot.value), Nullable(archive.value),
      Text(m.scrapeTime), Document(m)])
  }

  /** A record whose artifact records are consistent always gets a row, and
      each path column is the folder followed by the file name of a saved
      artifact, NULL for an unsaved one. */
  lemma ConsistentRow(m: MetadataRecord)
    requires Consistent(m.source) && Consistent(m.screenshot) && Consistent(m.mhtmlArchive)
    ensures SnapshotRow(m).Success?
    ensures SnapshotRow(m).value[3] == PathValue(m.folderPath, m.source)
    ensures SnapshotRow(m).value[4] == PathValue(m.folderPath, m.screenshot)
    ensures SnapshotRow(m).value[5] == PathValue(m.folderPath, m.mhtmlArchive)
  {
  }

  /** The metadata of any website object can be stored: its artifact
      records are consistent, so the insert gets a full row, and each path
      column names the file the capture step wrote, or is NULL when the step
      did not run. */
  lemma WebsiteRowStored(w: Websites.Website)
    requires w.Valid()
    ensures SnapshotRow(w.Metadata()).Success?
    ensures SnapshotRow(w.Metadata()).value[3] ==
              if w.sourceCodeSaved then Text(w.dataFolder + w.config.sourceCodeFilename) else Null
    ensures SnapshotRow(w.Metadata()).value[4] ==
              if w.screenshotTaken then Text(w.dataFolder + w.config.screenshotFilename) else Null
    ensures SnapshotRow(w.Metadata()).value[5] ==
              if w.mhtmlArchiveSaved then Text(w.dataFolder + w.config.mhtmlArchiveFilename) else Null
  {
    ConsistentRow(w.Metadata());
  }

  /** With the metadata as written, the archive column is NULL even after
      the archive was saved. */
  lemma ArchiveColumnNullAsWritten(w: Websites.Website)
    requires w.Valid() && w.mhtmlArchiveSaved
    ensures SnapshotRow(w.MetadataAsWritten()).Success?
    ensures SnapshotRow(w.MetadataAsWritten()).value[5] == Null
    ensures SnapshotRow(w.Metadata()).value[5] != Null
  {
    ConsistentRow(w.MetadataAsWritten());
    WebsiteRowStored(w);
  }
}
