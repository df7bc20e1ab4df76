/** The `snapshots` row that `database_and_logging.save_snapshot` inserts:
    the row of `database.save_snapshot` with a `failed` flag before the
    serialised record, the flag found by scanning the record's logs. */
module DatabaseAndLogging {
  import opened Wrappers
  import opened Records
  import Database
  import Websites

  const Columns: seq<string> := [
    "website_name", "queried_url", "scraped_url", "path_to_source",
    "path_to_screenshot", "path_to_archive", "snapshot_date", "failed", "metadata"]

  /** The position of the `failed` column. */
  const FailedColumn := 7

  /** Some entry of the logs, when the record has any, is a dictionary with
      an `Exception` key. */
  predicate Failed(logs: Option<seq<LogEntry>>)
  {
    logs.Some? && exists i :: 0 <= i < |logs.value| && IsException(logs.value[i])
  }

  /** The scan of `save_snapshot`: false without a `logs` key, otherwise the
      entries are visited in order and the scan stops at the first exception
      dictionary. Stopping early gives the same answer as looking at every
      entry. */
  method ScanForFailure(logs: Option<seq<LogEntry>>) returns (failed: bool)
    ensures failed == Failed(logs)
  {
    failed := false;
    if logs.Some? {
      var entries := logs.value;
      var i := 0;
      while i < |entries|
        invariant 0 <= i <= |entries|
        invariant !failed
        invariant forall j :: 0 <= j < i ==> !IsException(entries[j])
      {
        if entries[i].Fields? && "Exception" in entries[i].keys {
          failed := true;
          assert IsException(entries[i]);
          break;
        }
        i := i + 1;
      }
    }
  }

  /** Logs made of two parts record a failure exactly when one of the parts
      does: a failure cannot be hidden by later entries. */
  lemma FailedAppend(a: seq<LogEntry>, b: seq<LogEntry>)
    ensures Failed(Some(a + b)) <==> Failed(Some(a)) || Failed(Some(b))
  {
    if Failed(Some(a + b)) {
      var i :| 0 <= i < |a + b| && IsException((a + b)[i]);
      if i < |a| {
        assert IsException(a[i]);
      } else {
        assert IsException(b[i - |a|]);
      }
    }
    if Failed(Some(a)) {
      var i :| 0 <= i < |a| && IsException(a[i]);
      assert (a + b)[i] == a[i];
    }
    if Failed(Some(b)) {
      var i :| 0 <= i < |b| && IsException(b[i]);
      assert (a + b)[|a| + i] == b[i];
    }
  }

  /** Logs of plain messages never record a failure, and neither does a
      record without logs. */
  lemma MessagesNeverFail(logs: Option<seq<LogEntry>>)
    requires logs.Some? ==> forall i :: 0 <= i < |logs.value| ==> logs.value[i].Message?
    ensures !Failed(logs)
  {
  }

  /** The nine values of `save_snapshot`: those of `database.save_snapshot`
      with the flag inserted before the serialised record. A saved artifact
      without a file name fails the path computation, which comes first. */
  function SnapshotRow(m: MetadataRecord): (r: Result<seq<Database.Value>, Database.Error>)
    ensures r.Failure? <==> Database.SnapshotRow(m).Failure?
    ensures r.Failure? ==> r.error == Database.SnapshotRow(m).error
    ensures r.Success? ==> |r.value| == |Columns|
    ensures r.Success? ==> r.value[FailedColumn] == Database.Flag(Failed(m.logs))
    ensures r.Success? ==>
              r.value[..FailedColumn] + r.value[FailedColumn + 1..] == Database.SnapshotRow(m).value
  {
    var base := Database.SnapshotRow(m);
    if base.Failure? then Failure(base.error)
    else
      var row := base.value[..FailedColumn] + [Database.Flag(Failed(m.logs))] + base.value[FailedColumn..];
      assert row[..FailedColumn] + row[FailedColumn + 1..] == base.value;
      Success(row)
  }

  /** `save_snapshot` up to the insert: paths first, then the scan, then the
      row. */
  method SaveSnapshotRow(m: MetadataRecord) returns (r: Result<seq<Database.Value>, Database.Error>)
    ensures r == SnapshotRow(m)
  {
    var base := Database.SnapshotRow(m);
    if base.Failure? {
      return Failure(base.error);
    }
    var failed := ScanForFailure(m.logs);
    r := Success(base.value[..FailedColumn] + [Database.Flag(failed)] + base.value[FailedColumn..]);
  }

  /** Each column of the nine-value row holds what the column of the same
      name holds in the eight-value row. */
  lemma ColumnsAgree(m: MetadataRecord, i: nat)
    requires SnapshotRow(m).Success? && i < |Columns| && i != FailedColumn
    ensures Columns[i] == Database.Columns[if i < FailedColumn then i else i - 1]
    ensures SnapshotRow(m).value[i] == Database.SnapshotRow(m).value[if i < FailedColumn then i else i - 1]
  {
    var r := SnapshotRow(m).value;
    assert r[..FailedColumn] + r[FailedColumn + 1..] == Database.SnapshotRow(m).value;
    if i < FailedColumn {
      assert (r[..FailedColumn] + r[FailedColumn + 1..])[i] == r[i];
    } else {
      assert (r[..FailedColumn] + r[FailedColumn + 1..])[i - 1] == r[i];
    }
  }

  /** A website object's own logs hold only the popup messages, so its
      snapshot is stored with `failed` false. */
  lemma WebsiteNeverFailed(w: Websites.Website)
    requires w.Valid()
    ensures SnapshotRow(w.Metadata()).Success?
    ensures SnapshotRow(w.Metadata()).value[FailedColumn] == Database.Flag(false)
  {
    Database.WebsiteRowStored(w);
    MessagesNeverFail(w.Metadata().logs);
  }
}
