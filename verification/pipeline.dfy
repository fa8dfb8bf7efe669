/** The script end to end: load, clean, enrich twice, then stream. The table
    engine's round trips between data frames and tables are identities on the
    row sequence here. */
module Pipeline {
  import opened Prelude
  import opened Records
  import opened Lookups
  import Loader
  import opened Enricher
  import opened Publisher

  /** Lines 29-149 of the script: the rows the publisher streams. */
  function Prepare(file: seq<RawRow>): (rows: seq<SensorRow>)
    ensures |rows| == Min(Loader.RowCap, |file|)
    ensures forall i, j :: 0 <= i < j < |rows| ==> rows[i].EventTime() <= rows[j].EventTime()
    ensures forall i :: 0 <= i < |rows| ==>
      && rows[i].base.alarmType == AlarmType(rows[i].Reading().alarmId)
      && rows[i].sensorType == SensorType(rows[i].Reading().datapointId)
    ensures AlarmBases(SensorBases(rows)) == DropStoredTime(Loader.Load(file))
  {
    AddSensorType(AddAlarmType(DropStoredTime(Loader.Load(file))))
  }

  /** Every prepared row is one of the first `RowCap` data rows of the file,
      less its `storedtime`, with the two derived columns appended. */
  lemma PreparedRowsComeFromHead(file: seq<RawRow>, i: nat)
    requires i < |Prepare(file)|
    ensures exists j :: 0 <= j < Min(Loader.RowCap, |file|) && file[j].reading == Prepare(file)[i].Reading()
  {
    var loaded := Loader.Load(file);
    Loader.LoadedRows(file, loaded[i]);
    var head := file[..Min(Loader.RowCap, |file|)];
    var j :| 0 <= j < |head| && head[j] == loaded[i];
    assert file[j].reading == Prepare(file)[i].Reading();
  }

  /** The whole script, from the file to the bucket. */
  method Run(file: seq<RawRow>, store: Store) returns (uploads: seq<Upload>, published: Store)
    ensures |uploads| == CeilDiv(Min(Loader.RowCap, |file|), BatchSize)
    ensures |uploads| <= 10
    ensures forall k :: 0 <= k < |uploads| ==>
      uploads[k] == Upload(k, Target, Window(Prepare(file), k))
    ensures |file| == 0 ==> published == store
    ensures |file| > 0 ==> published == store[Target := Prepare(file)]
  {
    var rows := Prepare(file);
    uploads, published := Stream(rows, store);
    assert CeilDiv(200, BatchSize) == 10;
    CeilDivMonotone(|rows|, 200, BatchSize);
  }

  lemma CeilDivMonotone(m: nat, n: nat, d: nat)
    requires d > 0 && m <= n
    ensures CeilDiv(m, d) <= CeilDiv(n, d)
  {
  }
}
