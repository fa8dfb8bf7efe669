/** The two enrichment passes: `SELECT *, CASE … END AS <column> FROM table`.
    Each pass has no `WHERE`, so it keeps every row in place and appends one
    derived column to each. */
module Enricher {
  import opened Records
  import opened Lookups

  /** The `alarm_type` pass. */
  function AddAlarmType(rows: seq<Reading>): (r: seq<AlarmRow>)
    ensures |r| == |rows|
    ensures forall i :: 0 <= i < |r| ==> r[i].base == rows[i]
    ensures forall i :: 0 <= i < |r| ==> r[i].alarmType == AlarmType(rows[i].alarmId)
    ensures forall i :: 0 <= i < |r| ==>
      (r[i].alarmType == NoError <==> !KnownAlarm(rows[i].alarmId))
  {
    seq(|rows|, i requires 0 <= i < |rows| => AlarmRow(rows[i], AlarmType(rows[i].alarmId)))
  }

  /** The `sensor_type` pass, applied to the output of the alarm pass. */
  function AddSensorType(rows: seq<AlarmRow>): (r: seq<SensorRow>)
    ensures |r| == |rows|
    ensures forall i :: 0 <= i < |r| ==> r[i].base == rows[i]
    ensures forall i :: 0 <= i < |r| ==> r[i].sensorType == SensorType(rows[i].base.datapointId)
    ensures forall i :: 0 <= i < |r| ==>
      (r[i].sensorType == NoError <==> !KnownDatapoint(rows[i].base.datapointId))
  {
    seq(|rows|, i requires 0 <= i < |rows| => SensorRow(rows[i], SensorType(rows[i].base.datapointId)))
  }

  /** Dropping the added column gives back the input of the alarm pass. */
  lemma AlarmPassRoundTrip(rows: seq<Reading>)
    ensures AlarmBases(AddAlarmType(rows)) == rows
  {
  }

  /** Dropping the added column gives back the input of the sensor pass. */
  lemma SensorPassRoundTrip(rows: seq<AlarmRow>)
    ensures SensorBases(AddSensorType(rows)) == rows
  {
  }

  /** Each pass works row by row: enriching two tables one after the other is
      enriching their concatenation. */
  lemma EnrichmentIsRowwise(a: seq<Reading>, b: seq<Reading>)
    ensures AddAlarmType(a + b) == AddAlarmType(a) + AddAlarmType(b)
    ensures AddSensorType(AddAlarmType(a + b))
         == AddSensorType(AddAlarmType(a)) + AddSensorType(AddAlarmType(b))
  {
  }
}
