/** The row shapes the telemetry pipeline passes from stage to stage.
    Each later shape is the earlier one with exactly one column added, so
    "the existing fields are unchanged" is the statement `r.base == old row`. */
module Records {

  /** A floating-point column (`value`, `valueThreshold`) kept as its raw
      IEEE-754 bit pattern and carried unchanged from file to bucket. The
      script declares these columns single precision, so the table engine
      rounds them; that rounding is not part of this model. */
  datatype Float = Float(bits: bv64)

  /** The seven columns that survive cleaning. `eventTime` is the parsed UTC
      instant as an integer count of time units since the epoch; only its
      order matters here. */
  datatype Reading = Reading(
    stationId: int,
    datapointId: int,
    alarmId: int,
    eventTime: int,
    value: Float,
    valueThreshold: Float,
    isActive: bool)

  /** One line of the input file: a reading followed by the `storedtime`
      column, which is always empty upstream and is dropped during cleaning. */
  datatype RawRow = RawRow(reading: Reading, storedTime: string) {
    function EventTime(): int { reading.eventTime }
  }

  /** A reading extended with the `alarm_type` column. */
  datatype AlarmRow = AlarmRow(base: Reading, alarmType: string) {
    function EventTime(): int { base.eventTime }
  }

  /** A reading extended with `alarm_type` and then `sensor_type`: the shape
      that is batched and published. */
  datatype SensorRow = SensorRow(base: AlarmRow, sensorType: string) {
    function Reading(): Reading { base.base }
    function EventTime(): int { base.base.eventTime }
  }

  /** `drop_columns('storedtime')`: keep the reading of every row, in order. */
  function DropStoredTime(rows: seq<RawRow>): seq<Reading>
  {
    seq(|rows|, i requires 0 <= i < |rows| => rows[i].reading)
  }

  /** Drop the `alarm_type` column again (the inverse of the alarm pass). */
  function AlarmBases(rows: seq<AlarmRow>): seq<Reading>
  {
    seq(|rows|, i requires 0 <= i < |rows| => rows[i].base)
  }

  /** Drop the `sensor_type` column again (the inverse of the sensor pass). */
  function SensorBases(rows: seq<SensorRow>): seq<AlarmRow>
  {
    seq(|rows|, i requires 0 <= i < |rows| => rows[i].base)
  }
}
