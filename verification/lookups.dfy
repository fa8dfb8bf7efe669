/** The two categorical lookups written in the source as SQL `CASE`
    expressions with an `ELSE 'no error'` default. Each is modelled twice: as
    the chain of `WHEN` tests in the order the source lists them (first match
    wins), and as a reference table listed by id; the contracts tie the two. */
module Lookups {

  /** The `ELSE` label of both lookups. */
  const NoError: string := "no error"

  /** Reference table for `alarm_type`, ordered by alarm id. */
  const AlarmTable: map<int, string> := map[
    301 := "AC power loss",
    302 := "equipment connection loss",
    303 := "failed equipment",
    304 := "high outdoor temperature",
    305 := "low temperature",
    306 := "high moisture",
    307 := "low moisture",
    308 := "high AC voltage",
    309 := "low AC voltage",
    310 := "high AC load current",
    311 := "low AC load current",
    312 := "high DC voltage",
    313 := "low DC voltage",
    314 := "high DC load current",
    315 := "low DC load current",
    316 := "smoke",
    317 := "door open",
    318 := "flooding",
    319 := "motion",
    320 := "failed temperature sensor",
    321 := "lack of gass in air conditioner",
    322 := "high room temperature",
    323 := "connection loss",
    324 := "increasing temperature",
    325 := "batterys high temperature"
  ]

  /** Reference table for `sensor_type`, ordered by datapoint id. Ids 142 and
      145 carry the same label, exactly as pipelines.py lists them. */
  const SensorTable: map<int, string> := map[
    111 := "Room Temperature",
    112 := "Temperature of Airconditioner 1",
    113 := "Temperature of Airconditioner 2",
    114 := "Outdoor temperature",
    115 := "Humidity",
    116 := "Battery temperature",
    121 := "Voltage of Power Grid",
    122 := "Load of Power Grid",
    123 := "Frequency of Power Grid",
    124 := "Voltage of Power Generator",
    125 := "Load of power generator",
    126 := "Frequency of Power Generator",
    141 := "Total Battery Voltage",
    142 := "Load of Battery 1",
    143 := "Voltage of Battery 1",
    144 := "Voltage of Battery 2",
    145 := "Load of Battery 1",
    151 := "Smoke sensor",
    152 := "Door sensor",
    153 := "Motion sensor",
    154 := "Water leak sensor",
    155 := "Heat increase",
    161 := "Capacity",
    162 := "Runtime of Airconditioner 1",
    163 := "Runtime of Airconditioner 2",
    164 := "Runtime of AC",
    165 := "Runtime of Power Generator"
  ]

  /** The alarm ids the `CASE` names: exactly the block 301..325. */
  predicate KnownAlarm(id: int) { 301 <= id <= 325 }

  /** The datapoint ids the `CASE` names: five blocks of consecutive ids. */
  predicate KnownDatapoint(id: int)
  {
    || 111 <= id <= 116
    || 121 <= id <= 126
    || 141 <= id <= 145
    || 151 <= id <= 155
    || 161 <= id <= 165
  }

  /** `CASE alarm_id WHEN … END AS alarm_type`, its `WHEN` clauses tried in source order. */
  function AlarmType(alarmId: int): (name: string)
    ensures KnownAlarm(alarmId) <==> alarmId in AlarmTable
    ensures alarmId in AlarmTable ==> name == AlarmTable[alarmId]
    ensures alarmId !in AlarmTable ==> name == NoError
    ensures name == NoError <==> !KnownAlarm(alarmId)
  {
    if alarmId == 316 then "smoke"
    else if alarmId == 319 then "motion"
    else if alarmId == 320 then "failed temperature sensor"
    else if alarmId == 303 then "failed equipment"
    else if alarmId == 306 then "high moisture"
    else if alarmId == 307 then "low moisture"
    else if alarmId == 308 then "high AC voltage"
    else if alarmId == 309 then "low AC voltage"
    else if alarmId == 310 then "high AC load current"
    else if alarmId == 311 then "low AC load current"
    else if alarmId == 312 then "high DC voltage"
    else if alarmId == 313 then "low DC voltage"
    else if alarmId == 314 then "high DC load current"
    else if alarmId == 315 then "low DC load current"
    else if alarmId == 322 then "high room temperature"
    else if alarmId == 323 then "connection loss"
    else if alarmId == 302 then "equipment connection loss"
    else if alarmId == 304 then "high outdoor temperature"
    else if alarmId == 321 then "lack of gass in air conditioner"
    else if alarmId == 317 then "door open"
    else if alarmId == 318 then "flooding"
    else if alarmId == 324 then "increasing temperature"
    else if alarmId == 325 then "batterys high temperature"
    else if alarmId == 301 then "AC power loss"
    else if alarmId == 305 then "low temperature"
    else NoError
  }

  /** `CASE datapoint_id WHEN … END AS sensor_type`, its `WHEN` clauses tried in source order. */
  function SensorType(datapointId: int): (name: string)
    ensures KnownDatapoint(datapointId) <==> datapointId in SensorTable
    ensures datapointId in SensorTable ==> name == SensorTable[datapointId]
    ensures datapointId !in SensorTable ==> name == NoError
    ensures name == NoError <==> !KnownDatapoint(datapointId)
  {
    if datapointId == 111 then "Room Temperature"
    else if datapointId == 112 then "Temperature of Airconditioner 1"
    else if datapointId == 126 then "Frequency of Power Generator"
    else if datapointId == 123 then "Frequency of Power Grid"
    else if datapointId == 124 then "Voltage of Power Generator"
    else if datapointId == 114 then "Outdoor temperature"
    else if datapointId == 121 then "Voltage of Power Grid"
    else if datapointId == 113 then "Temperature of Airconditioner 2"
    else if datapointId == 162 then "Runtime of Airconditioner 1"
    else if datapointId == 163 then "Runtime of Airconditioner 2"
    else if datapointId == 164 then "Runtime of AC"
    else if datapointId == 165 then "Runtime of Power Generator"
    else if datapointId == 153 then "Motion sensor"
    else if datapointId == 151 then "Smoke sensor"
    else if datapointId == 152 then "Door sensor"
    else if datapointId == 154 then "Water leak sensor"
    else if datapointId == 125 then "Load of power generator"
    else if datapointId == 122 then "Load of Power Grid"
    else if datapointId == 161 then "Capacity"
    else if datapointId == 155 then "Heat increase"
    else if datapointId == 141 then "Total Battery Voltage"
    else if datapointId == 115 then "Humidity"
    else if datapointId == 116 then "Battery temperature"
    else if datapointId == 143 then "Voltage of Battery 1"
    else if datapointId == 144 then "Voltage of Battery 2"
    else if datapointId == 142 then "Load of Battery 1"
    else if datapointId == 145 then "Load of Battery 1"
    else NoError
  }

  /** The alarm lookup tells every known alarm apart: no two of the 25 ids
      share a label. */
  lemma AlarmTypeInjective(a: int, b: int)
    requires KnownAlarm(a) && KnownAlarm(b) && a != b
    ensures AlarmType(a) != AlarmType(b)
  {
  }

  /** The sensor lookup is not injective: two distinct known datapoints share
      a label, so `sensor_type` alone cannot recover `datapoint_id`. */
  lemma SensorTypeNotInjective()
    ensures KnownDatapoint(142) && KnownDatapoint(145)
    ensures SensorType(142) == SensorType(145) == "Load of Battery 1"
  {
  }

  /** 142 and 145 are the only collision among the 27 known datapoints. */
  lemma SensorTypeCollisions(a: int, b: int)
    requires KnownDatapoint(a) && KnownDatapoint(b) && a < b
    ensures SensorType(a) == SensorType(b) <==> a == 142 && b == 145
  {
  }

  /** Two worked examples: alarm 316 with datapoint 153,
      and an unknown alarm id. */
  lemma LookupExamples()
    ensures AlarmType(316) == "smoke" && SensorType(153) == "Motion sensor"
    ensures AlarmType(999) == NoError
  {
  }
}
