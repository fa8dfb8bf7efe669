# IoT telemetry pipeline — a Dafny model of `pipelines.py`

`pipelines.py` reads a CSV of IoT sensor and alarm events, cleans it, adds two
categorical columns (`alarm_type`, `sensor_type`) and then simulates a live stream.
It cuts the rows into batches of 20. After every batch it uploads the whole
accumulated table to one fixed storage object, overwriting it. Almost all of the
script is glue over pandas, PyFlink and boto3. This project models the pure logic
under that glue as functions over sequences of rows:

- `Records`: the row shape of each stage. Each stage's row is the previous
  row plus one column: `RawRow(reading, storedTime)`, `AlarmRow(base, alarmType)`,
  `SensorRow(base, sensorType)`. Float columns are opaque bit patterns.
  `event_time` is an already-parsed integer instant.
- `Loader`: `df.iloc[0:200]` followed by `sort_values('event_time')`. The
  truncation comes before the sort.
- `Lookups`: the two SQL `CASE … ELSE 'no error' END` expressions. Each is
  written as the chain of `WHEN` tests in source order and checked against a
  reference table listed by id.
- `Enricher`: the two `SELECT *, CASE … END AS …` passes, each a map over the rows.
- `Batcher`: `[df[i:i+20] for i in range(0, len(df), 20)]` and its round trip.
- `Publisher`: the `streaming()` loop. It covers the `LIMIT 2` preview, the
  `LIMIT 20 OFFSET first_row` fetches, the running concatenation and one
  overwriting `put` per batch.
- `Pipeline`: the script end to end.

Assumption: `LIMIT/OFFSET` on the table returns rows in insertion order. The
script sets parallelism to 1 (pipelines.py:14), and the model relies on that.
Each round trip between a pandas frame and a Flink table is the identity on the
row sequence.

A further assumption: each `CASE` yields its label text exactly as written, with no
trailing spaces. Standard SQL typing would give a `CASE` over character literals
of lengths 5 to 31 the type `CHAR(31)`, and shorter labels, `'no error'`
included, would then come back padded with spaces. Whether that happens depends
on how the table engine's version types the `CASE`, and the script pins no
version.

What the code does, where a casual reading suggests something else (the model
follows the code):
- The loader keeps the first 200 data rows of the file and then sorts them. It does
  not sort the file and keep the 200 earliest rows (`Loader.EarlyLateRowIsDropped`).
- The alarm `CASE` names 25 ids, 301–325. The sensor `CASE` names 27 ids.
- After iteration `k` the uploaded object holds `rows[..min(n, 2 + 20*(k+1))]`,
  not `rows[..min(n, 20*(k+1))]`. The preview's two rows come first and every
  `OFFSET` is shifted by 2. The published prefix is still contiguous, without
  duplicates, and complete at the end. It runs two rows ahead of the batch
  boundaries (`Publisher.WindowRunsAhead`). The batch the loop iterates over is
  never read.

## Model

`drop_columns('storedtime')` (pipelines.py:46) is the projection `Records.DropStoredTime`, which keeps each row's reading in place; it carries no contract of its own and is covered through `Pipeline.Prepare`, whose last clause ties the streamed rows to the dropped, loaded rows.

| member | source | states |
|---|---|---|
| Prelude.CeilDiv | pipelines.py:153-154 | the number of starts in `range(0, n, d)` is the least `q` with `q*d >= n`, and 0 exactly when `n == 0` |
| Lookups.AlarmType | pipelines.py:49-80 | the `WHEN` chain agrees with the id-ordered table of 25 labels on every id; any other id gets `'no error'`; the result is `'no error'` exactly when the id is outside 301..325 |
| Lookups.SensorType | pipelines.py:99-132 | the `WHEN` chain agrees with the id-ordered table of 27 labels on every id; any other id gets `'no error'`; the result is `'no error'` exactly when the id is outside the five known id blocks |
| Lookups.AlarmTypeInjective | pipelines.py:51-78 | no two of the 25 known alarm ids share a label |
| Lookups.SensorTypeNotInjective | pipelines.py:127-128 | known datapoints 142 and 145 both map to `'Load of Battery 1'` |
| Lookups.SensorTypeCollisions | pipelines.py:101-130 | among known datapoints, two ids share a label exactly when they are 142 and 145 |
| Lookups.LookupExamples | pipelines.py:51-129 | alarm 316 is `'smoke'`, datapoint 153 is `'Motion sensor'`, alarm 999 is `'no error'` |
| Loader.Insert | pipelines.py:32 | inserting a row into a time-ordered sequence keeps it ordered, adds exactly that row to its multiset, and the new head is the inserted row or the old head |
| Loader.SortByTime | pipelines.py:32 | the result is ordered by event time and is a permutation of the input |
| Loader.Load | pipelines.py:29-32 | the loaded table has `min(200, n)` rows, is ordered by event time, and is a permutation of the first `min(200, n)` data rows of the file |
| Loader.LoadedRows | pipelines.py:30-32 | a row is loaded exactly when it occurs among the first `min(200, n)` data rows |
| Loader.LoadIgnoresTail | pipelines.py:30-32 | data rows after the first 200 have no effect on what is loaded |
| Loader.EarlyLateRowIsDropped | pipelines.py:30-32 | data row 201, even when it is earlier than every one of the first 200 data rows, is not loaded |
| Enricher.AddAlarmType | pipelines.py:49-84 | same row count, every row's reading unchanged and in place, the added `alarm_type` of each row is `AlarmType` of its own `alarm_id`, and it is `'no error'` exactly for unknown alarm ids; no row is dropped |
| Enricher.AddSensorType | pipelines.py:99-136 | same row count, every row unchanged and in place, the added `sensor_type` of each row is `SensorType` of its own `datapoint_id`, and it is `'no error'` exactly for unknown datapoint ids; no row is dropped |
| Enricher.AlarmPassRoundTrip | pipelines.py:49-84 | dropping `alarm_type` after the alarm pass gives back its input |
| Enricher.SensorPassRoundTrip | pipelines.py:99-136 | dropping `sensor_type` after the sensor pass gives back its input |
| Enricher.EnrichmentIsRowwise | pipelines.py:49-136 | both passes distribute over concatenation, so each row's result depends on that row only |
| Batcher.Batches | pipelines.py:152-154 | the number of batches is `ceil(n/20)`, and 0 for an empty table |
| Batcher.BatchLengths | pipelines.py:152-154 | every batch is non-empty with at most 20 rows, and every batch but the last has exactly 20 |
| Batcher.FlattenBatchesPrefix | pipelines.py:152-154 | the first `k` batches concatenated are the first `min(n, 20k)` rows |
| Batcher.FlattenBatches | pipelines.py:152-154 | concatenating all batches in order reproduces the table exactly |
| Publisher.LimitOffset | pipelines.py:168-185 | `LIMIT l OFFSET o` returns `min(l, n-o)` rows when `o < n` and none otherwise, and its `i`-th row is row `o+i` of the table |
| Publisher.Stream | pipelines.py:157-215 | one upload per batch; upload `k` carries batch number `k`, overwrites the fixed object `iottaba/csvfile/cleaned.csv`, and holds the whole prefix `rows[..min(n, 2+20(k+1))]`; when `n > 0` the last upload holds every row and the bucket ends with the object set to all rows; when `n == 0` the bucket is untouched |
| Publisher.WindowGrows | pipelines.py:182-196 | each upload's rows are a prefix of every later upload's rows |
| Publisher.WindowRunsAhead | pipelines.py:152-196 | upload `k` is the first `k+1` batches followed by the first two rows of the next batch, when there are any |
| Publisher.FullFileUploads | pipelines.py:152-196 | with 200 rows there are 10 uploads, upload `k < 9` holds `22 + 20k` rows, and the last holds all 200 |
| Pipeline.Prepare | pipelines.py:29-149 | the streamed table has `min(200, n)` rows in event-time order, each row's labels are the lookups of its own ids, and removing the two labels gives the loaded readings |
| Pipeline.PreparedRowsComeFromHead | pipelines.py:29-136 | every streamed row's reading comes from one of the first `min(200, n)` data rows of the file |
| Pipeline.Run | pipelines.py:29-217 | the script makes `ceil(min(200, n)/20)` uploads, at most 10; upload `k` holds the window `k` of the prepared rows; a non-empty file leaves the object holding every prepared row |

## Left out

- CSV reading and `pd.to_datetime` parsing (pipelines.py:29, 31): library parsing. The model starts from rows whose `event_time` is already an integer instant. Data rows are counted after the header line, which `read_csv` consumes. Malformed input is not modelled.
- PyFlink environment setup, `from_pandas` schema conversion and the table/frame round trips (pipelines.py:13-17, 36-45, 83-96, 135-149): engine plumbing, modelled as the identity on the row sequence. This includes the 32-bit `INT` conversion of the id columns, since the lookups compare ids for equality only. It also includes the single-precision `FLOAT` conversion of `value` and `valueThreshold` (pipelines.py:42-43): the engine rounds the file's double-precision values to single precision, so the frames and the published CSV hold the rounded values, while the model carries the original bits unchanged.
- `to_csv(index=False)` (pipelines.py:201): pandas text rendering. An upload records the rows whose CSV text it carries.
- The storage client, credentials and `put` failures (pipelines.py:20-26, 208): I/O. A `put` is modelled as overwriting one entry of a map from object name to rows. Failure aborting the run is not modelled.
- `time.sleep(5)` (pipelines.py:215) and every `print` banner and table dump: timing and console output. The banner's batch number is kept in each `Upload`.
- Loader.SortByTime: pandas' default sort is not stable, so the model fixes one order among rows with equal `event_time` and claims only ordering and permutation, not the order of ties.
- The float columns `value` and `valueThreshold`: carried as opaque bit patterns, with no arithmetic.
