/** The publisher: the `streaming()` loop. It takes a two-row preview, then
    for every batch fetches `LIMIT 20 OFFSET first_row` from the enriched
    table, appends it to the running result and overwrites one fixed object
    with the whole running result. The batch the loop iterates over is never
    read: what is published is decided by the offsets alone. */
module Publisher {
  import opened Prelude
  import opened Records
  import opened Batcher

  const BatchSize: nat := 20
  /** Rows in the `LIMIT 2` preview, and so the first `OFFSET`. */
  const PreviewSize: nat := 2

  /** A storage object, named by bucket and key. */
  datatype ObjectId = ObjectId(bucket: string, key: string)

  /** The one object every upload overwrites. */
  const Target: ObjectId := ObjectId("iottaba", "csvfile/cleaned.csv")

  /** The bucket contents this model can observe: object name to the rows
      whose CSV text it holds. */
  type Store = map<ObjectId, seq<SensorRow>>

  /** One `put`: the banner's batch number, the object written and the rows
      whose CSV text became the object's body. */
  datatype Upload = Upload(batchNo: nat, target: ObjectId, body: seq<SensorRow>)

  /** `SELECT * FROM table LIMIT limit OFFSET offset`, assuming the table
      returns its rows in insertion order (the script pins parallelism to 1). */
  function LimitOffset<T>(rows: seq<T>, limit: nat, offset: nat): (r: seq<T>)
    ensures offset >= |rows| ==> r == []
    ensures offset < |rows| ==> |r| == Min(limit, |rows| - offset)
    ensures forall i :: 0 <= i < |r| ==> offset + i < |rows| && r[i] == rows[offset + i]
  {
    if offset >= |rows| then [] else rows[offset .. Min(|rows|, offset + limit)]
  }

  /** What the object holds after loop iteration `k` (counting from 0): the
      preview plus `k + 1` windows of `BatchSize` rows, clipped to the table. */
  function Window<T>(rows: seq<T>, k: nat): seq<T>
  {
    rows[..Min(|rows|, PreviewSize + BatchSize * (k + 1))]
  }

  /** The `streaming()` function over the enriched rows, with the bucket as
      it was before the first upload. Returns every upload in order and the
      bucket afterwards. */
  method Stream(rows: seq<SensorRow>, store: Store) returns (uploads: seq<Upload>, published: Store)
    ensures |uploads| == |Batches(rows, BatchSize)|
    ensures forall k :: 0 <= k < |uploads| ==>
      uploads[k].batchNo == k && uploads[k].target == Target
    ensures forall k :: 0 <= k < |uploads| ==> uploads[k].body == Window(rows, k)
    ensures |rows| == 0 ==> published == store
    ensures |rows| > 0 ==> uploads[|uploads| - 1].body == rows
    ensures |rows| > 0 ==> published == store[Target := rows]
  {
    var batches := Batches(rows, BatchSize);
    var firstDf := LimitOffset(rows, PreviewSize, 0);
    var batchNo: nat := 0;
    var firstRow: nat := PreviewSize;
    var finalRow: nat := BatchSize;
    var combined: seq<SensorRow> := [];
    uploads := [];
    published := store;
    for j := 0 to |batches|
      invariant batchNo == j
      invariant firstRow == PreviewSize + BatchSize * j
      invariant finalRow == BatchSize
      invariant j > 0 ==> combined == rows[..Min(|rows|, firstRow)]
      invariant |uploads| == j
      invariant forall k :: 0 <= k < j ==>
        uploads[k] == Upload(k, Target, Window(rows, k))
      invariant j == 0 ==> published == store
      invariant j > 0 ==> published == store[Target := combined]
    {
      var nextDf := LimitOffset(rows, finalRow, firstRow);
      ghost var head := if j == 0 then firstDf else combined;
      assert head == rows[..Min(|rows|, firstRow)];
      assert head + nextDf == rows[..Min(|rows|, firstRow + BatchSize)];
      firstRow := firstRow + BatchSize;
      if batchNo == 0 {
        combined := firstDf + nextDf;
      } else {
        combined := combined + nextDf;
      }
      uploads := uploads + [Upload(batchNo, Target, combined)];
      published := published[Target := combined];
      batchNo := batchNo + 1;
    }
  }

  /** Successive uploads only ever extend the published prefix. */
  lemma WindowGrows<T>(rows: seq<T>, k: nat, k': nat)
    requires k <= k'
    ensures Window(rows, k) == Window(rows, k')[..|Window(rows, k)|]
  {
  }

  /** The published window runs two rows ahead of the batch boundaries: after
      iteration `k` it is the first `k + 1` batches followed by the first
      `PreviewSize` rows of the next batch, when there are any. */
  lemma WindowRunsAhead<T>(rows: seq<T>, k: nat)
    requires k < |Batches(rows, BatchSize)|
    ensures Window(rows, k)
         == Flatten(Batches(rows, BatchSize)[..k + 1])
          + rows[Min(|rows|, BatchSize * (k + 1)) .. Min(|rows|, BatchSize * (k + 1) + PreviewSize)]
  {
    FlattenBatchesPrefix(rows, BatchSize, k + 1);
    assert (k + 1) * BatchSize == BatchSize * (k + 1);
    var cut := Min(|rows|, BatchSize * (k + 1));
    var end := Min(|rows|, BatchSize * (k + 1) + PreviewSize);
    assert rows[..end] == rows[..cut] + rows[cut .. end];
  }

  /** With a full file of 200 rows there are ten uploads; upload `k` holds
      `22 + 20 * k` rows for `k < 9` and the last holds all 200. */
  lemma FullFileUploads<T>(rows: seq<T>)
    requires |rows| == 200
    ensures |Batches(rows, BatchSize)| == 10
    ensures forall k :: 0 <= k < 9 ==> |Window(rows, k)| == 22 + 20 * k
    ensures Window(rows, 9) == rows
  {
    assert CeilDiv(200, 20) == 10;
  }
}
