/** The batcher: `[df[i:i+size] for i in range(0, len(df), size)]`. */
module Batcher {
  import opened Prelude

  /** The batch that starts at the `i`-th value of `range(0, |s|, size)`. */
  function Batches<T>(s: seq<T>, size: nat): (bs: seq<seq<T>>)
    requires size > 0
    ensures |bs| == CeilDiv(|s|, size)
  {
    var count := CeilDiv(|s|, size);
    seq(count, i requires 0 <= i < count =>
      StartInRange(|s|, size, i);
      s[i * size .. Min(|s|, i * size + size)])
  }

  /** Every batch is non-empty and holds at most `size` elements; all but the
      last hold exactly `size`. */
  lemma BatchLengths<T>(s: seq<T>, size: nat)
    requires size > 0
    ensures forall i :: 0 <= i < |Batches(s, size)| ==> 0 < |Batches(s, size)[i]| <= size
    ensures forall i :: 0 <= i < |Batches(s, size)| - 1 ==> |Batches(s, size)[i]| == size
  {
    var bs := Batches(s, size);
    forall i | 0 <= i < |bs|
      ensures 0 < |bs[i]| <= size
      ensures i < |bs| - 1 ==> |bs[i]| == size
    {
      StartInRange(|s|, size, i);
    }
  }

  /** Every start `i * size` the range yields lies inside the sequence, and
      every start but the last is followed by a full batch. */
  lemma StartInRange(n: nat, size: nat, i: nat)
    requires size > 0 && i < CeilDiv(n, size)
    ensures i * size < n
    ensures i < CeilDiv(n, size) - 1 ==> i * size + size < n
  {
    var q := CeilDiv(n, size);
    MulMonotone(i, q - 1, size);
    if i < q - 1 {
      MulMonotone(i + 1, q - 1, size);
    }
  }

  lemma MulMonotone(a: nat, b: nat, c: nat)
    requires a <= b
    ensures a * c <= b * c
  {
  }

  /** Concatenation of a sequence of batches, in order. */
  function Flatten<T>(bs: seq<seq<T>>): seq<T>
  {
    if |bs| == 0 then [] else Flatten(bs[..|bs| - 1]) + bs[|bs| - 1]
  }

  /** The first `k` batches together are the first `k * size` elements
      (clipped to the length). */
  lemma {:induction false} FlattenBatchesPrefix<T>(s: seq<T>, size: nat, k: nat)
    requires size > 0 && k <= CeilDiv(|s|, size)
    ensures Flatten(Batches(s, size)[..k]) == s[..Min(|s|, k * size)]
  {
    var bs := Batches(s, size);
    if k > 0 {
      var start := (k - 1) * size;
      var end := Min(|s|, k * size);
      FlattenBatchesPrefix(s, size, k - 1);
      StartInRange(|s|, size, k - 1);
      assert start + size == k * size by { MulSucc(k - 1, size); }
      assert bs[k - 1] == s[start .. end];
      assert bs[..k][..k - 1] == bs[..k - 1];
      calc {
        Flatten(bs[..k]);
        Flatten(bs[..k - 1]) + bs[k - 1];
        s[..start] + s[start .. end];
        s[..end];
      }
    }
  }

  lemma MulSucc(a: nat, b: nat)
    ensures a * b + b == (a + 1) * b
  {
  }

  /** Partition round trip: concatenating all batches in order reproduces the
      input exactly, with nothing lost, duplicated or reordered. */
  lemma FlattenBatches<T>(s: seq<T>, size: nat)
    requires size > 0
    ensures Flatten(Batches(s, size)) == s
  {
    var bs := Batches(s, size);
    FlattenBatchesPrefix(s, size, |bs|);
    assert bs[..|bs|] == bs;
  }
}
