/** The stage that transforms segments in batches. The transform itself is any function of
    a segment. */
module FFT {
  import opened Bits

  function Map<T, U>(f: T -> U, s: seq<T>): (r: seq<U>)
    ensures |r| == |s| && forall i :: 0 <= i < |s| ==> r[i] == f(s[i])
  {
    seq(|s|, i requires 0 <= i < |s| => f(s[i]))
  }

  class FFT<T, U> {
    const fft_batch_len: nat
    const transform: T -> U
    var mFFTBatch: seq<T>
    var queueOut: seq<U>
    ghost var received: seq<T>

    /** All that was received has been sent on, in order, but for less than a batch. */
    ghost predicate Valid()
      reads this
    {
      && |mFFTBatch| < fft_batch_len
      && |queueOut| + |mFFTBatch| == |received| && |queueOut| % fft_batch_len == 0
      && queueOut == Map(transform, received[..|queueOut|]) && mFFTBatch == received[|queueOut|..]
    }

    constructor (fft_batch_len: nat, transform: T -> U)
      requires fft_batch_len >= 1
      ensures Valid() && received == [] && this.fft_batch_len == fft_batch_len && this.transform == transform
    {
      this.fft_batch_len, this.transform := fft_batch_len, transform;
      mFFTBatch, queueOut, received := [], [], [];
    }

    /** What the loop does with a segment from the queue. */
    method Process(segment: T)
      requires Valid()
      modifies this
      ensures Valid() && received == old(received) + [segment]
    {
      mFFTBatch := mFFTBatch + [segment];
      received := received + [segment];
      if |mFFTBatch| == fft_batch_len {
        var transformed := ComputeFFT(mFFTBatch);
        ghost var sent := queueOut;
        for i := 0 to |mFFTBatch|
          modifies this`queueOut
          invariant queueOut == sent + transformed[..i]
        {
          queueOut := queueOut + [transformed[i]];
        }
        assert transformed[..|mFFTBatch|] == transformed;
        BatchSent(old(received), sent, mFFTBatch, received);
        mFFTBatch := [];
      }
    }

    /** With the batch in hand sent on, nothing is held. */
    lemma BatchSent(r: seq<T>, sent: seq<U>, batch: seq<T>, r': seq<T>)
      requires |batch| == fft_batch_len >= 1 && |sent| <= |r| && sent == Map(transform, r[..|sent|])
      requires r' == r[..|sent|] + batch && |sent| % fft_batch_len == 0
      ensures sent + Map(transform, batch) == Map(transform, r') && (|sent| + fft_batch_len) % fft_batch_len == 0
    {
      var q := |sent| / fft_batch_len;
      DivMod(|sent|, fft_batch_len);
      ModIs(|sent| + fft_batch_len, fft_batch_len, q + 1, 0);
    }

    method ComputeFFT(segments: seq<T>) returns (transformed: seq<U>)
      ensures transformed == Map(transform, segments)
    {
      transformed := [];
      for i := 0 to |segments|
        invariant transformed == Map(transform, segments[..i])
      {
        transformed := transformed + [transform(segments[i])];
      }
      assert segments[..|segments|] == segments;
    }
  }
}
