/** From the driver to the averages: what batching and scheduling leave of the passes. */
module PsdPipeline {
  import opened Averaging
  import opened FFT
  import opened Sampling

  /** The passes after the transform. */
  ghost function MapPasses<T>(f: T -> SpectrumSegment, passes: seq<seq<T>>): (r: seq<Stream>)
    ensures |r| == |passes| && forall i :: 0 <= i < |passes| ==> r[i] == Map(f, passes[i])
  {
    seq(|passes|, i requires 0 <= i < |passes| => Map(f, passes[i]))
  }

  lemma {:induction false} FlattenMap<T>(f: T -> SpectrumSegment, passes: seq<seq<T>>)
    ensures Flatten(MapPasses(f, passes)) == Map(f, Flatten(passes))
  {
    if passes != [] {
      FlattenMap(f, passes[1..]);
      assert MapPasses(f, passes)[1..] == MapPasses(f, passes[1..]);
    }
  }

  /** Whatever the batch length and however far each stage has got: the driver enqueues
      passes of `a` segments of one frequency, the FFT stage gets a prefix of that and has
      sent on the first `n` of them transformed, and the averaging stage gets a prefix of
      those. Then the groups it completes are exactly the first passes. */
  lemma GroupsArePasses<T>(passes: seq<seq<T>>, f: T -> SpectrumSegment, freq: T -> nat,
                           fftIn: seq<T>, n: nat, avgIn: Stream, a: nat)
    requires a >= 1 && (forall x :: x in Flatten(passes) ==> f(x).centerFrequency == freq(x))
    requires forall i :: 0 <= i < |passes| ==> |passes[i]| == a && SameFreq(passes[i], freq)
    requires fftIn <= Flatten(passes) && n <= |fftIn| && avgIn <= Map(f, fftIn[..n])
    ensures Done(avgIn, a) <= MapPasses(f, passes) && |Held(avgIn, a)| < a
  {
    hide Done, Held;
    var ps := MapPasses(f, passes);
    FlattenMap(f, passes);
    assert avgIn <= Flatten(ps);
    forall i | 0 <= i < |ps|
      ensures |ps[i]| == a && Uniform(ps[i])
    {
      InFlatten(passes, i);
    }
    OnlyPassesAreDone(ps, avgIn, a);
  }

  lemma {:induction false} InFlatten<T>(gs: seq<seq<T>>, i: nat)
    requires i < |gs|
    ensures forall x :: x in gs[i] ==> x in Flatten(gs)
  {
    if i > 0 {
      InFlatten(gs[1..], i - 1);
    }
  }

  ghost predicate SameFreq<T>(s: seq<T>, freq: T -> nat) {
    forall i, j :: 0 <= i < j < |s| ==> freq(s[i]) == freq(s[j])
  }

  /** `f` leaves the segments their frequency. */
  ghost predicate KeepsFreq(f: Segment -> SpectrumSegment, q: seq<Segment>) {
    forall x :: x in q ==> f(x).centerFrequency == x.centerFreq
  }

  /** `f` gives each of the segments an object of its own. */
  ghost predicate KeepsApart(f: Segment -> SpectrumSegment, q: seq<Segment>) {
    forall i, j :: 0 <= i < |q| && 0 <= j < |q| && q[i].id != q[j].id ==> f(q[i]) != f(q[j])
  }

  /** Whatever the driver has enqueued so far, however far the stages have got and whatever
      the batch length: what averaging has sent on are the mean powers of the first passes of
      the driver, with less than a pass held back; and no segment has arrived twice. */
  lemma AveragesAreOfPasses(d: Sampler, fft: FFT<Segment, SpectrumSegment>, avg: Averaging)
    requires d.Valid() && fft.Valid() && avg.Valid() && avg.avg_factor == d.avgFactor
    requires fft.received <= d.queueOut && avg.received <= fft.queueOut
    requires KeepsFreq(fft.transform, d.queueOut) && KeepsApart(fft.transform, d.queueOut)
    ensures |avg.queueOut| <= |d.passes| && |avg.avgVector| < avg.avg_factor
    ensures avg.Sent(MapPasses(fft.transform, d.passes)[..|avg.queueOut|], avg.queueOut)
    ensures forall i :: 0 <= i < |avg.received| ==> avg.received[i] !in avg.received[..i]
  {
    hide Done, Held;
    forall i | 0 <= i < |d.passes|
      ensures SameFreq(d.passes[i], (x: Segment) => x.centerFreq)
    {
      assert OneFrequency(d.passes[i]);
    }
    GroupsArePasses(d.passes, fft.transform, (x: Segment) => x.centerFreq, fft.received, |fft.queueOut|, avg.received,
                    d.avgFactor);
    assert Done(avg.received, d.avgFactor) == MapPasses(fft.transform, d.passes)[..|avg.queueOut|];
    NoneTwice(d.queueOut, fft.transform, fft.received, |fft.queueOut|, avg.received);
  }

  /** With the queues between them empty, the passes that have not been averaged are less
      than a batch and a pass together. */
  lemma OnlyABatchIsBehind(d: Sampler, fft: FFT<Segment, SpectrumSegment>, avg: Averaging)
    requires d.Valid() && fft.Valid() && avg.Valid() && avg.avg_factor == d.avgFactor
    requires fft.received == d.queueOut && avg.received == fft.queueOut
    requires KeepsFreq(fft.transform, d.queueOut) && KeepsApart(fft.transform, d.queueOut)
    ensures 0 <= (|d.passes| - |avg.queueOut|) * d.avgFactor < fft.fft_batch_len + d.avgFactor
  {
    hide Map, KeepsApart, Flatten;
    AveragesAreOfPasses(d, fft, avg);
    SentAndHeld(avg);
    PassesCount(d);
    Distribute(|d.passes|, |avg.queueOut|, d.avgFactor);
  }

  lemma SentAndHeld(avg: Averaging)
    requires avg.Valid()
    ensures |avg.received| == |avg.queueOut| * avg.avg_factor + |avg.avgVector|
  {
    hide Done, Held, Psd, Bins, Uniform;
    NothingLost(avg.received, avg.avg_factor);
    GroupsAreWhole(avg.received, avg.avg_factor);
    FlattenLength(Done(avg.received, avg.avg_factor), avg.avg_factor);
  }

  lemma PassesCount(d: Sampler)
    requires d.Valid()
    ensures |d.queueOut| == |d.passes| * d.avgFactor
  {
    FlattenLength(d.passes, d.avgFactor);
  }

  lemma Distribute(m: int, n: int, a: int)
    ensures (m - n) * a == m * a - n * a
  {
  }

  lemma {:induction false} FlattenLength<T>(gs: seq<seq<T>>, a: nat)
    requires forall i :: 0 <= i < |gs| ==> |gs[i]| == a
    ensures |Flatten(gs)| == |gs| * a
  {
    if gs != [] {
      FlattenLength(gs[1..], a);
    }
  }

  lemma NoneTwice(q: seq<Segment>, f: Segment -> SpectrumSegment, fftIn: seq<Segment>, n: nat, avgIn: Stream)
    requires (forall i :: 0 <= i < |q| ==> q[i].id == i) && KeepsApart(f, q)
    requires fftIn <= q && n <= |fftIn| && avgIn <= Map(f, fftIn[..n])
    ensures forall i :: 0 <= i < |avgIn| ==> avgIn[i] !in avgIn[..i]
  {
    forall i, j | 0 <= j < i < |avgIn|
      ensures avgIn[j] != avgIn[i]
    {
      assert avgIn[i] == Map(f, fftIn[..n])[i] == f(q[i]);
      assert avgIn[j] == Map(f, fftIn[..n])[j] == f(q[j]);
    }
  }

  // ---- The stages one after the other ------------------------------------------

  /** The stages have all that the driver has enqueued, and their transform keeps its
      segments apart and at their frequency. */
  ghost predicate Connected(d: Sampler, fft: FFT<Segment, SpectrumSegment>, avg: Averaging)
    reads d, fft, avg, avg.queueOut
  {
    && fft.Valid() && avg.Valid() && avg.avg_factor == d.avgFactor
    && fft.received == d.queueOut && avg.received == fft.queueOut
    && KeepsFreq(fft.transform, d.queueOut) && KeepsApart(fft.transform, d.queueOut)
  }

  /** An object for every segment, with its spectrum. */
  method MakeSegments(q: seq<Segment>, spectrum: Segment -> seq<Complex>) returns (objs: seq<SpectrumSegment>)
    ensures |objs| == |q| && fresh(objs)
    ensures forall i, j :: 0 <= i < j < |objs| ==> objs[i] != objs[j]
    ensures forall i :: 0 <= i < |objs| ==>
              objs[i].centerFrequency == q[i].centerFreq && objs[i].iqSamplesFreq == spectrum(q[i])
  {
    objs := [];
    for i := 0 to |q|
      invariant |objs| == i && fresh(objs)
      invariant forall j, k :: 0 <= j < k < i ==> objs[j] != objs[k]
      invariant forall j :: 0 <= j < i ==>
                  objs[j].centerFrequency == q[j].centerFreq && objs[j].iqSamplesFreq == spectrum(q[j])
    {
      var x := new SpectrumSegment(q[i].centerFreq, spectrum(q[i]));
      objs := objs + [x];
    }
  }

  /** A transform that gives each of the segments `q` such an object. */
  method MakeTransform(q: seq<Segment>, spectrum: Segment -> seq<Complex>)
    returns (transform: Segment -> SpectrumSegment)
    requires forall i :: 0 <= i < |q| ==> q[i].id == i
    ensures KeepsFreq(transform, q) && KeepsApart(transform, q)
    ensures forall x :: x in q ==> fresh(transform(x)) && transform(x).iqSamplesFreq == spectrum(x)
  {
    var objs := MakeSegments(q, spectrum);
    var other := new SpectrumSegment(0, []);
    transform := (x: Segment) => if x.id < |objs| then objs[x.id] else other;
  }

  /** The loop of the FFT stage over the segments `q`. */
  method RunFFT<T, U>(q: seq<T>, batchLen: nat, transform: T -> U) returns (fft: FFT<T, U>)
    requires batchLen >= 1
    ensures fresh(fft) && fft.Valid() && fft.received == q
    ensures fft.fft_batch_len == batchLen && fft.transform == transform
  {
    fft := new FFT<T, U>(batchLen, transform);
    for i := 0 to |q|
      invariant fft.Valid() && fft.received == q[..i]
    {
      fft.Process(q[i]);
    }
  }

  /** The loop of the averaging stage over the segments `q`. */
  method RunAveraging(q: Stream, bins: nat, a: nat, db: real -> real) returns (avg: Averaging)
    requires bins >= 1 && a >= 1 && Bins(q, bins) && forall i :: 0 <= i < |q| ==> q[i] !in q[..i]
    modifies set x | x in q
    ensures fresh(avg) && avg.Valid() && avg.received == q
    ensures avg.fft_size == bins && avg.avg_factor == a && avg.db == db
  {
    hide Uniform, Psd, Done, Held;
    avg := new Averaging(bins, a, db);
    for i := 0 to |q|
      invariant fresh(avg) && avg.Valid() && avg.received == q[..i]
    {
      Averaging.HeldWasReceived(avg.received, a);
      assert forall x :: x in avg.avgVector ==> x in q;
      avg.Process(q[i]);
    }
  }

  /** For whatever the driver has enqueued: the FFT stage and then the averaging stage take
      all of it, and what comes out are the mean powers of the first passes, less than a
      batch and a pass behind. */
  method Drain(d: Sampler, batchLen: nat, bins: nat, db: real -> real, spectrum: Segment -> seq<Complex>)
    returns (fft: FFT<Segment, SpectrumSegment>, avg: Averaging)
    requires d.Valid() && d.avgFactor >= 1 && batchLen >= 1 && bins >= 1
    requires forall x :: x in d.queueOut ==> |spectrum(x)| == bins
    ensures fresh(fft) && fresh(avg) && Connected(d, fft, avg)
    ensures fft.fft_batch_len == batchLen && avg.fft_size == bins && avg.db == db
    ensures forall x :: x in d.queueOut ==> fft.transform(x).iqSamplesFreq == spectrum(x)
    ensures |avg.queueOut| <= |d.passes|
    ensures avg.Sent(MapPasses(fft.transform, d.passes)[..|avg.queueOut|], avg.queueOut)
    ensures (|d.passes| - |avg.queueOut|) * d.avgFactor < batchLen + d.avgFactor
  {
    hide Psd, Done, Held, Flatten, KeepsFreq, KeepsApart;
    var transform := MakeTransform(d.queueOut, spectrum);
    fft := RunFFT(d.queueOut, batchLen, transform);
    NoneTwice(d.queueOut, transform, fft.received, |fft.queueOut|, fft.queueOut);
    avg := RunAveraging(fft.queueOut, bins, d.avgFactor, db);
    AveragesAreOfPasses(d, fft, avg);
    OnlyABatchIsBehind(d, fft, avg);
  }
}
