/**
  Spectral peak picking (server/internal/fingerprint/peaks.go): per fragment,
  the bins below the Nyquist index are sorted into four frequency bands; in
  each band a robust threshold (median + 3 * MAD, floored at 1.0) is taken,
  the candidates that clear it and beat both neighbours are kept, and the
  strongest of them becomes the band's peak.
 */
module Peaks {
  import Audio
  import Sorting

  datatype Band = Band(minFreq: real, maxFreq: real)

  /** The `bands` table. */
  const Bands: seq<Band> := [Band(80.0, 400.0), Band(400.0, 1600.0), Band(1600.0, 3200.0), Band(3200.0, 5600.0)]

  const MadMultiplier: real := 3.0
  const MaxPeaksPerBand: nat := 1
  const MinMagnitude: real := 1.0

  /** Only bins below WindowSize / 2 are looked at. */
  const NyquistBins: nat := Audio.WindowSize / 2

  datatype Peak = Peak(frequency: real, magnitude: real, time: real, bandIndex: int)

  datatype Candidate = Candidate(frequency: real, magnitude: real, binIndex: nat)

  predicate InBand(f: real, i: nat)
    requires i < |Bands|
  {
    Bands[i].minFreq <= f < Bands[i].maxFreq
  }

  /** The bands tile [80, 5600) without gaps or overlaps. */
  lemma BandsTile()
    ensures forall i :: 0 <= i < |Bands| ==> Bands[i].minFreq < Bands[i].maxFreq
    ensures forall i :: 0 <= i < |Bands| - 1 ==> Bands[i].maxFreq == Bands[i + 1].minFreq
    ensures Bands[0].minFreq == 80.0 && Bands[|Bands| - 1].maxFreq == 5600.0
  {
  }

  /** The first band at or after i that contains f, or -1. */
  function BandFrom(f: real, i: nat): (r: int)
    requires i <= |Bands|
    ensures r == -1 || (i <= r < |Bands| && InBand(f, r))
    ensures r == -1 <==> forall j :: i <= j < |Bands| ==> !InBand(f, j)
    decreases |Bands| - i
  {
    if i == |Bands| then -1
    else if InBand(f, i) then i
    else BandFrom(f, i + 1)
  }

  /**
    The band index of a frequency: the one band whose half-open range holds
    f, or -1 when f lies outside [80, 5600).
   */
  function BandIndexOf(f: real): (r: int)
    ensures -1 <= r < |Bands|
  {
    BandFrom(f, 0)
  }

  /** The band index is -1 exactly outside [80, 5600); otherwise it names the only band holding f. */
  lemma BandIndexOfIsTheBand(f: real)
    ensures BandIndexOf(f) >= 0 <==> 80.0 <= f < 5600.0
    ensures BandIndexOf(f) >= 0 ==>
      InBand(f, BandIndexOf(f)) && forall j :: 0 <= j < |Bands| && InBand(f, j) ==> j == BandIndexOf(f)
  {
  }

  /** `getBandIndex`: scan the bands in order and return the first that holds f. */
  method GetBandIndex(f: real) returns (r: int)
    ensures r == BandIndexOf(f)
  {
    for i := 0 to |Bands|
      invariant BandFrom(f, 0) == BandFrom(f, i)
    {
      if f >= Bands[i].minFreq && f < Bands[i].maxFreq {
        return i;
      }
    }
    return -1;
  }

  function Min(a: int, b: int): (m: int)
    ensures m <= a && m <= b && (m == a || m == b)
  {
    if a < b then a else b
  }

  /** How many bins of a fragment are scanned. */
  function Scanned(mags: seq<real>): nat {
    Min(|mags|, NyquistBins)
  }

  /** The centre frequency of bin i. */
  function BinFrequency(i: nat, binSize: real): real {
    i as real * binSize
  }

  /** The candidates of band b among bins 0 .. n-1, in bin order. */
  function BandCandidates(mags: seq<real>, binSize: real, b: int, n: nat): (cs: seq<Candidate>)
    requires n <= |mags|
    ensures forall k :: 0 <= k < |cs| ==>
      cs[k].binIndex < n && cs[k].magnitude == mags[cs[k].binIndex] && BandIndexOf(cs[k].frequency) == b
  {
    if n == 0 then []
    else
      var prev := BandCandidates(mags, binSize, b, n - 1);
      var f := BinFrequency(n - 1, binSize);
      if BandIndexOf(f) == b then prev + [Candidate(f, mags[n - 1], n - 1)] else prev
  }

  function Magnitudes(cs: seq<Candidate>): (ms: seq<real>)
    ensures |ms| == |cs|
  {
    seq(|cs|, k requires 0 <= k < |cs| => cs[k].magnitude)
  }

  function Abs(x: real): real { if x < 0.0 then -x else x }

  function Deviations(ms: seq<real>, median: real): (ds: seq<real>)
    ensures |ds| == |ms| && forall k :: 0 <= k < |ds| ==> ds[k] >= 0.0
  {
    seq(|ms|, k requires 0 <= k < |ms| => Abs(ms[k] - median))
  }

  /** The element at index len/2 of the sorted list: the upper median. */
  function UpperMedian(ms: seq<real>): real
    requires ms != []
  {
    Sorting.SortedOf(ms)[|ms| / 2]
  }

  /**
    The band threshold: the upper median plus three times the upper median
    of the absolute deviations, but never below MinMagnitude; an empty band
    gets exactly MinMagnitude. Since the deviations are non-negative, the
    threshold is never below the median either.
   */
  function MadThreshold(ms: seq<real>): (t: real)
    ensures t >= MinMagnitude
    ensures ms == [] ==> t == MinMagnitude
    ensures ms != [] ==> t >= UpperMedian(ms)
  {
    if ms == [] then MinMagnitude
    else
      var median := UpperMedian(ms);
      var ds := Deviations(ms, median);
      var mad := UpperMedian(ds);
      MedianOfNonNegative(ds);
      var t := median + MadMultiplier * mad;
      if t < MinMagnitude then MinMagnitude else t
  }

  lemma MedianOfNonNegative(ds: seq<real>)
    requires ds != [] && forall k :: 0 <= k < |ds| ==> ds[k] >= 0.0
    ensures UpperMedian(ds) >= 0.0
  {
    var sorted := Sorting.SortedOf(ds);
    var m := sorted[|ds| / 2];
    assert m in multiset(sorted);
    assert m in multiset(ds);
    assert m in ds;
  }

  /** Sort a fresh copy of the input and read its element at index len/2. */
  method UpperMedianOf(a: array<real>) returns (m: real)
    requires a.Length > 0
    modifies a
    ensures m == UpperMedian(old(a[..]))
  {
    ghost var before := a[..];
    Sorting.SortReals(a);
    Sorting.SortedIsSortedOf(a[..], before);
    m := a[a.Length / 2];
  }

  /** `calculateMADThreshold`, on copies it sorts in place. */
  method CalculateMadThreshold(candidates: seq<Candidate>) returns (threshold: real)
    ensures threshold == MadThreshold(Magnitudes(candidates))
  {
    if |candidates| == 0 {
      return MinMagnitude;
    }
    var mags := MagnitudesOf(candidates);
    ghost var ms := mags[..];
    var sorted := CopyOf(mags);
    var median := UpperMedianOf(sorted);
    var deviations := AbsoluteDeviations(mags, median);
    var mad := UpperMedianOf(deviations);
    assert median == UpperMedian(ms) && mad == UpperMedian(Deviations(ms, median));

    threshold := median + MadMultiplier * mad;
    if threshold < MinMagnitude {
      threshold := MinMagnitude;
    }
  }

  method MagnitudesOf(candidates: seq<Candidate>) returns (mags: array<real>)
    ensures fresh(mags) && mags[..] == Magnitudes(candidates)
  {
    mags := new real[|candidates|];
    for i := 0 to |candidates|
      invariant forall k :: 0 <= k < i ==> mags[k] == candidates[k].magnitude
    {
      mags[i] := candidates[i].magnitude;
    }
  }

  method CopyOf(a: array<real>) returns (b: array<real>)
    ensures fresh(b) && b[..] == a[..]
  {
    b := new real[a.Length];
    forall k | 0 <= k < a.Length {
      b[k] := a[k];
    }
  }

  method AbsoluteDeviations(mags: array<real>, median: real) returns (deviations: array<real>)
    ensures fresh(deviations) && deviations[..] == Deviations(mags[..], median)
  {
    deviations := new real[mags.Length];
    for i := 0 to mags.Length
      invariant forall k :: 0 <= k < i ==> deviations[k] == Abs(mags[k] - median)
    {
      deviations[i] := Abs(mags[i] - median);
    }
  }

  /** A candidate clears the threshold and is strictly above each neighbour that exists. */
  predicate IsLocalMax(c: Candidate, mags: seq<real>, threshold: real)
    requires c.binIndex < |mags|
  {
    && c.magnitude >= threshold
    && (c.binIndex > 0 ==> mags[c.binIndex - 1] < c.magnitude)
    && (c.binIndex < |mags| - 1 ==> mags[c.binIndex + 1] < c.magnitude)
  }

  predicate BinsInRange(cs: seq<Candidate>, mags: seq<real>) {
    forall k :: 0 <= k < |cs| ==> cs[k].binIndex < |mags|
  }

  /** The candidates that are local maxima, in their original order. */
  function LocalMaxima(cs: seq<Candidate>, mags: seq<real>, threshold: real): (r: seq<Candidate>)
    requires BinsInRange(cs, mags)
    ensures |r| <= |cs|
    ensures forall k :: 0 <= k < |r| ==> r[k] in cs && IsLocalMax(r[k], mags, threshold)
    ensures forall c :: c in cs && IsLocalMax(c, mags, threshold) ==> c in r
  {
    if cs == [] then []
    else
      var last := cs[|cs| - 1];
      var r := LocalMaxima(cs[..|cs| - 1], mags, threshold);
      assert cs == cs[..|cs| - 1] + [last];
      if IsLocalMax(last, mags, threshold) then r + [last] else r
  }

  /** `findLocalMaxima`. */
  method FindLocalMaxima(candidates: seq<Candidate>, mags: seq<real>, threshold: real)
    returns (maxima: seq<Candidate>)
    requires BinsInRange(candidates, mags)
    ensures maxima == LocalMaxima(candidates, mags, threshold)
  {
    maxima := [];
    for i := 0 to |candidates|
      invariant maxima == LocalMaxima(candidates[..i], mags, threshold)
    {
      assert candidates[..i + 1][..i] == candidates[..i];
      var c := candidates[i];
      if c.magnitude < threshold {
        continue;
      }
      var isMaximum := true;
      var idx := c.binIndex;
      if idx > 0 && mags[idx - 1] >= c.magnitude {
        isMaximum := false;
      }
      if idx < |mags| - 1 && mags[idx + 1] >= c.magnitude {
        isMaximum := false;
      }
      if isMaximum {
        maxima := maxima + [c];
      }
    }
    assert candidates[..|candidates|] == candidates;
  }

  /** The local maxima of band b in a fragment with the given magnitudes. */
  function BandMaxima(mags: seq<real>, binSize: real, b: int): seq<Candidate>
  {
    var cs := BandCandidates(mags, binSize, b, Scanned(mags));
    if cs == [] then [] else LocalMaxima(cs, mags, MadThreshold(Magnitudes(cs)))
  }

  /** The local maxima of every band of a fragment, indexed by band. */
  function AllBandMaxima(mags: seq<real>, binSize: real): (ms: seq<seq<Candidate>>)
    ensures |ms| == |Bands|
  {
    seq(|Bands|, b requires 0 <= b < |Bands| => BandMaxima(mags, binSize, b))
  }

  /** The bands below n whose maxima are not empty, in increasing order. */
  function ActiveBands(ms: seq<seq<Candidate>>, n: nat): (bs: seq<nat>)
    requires n <= |ms|
    ensures forall k :: 0 <= k < |bs| ==> bs[k] < n && ms[bs[k]] != []
    ensures forall k, l :: 0 <= k < l < |bs| ==> bs[k] < bs[l]
    ensures forall b :: 0 <= b < n && ms[b] != [] ==> b in bs
  {
    if n == 0 then []
    else
      var prev := ActiveBands(ms, n - 1);
      if ms[n - 1] != [] then prev + [n - 1] else prev
  }

  /**
    The peak a band contributes: tagged with the band and the fragment's
    time, taken from one of the band's local maxima, and at least as strong
    as every other one of them.
   */
  ghost predicate BandPeak(maxima: seq<Candidate>, b: int, time: real, p: Peak) {
    && p.bandIndex == b
    && p.time == time
    && (exists c :: c in maxima && c.frequency == p.frequency && c.magnitude == p.magnitude)
    && (forall c :: c in maxima ==> c.magnitude <= p.magnitude)
  }

  /** The peaks of one fragment: one per band below n that has maxima, in band order. */
  ghost predicate FragmentPeaks(ms: seq<seq<Candidate>>, time: real, n: nat, out: seq<Peak>)
    requires n <= |ms|
  {
    var bs := ActiveBands(ms, n);
    |out| == |bs| && forall k :: 0 <= k < |out| ==> BandPeak(ms[bs[k]], bs[k], time, out[k])
  }

  /** What peak picking needs of one fragment: its bands' local maxima and its time. */
  datatype FragmentMaxima = FragmentMaxima(maxima: seq<seq<Candidate>>, time: real)

  function MaximaOf(fragments: seq<Audio.ProcessedFragment>, binSize: real): (fms: seq<FragmentMaxima>)
    ensures |fms| == |fragments|
  {
    seq(|fragments|, i requires 0 <= i < |fragments| =>
      FragmentMaxima(AllBandMaxima(fragments[i].magnitudes, binSize), fragments[i].timeOffset))
  }

  /** The fragments' peaks one after another, in fragment order. */
  ghost predicate PeaksFrom(fms: seq<FragmentMaxima>, out: seq<Peak>)
    decreases |fms|
  {
    if fms == [] then out == []
    else
      var ms := fms[0].maxima;
      var n := |ActiveBands(ms, |ms|)|;
      && |out| >= n
      && FragmentPeaks(ms, fms[0].time, |ms|, out[..n])
      && PeaksFrom(fms[1..], out[n..])
  }

  /** The whole output of peak picking over the given fragments. */
  ghost predicate PeaksFor(fragments: seq<Audio.ProcessedFragment>, binSize: real, out: seq<Peak>) {
    PeaksFrom(MaximaOf(fragments, binSize), out)
  }

  lemma {:induction false} PeaksFromAppend(fms: seq<FragmentMaxima>, out: seq<Peak>, fm: FragmentMaxima, more: seq<Peak>)
    requires PeaksFrom(fms, out)
    requires FragmentPeaks(fm.maxima, fm.time, |fm.maxima|, more)
    ensures PeaksFrom(fms + [fm], out + more)
    decreases |fms|
  {
    if fms == [] {
      assert [fm][1..] == [];
      assert (out + more)[..|more|] == more;
      assert (out + more)[|more|..] == [];
    } else {
      var n := |ActiveBands(fms[0].maxima, |fms[0].maxima|)|;
      PeaksFromAppend(fms[1..], out[n..], fm, more);
      assert (fms + [fm])[1..] == fms[1..] + [fm];
      assert (out + more)[..n] == out[..n];
      assert (out + more)[n..] == out[n..] + more;
    }
  }

  lemma ExtendPeaks(fms: seq<FragmentMaxima>, f: nat, out: seq<Peak>, more: seq<Peak>)
    requires f < |fms| && PeaksFrom(fms[..f], out)
    requires FragmentPeaks(fms[f].maxima, fms[f].time, |fms[f].maxima|, more)
    ensures PeaksFrom(fms[..f + 1], out + more)
  {
    PeaksFromAppend(fms[..f], out, fms[f], more);
    assert fms[..f] + [fms[f]] == fms[..f + 1];
  }

  /**
    Every peak has the index of a band with maxima and the time of some
    fragment, and no fragment yields more peaks than it has bands.
   */
  lemma {:induction false} PeaksFromBounds(fms: seq<FragmentMaxima>, out: seq<Peak>)
    requires PeaksFrom(fms, out)
    requires forall f :: 0 <= f < |fms| ==> |fms[f].maxima| == |Bands|
    ensures |out| <= |Bands| * |fms|
    ensures forall k :: 0 <= k < |out| ==>
      0 <= out[k].bandIndex < |Bands| &&
      exists f :: 0 <= f < |fms| && out[k].time == fms[f].time
    decreases |fms|
  {
    if fms != [] {
      var ms := fms[0].maxima;
      var bs := ActiveBands(ms, |ms|);
      var n := |bs|;
      StrictlyIncreasingBound(bs, |Bands|);
      PeaksFromBounds(fms[1..], out[n..]);
      forall k | 0 <= k < |out|
        ensures 0 <= out[k].bandIndex < |Bands|
        ensures exists f :: 0 <= f < |fms| && out[k].time == fms[f].time
      {
        if k < n {
          assert out[k] == out[..n][k];
          assert BandPeak(ms[bs[k]], bs[k], fms[0].time, out[k]);
        } else {
          assert out[k] == out[n..][k - n];
          var f :| 0 <= f < |fms[1..]| && out[n..][k - n].time == fms[1..][f].time;
          assert out[k].time == fms[f + 1].time;
        }
      }
    }
  }

  /**
    ExtractPeaks yields at most four peaks per fragment, each with a band
    index in 0..3 and the time offset of one of the fragments.
   */
  lemma PeaksForBounds(fragments: seq<Audio.ProcessedFragment>, binSize: real, out: seq<Peak>)
    requires PeaksFor(fragments, binSize, out)
    ensures |out| <= |Bands| * |fragments|
    ensures forall k :: 0 <= k < |out| ==>
      0 <= out[k].bandIndex < |Bands| &&
      exists f :: 0 <= f < |fragments| && out[k].time == fragments[f].timeOffset
  {
    var fms := MaximaOf(fragments, binSize);
    PeaksFromBounds(fms, out);
    forall k | 0 <= k < |out|
      ensures exists f :: 0 <= f < |fragments| && out[k].time == fragments[f].timeOffset
    {
      var f :| 0 <= f < |fms| && out[k].time == fms[f].time;
      assert out[k].time == fragments[f].timeOffset;
    }
  }

  /** A strictly increasing sequence of numbers below n has at most n elements. */
  lemma {:induction false} StrictlyIncreasingBound(bs: seq<nat>, n: nat)
    requires forall k :: 0 <= k < |bs| ==> bs[k] < n
    requires forall k, l :: 0 <= k < l < |bs| ==> bs[k] < bs[l]
    ensures |bs| <= n
    decreases |bs|
  {
    if bs != [] {
      var last := |bs| - 1;
      StrictlyIncreasingBound(bs[..last], bs[last]);
    }
  }

  /** The peak a band contributes: the strongest local maximum after sorting by magnitude. */
  method StrongestPeak(maxima: seq<Candidate>, time: real, b: int) returns (out: seq<Peak>)
    requires maxima != []
    ensures |out| == 1 && BandPeak(maxima, b, time, out[0])
  {
    var localMaxima := new Candidate[|maxima|](k requires 0 <= k < |maxima| => maxima[k]);
    assert localMaxima[..] == maxima;
    Sorting.SortBy(localMaxima, (c: Candidate) => -c.magnitude);
    assert localMaxima[0] in multiset(localMaxima[..]);
    assert localMaxima[0] in maxima;
    forall c | c in maxima
      ensures c.magnitude <= localMaxima[0].magnitude
    {
      assert c in multiset(localMaxima[..]);
      var k :| 0 <= k < localMaxima.Length && localMaxima[k] == c;
      assert k == 0 || -localMaxima[0].magnitude <= -localMaxima[k].magnitude;
    }
    var count := Min(localMaxima.Length, MaxPeaksPerBand);
    out := [];
    for i := 0 to count
      invariant |out| == i
      invariant forall k :: 0 <= k < i ==> out[k] == Peak(localMaxima[k].frequency, localMaxima[k].magnitude, time, b)
    {
      out := out + [Peak(localMaxima[i].frequency, localMaxima[i].magnitude, time, b)];
    }
  }

  /** The candidates of every band of one fragment, gathered in one pass over the scanned bins. */
  method GatherCandidates(mags: seq<real>, binSize: real) returns (bandCandidates: array<seq<Candidate>>)
    ensures fresh(bandCandidates) && bandCandidates.Length == |Bands|
    ensures forall b :: 0 <= b < |Bands| ==> bandCandidates[b] == BandCandidates(mags, binSize, b, Scanned(mags))
  {
    bandCandidates := new seq<Candidate>[|Bands|](_ => []);
    var i := 0;
    while i < |mags|
      invariant 0 <= i <= Scanned(mags)
      invariant forall b :: 0 <= b < |Bands| ==> bandCandidates[b] == BandCandidates(mags, binSize, b, i)
    {
      if i >= NyquistBins {
        break;
      }
      ScanBin(bandCandidates, mags, binSize, i);
      i := i + 1;
    }
    assert i == Scanned(mags);
  }

  /** One pass of the scan: bin i joins the candidates of the band its frequency falls in, if any. */
  method ScanBin(bandCandidates: array<seq<Candidate>>, mags: seq<real>, binSize: real, i: nat)
    requires i < |mags| && bandCandidates.Length == |Bands|
    requires forall b :: 0 <= b < |Bands| ==> bandCandidates[b] == BandCandidates(mags, binSize, b, i)
    modifies bandCandidates
    ensures forall b :: 0 <= b < |Bands| ==> bandCandidates[b] == BandCandidates(mags, binSize, b, i + 1)
  {
    var freq := BinFrequency(i, binSize);
    var bandIdx := GetBandIndex(freq);
    CandidatesStep(mags, binSize, i);
    if bandIdx != -1 {
      bandCandidates[bandIdx] := bandCandidates[bandIdx] + [Candidate(freq, mags[i], i)];
    }
  }

  /** Scanning bin i extends exactly the candidates of the band that holds its frequency. */
  lemma CandidatesStep(mags: seq<real>, binSize: real, i: nat)
    requires i < |mags|
    ensures forall b {:trigger BandCandidates(mags, binSize, b, i + 1)} ::
      BandCandidates(mags, binSize, b, i + 1) ==
        if b == BandIndexOf(BinFrequency(i, binSize))
        then BandCandidates(mags, binSize, b, i) + [Candidate(BinFrequency(i, binSize), mags[i], i)]
        else BandCandidates(mags, binSize, b, i)
  {
  }

  /** The maxima of band b, computed as the loop body of ExtractPeaks does. */
  method BandMaximaOf(candidates: seq<Candidate>, mags: seq<real>, binSize: real, ghost b: int)
    returns (localMaxima: seq<Candidate>)
    requires candidates == BandCandidates(mags, binSize, b, Scanned(mags))
    ensures localMaxima == BandMaxima(mags, binSize, b)
  {
    if |candidates| == 0 {
      return [];
    }
    var threshold := CalculateMadThreshold(candidates);
    localMaxima := FindLocalMaxima(candidates, mags, threshold);
  }

  /** The peaks of one fragment, band by band. */
  method FragmentPeaksOf(fragment: Audio.ProcessedFragment, binSize: real) returns (out: seq<Peak>)
    ensures FragmentPeaks(AllBandMaxima(fragment.magnitudes, binSize), fragment.timeOffset, |Bands|, out)
  {
    var mags := fragment.magnitudes;
    ghost var ms := AllBandMaxima(mags, binSize);
    var gathered := GatherCandidates(mags, binSize);
    var bandCandidates := gathered[..];
    out := [];
    for b := 0 to |Bands|
      invariant FragmentPeaks(ms, fragment.timeOffset, b, out)
    {
      var localMaxima := BandMaximaOf(bandCandidates[b], mags, binSize, b);
      assert localMaxima == ms[b];
      if |localMaxima| == 0 {
        FragmentPeaksStep(ms, fragment.timeOffset, b, out, []);
        assert out + [] == out;
        continue;
      }
      var strongest := StrongestPeak(localMaxima, fragment.timeOffset, b);
      FragmentPeaksStep(ms, fragment.timeOffset, b, out, strongest);
      out := out + strongest;
    }
  }

  /** Band b adds its peak, if it has maxima, after those of the bands below it. */
  lemma FragmentPeaksStep(ms: seq<seq<Candidate>>, time: real, b: nat, out: seq<Peak>, extra: seq<Peak>)
    requires b < |ms| && FragmentPeaks(ms, time, b, out)
    requires ms[b] == [] ==> extra == []
    requires ms[b] != [] ==> |extra| == 1 && BandPeak(ms[b], b, time, extra[0])
    ensures FragmentPeaks(ms, time, b + 1, out + extra)
  {
  }

  /**
    `ExtractPeaks`: for every fragment in order, at most one peak per band,
    bands in increasing order, each the strongest local maximum of its band
    and stamped with the fragment's time.
   */
  method ExtractPeaks(fragments: seq<Audio.ProcessedFragment>, sampleRate: int) returns (peaks: seq<Peak>)
    ensures PeaksFor(fragments, sampleRate as real / Audio.WindowSize as real, peaks)
  {
    var binSize := sampleRate as real / Audio.WindowSize as real;
    ghost var fms := MaximaOf(fragments, binSize);
    peaks := [];
    for f := 0 to |fragments|
      invariant PeaksFrom(fms[..f], peaks)
    {
      var more := FragmentPeaksOf(fragments[f], binSize);
      ExtendPeaks(fms, f, peaks, more);
      peaks := peaks + more;
    }
    assert fms[..|fms|] == fms;
  }
}
