/**
  The framing stage of server/internal/audio/processor.go: `ProcessAudio`
  cuts the samples into overlapping windows, multiplies each by the Hamming
  window, and keeps the FFT of each window and its magnitudes. The window
  coefficients, the FFT and the complex absolute value come from libraries
  and are parameters here.
 */
module Audio {
  import opened Base

  const WindowSize: nat := 2048
  /** `int(WindowSize * (1 - Overlap))` with Overlap = 0.5: half a window. */
  const Step: nat := 1024
  const TargetSampleRate: int := 11200

  datatype Complex = Complex(re: real, im: real)

  datatype ProcessedFragment = ProcessedFragment(timeOffset: real, spectrum: seq<Complex>, magnitudes: seq<real>)

  /** How many full windows start at a multiple of Step. */
  function FragmentCount(n: nat): nat {
    if n < WindowSize then 0 else (n - WindowSize) / Step + 1
  }

  /** Window k covers samples k*Step .. k*Step + WindowSize - 1; every one fits, and the next would not. */
  lemma FragmentCountIsExact(n: nat)
    ensures forall k :: 0 <= k < FragmentCount(n) ==> k * Step + WindowSize <= n
    ensures FragmentCount(n) * Step + WindowSize > n
  {
  }

  /** The windowed chunk that starts at `start`: element j is samples[start + j] * win[j]. */
  function Windowed(samples: seq<real>, start: nat, win: seq<real>): (w: seq<real>)
    requires start + WindowSize <= |samples| && |win| == WindowSize
    ensures |w| == WindowSize
  {
    seq(WindowSize, j requires 0 <= j < WindowSize => samples[start + j] * win[j])
  }

  function Magnitudes(spectrum: seq<Complex>, abs: Complex -> real): (m: seq<real>)
    ensures |m| == |spectrum|
  {
    seq(|spectrum|, j requires 0 <= j < |spectrum| => abs(spectrum[j]))
  }

  /** Fragment k of the output. */
  function FragmentAt(samples: seq<real>, sampleRate: int, k: nat, win: seq<real>,
                      fft: seq<real> -> seq<Complex>, abs: Complex -> real): ProcessedFragment
    requires k * Step + WindowSize <= |samples| && |win| == WindowSize && sampleRate != 0
  {
    var spectrum := fft(Windowed(samples, k * Step, win));
    ProcessedFragment((k * Step) as real / sampleRate as real, spectrum, Magnitudes(spectrum, abs))
  }

  /**
    `ProcessAudio`: one fragment per full window, in order, each holding the
    spectrum of its windowed chunk and the element-wise magnitudes of that
    spectrum, stamped with its start time in seconds. The error is always nil.
   */
  method ProcessAudio(samples: seq<real>, sampleRate: int, win: seq<real>,
                      fft: seq<real> -> seq<Complex>, abs: Complex -> real)
    returns (fragments: seq<ProcessedFragment>, err: Option<string>)
    requires |win| == WindowSize && sampleRate != 0
    ensures err.None?
    ensures |fragments| == FragmentCount(|samples|)
    ensures forall k :: 0 <= k < |fragments| ==>
      k * Step + WindowSize <= |samples| &&
      fragments[k] == FragmentAt(samples, sampleRate, k, win, fft, abs)
  {
    fragments := [];
    var i := 0;
    while i <= |samples| - WindowSize
      invariant i == |fragments| * Step
      invariant |fragments| == 0 || (|fragments| - 1) * Step + WindowSize <= |samples|
      invariant forall k :: 0 <= k < |fragments| ==>
        k * Step + WindowSize <= |samples| &&
        fragments[k] == FragmentAt(samples, sampleRate, k, win, fft, abs)
      decreases |samples| - i
    {
      var windowedChunk := WindowAt(samples, i, win);
      var spectrum := fft(windowedChunk);
      var magnitudes := MagnitudesOf(spectrum, abs);
      ghost var k := |fragments|;
      assert ProcessedFragment(i as real / sampleRate as real, spectrum, magnitudes) == FragmentAt(samples, sampleRate, k, win, fft, abs);
      fragments := fragments + [ProcessedFragment(i as real / sampleRate as real, spectrum, magnitudes)];
      i := i + Step;
    }
    CountFromLastWindow(|samples|, |fragments|);
    err := None;
  }

  /** The inner loop that fills `windowedChunk`: the window starting at `start`, multiplied by the coefficients. */
  method WindowAt(samples: seq<real>, start: nat, win: seq<real>) returns (chunk: seq<real>)
    requires start + WindowSize <= |samples| && |win| == WindowSize
    ensures chunk == Windowed(samples, start, win)
  {
    var windowedChunk := new real[WindowSize];
    for j := 0 to WindowSize
      invariant forall m :: 0 <= m < j ==> windowedChunk[m] == samples[start + m] * win[m]
    {
      windowedChunk[j] := samples[start + j] * win[j];
    }
    chunk := windowedChunk[..];
    assert forall m :: 0 <= m < WindowSize ==> chunk[m] == Windowed(samples, start, win)[m];
  }

  /** The inner loop that fills `magnitudes`: the absolute value of each spectrum entry. */
  method MagnitudesOf(spectrum: seq<Complex>, abs: Complex -> real) returns (magnitudes: seq<real>)
    ensures magnitudes == Magnitudes(spectrum, abs)
  {
    var values := new real[|spectrum|];
    for j := 0 to |spectrum|
      invariant forall m :: 0 <= m < j ==> values[m] == abs(spectrum[m])
    {
      values[j] := abs(spectrum[j]);
    }
    magnitudes := values[..];
  }

  /** The loop stops exactly after FragmentCount(n) windows. */
  lemma CountFromLastWindow(n: nat, m: nat)
    requires m * Step > n - WindowSize
    requires m == 0 || (m - 1) * Step + WindowSize <= n
    ensures FragmentCount(n) == m
  {
    if m > 0 {
      var d := n - WindowSize;
      assert (m - 1) * Step <= d < m * Step;
      DivisionFromBounds(d, m - 1);
    }
  }

  lemma DivisionFromBounds(d: int, q: nat)
    requires q * Step <= d < (q + 1) * Step
    ensures d / Step == q
  {
  }

  /** With a positive sample rate, fragment start times strictly increase. */
  lemma TimeOffsetsIncrease(samples: seq<real>, sampleRate: int, win: seq<real>,
                            fft: seq<real> -> seq<Complex>, abs: Complex -> real, k: nat, l: nat)
    requires |win| == WindowSize && sampleRate > 0
    requires k < l && l * Step + WindowSize <= |samples|
    ensures FragmentAt(samples, sampleRate, k, win, fft, abs).timeOffset <
            FragmentAt(samples, sampleRate, l, win, fft, abs).timeOffset
  {
    var r := sampleRate as real;
    assert (k * Step) as real < (l * Step) as real;
    assert (k * Step) as real / r < (l * Step) as real / r;
  }
}
