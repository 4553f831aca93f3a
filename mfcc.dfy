/** The MFCC front end (mfcc/mfcc.go): the options with their defaults, the
    window, rate and step derived from them, and the coefficient source that
    reads one zero-padded window per call. Durations are integers of
    nanoseconds, as Go's time.Duration; the FFT, the mel banks' logarithm and
    the DCT that turn a window into coefficients are left out, so a call
    returns the window they would receive. */
module Mfcc {
  import opened MfccSource
  import MfccMel

  const Millisecond: int := 1_000_000
  const Second: int := 1_000_000_000

  const DefaultWindow: int := 20 * Millisecond
  const DefaultOverlap: int := 10 * Millisecond
  const DefaultFFTSize: int := 512
  const DefaultLowFreq: real := 300.0
  const DefaultHighFreq: real := 8000.0
  const DefaultMelCount: int := 26
  const DefaultKeepCount: int := 13

  /** Options (mfcc/mfcc.go:26-68); a nil *Options is the zero value. */
  datatype Options = Options(window: int, overlap: int, disableOverlap: bool, fftSize: int,
                             lowFreq: real, highFreq: real, melCount: int, keepCount: int)

  const ZeroOptions: Options := Options(0, 0, false, 0, 0.0, 0.0, 0, 0)

  /** What MFCC builds from the options (mfcc/mfcc.go:87-130): the FFT and
      window size, the rate the samples are resampled to, the overlap in
      samples and the framer's step, and the mel bank parameters. */
  datatype Settings = Settings(fftSize: int, newSampleRate: int, overlapSamples: int, step: int,
                               binCount: int, minFreq: real, maxFreq: real, keepCount: int)

  /** intOrDefault (mfcc/mfcc.go:172-178). */
  function IntOrDefault(val: int, def: int): (r: int)
    ensures val == 0 ==> r == def
    ensures val != 0 ==> r == val
  {
    if val == 0 then def else val
  }

  /** floatOrDefault (mfcc/mfcc.go:180-186). */
  function FloatOrDefault(val: real, def: real): (r: real)
    ensures val == 0.0 ==> r == def
    ensures val != 0.0 ==> r == val
  {
    if val == 0.0 then def else val
  }

  /** The default comes back exactly when the value is 0 or is the default
      itself; a defaulted value is a fixed point. */
  lemma IntDefaultIff(val: int, def: int)
    ensures IntOrDefault(val, def) == def <==> val == 0 || val == def
    ensures def != 0 ==> IntOrDefault(IntOrDefault(val, def), def) == IntOrDefault(val, def)
  {
  }

  lemma FloatDefaultIff(val: real, def: real)
    ensures FloatOrDefault(val, def) == def <==> val == 0.0 || val == def
    ensures def != 0.0 ==> FloatOrDefault(FloatOrDefault(val, def), def) == FloatOrDefault(val, def)
  {
  }

  /** The window duration: Window, or DefaultWindow for 0 (mfcc/mfcc.go:92-95). */
  function WindowTime(o: Options): (t: int)
    ensures t != 0
    ensures o.window != 0 ==> t == o.window
  {
    if o.window == 0 then DefaultWindow else o.window
  }

  /** The overlap duration (mfcc/mfcc.go:101-106): 0 when overlap is
      disabled, whatever Overlap says; otherwise Overlap, or DefaultOverlap
      for 0. */
  function OverlapTime(o: Options): (t: int)
    ensures o.disableOverlap ==> t == 0
    ensures !o.disableOverlap ==> t != 0 && (o.overlap != 0 ==> t == o.overlap)
  {
    if o.disableOverlap then 0
    else if o.overlap == 0 then DefaultOverlap
    else o.overlap
  }

  /** int(fftSize / windowSeconds + 0.5) (mfcc/mfcc.go:96-99). */
  function NewSampleRate(fftSize: int, windowTime: int): int
    requires windowTime != 0
  {
    MfccMel.Trunc(fftSize as real / (windowTime as real / Second as real) + 0.5)
  }

  /** int(overlapSeconds * newSampleRate + 0.5), clamped to fftSize - 1
      (mfcc/mfcc.go:107-111). */
  function OverlapSamples(overlapTime: int, newSampleRate: int, fftSize: int): (r: int)
    ensures r <= fftSize - 1
  {
    var samples := MfccMel.Trunc(overlapTime as real / Second as real * newSampleRate as real + 0.5);
    if samples >= fftSize then fftSize - 1 else samples
  }

  /** The settings MFCC derives from its options (mfcc/mfcc.go:87-130); the
      framer's step is fftSize - overlapSamples, never below 1. */
  function Derive(o: Options): (s: Settings)
    ensures s.fftSize == IntOrDefault(o.fftSize, DefaultFFTSize)
    ensures s.step == s.fftSize - s.overlapSamples && s.step >= 1
    ensures s.binCount == IntOrDefault(o.melCount, DefaultMelCount)
    ensures s.minFreq == FloatOrDefault(o.lowFreq, DefaultLowFreq)
    ensures s.maxFreq == FloatOrDefault(o.highFreq, DefaultHighFreq)
    ensures s.keepCount == IntOrDefault(o.keepCount, DefaultKeepCount)
  {
    var fftSize := IntOrDefault(o.fftSize, DefaultFFTSize);
    var newSampleRate := NewSampleRate(fftSize, WindowTime(o));
    var overlapSamples := OverlapSamples(OverlapTime(o), newSampleRate, fftSize);
    Settings(fftSize, newSampleRate, overlapSamples, fftSize - overlapSamples,
             IntOrDefault(o.melCount, DefaultMelCount),
             FloatOrDefault(o.lowFreq, DefaultLowFreq),
             FloatOrDefault(o.highFreq, DefaultHighFreq),
             IntOrDefault(o.keepCount, DefaultKeepCount))
  }

  /** Go's int(x + 0.5) is not negative for x >= 0. */
  lemma RoundNonNegative(x: real)
    requires x >= 0.0
    ensures MfccMel.Trunc(x + 0.5) >= 0
  {
  }

  lemma MulNonNegative(x: real, y: real)
    requires x >= 0.0 && y >= 0.0
    ensures x * y >= 0.0
  {
  }

  /** With no negative durations or sizes in the options, the resampled rate
      and the overlap are not negative, so the step lies in [1, fftSize]:
      windows overlap but never leave gaps. */
  lemma StepBounds(o: Options)
    requires o.window >= 0 && o.overlap >= 0 && o.fftSize >= 0
    ensures Derive(o).newSampleRate >= 0 && Derive(o).overlapSamples >= 0
    ensures 1 <= Derive(o).step <= Derive(o).fftSize
  {
    var fftSize := IntOrDefault(o.fftSize, DefaultFFTSize);
    var w := WindowTime(o) as real / Second as real;
    assert w > 0.0;
    assert fftSize as real / w >= 0.0;
    RoundNonNegative(fftSize as real / w);
    var rate := NewSampleRate(fftSize, WindowTime(o));
    var ov := OverlapTime(o) as real / Second as real;
    MulNonNegative(ov, rate as real);
    RoundNonNegative(ov * rate as real);
  }

  /** The step is at most fftSize exactly when the overlap in samples is not
      negative. */
  lemma StepAtMostSize(o: Options)
    ensures Derive(o).step <= Derive(o).fftSize <==> Derive(o).overlapSamples >= 0
  {
  }

  /** DisableOverlap makes adjacent windows disjoint, whatever Overlap says. */
  lemma DisabledOverlap(o: Options)
    requires o.disableOverlap && o.fftSize >= 0
    ensures Derive(o).overlapSamples == 0 && Derive(o).step == Derive(o).fftSize
  {
    assert OverlapTime(o) == 0;
    assert 0.0 / Second as real * NewSampleRate(IntOrDefault(o.fftSize, DefaultFFTSize), WindowTime(o)) as real == 0.0;
  }

  /** The zero options give 512-sample windows at 25600 samples per second,
      256 of them shared with the next window, and the default mel banks. */
  lemma DefaultSettings()
    ensures Derive(ZeroOptions) == Settings(512, 25600, 256, 256, 26, 300.0, 8000.0, 13)
  {
    assert 512.0 / (DefaultWindow as real / Second as real) + 0.5 == 25600.5;
    assert DefaultOverlap as real / Second as real * 25600.0 + 0.5 == 256.5;
  }

  /** coeffChan (mfcc/mfcc.go:132-139) reading its windows from a Framer;
      doneError records that the framer reported its error. */
  class CoeffChan {
    const windowedSource: Framer
    const windowSize: nat
    var doneError: bool

    ghost predicate Valid()
      reads this, windowedSource, windowedSource.src
    {
      windowedSource.Valid()
    }

    constructor (windowedSource: Framer, windowSize: nat)
      requires windowedSource.Valid()
      ensures Valid() && this.windowedSource == windowedSource && this.windowSize == windowSize && !doneError
    {
      this.windowedSource := windowedSource;
      this.windowSize := windowSize;
      doneError := false;
    }

    /** NextCoeffs (mfcc/mfcc.go:141-170) with the read loop filling the rest
        of the window, buf[have:]: the next windowSize samples of the framer,
        the tail zeroed when the framer ends early. An error comes with no
        window, and once reported it is reported on every later call. */
    method NextCoeffs() returns (window: seq<real>, err: bool)
      requires Valid()
      modifies this`doneError, windowedSource, windowedSource.src
      ensures Valid()
      ensures err ==> window == []
      ensures old(doneError) ==> err && doneError
      ensures !old(doneError) ==>
        var o := old(windowedSource.Out());
        var k := Min(windowSize, |o|);
        windowedSource.Out() == o[k..] &&
        (doneError <==> |o| < windowSize) &&
        (err <==> |o| == 0 && windowSize > 0) &&
        (!err ==> |window| == windowSize && window[..k] == o[..k] &&
                  forall j :: k <= j < windowSize ==> window[j] == 0.0)
    {
      if doneError {
        return [], true;
      }
      ghost var o := windowedSource.Out();
      var buf := new real[windowSize](_ => 0.0);
      var have := ReadWindow(buf);
      if have == 0 && doneError {
        return [], true;
      }
      ZeroTail(buf, have);
      window := buf[..];
      err := false;
    }

    /** The read loop of NextCoeffs (mfcc/mfcc.go:146-154), reading into
        buf[have:] until the window is full or the framer fails. */
    method ReadWindow(buf: array<real>) returns (have: nat)
      requires Valid() && !doneError && buf.Length == windowSize
      modifies this`doneError, windowedSource, windowedSource.src, buf
      ensures Valid()
      ensures var o := old(windowedSource.Out());
        have == Min(windowSize, |o|) && buf[..have] == o[..have] &&
        windowedSource.Out() == o[have..] && (doneError <==> |o| < windowSize)
    {
      ghost var o := windowedSource.Out();
      have := 0;
      while have < windowSize && !doneError
        invariant Valid() && have <= windowSize
        invariant have <= |o| && windowedSource.Out() == o[have..]
        invariant forall j :: 0 <= j < have ==> buf[j] == o[j]
        invariant doneError ==> have == |o| < windowSize
        decreases windowSize - have + (if doneError then 0 else 1)
      {
        var n := ReadPass(buf, have);
        assert o[have..][n..] == o[have + n..];
        have := have + n;
      }
      assert buf[..have] == o[..have];
    }

    /** One pass of the read loop (mfcc/mfcc.go:149-153): the framer fills
        buf[have:] as far as it can, and a failure is recorded. */
    method ReadPass(buf: array<real>, have: nat) returns (n: nat)
      requires Valid() && !doneError && buf.Length == windowSize && have < windowSize
      modifies this`doneError, windowedSource, windowedSource.src, buf
      ensures Valid()
      ensures var o := old(windowedSource.Out());
        n == Min(windowSize - have, |o|) && windowedSource.Out() == o[n..] &&
        (doneError <==> n < windowSize - have) &&
        (forall j :: 0 <= j < have ==> buf[j] == old(buf[j])) &&
        (forall j :: have <= j < have + n ==> buf[j] == o[j - have])
    {
      ghost var o := windowedSource.Out();
      var e;
      n, e := windowedSource.ReadSamples(buf, have, windowSize);
      forall j | have <= j < have + n
        ensures buf[j] == o[j - have]
      {
        assert buf[j] == buf[have..have + n][j - have];
      }
      if e {
        doneError := true;
      }
    }

    /** Zeroing the window after the samples read (mfcc/mfcc.go:161-163). */
    static method ZeroTail(buf: array<real>, from: nat)
      requires from <= buf.Length
      modifies buf
      ensures buf[..from] == old(buf[..from])
      ensures forall j :: from <= j < buf.Length ==> buf[j] == 0.0
    {
      var i := from;
      while i < buf.Length
        invariant from <= i <= buf.Length
        invariant buf[..from] == old(buf[..from])
        invariant forall j :: from <= j < i ==> buf[j] == 0.0
      {
        buf[i] := 0.0;
        i := i + 1;
      }
    }

    /** One pass of the read loop as mfcc/mfcc.go:149 writes it, reading
        into buf[:have]: on the first pass that slice is empty, the framer
        returns no sample and no error and consumes nothing, so have stays 0
        and the loop repeats for ever. */
    method ReadPassAsWritten(buf: array<real>, have: nat) returns (have': nat)
      requires Valid() && !doneError && have <= buf.Length
      modifies this`doneError, windowedSource, windowedSource.src, buf
      ensures Valid()
      ensures have == 0 && !old(windowedSource.doneError) ==>
        have' == 0 && !doneError && windowedSource.Out() == old(windowedSource.Out())
    {
      var n, e := windowedSource.ReadSamples(buf, 0, have);
      if e {
        doneError := true;
      }
      have' := have + n;
    }
  }
}
