/** Building the mel filter bank (mfcc/mel.go:26-84): frequencies are
    mapped to FFT bin indices, and binCount triangular bins are laid over
    points evenly spaced on the mel scale. The conversions between hertz and
    mels are parameters of the model. */
module MfccMelBinner {
  import opened MfccMel

  // ----- hertzToBin -----

  /** The frequency step between FFT bins. */
  function FreqScale(fftSize: int, sampleRate: int): real
    requires fftSize > 0
  {
    sampleRate as real / fftSize as real
  }

  /** The fractional bin of frequency h, capped at fftSize / 2. */
  function BinOf(h: real, fftSize: int, sampleRate: int): real
    requires fftSize > 0 && sampleRate > 0
  {
    var bin := h / FreqScale(fftSize, sampleRate);
    var cap := fftSize as real / 2.0;
    if bin < cap then bin else cap
  }

  /** hertzToBin (mfcc/mel.go:73-84): the floor or the ceiling of the
      capped bin, whichever has the frequency closer to h; a tie goes to
      the ceiling, and the floor is taken with Go's truncating int(). */
  function HertzToBin(h: real, fftSize: int, sampleRate: int): (r: int)
    requires fftSize > 0 && sampleRate > 0
    ensures var bin := BinOf(h, fftSize, sampleRate); r == Trunc(bin) || r == Ceil(bin)
  {
    Pick(h, BinOf(h, fftSize, sampleRate), FreqScale(fftSize, sampleRate))
  }

  /** The choice of hertzToBin between the floor and the ceiling of bin,
      by the distance of their frequencies to h (mfcc/mel.go:77-83). */
  function Pick(h: real, bin: real, freqScale: real): (r: int)
    ensures r == Trunc(bin) || r == Ceil(bin)
  {
    var floorFreq := bin.Floor as real * freqScale;
    var ceilFreq := Ceil(bin) as real * freqScale;
    if Abs(floorFreq - h) < Abs(ceilFreq - h) then Trunc(bin) else Ceil(bin)
  }

  /** Choosing the closer of floor and ceiling, the ceiling on a tie,
      rounds half up. */
  lemma RoundNearest(bin: real)
    requires bin >= 0.0
    ensures (if Abs(bin.Floor as real - bin) < Abs(Ceil(bin) as real - bin) then bin.Floor else Ceil(bin)) == (bin + 0.5).Floor
  {
    var f := bin.Floor;
    if bin == f as real {
      assert Ceil(bin) == f;
      assert (bin + 0.5).Floor == f;
    } else {
      assert Ceil(bin) == f + 1;
      var frac := bin - f as real;
      assert 0.0 < frac < 1.0;
      assert Abs(f as real - bin) == frac && Abs((f + 1) as real - bin) == 1.0 - frac;
      if frac < 0.5 {
        assert (bin + 0.5).Floor == f;
      } else {
        assert (bin + 0.5).Floor == f + 1;
      }
    }
  }

  lemma DivMulCancel(h: real, s: real)
    requires s > 0.0
    ensures (h / s) * s == h
  {
  }

  lemma CompareScaled(u: real, v: real, s: real)
    requires s > 0.0 && u >= 0.0 && v >= 0.0
    ensures u * s < v * s <==> u < v
  {
    if u < v {
      assert v * s - u * s == (v - u) * s;
    } else {
      assert u * s - v * s == (u - v) * s;
    }
  }

  lemma CapBelow(h: real, s: real, cap: real)
    requires s > 0.0 && h / s >= cap
    ensures h >= cap * s
  {
    DivMulCancel(h, s);
    assert h - cap * s == (h / s - cap) * s;
  }

  lemma ShiftMul(b: real, d: real, s: real)
    ensures (b + d) * s == b * s + d * s
  {
  }

  /** Below the cap the bin of h is h / scale itself, and the frequency
      comparison of the code is the comparison of distances in bins. */
  lemma {:induction false} RoundUncapped(h: real, fftSize: int, sampleRate: int)
    requires fftSize > 0 && sampleRate > 0 && h >= 0.0
    requires h / FreqScale(fftSize, sampleRate) < fftSize as real / 2.0
    ensures HertzToBin(h, fftSize, sampleRate) == (BinOf(h, fftSize, sampleRate) + 0.5).Floor
  {
    var s := FreqScale(fftSize, sampleRate);
    var bin := BinOf(h, fftSize, sampleRate);
    assert bin == h / s;
    DivMulCancel(h, s);
    PickByBins(h, bin, s);
    RoundNearest(bin);
  }

  /** When h is bin * s, Pick compares distances in bins. */
  lemma PickByBins(h: real, bin: real, s: real)
    requires s > 0.0 && bin * s == h && bin >= 0.0
    ensures Pick(h, bin, s) == if Abs(bin.Floor as real - bin) < Abs(Ceil(bin) as real - bin) then bin.Floor else Ceil(bin)
  {
    var f, c := bin.Floor, Ceil(bin);
    DistanceOrder(f, c, bin, s, h);
    if Abs(f as real * s - h) < Abs(c as real * s - h) {
      assert Pick(h, bin, s) == Trunc(bin) == f;
    } else {
      assert Pick(h, bin, s) == c;
    }
  }

  /** With h == bin * s, the frequencies of bins f and c compare in their
      distance to h as f and c compare in their distance to bin. */
  lemma DistanceOrder(f: int, c: int, bin: real, s: real, h: real)
    requires s > 0.0 && bin * s == h
    ensures Abs(f as real * s - h) < Abs(c as real * s - h) <==> Abs(f as real - bin) < Abs(c as real - bin)
  {
    assert f as real * s - h == (f as real - bin) * s;
    assert c as real * s - h == (c as real - bin) * s;
    AbsScaled(f as real - bin, c as real - bin, s);
  }

  /** Scaling by s > 0 keeps the order of magnitudes. */
  lemma AbsScaled(x: real, y: real, s: real)
    requires s > 0.0
    ensures Abs(x * s) < Abs(y * s) <==> Abs(x) < Abs(y)
  {
    AbsMul(x, s);
    AbsMul(y, s);
    CompareScaled(Abs(x), Abs(y), s);
  }

  lemma AbsMul(x: real, s: real)
    requires s > 0.0
    ensures Abs(x * s) == Abs(x) * s
  {
    if x < 0.0 {
      assert x * s == -((-x) * s);
    }
  }

  /** At the cap, fftSize / 2, the frequency of h is at or beyond the cap,
      so a half-way cap goes up. */
  lemma {:induction false} RoundCapped(h: real, fftSize: int, sampleRate: int)
    requires fftSize > 0 && sampleRate > 0 && h >= 0.0
    requires h / FreqScale(fftSize, sampleRate) >= fftSize as real / 2.0
    ensures HertzToBin(h, fftSize, sampleRate) == (BinOf(h, fftSize, sampleRate) + 0.5).Floor
  {
    var s := FreqScale(fftSize, sampleRate);
    var cap := fftSize as real / 2.0;
    assert BinOf(h, fftSize, sampleRate) == cap;
    CapBelow(h, s, cap);
    if fftSize % 2 == 1 {
      var f := (fftSize - 1) / 2;
      assert cap == f as real + 0.5;
      assert cap.Floor == f && Ceil(cap) == f + 1;
      ShiftMul(cap, -0.5, s);
      ShiftMul(cap, 0.5, s);
      assert f as real * s == cap * s - 0.5 * s;
      assert (f + 1) as real * s == cap * s + 0.5 * s;
    } else {
      assert cap == (fftSize / 2) as real;
      assert cap.Floor == fftSize / 2 && Ceil(cap) == fftSize / 2;
    }
  }

  /** For h >= 0, hertzToBin rounds the capped bin to the nearest integer,
      halves going up. */
  lemma RoundsHalfUp(h: real, fftSize: int, sampleRate: int)
    requires fftSize > 0 && sampleRate > 0 && h >= 0.0
    ensures HertzToBin(h, fftSize, sampleRate) == (BinOf(h, fftSize, sampleRate) + 0.5).Floor
  {
    if h / FreqScale(fftSize, sampleRate) < fftSize as real / 2.0 {
      RoundUncapped(h, fftSize, sampleRate);
    } else {
      RoundCapped(h, fftSize, sampleRate);
    }
  }

  /** Below the cap, the bin chosen for h >= 0 is a nearest integer to
      h / scale, and the larger one on a tie. */
  lemma NearestBin(h: real, fftSize: int, sampleRate: int, k: int)
    requires fftSize > 0 && sampleRate > 0 && h >= 0.0
    requires h / FreqScale(fftSize, sampleRate) <= fftSize as real / 2.0
    ensures var x := h / FreqScale(fftSize, sampleRate); var r := HertzToBin(h, fftSize, sampleRate);
      Abs(r as real - x) <= Abs(k as real - x) && (Abs(r as real - x) == Abs(k as real - x) ==> k <= r)
  {
    var x := h / FreqScale(fftSize, sampleRate);
    assert BinOf(h, fftSize, sampleRate) == x;
    RoundsHalfUp(h, fftSize, sampleRate);
    RoundIsNearest(x, k);
  }

  /** floor(x + 0.5) is a nearest integer to x, the larger one on a tie. */
  lemma RoundIsNearest(x: real, k: int)
    ensures var r := (x + 0.5).Floor;
      Abs(r as real - x) <= Abs(k as real - x) && (Abs(r as real - x) == Abs(k as real - x) ==> k <= r)
  {
    var r := (x + 0.5).Floor;
    assert x - 0.5 < r as real <= x + 0.5;
    if k < r {
      assert k as real <= r as real - 1.0;
    } else if k > r {
      assert k as real >= r as real + 1.0;
    }
  }

  /** For h >= 0 the bin lies in [0, ceil(fftSize / 2)]. */
  lemma BinRange(h: real, fftSize: int, sampleRate: int)
    requires fftSize > 0 && sampleRate > 0 && h >= 0.0
    ensures 0 <= HertzToBin(h, fftSize, sampleRate) <= (fftSize + 1) / 2
  {
    RoundsHalfUp(h, fftSize, sampleRate);
    var cap := fftSize as real / 2.0;
    assert cap + 0.5 == (fftSize + 1) as real / 2.0;
  }

  /** A negative frequency has a negative bin, which int() truncates up:
      the result is always the ceiling. */
  lemma NegativeHertz(h: real, fftSize: int, sampleRate: int)
    requires fftSize > 0 && sampleRate > 0 && h < 0.0
    ensures HertzToBin(h, fftSize, sampleRate) == Ceil(h / FreqScale(fftSize, sampleRate))
  {
    var s := FreqScale(fftSize, sampleRate);
    assert h / s < 0.0;
  }

  /** A higher frequency never gets a lower bin. */
  lemma HertzToBinMonotone(h1: real, h2: real, fftSize: int, sampleRate: int)
    requires fftSize > 0 && sampleRate > 0 && h1 <= h2
    ensures HertzToBin(h1, fftSize, sampleRate) <= HertzToBin(h2, fftSize, sampleRate)
  {
    var s := FreqScale(fftSize, sampleRate);
    DivMonotone(h1, h2, s);
    var b1, b2 := BinOf(h1, fftSize, sampleRate), BinOf(h2, fftSize, sampleRate);
    if h1 >= 0.0 {
      RoundsHalfUp(h1, fftSize, sampleRate);
      RoundsHalfUp(h2, fftSize, sampleRate);
    } else if h2 >= 0.0 {
      NegativeHertz(h1, fftSize, sampleRate);
      RoundsHalfUp(h2, fftSize, sampleRate);
      assert h1 / s < 0.0;
    } else {
      NegativeHertz(h1, fftSize, sampleRate);
      NegativeHertz(h2, fftSize, sampleRate);
    }
  }

  lemma DivMonotone(a: real, b: real, s: real)
    requires s > 0.0 && a <= b
    ensures a / s <= b / s
  {
    assert b / s - a / s == (b - a) / s;
  }

  // ----- newMelBinner -----

  /** Point i of the mel scale from minMels to maxMels in binCount + 1
      equal steps (mfcc/mel.go:33-38). */
  function MelPoint(minMels: real, maxMels: real, binCount: nat, i: nat): real {
    if i == 0 then minMels
    else if i == binCount + 1 then maxMels
    else minMels + i as real * (maxMels - minMels) / (binCount + 1) as real
  }

  lemma MulDiv(a: real, d: real, n: real)
    requires n > 0.0
    ensures a * d / n == a * (d / n)
  {
  }

  /** The mel points are evenly spaced: every step is (maxMels - minMels) /
      (binCount + 1). */
  lemma EvenSpacing(minMels: real, maxMels: real, binCount: nat, i: nat)
    requires i <= binCount
    ensures MelPoint(minMels, maxMels, binCount, i + 1) - MelPoint(minMels, maxMels, binCount, i) ==
      (maxMels - minMels) / (binCount + 1) as real
  {
    var n := (binCount + 1) as real;
    var d := maxMels - minMels;
    var q := d / n;
    MulDiv(i as real, d, n);
    MulDiv((i + 1) as real, d, n);
    ShiftMul(i as real, 1.0, q);
    if i == binCount {
      DivMulCancel(d, n);
      ShiftMul(binCount as real, 1.0, q);
      assert (binCount as real + 1.0) * q == n * q;
    }
  }

  /** The bin index of mel point k. */
  function Edge(fftSize: int, sampleRate: int, binCount: nat, minMels: real, maxMels: real,
                melToHz: real -> real, k: nat): int
    requires fftSize > 0 && sampleRate > 0
  {
    HertzToBin(melToHz(MelPoint(minMels, maxMels, binCount, k)), fftSize, sampleRate)
  }

  /** Bin i: the edges at mel points i, i + 1 and i + 2. */
  function BinAt(fftSize: int, sampleRate: int, binCount: nat, minMels: real, maxMels: real,
                 melToHz: real -> real, i: nat): MelBin
    requires fftSize > 0 && sampleRate > 0
  {
    MelBin(Edge(fftSize, sampleRate, binCount, minMels, maxMels, melToHz, i),
           Edge(fftSize, sampleRate, binCount, minMels, maxMels, melToHz, i + 1),
           Edge(fftSize, sampleRate, binCount, minMels, maxMels, melToHz, i + 2))
  }

  /** maxFreq capped at the Nyquist frequency (mfcc/mel.go:27-29). */
  function CapFreq(maxFreq: real, sampleRate: int): real {
    var hardMax := sampleRate as real / 2.0;
    if maxFreq > hardMax then hardMax else maxFreq
  }

  /** The mel points (mfcc/mel.go:33-38). */
  method MelPoints(minMels: real, maxMels: real, binCount: nat) returns (points: seq<real>)
    ensures |points| == binCount + 2
    ensures forall i :: 0 <= i < binCount + 2 ==> points[i] == MelPoint(minMels, maxMels, binCount, i)
  {
    var a := new real[binCount + 2];
    a[0] := minMels;
    var i := 1;
    while i <= binCount
      invariant 1 <= i <= binCount + 1
      invariant forall k :: 0 <= k < i ==> a[k] == MelPoint(minMels, maxMels, binCount, k)
    {
      a[i] := minMels + i as real * (maxMels - minMels) / (binCount + 1) as real;
      i := i + 1;
    }
    a[binCount + 1] := maxMels;
    points := a[..];
  }

  /** The bin index of every mel point (mfcc/mel.go:40-43). */
  method BinIndices(points: seq<real>, fftSize: int, sampleRate: int, melToHz: real -> real) returns (fftPoints: seq<int>)
    requires fftSize > 0 && sampleRate > 0
    ensures |fftPoints| == |points|
    ensures forall k :: 0 <= k < |points| ==> fftPoints[k] == HertzToBin(melToHz(points[k]), fftSize, sampleRate)
  {
    var a := new int[|points|];
    var i := 0;
    while i < |points|
      invariant 0 <= i <= |points|
      invariant forall k :: 0 <= k < i ==> a[k] == HertzToBin(melToHz(points[k]), fftSize, sampleRate)
    {
      a[i] := HertzToBin(melToHz(points[i]), fftSize, sampleRate);
      i := i + 1;
    }
    fftPoints := a[..];
  }

  /** Bin i spans bin indices i to i + 2 (mfcc/mel.go:45-52). */
  method MakeBins(fftPoints: seq<int>, binCount: nat) returns (bins: seq<MelBin>)
    requires |fftPoints| == binCount + 2
    ensures |bins| == binCount
    ensures forall k :: 0 <= k < binCount ==> bins[k] == MelBin(fftPoints[k], fftPoints[k + 1], fftPoints[k + 2])
  {
    var res := new MelBin[binCount](_ => MelBin(0, 0, 0));
    var i := 0;
    while i < binCount
      invariant 0 <= i <= binCount
      invariant forall k :: 0 <= k < i ==> res[k] == MelBin(fftPoints[k], fftPoints[k + 1], fftPoints[k + 2])
    {
      res[i] := MelBin(fftPoints[i], fftPoints[i + 1], fftPoints[i + 2]);
      i := i + 1;
    }
    bins := res[..];
  }

  /** newMelBinner (mfcc/mel.go:26-54): binCount bins over the bin indices
      of the mel points; adjacent bins share their edges. */
  method NewMelBinner(fftSize: int, sampleRate: int, binCount: nat, minFreq: real, maxFreq: real,
                      hzToMel: real -> real, melToHz: real -> real) returns (bins: seq<MelBin>)
    requires fftSize > 0 && sampleRate > 0
    ensures |bins| == binCount
    ensures forall i :: 0 <= i < binCount ==>
      bins[i] == BinAt(fftSize, sampleRate, binCount, hzToMel(minFreq), hzToMel(CapFreq(maxFreq, sampleRate)), melToHz, i)
    ensures forall i :: 0 <= i < binCount - 1 ==>
      bins[i].middleIdx == bins[i + 1].startIdx && bins[i].endIdx == bins[i + 1].middleIdx
  {
    var capped := CapFreq(maxFreq, sampleRate);
    var minMels, maxMels := hzToMel(minFreq), hzToMel(capped);
    var points := MelPoints(minMels, maxMels, binCount);
    var fftPoints := BinIndices(points, fftSize, sampleRate, melToHz);
    bins := MakeBins(fftPoints, binCount);
    forall i | 0 <= i < binCount + 2
      ensures fftPoints[i] == Edge(fftSize, sampleRate, binCount, minMels, maxMels, melToHz, i)
    {
      assert points[i] == MelPoint(minMels, maxMels, binCount, i);
    }
    forall i | 0 <= i < binCount
      ensures bins[i] == BinAt(fftSize, sampleRate, binCount, minMels, maxMels, melToHz, i)
    {
      assert bins[i] == MelBin(fftPoints[i], fftPoints[i + 1], fftPoints[i + 2]);
    }
  }

  /** With a non-decreasing mel-to-hertz conversion and minMels <= maxMels,
      the edges never go down, so every bin is ordered. */
  lemma EdgesOrdered(fftSize: int, sampleRate: int, binCount: nat, minMels: real, maxMels: real,
                     melToHz: real -> real, k: nat)
    requires fftSize > 0 && sampleRate > 0 && minMels <= maxMels && k <= binCount
    requires forall a, b :: a <= b ==> melToHz(a) <= melToHz(b)
    ensures Edge(fftSize, sampleRate, binCount, minMels, maxMels, melToHz, k) <=
      Edge(fftSize, sampleRate, binCount, minMels, maxMels, melToHz, k + 1)
  {
    EvenSpacing(minMels, maxMels, binCount, k);
    var n := (binCount + 1) as real;
    assert (maxMels - minMels) / n >= 0.0;
    var p1 := MelPoint(minMels, maxMels, binCount, k);
    var p2 := MelPoint(minMels, maxMels, binCount, k + 1);
    HertzToBinMonotone(melToHz(p1), melToHz(p2), fftSize, sampleRate);
  }

  /** With non-negative frequencies every bin reads inside a power spectrum
      of fftSize / 2 + 1 entries, the length an FFT of fftSize samples
      gives. */
  lemma EdgesReadable(fftSize: int, sampleRate: int, binCount: nat, minMels: real, maxMels: real,
                      melToHz: real -> real, k: nat)
    requires fftSize > 0 && sampleRate > 0 && k + 2 <= binCount + 1
    requires forall a :: melToHz(a) >= 0.0
    ensures Readable(BinAt(fftSize, sampleRate, binCount, minMels, maxMels, melToHz, k), fftSize / 2 + 1)
  {
    forall j | k <= j <= k + 2
      ensures 0 <= Edge(fftSize, sampleRate, binCount, minMels, maxMels, melToHz, j) <= fftSize / 2 + 1
    {
      BinRange(melToHz(MelPoint(minMels, maxMels, binCount, j)), fftSize, sampleRate);
    }
  }
}
