/** Mel filter banks (mfcc/mel.go): triangular bins over a power spectrum,
    built from points evenly spaced on the mel scale. The conversions
    between hertz and mels are parameters of the model. */
module MfccMel {

  function Abs(x: real): real {
    if x < 0.0 then -x else x
  }

  /** math.Ceil on a real whose ceiling fits an int. */
  function Ceil(x: real): int {
    -((-x).Floor)
  }

  /** Go's int(x): truncation toward zero. */
  function Trunc(x: real): int {
    if x >= 0.0 then x.Floor else Ceil(x)
  }

  // ----- melBin -----

  /** A triangular bin: the weight rises from startIdx to 1 at middleIdx and
      falls to endIdx (mfcc/mel.go:5-9). */
  datatype MelBin = MelBin(startIdx: int, middleIdx: int, endIdx: int)

  /** The indices Apply reads lie inside a spectrum of n powers. */
  predicate Readable(b: MelBin, n: int) {
    (b.startIdx + 1 >= b.middleIdx || (b.startIdx + 1 >= 0 && b.middleIdx <= n)) &&
    (b.middleIdx >= b.endIdx || (b.middleIdx >= 0 && b.endIdx <= n))
  }

  /** The triangular weight of power i in the bin: (i - start) / (middle -
      start) strictly between start and middle, 1 - (i - middle) / (end -
      middle) from the middle up to end, and 0 elsewhere. */
  function Weight(b: MelBin, i: int): real {
    if b.startIdx < i < b.middleIdx then Rise(b, i)
    else if b.middleIdx <= i < b.endIdx then Fall(b, i)
    else 0.0
  }

  /** The weight the rising loop of Apply gives power i. */
  function Rise(b: MelBin, i: int): real {
    if b.middleIdx == b.startIdx then 0.0
    else (i - b.startIdx) as real / (b.middleIdx - b.startIdx) as real
  }

  /** The weight the falling loop of Apply gives power i. */
  function Fall(b: MelBin, i: int): real {
    if b.endIdx == b.middleIdx then 0.0
    else 1.0 - (i - b.middleIdx) as real / (b.endIdx - b.middleIdx) as real
  }

  function RiseOf(b: MelBin): int -> real {
    i => Rise(b, i)
  }

  function FallOf(b: MelBin): int -> real {
    i => Fall(b, i)
  }

  /** The powers at indices lo to hi - 1, weighted by w. */
  function Dot(w: int -> real, p: seq<real>, lo: int, hi: int): real
    requires hi <= lo || (0 <= lo && hi <= |p|)
    decreases hi - lo
  {
    if hi <= lo then 0.0 else Dot(w, p, lo, hi - 1) + w(hi - 1) * p[hi - 1]
  }

  /** The powers from lo to mid - 1 weighted by u, then those from mid to
      hi - 1 weighted by v. */
  function Split(u: int -> real, v: int -> real, p: seq<real>, lo: int, mid: int, hi: int): real
    requires mid <= lo || (0 <= lo && mid <= |p|)
    requires hi <= mid || (0 <= mid && hi <= |p|)
  {
    Dot(u, p, lo, mid) + Dot(v, p, mid, hi)
  }

  /** The response of the bin: the rising side, then the falling side. */
  function Response(b: MelBin, p: seq<real>): real
    requires Readable(b, |p|)
  {
    Split(RiseOf(b), FallOf(b), p, b.startIdx + 1, b.middleIdx, b.endIdx)
  }

  /** Over the indices each loop visits, its weight is the triangular one. */
  lemma LoopWeights(b: MelBin, i: int)
    ensures b.startIdx < i < b.middleIdx ==> Rise(b, i) == Weight(b, i)
    ensures b.middleIdx <= i < b.endIdx ==> Fall(b, i) == Weight(b, i)
  {
  }

  function WeightOf(b: MelBin): int -> real {
    i => Weight(b, i)
  }

  /** Weights that agree over the range give the same weighted sum. */
  lemma {:induction false} DotExt(u: int -> real, v: int -> real, p: seq<real>, lo: int, hi: int)
    requires hi <= lo || (0 <= lo && hi <= |p|)
    requires forall i :: lo <= i < hi ==> u(i) == v(i)
    ensures Dot(u, p, lo, hi) == Dot(v, p, lo, hi)
    decreases hi - lo
  {
    if hi > lo {
      DotExt(u, v, p, lo, hi - 1);
    }
  }

  /** A weighted sum splits at any index of its range. */
  lemma {:induction false} DotJoin(w: int -> real, p: seq<real>, lo: int, mid: int, hi: int)
    requires 0 <= lo <= mid <= hi <= |p|
    ensures Dot(w, p, lo, mid) + Dot(w, p, mid, hi) == Dot(w, p, lo, hi)
    decreases hi - mid
  {
    if hi > mid {
      DotJoin(w, p, lo, mid, hi - 1);
    }
  }

  /** For a bin whose indices are in order, the response is the sum of
      Weight(b, i) * p[i] over the powers strictly after startIdx and
      before endIdx. */
  lemma ResponseIsWeighted(b: MelBin, p: seq<real>)
    requires 0 <= b.startIdx + 1 && b.startIdx < b.middleIdx <= b.endIdx <= |p|
    ensures Readable(b, |p|)
    ensures Response(b, p) == Dot(WeightOf(b), p, b.startIdx + 1, b.endIdx)
  {
    forall i | b.startIdx + 1 <= i < b.middleIdx
      ensures RiseOf(b)(i) == WeightOf(b)(i)
    {
      LoopWeights(b, i);
    }
    forall i | b.middleIdx <= i < b.endIdx
      ensures FallOf(b)(i) == WeightOf(b)(i)
    {
      LoopWeights(b, i);
    }
    DotExt(RiseOf(b), WeightOf(b), p, b.startIdx + 1, b.middleIdx);
    DotExt(FallOf(b), WeightOf(b), p, b.middleIdx, b.endIdx);
    DotJoin(WeightOf(b), p, b.startIdx + 1, b.middleIdx, b.endIdx);
  }

  /** One more weighted power. */
  lemma DotStep(w: int -> real, p: seq<real>, lo: int, i: int)
    requires 0 <= lo <= i < |p|
    ensures Dot(w, p, lo, i + 1) == Dot(w, p, lo, i) + w(i) * p[i]
  {
  }

  /** melBin.Apply (mfcc/mel.go:11-22): the rising loop, then the falling
      loop, into one accumulator. */
  method Apply(b: MelBin, powers: seq<real>) returns (res: real)
    requires Readable(b, |powers|)
    ensures res == Response(b, powers)
  {
    res := AddRising(b, powers, 0.0);
    res := AddFalling(b, powers, res);
  }

  /** The first loop of melBin.Apply (mfcc/mel.go:13-16). */
  method AddRising(b: MelBin, powers: seq<real>, acc: real) returns (res: real)
    requires b.startIdx + 1 >= b.middleIdx || (b.startIdx + 1 >= 0 && b.middleIdx <= |powers|)
    ensures res == acc + Dot(RiseOf(b), powers, b.startIdx + 1, b.middleIdx)
  {
    res := acc;
    var i := b.startIdx + 1;
    while i < b.middleIdx
      invariant b.startIdx + 1 <= i && (i <= b.middleIdx || i == b.startIdx + 1)
      invariant res == acc + Dot(RiseOf(b), powers, b.startIdx + 1, i)
    {
      var dist := (i - b.startIdx) as real / (b.middleIdx - b.startIdx) as real;
      assert dist == RiseOf(b)(i);
      DotStep(RiseOf(b), powers, b.startIdx + 1, i);
      res := res + dist * powers[i];
      i := i + 1;
    }
  }

  /** The second loop of melBin.Apply (mfcc/mel.go:17-20). */
  method AddFalling(b: MelBin, powers: seq<real>, acc: real) returns (res: real)
    requires b.middleIdx >= b.endIdx || (b.middleIdx >= 0 && b.endIdx <= |powers|)
    ensures res == acc + Dot(FallOf(b), powers, b.middleIdx, b.endIdx)
  {
    res := acc;
    var i := b.middleIdx;
    while i < b.endIdx
      invariant b.middleIdx <= i && (i <= b.endIdx || i == b.middleIdx)
      invariant res == acc + Dot(FallOf(b), powers, b.middleIdx, i)
    {
      var dist := (i - b.middleIdx) as real / (b.endIdx - b.middleIdx) as real;
      assert 1.0 - dist == FallOf(b)(i);
      DotStep(FallOf(b), powers, b.middleIdx, i);
      res := res + (1.0 - dist) * powers[i];
      i := i + 1;
    }
  }

  /** melBinner.Apply (mfcc/mel.go:56-63) over a power spectrum given
      directly: the response of every bin. */
  method ApplyAll(bins: seq<MelBin>, powers: seq<real>) returns (res: seq<real>)
    requires forall k :: 0 <= k < |bins| ==> Readable(bins[k], |powers|)
    ensures |res| == |bins| && forall k :: 0 <= k < |bins| ==> res[k] == Response(bins[k], powers)
  {
    var a := new real[|bins|];
    var i := 0;
    while i < |bins|
      invariant 0 <= i <= |bins|
      invariant forall k :: 0 <= k < i ==> a[k] == Response(bins[k], powers)
    {
      a[i] := Apply(bins[i], powers);
      i := i + 1;
    }
    res := a[..];
  }

  /** The weights: rising strictly inside (0, 1) before the middle, exactly 1
      at the middle, falling inside (0, 1] after it, and 0 outside. */
  lemma WeightShape(b: MelBin, i: int)
    requires b.startIdx < b.middleIdx < b.endIdx
    ensures i == b.middleIdx ==> Weight(b, i) == 1.0
    ensures b.startIdx < i < b.middleIdx ==> 0.0 < Weight(b, i) < 1.0
    ensures b.middleIdx <= i < b.endIdx ==> 0.0 < Weight(b, i) <= 1.0
    ensures (i <= b.startIdx || i >= b.endIdx) ==> Weight(b, i) == 0.0
  {
    var s, m, e := b.startIdx, b.middleIdx, b.endIdx;
    if s < i < m {
      FractionBelowOne(i - s, m - s);
    } else if m <= i < e {
      FractionBelowOne(i - m, e - m);
    }
  }

  lemma FractionBelowOne(a: int, d: int)
    requires 0 <= a < d
    ensures 0.0 <= a as real / d as real < 1.0
    ensures a > 0 ==> 0.0 < a as real / d as real
  {
  }

  /** Every weight lies in [0, 1]. */
  lemma WeightBounded(b: MelBin, i: int)
    ensures 0.0 <= Weight(b, i) <= 1.0
  {
    var s, m, e := b.startIdx, b.middleIdx, b.endIdx;
    if s < i < m {
      FractionBelowOne(i - s, m - s);
    } else if m <= i < e {
      FractionBelowOne(i - m, e - m);
    }
  }

  /** Pointwise sum and scaling of power spectra. */
  function Add(p: seq<real>, q: seq<real>): (r: seq<real>)
    requires |p| == |q|
    ensures |r| == |p| && forall i :: 0 <= i < |p| ==> r[i] == p[i] + q[i]
  {
    seq(|p|, i requires 0 <= i < |p| => p[i] + q[i])
  }

  function Scale(c: real, p: seq<real>): (r: seq<real>)
    ensures |r| == |p| && forall i :: 0 <= i < |p| ==> r[i] == c * p[i]
  {
    seq(|p|, i requires 0 <= i < |p| => c * p[i])
  }

  lemma {:induction false} DotAdd(w: int -> real, p: seq<real>, q: seq<real>, lo: int, hi: int)
    requires |p| == |q| && (hi <= lo || (0 <= lo && hi <= |p|))
    ensures Dot(w, Add(p, q), lo, hi) == Dot(w, p, lo, hi) + Dot(w, q, lo, hi)
    decreases hi - lo
  {
    if hi > lo {
      DotAdd(w, p, q, lo, hi - 1);
      MulAdd(w(hi - 1), p[hi - 1], q[hi - 1]);
    }
  }

  lemma MulAdd(w: real, x: real, y: real)
    ensures w * (x + y) == w * x + w * y
  {
  }

  lemma {:induction false} DotScale(w: int -> real, c: real, p: seq<real>, lo: int, hi: int)
    requires hi <= lo || (0 <= lo && hi <= |p|)
    ensures Dot(w, Scale(c, p), lo, hi) == c * Dot(w, p, lo, hi)
    decreases hi - lo
  {
    if hi > lo {
      DotScale(w, c, p, lo, hi - 1);
      MulScale(w(hi - 1), c, p[hi - 1], Dot(w, p, lo, hi - 1));
    }
  }

  lemma MulScale(w: real, c: real, x: real, s: real)
    ensures c * s + w * (c * x) == c * (s + w * x)
  {
  }

  /** A bin's response is additive in the powers. */
  lemma ResponseAdditive(b: MelBin, p: seq<real>, q: seq<real>)
    requires |p| == |q| && Readable(b, |p|)
    ensures Response(b, Add(p, q)) == Response(b, p) + Response(b, q)
  {
    DotAdd(RiseOf(b), p, q, b.startIdx + 1, b.middleIdx);
    DotAdd(FallOf(b), p, q, b.middleIdx, b.endIdx);
  }

  /** Scaling the powers scales both sides of the split sum over the
      indices of b, whatever the weights. */
  lemma SplitScale(b: MelBin, u: int -> real, v: int -> real, c: real, p: seq<real>)
    requires Readable(b, |p|)
    ensures Split(u, v, Scale(c, p), b.startIdx + 1, b.middleIdx, b.endIdx) ==
      c * Split(u, v, p, b.startIdx + 1, b.middleIdx, b.endIdx)
  {
    var lo, mid, hi := b.startIdx + 1, b.middleIdx, b.endIdx;
    DotScale(u, c, p, lo, mid);
    DotScale(v, c, p, mid, hi);
    MulAdd(c, Dot(u, p, lo, mid), Dot(v, p, mid, hi));
  }

  /** A bin's response scales with the powers. */
  lemma ResponseHomogeneous(b: MelBin, p: seq<real>, c: real)
    requires Readable(b, |p|)
    ensures Response(b, Scale(c, p)) == c * Response(b, p)
  {
    SplitScale(b, RiseOf(b), FallOf(b), c, p);
  }

  lemma {:induction false} DotNonNegative(w: int -> real, p: seq<real>, lo: int, hi: int)
    requires hi <= lo || (0 <= lo && hi <= |p|)
    requires forall i :: 0 <= i < |p| ==> p[i] >= 0.0
    requires forall i :: lo <= i < hi ==> w(i) >= 0.0
    ensures Dot(w, p, lo, hi) >= 0.0
    decreases hi - lo
  {
    if hi > lo {
      DotNonNegative(w, p, lo, hi - 1);
      MulNonNegative(w(hi - 1), p[hi - 1]);
    }
  }

  lemma MulNonNegative(x: real, y: real)
    requires x >= 0.0 && y >= 0.0
    ensures x * y >= 0.0
  {
  }

  /** Non-negative powers give a non-negative response. */
  lemma ResponseNonNegative(b: MelBin, p: seq<real>)
    requires Readable(b, |p|) && forall i :: 0 <= i < |p| ==> p[i] >= 0.0
    ensures Response(b, p) >= 0.0
  {
    forall i | b.startIdx + 1 <= i < b.middleIdx
      ensures RiseOf(b)(i) >= 0.0
    {
      WeightBounded(b, i);
    }
    forall i | b.middleIdx <= i < b.endIdx
      ensures FallOf(b)(i) >= 0.0
    {
      WeightBounded(b, i);
    }
    DotNonNegative(RiseOf(b), p, b.startIdx + 1, b.middleIdx);
    DotNonNegative(FallOf(b), p, b.middleIdx, b.endIdx);
  }

  lemma {:induction false} DotLocal(w: int -> real, p: seq<real>, q: seq<real>, lo: int, hi: int)
    requires hi <= lo || (0 <= lo && hi <= |p| && hi <= |q|)
    requires forall i :: lo <= i < hi && 0 <= i < |p| && i < |q| ==> p[i] == q[i]
    ensures Dot(w, p, lo, hi) == Dot(w, q, lo, hi)
    decreases hi - lo
  {
    if hi > lo {
      DotLocal(w, p, q, lo, hi - 1);
    }
  }

  /** For a bin with startIdx < middleIdx <= endIdx only the powers strictly
      between startIdx and endIdx matter. (When startIdx == middleIdx, the
      falling side also reads the power at startIdx, with weight 1.) */
  lemma ResponseReadsOnlyInside(b: MelBin, p: seq<real>, q: seq<real>)
    requires b.startIdx < b.middleIdx <= b.endIdx && Readable(b, |p|) && Readable(b, |q|)
    requires forall i :: b.startIdx < i < b.endIdx && 0 <= i < |p| && i < |q| ==> p[i] == q[i]
    ensures Response(b, p) == Response(b, q)
  {
    DotLocal(RiseOf(b), p, q, b.startIdx + 1, b.middleIdx);
    DotLocal(FallOf(b), p, q, b.middleIdx, b.endIdx);
  }

  /** Powers 1 to 7 through the bin (1, 3, 6) (mfcc/mel_test.go:8-16). */
  lemma ApplyExample()
    ensures Response(MelBin(1, 3, 6), [1.0, 2.0, 3.0, 4.0, 5.0, 6.0, 7.0]) ==
      3.0 * 0.5 + 4.0 + 5.0 * 2.0 / 3.0 + 6.0 * 1.0 / 3.0
  {
    var b := MelBin(1, 3, 6);
    var p := [1.0, 2.0, 3.0, 4.0, 5.0, 6.0, 7.0];
    assert Rise(b, 2) == 0.5 && Fall(b, 3) == 1.0;
    assert Fall(b, 4) == 2.0 / 3.0 && Fall(b, 5) == 1.0 / 3.0;
    assert Dot(RiseOf(b), p, 2, 3) == 1.5;
    assert Dot(FallOf(b), p, 3, 6) == 4.0 + 5.0 * 2.0 / 3.0 + 6.0 * 1.0 / 3.0;
  }
}
