/** Velocity coefficients (mfcc/velocity.go): a coefficient source whose
    every vector is followed by an estimate of its derivative in time. The
    wrapped CoeffSource is a list of vectors that ends with an error once
    exhausted; an error is a boolean here. */
module MfccVelocity {

  /** Every vector of cs has width w. */
  predicate Uniform(cs: seq<seq<real>>, w: nat) {
    forall k :: 0 <= k < |cs| ==> |cs[k]| == w
  }

  /** The derivative estimate from lo to hi: the difference, halved for a
      central difference over two steps. */
  function Diff(hi: seq<real>, lo: seq<real>, halve: bool): (r: seq<real>)
    requires |lo| <= |hi|
    ensures |r| == |lo|
  {
    seq(|lo|, i requires 0 <= i < |lo| => if halve then (hi[i] - lo[i]) / 2.0 else hi[i] - lo[i])
  }

  function Zeros(n: nat): (r: seq<real>)
    ensures |r| == n && forall i :: 0 <= i < n ==> r[i] == 0.0
  {
    seq(n, _ => 0.0)
  }

  /** Output i of the velocity source over cs: vector i followed by the
      forward difference at the first vector, the backward difference at
      the last, the central difference in between, and zeros when there is
      only one vector (mfcc/velocity.go:24-69). */
  function Augmented(cs: seq<seq<real>>, i: nat): seq<real>
    requires i < |cs| && Uniform(cs, |cs[0]|)
  {
    var n := |cs|;
    if n == 1 then cs[0] + Zeros(|cs[0]|)
    else if i == 0 then cs[0] + Diff(cs[1], cs[0], false)
    else if i == n - 1 then cs[i] + Diff(cs[i], cs[i - 1], false)
    else cs[i] + Diff(cs[i + 1], cs[i - 1], true)
  }

  /** The allocation and the loops that fill a result (mfcc/velocity.go:38-44,
      51-55, 59-63): a zeroed vector of twice the width of base, base copied
      into its first half and the differences from lo to hi after it. */
  method Assemble(base: seq<real>, hi: seq<real>, lo: seq<real>, halve: bool) returns (res: seq<real>)
    requires |lo| <= |base| && |lo| <= |hi|
    ensures res == base + Diff(hi, lo, halve) + Zeros(|base| - |lo|)
  {
    var w := |base|;
    var a := new real[2 * w](_ => 0.0);
    var i := 0;
    while i < w
      invariant 0 <= i <= w
      invariant forall k :: 0 <= k < i ==> a[k] == base[k]
      invariant forall k :: i <= k < 2 * w ==> a[k] == 0.0
    {
      a[i] := base[i];
      i := i + 1;
    }
    i := 0;
    while i < |lo|
      invariant 0 <= i <= |lo|
      invariant forall k :: 0 <= k < w ==> a[k] == base[k]
      invariant forall k :: w <= k < w + i ==> a[k] == if halve then (hi[k - w] - lo[k - w]) / 2.0 else hi[k - w] - lo[k - w]
      invariant forall k :: w + i <= k < 2 * w ==> a[k] == 0.0
    {
      a[w + i] := if halve then (hi[i] - lo[i]) / 2.0 else hi[i] - lo[i];
      i := i + 1;
    }
    res := a[..];
    assert res == base + Diff(hi, lo, halve) + Zeros(w - |lo|);
  }

  /** A CoeffSource that delivers the vectors of frames in order and then
      reports an error on every call. */
  class ListCoeffSource {
    const frames: seq<seq<real>>
    var idx: nat

    constructor (frames: seq<seq<real>>)
      ensures this.frames == frames && idx == 0
    {
      this.frames := frames;
      idx := 0;
    }

    method NextCoeffs() returns (c: seq<real>, err: bool)
      modifies this`idx
      ensures err <==> old(idx) >= |frames|
      ensures !err ==> c == frames[old(idx)] && idx == old(idx) + 1
      ensures err ==> c == [] && idx == old(idx)
    {
      if idx < |frames| {
        c := frames[idx];
        idx := idx + 1;
        err := false;
      } else {
        c := [];
        err := true;
      }
    }
  }

  /** velocitySource (mfcc/velocity.go:16-22); hasLast stands for a non-nil
      last, and emitted counts the vectors returned. */
  class VelocitySource {
    const wrapped: ListCoeffSource
    var last: seq<real>
    var lastLast: seq<real>
    var hasLast: bool
    var doneError: bool
    ghost var emitted: nat

    /** Before the first output nothing is read; after output k the
        source has delivered vectors 0 to k + 1 and last and lastLast hold
        the two latest; after the error every output is out. */
    ghost predicate Valid()
      reads this, wrapped
    {
      var cs := wrapped.frames;
      (|cs| > 0 ==> Uniform(cs, |cs[0]|)) &&
      (doneError ==> emitted == |cs|) &&
      (!doneError && !hasLast ==> emitted == 0 && wrapped.idx == 0) &&
      (!doneError && hasLast ==>
        1 <= emitted < |cs| && wrapped.idx == emitted + 1 &&
        last == cs[emitted] && lastLast == cs[emitted - 1])
    }

    /** AddVelocities (mfcc/velocity.go:10-14). */
    constructor (wrapped: ListCoeffSource)
      requires wrapped.idx == 0
      requires |wrapped.frames| > 0 ==> Uniform(wrapped.frames, |wrapped.frames[0]|)
      ensures Valid() && this.wrapped == wrapped && emitted == 0 && !doneError
    {
      this.wrapped := wrapped;
      last := [];
      lastLast := [];
      hasLast := false;
      doneError := false;
      emitted := 0;
    }

    /** NextCoeffs (mfcc/velocity.go:24-69): the next augmented vector; once
        the vectors are exhausted, an error on this and every later call. */
    method NextCoeffs() returns (r: seq<real>, err: bool)
      requires Valid()
      modifies this`last, this`lastLast, this`hasLast, this`doneError, this`emitted, wrapped`idx
      ensures Valid()
      ensures err <==> old(emitted) >= |wrapped.frames|
      ensures !err ==> r == Augmented(wrapped.frames, old(emitted)) && emitted == old(emitted) + 1
      ensures err ==> r == [] && doneError
    {
      var cs := wrapped.frames;
      if doneError {
        return [], true;
      }
      if !hasLast {
        var e;
        lastLast, e := wrapped.NextCoeffs();
        if e {
          doneError := true;
          return [], true;
        }
        last, e := wrapped.NextCoeffs();
        if e {
          doneError := true;
          r := Assemble(lastLast, [], [], false);
          emitted := 1;
          return r, false;
        }
        hasLast := true;
        r := Assemble(lastLast, last, lastLast, false);
        emitted := 1;
        return r, false;
      }
      var next, e := wrapped.NextCoeffs();
      if e {
        doneError := true;
        r := Assemble(last, last, lastLast, false);
        emitted := emitted + 1;
        return r, false;
      }
      r := Assemble(last, next, lastLast, true);
      lastLast := last;
      last := next;
      emitted := emitted + 1;
      return r, false;
    }
  }

  /** The first half of every output is the vector itself, the second half
      as wide. */
  lemma AugmentedShape(cs: seq<seq<real>>, i: nat)
    requires i < |cs| && Uniform(cs, |cs[0]|)
    ensures |Augmented(cs, i)| == 2 * |cs[i]| && Augmented(cs, i)[..|cs[i]|] == cs[i]
  {
  }

  /** Vectors that move by d per step have velocity d at every step, the
      ends included. */
  lemma LinearVelocity(cs: seq<seq<real>>, d: seq<real>, i: nat)
    requires |cs| >= 2 && i < |cs| && Uniform(cs, |d|)
    requires forall k :: 0 < k < |cs| ==> Diff(cs[k], cs[k - 1], false) == d
    ensures Augmented(cs, i)[|d|..] == d
  {
    var w := |d|;
    var v := Augmented(cs, i)[w..];
    if 0 < i < |cs| - 1 {
      var a := Diff(cs[i], cs[i - 1], false);
      var b := Diff(cs[i + 1], cs[i], false);
      forall j | 0 <= j < w
        ensures v[j] == d[j]
      {
        assert a[j] == d[j] && b[j] == d[j];
      }
    } else if i == 0 {
      assert Diff(cs[1], cs[0], false) == d;
    }
  }

  /** Vectors that do not change have velocity zero. */
  lemma ConstantVelocity(cs: seq<seq<real>>, i: nat)
    requires i < |cs| && forall k :: 0 <= k < |cs| ==> cs[k] == cs[0]
    ensures Augmented(cs, i) == cs[i] + Zeros(|cs[i]|)
  {
    var w := |cs[0]|;
    if |cs| >= 2 {
      forall k | 0 < k < |cs|
        ensures Diff(cs[k], cs[k - 1], false) == Zeros(w)
      {
      }
      LinearVelocity(cs, Zeros(w), i);
      assert Augmented(cs, i) == Augmented(cs, i)[..w] + Augmented(cs, i)[w..];
    }
  }
}
