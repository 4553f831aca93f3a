/** The sample sources of the MFCC pipeline (mfcc/source.go): a Framer that
    cuts a stream into overlapping windows, and a RateChanger that resamples
    it by linear interpolation. Samples are reals. The Source they wrap is
    the sliceSource of the package's tests, whose only error is the end of
    the stream, so an error is a boolean here. */
module MfccSource {

  function Min(a: int, b: int): int {
    if a <= b then a else b
  }

  /** The first g samples of x followed by the next n are the first g + n,
      and what is left after them is x[g + n..]. */
  lemma ReadOn(x: seq<real>, g: nat, n: nat)
    requires g + n <= |x|
    ensures x[..g] + x[g..][..n] == x[..g + n] && x[g..][n..] == x[g + n..]
  {
    assert x[..g] + x[g..][..n] == x[..g + n];
  }

  /** sliceSource (mfcc/source_test.go:9-25): a vector read from idx on, at
      most buffSize samples per call; a call that copies nothing reports the
      end of the stream. */
  class SliceSource {
    var vec: seq<real>
    var idx: nat
    const buffSize: nat

    predicate Valid()
      reads this
    {
      idx <= |vec|
    }

    /** The samples the source still delivers. */
    function Avail(): seq<real>
      reads this
      requires Valid()
    {
      if buffSize == 0 then [] else vec[idx..]
    }

    constructor (vec: seq<real>, buffSize: nat)
      ensures Valid() && this.vec == vec && idx == 0 && this.buffSize == buffSize
      ensures Avail() == if buffSize == 0 then [] else vec
    {
      this.vec := vec;
      this.idx := 0;
      this.buffSize := buffSize;
    }

    /** ReadSamples into a slice of length len: the copied samples. */
    method ReadSamples(len: nat) returns (got: seq<real>, eof: bool)
      requires Valid()
      modifies this
      ensures Valid() && vec == old(vec)
      ensures got == old(Avail())[..Min(Min(len, buffSize), |old(Avail())|)]
      ensures Avail() == old(Avail())[|got|..]
      ensures eof <==> |got| == 0
    {
      var want := if len > buffSize then buffSize else len;
      var n := Min(want, |vec| - idx);
      got := vec[idx..idx + n];
      eof := n == 0;
      idx := idx + n;
    }
  }

  // ----- Framer -----

  /** The stream a Framer delivers from x when a window starts at x[0]
      (mfcc/source.go:13-24): the window x[..size], then the windows from
      x[step..] on; a window cut short by the end of x is the last one. */
  function Framed(x: seq<real>, size: nat, step: nat): (r: seq<real>)
    requires 1 <= step <= size
    ensures |r| >= |x|
    ensures r[..Min(size, |x|)] == x[..Min(size, |x|)]
    decreases |x|
  {
    if |x| < size then x else x[..size] + Framed(x[step..], size, step)
  }

  /** With Step == Size the windows do not overlap, and the samples pass
      through unchanged (mfcc/source_test.go:43-55). */
  lemma {:induction false} FramedPassThrough(x: seq<real>, size: nat)
    requires size >= 1
    ensures Framed(x, size, size) == x
    decreases |x|
  {
    if |x| >= size {
      FramedPassThrough(x[size..], size);
      assert x[..size] + x[size..] == x;
    }
  }

  /** The windows of size 3 and step 2 of a 7-sample stream
      (mfcc/source_test.go:28-41). */
  lemma FramedExample()
    ensures Framed([1.0, -1.0, 0.5, 0.3, 0.2, 1.0, 0.5], 3, 2) ==
      [1.0, -1.0, 0.5, 0.5, 0.3, 0.2, 0.2, 1.0, 0.5, 0.5]
  {
    var x := [1.0, -1.0, 0.5, 0.3, 0.2, 1.0, 0.5];
    assert x[2..][2..] == x[4..] && x[4..][2..] == x[6..];
    assert Framed(x[6..], 3, 2) == [0.5];
    assert Framed(x[4..], 3, 2) == [0.2, 1.0, 0.5] + [0.5];
    assert Framed(x[2..], 3, 2) == [0.5, 0.3, 0.2] + [0.2, 1.0, 0.5, 0.5];
  }

  /** A framed stream starts with its first window. */
  lemma FramedAt(y: seq<real>, size: nat, step: nat, k: nat)
    requires 1 <= step <= size && k < Min(size, |y|)
    ensures Framed(y, size, step)[k] == y[k]
  {
    assert Framed(y, size, step)[..Min(size, |y|)][k] == y[..Min(size, |y|)][k];
  }

  /** After the last sample of a complete window the next window starts. */
  lemma FramedWindowEnd(y: seq<real>, size: nat, step: nat)
    requires 1 <= step <= size <= |y|
    ensures Framed(y, size, step)[size - 1..] == [y[size - 1]] + Framed(y[step..], size, step)
  {
    var f := Framed(y, size, step);
    assert f == y[..size] + Framed(y[step..], size, step);
    assert f[size - 1..] == y[..size][size - 1..] + Framed(y[step..], size, step);
  }

  /** What the Framer keeps between samples: window is the part of the
      current window delivered so far, cur the samples still to replay, and
      next the samples of the window at positions >= step. */
  predicate FramerInv(window: seq<real>, cur: seq<real>, next: seq<real>, size: nat, step: nat) {
    1 <= step <= size && |window| < size &&
    next == window[Min(step, |window|)..] &&
    (|cur| == 0 || |window| + |cur| < size)
  }

  /** The samples still to come from such a state, with avail the samples
      left in the source. */
  function FramerStream(window: seq<real>, cur: seq<real>, next: seq<real>, avail: seq<real>, size: nat, step: nat): seq<real>
    requires FramerInv(window, cur, next, size, step)
  {
    Framed(window + cur + avail, size, step)[|window|..]
  }

  /** The next cache after a sample at position |window| of the window. */
  function Collect(window: seq<real>, next: seq<real>, x: real, step: nat): seq<real> {
    if |window| >= step then next + [x] else next
  }

  /** Replaying a cached sample: it comes next, and the state stays within
      the window (mfcc/source.go:59-61, 75-78). */
  lemma Replay(window: seq<real>, cur: seq<real>, next: seq<real>, avail: seq<real>, size: nat, step: nat)
    requires FramerInv(window, cur, next, size, step) && |cur| > 0
    ensures |window| + 1 < size
    ensures FramerInv(window + [cur[0]], cur[1..], Collect(window, next, cur[0], step), size, step)
    ensures FramerStream(window, cur, next, avail, size, step) ==
      [cur[0]] + FramerStream(window + [cur[0]], cur[1..], Collect(window, next, cur[0], step), avail, size, step)
  {
    var y := window + cur + avail;
    assert y == (window + [cur[0]]) + cur[1..] + avail;
    FramedAt(y, size, step, |window|);
    var w' := window + [cur[0]];
    if |window| >= step {
      assert w'[step..] == window[step..] + [cur[0]];
    }
  }

  /** Reading a sample from the source inside a window: it comes next
      (mfcc/source.go:62-81). */
  lemma FetchMid(window: seq<real>, next: seq<real>, avail: seq<real>, size: nat, step: nat)
    requires FramerInv(window, [], next, size, step) && |avail| > 0 && |window| + 1 < size
    ensures FramerInv(window + [avail[0]], [], Collect(window, next, avail[0], step), size, step)
    ensures FramerStream(window, [], next, avail, size, step) ==
      [avail[0]] + FramerStream(window + [avail[0]], [], Collect(window, next, avail[0], step), avail[1..], size, step)
  {
    var w' := window + [avail[0]];
    var y := window + avail;
    assert window + [] + avail == y;
    assert w' + [] + avail[1..] == y;
    FramedAt(y, size, step, |window|);
    if |window| >= step {
      assert w'[step..] == window[step..] + [avail[0]];
    }
  }

  /** Reading the sample that completes a window: it comes next, and the
      next window starts by replaying the samples at positions >= step
      (mfcc/source.go:62-83). */
  lemma FetchEnd(window: seq<real>, next: seq<real>, avail: seq<real>, size: nat, step: nat)
    requires FramerInv(window, [], next, size, step) && |avail| > 0 && |window| + 1 == size
    ensures FramerInv([], Collect(window, next, avail[0], step), [], size, step)
    ensures FramerStream(window, [], next, avail, size, step) ==
      [avail[0]] + FramerStream([], Collect(window, next, avail[0], step), [], avail[1..], size, step)
  {
    var w' := window + [avail[0]];
    var n' := Collect(window, next, avail[0], step);
    var y := window + avail;
    assert window + [] + avail == y;
    assert y[..size] == w';
    if |window| >= step {
      assert w'[step..] == window[step..] + [avail[0]];
    }
    assert n' == w'[step..];
    FramedWindowEnd(y, size, step);
    assert [] + n' + avail[1..] == y[step..];
  }

  /** With nothing cached and nothing left in the source, the stream is
      over: the window so far was the last, partial one. */
  lemma Exhausted(window: seq<real>, next: seq<real>, size: nat, step: nat)
    requires FramerInv(window, [], next, size, step)
    ensures FramerStream(window, [], next, [], size, step) == []
  {
    assert window + [] + [] == window;
  }

  /** Framer (mfcc/source.go:25-35); window is the part of the current
      window delivered so far. */
  class Framer {
    const src: SliceSource
    const size: nat
    const step: nat
    var doneError: bool
    var curCache: seq<real>
    var nextCache: seq<real>
    var outWindowProgress: nat
    ghost var window: seq<real>

    ghost predicate Valid()
      reads this, src
    {
      src.Valid() && outWindowProgress == |window| && FramerInv(window, curCache, nextCache, size, step)
    }

    /** The samples still to be delivered, errors aside. */
    ghost function Stream(): seq<real>
      reads this, src
      requires Valid()
    {
      FramerStream(window, curCache, nextCache, src.Avail(), size, step)
    }

    /** The samples still to be delivered: none after an error. */
    ghost function Out(): seq<real>
      reads this, src
      requires Valid()
    {
      if doneError then [] else Stream()
    }

    constructor (src: SliceSource, size: nat, step: nat)
      requires src.Valid() && 1 <= step <= size
      ensures Valid() && this.src == src && this.size == size && this.step == step
      ensures Out() == Framed(src.Avail(), size, step)
    {
      this.src := src;
      this.size := size;
      this.step := step;
      doneError := false;
      curCache := [];
      nextCache := [];
      outWindowProgress := 0;
      window := [];
      new;
      assert window + curCache + src.Avail() == src.Avail();
    }

    /** readSample (mfcc/source.go:58-85): the next sample, from the replay
        cache while it lasts and then from the source. A sliceSource read
        either copies a sample or reports the end, so the retry loop of the
        Go code runs once. */
    method ReadSample() returns (sample: real, noSample: bool)
      requires Valid() && !doneError
      modifies this`curCache, this`nextCache, this`outWindowProgress, this`window, src
      ensures Valid() && !doneError
      ensures noSample <==> old(Stream()) == []
      ensures noSample ==> sample == 0.0 && Stream() == []
      ensures !noSample ==> sample == old(Stream())[0] && Stream() == old(Stream())[1..]
    {
      noSample := false;
      if |curCache| > 0 {
        Replay(window, curCache, nextCache, src.Avail(), size, step);
        sample := curCache[0];
        curCache := curCache[1..];
      } else {
        ghost var avail := src.Avail();
        var got, eof := src.ReadSamples(1);
        if |got| == 1 {
          if |window| + 1 < size {
            FetchMid(window, nextCache, avail, size, step);
          } else {
            FetchEnd(window, nextCache, avail, size, step);
          }
          sample := got[0];
        } else {
          Exhausted(window, nextCache, size, step);
          return 0.0, true;
        }
      }
      if outWindowProgress >= step {
        nextCache := nextCache + [sample];
      }
      outWindowProgress := outWindowProgress + 1;
      window := window + [sample];
      if outWindowProgress == size {
        outWindowProgress := 0;
        curCache := nextCache;
        nextCache := [];
        window := [];
      }
    }

    /** The loop of ReadSamples (mfcc/source.go:41-50): samples of the
        stream into s[lo..hi) until it is full or the stream ends; at the
        end the 0 of readSample lands at the position after the last
        sample. */
    method Fill(s: array<real>, lo: nat, hi: nat) returns (n: nat, ended: bool)
      requires Valid() && !doneError && lo <= hi <= s.Length
      modifies this`curCache, this`nextCache, this`outWindowProgress, this`window, src, s
      ensures Valid() && !doneError
      ensures n == Min(hi - lo, |old(Stream())|) && (ended <==> n < hi - lo)
      ensures s[lo..lo + n] == old(Stream())[..n] && Stream() == old(Stream())[n..]
      ensures ended ==> s[lo + n] == 0.0
      ensures forall k :: 0 <= k < s.Length && (k < lo || k > lo + n || k >= hi) ==> s[k] == old(s[k])
    {
      ghost var stream := Stream();
      n := 0;
      ended := false;
      var i := lo;
      while i < hi
        invariant lo <= i <= hi && i == lo + n && !ended
        invariant Valid() && !doneError
        invariant n <= |stream| && Stream() == stream[n..]
        invariant forall j :: lo <= j < i ==> s[j] == stream[j - lo]
        invariant forall k :: 0 <= k < s.Length && (k < lo || k >= i) ==> s[k] == old(s[k])
      {
        var noSample := ReadInto(s, i);
        if noSample {
          ended := true;
          break;
        }
        n := n + 1;
        i := i + 1;
      }
      assert s[lo..lo + n] == stream[..n];
    }

    /** One pass of the loop of ReadSamples (mfcc/source.go:43): readSample
        stores its sample, or the 0 of an ended stream, at s[i]. */
    method ReadInto(s: array<real>, i: nat) returns (noSample: bool)
      requires Valid() && !doneError && i < s.Length
      modifies this`curCache, this`nextCache, this`outWindowProgress, this`window, src, s
      ensures Valid() && !doneError
      ensures noSample <==> old(Stream()) == []
      ensures noSample ==> s[i] == 0.0 && Stream() == []
      ensures !noSample ==> s[i] == old(Stream())[0] && Stream() == old(Stream())[1..]
      ensures forall k :: 0 <= k < s.Length && k != i ==> s[k] == old(s[k])
    {
      var x;
      x, noSample := ReadSample();
      s[i] := x;
    }

    /** ReadSamples (mfcc/source.go:37-56) into s[lo..hi): the next samples
        of the stream, as many as fit, with the end of the stream recorded
        for every later call. When the stream ends first, the Go code also
        stores a 0 at the position after the last sample. */
    method ReadSamples(s: array<real>, lo: nat, hi: nat) returns (n: nat, err: bool)
      requires Valid() && lo <= hi <= s.Length
      modifies this, src, s
      ensures Valid()
      ensures n == Min(hi - lo, |old(Out())|)
      ensures s[lo..lo + n] == old(Out())[..n] && Out() == old(Out())[n..]
      ensures err == doneError && (err <==> old(doneError) || n < hi - lo)
      ensures !old(doneError) && n < hi - lo ==> s[lo + n] == 0.0
      ensures forall k :: 0 <= k < s.Length && (k < lo || k > lo + n || k >= hi || old(doneError)) ==> s[k] == old(s[k])
    {
      if doneError {
        return 0, true;
      }
      ghost var stream := Stream();
      n, err := Fill(s, lo, hi);
      if err {
        doneError := true;
      }
      assert old(Out()) == stream;
    }
  }

  // ----- RateChanger -----

  /** The input read at time t (in input samples): the sample itself at a
      whole t, otherwise the straight line between its two neighbours. */
  function Interp(x: seq<real>, t: real): real
    requires 0.0 <= t <= |x| as real - 1.0
  {
    var i := t.Floor;
    var f := t - i as real;
    if f == 0.0 then x[i] else Lerp(x[i], x[i + 1], f)
  }

  /** The point at weight m on the straight line from a to b. */
  function Lerp(a: real, b: real, m: real): real {
    a * (1.0 - m) + b * m
  }

  /** The interpolation between the samples b and b + 1 at weight m is the
      input read at time b + m. */
  lemma InterpAt(x: seq<real>, b: nat, m: real)
    requires 0.0 <= m <= 1.0 && b + 1 < |x|
    ensures Interp(x, b as real + m) == Lerp(x[b], x[b + 1], m)
  {
    var t := b as real + m;
    if m == 1.0 {
      assert t == (b + 1) as real;
      assert t.Floor == b + 1;
    } else {
      assert t.Floor == b;
    }
  }

  /** The time after k steps of inc each. */
  function Steps(k: nat, inc: real): real {
    if k == 0 then 0.0 else Steps(k - 1, inc) + inc
  }

  /** k steps of 1 / ratio reach time k / ratio. */
  lemma {:induction false} StepsTime(k: nat, inc: real, ratio: real)
    requires ratio > 0.0 && inc == 1.0 / ratio
    ensures Steps(k, inc) == k as real / ratio
  {
    if k > 0 {
      StepsTime(k - 1, inc, ratio);
      assert (k - 1) as real / ratio + 1.0 / ratio == k as real / ratio;
    }
  }

  /** At Ratio 1 output k + 1 is input sample k itself. */
  lemma {:induction false} SameRate(x: seq<real>, k: nat)
    requires k < |x|
    ensures Steps(k, 1.0) == k as real && Interp(x, Steps(k, 1.0)) == x[k]
  {
    if k > 0 {
      SameRate(x, k - 1);
    }
    assert (k as real).Floor == k;
  }

  /** RateChanger (mfcc/source.go:93-102). input is everything the source
      delivers; the last and next samples are input[base] and
      input[base + 1], and produced samples have been returned. */
  class RateChanger {
    const src: SliceSource
    const ratio: real
    /** The time one output moves on, 1 / ratio. */
    const inc: real
    var doneError: bool
    var started: bool
    var lastSample: real
    var nextSample: real
    var midpart: real
    ghost const input: seq<real>
    ghost var base: nat
    ghost var produced: nat

    /** Output produced + 1 is read at time Steps(produced, inc), that is
        produced / ratio, which is base + midpart. */
    ghost predicate Tracking()
      reads this, src
      requires src.Valid()
    {
      if !started then produced == 0 && midpart == 0.0 && src.Avail() == input
      else
        base + 1 < |input| && lastSample == input[base] && nextSample == input[base + 1] &&
        src.Avail() == input[base + 2..] && midpart >= 0.0 &&
        base as real + midpart == Steps(produced, inc)
    }

    ghost predicate Valid()
      reads this, src
    {
      src.Valid() && inc > 0.0 && (!doneError ==> Tracking())
    }

    constructor (src: SliceSource, ratio: real)
      requires src.Valid() && ratio > 0.0
      ensures Valid() && this.src == src && this.ratio == ratio && inc == 1.0 / ratio
      ensures input == src.Avail() && produced == 0 && !doneError
    {
      this.src := src;
      this.ratio := ratio;
      this.inc := 1.0 / ratio;
      doneError := false;
      started := false;
      lastSample := 0.0;
      nextSample := 0.0;
      midpart := 0.0;
      input := src.Avail();
      base := 0;
      produced := 0;
    }

    /** start (mfcc/source.go:149-166): the first two samples, or no sample
        when the source has fewer. */
    method Start() returns (noSample: bool)
      requires Valid() && !doneError && !started
      modifies this`lastSample, this`nextSample, this`started, this`base, src
      ensures src.Valid() && (noSample <==> |input| < 2)
      ensures !noSample ==> Valid() && started && base == 0
    {
      var samples: seq<real> := [];
      var gotten := 0;
      while gotten < 2
        invariant src.Valid() && gotten == |samples| <= |input| && gotten <= 2
        invariant samples == input[..gotten] && src.Avail() == input[gotten..]
        decreases 2 - gotten
      {
        var got, eof := src.ReadSamples(2 - gotten);
        ReadOn(input, gotten, |got|);
        samples := samples + got;
        gotten := gotten + |got|;
        if eof {
          break;
        }
      }
      if gotten < 2 {
        return true;
      }
      lastSample := samples[0];
      nextSample := samples[1];
      started := true;
      base := 0;
      assert src.Avail() == input[base + 2..];
      noSample := false;
    }

    /** readNext (mfcc/source.go:168-182): shift in one more sample. */
    method ReadNext() returns (noSample: bool)
      requires src.Valid()
      modifies this`lastSample, this`nextSample, src
      ensures src.Valid() && (noSample <==> old(src.Avail()) == [])
      ensures noSample ==> lastSample == old(lastSample) && nextSample == old(nextSample) && src.Avail() == []
      ensures !noSample ==> (lastSample == old(nextSample) && nextSample == old(src.Avail())[0] &&
                             src.Avail() == old(src.Avail())[1..])
    {
      var got, eof := src.ReadSamples(1);
      if |got| == 1 {
        lastSample := nextSample;
        nextSample := got[0];
        noSample := false;
      } else {
        noSample := true;
      }
    }

    /** The loop of readSample (mfcc/source.go:133-136): readCount calls of
        readNext, which all succeed exactly when the input holds sample
        base + readCount + 1. A failed call leaves the pair unchanged, so the
        flag of the last call tells. */
    method Advance(readCount: nat) returns (noSample: bool)
      requires src.Valid() && base + 1 < |input| && lastSample == input[base] && nextSample == input[base + 1]
      requires src.Avail() == input[base + 2..]
      modifies this`lastSample, this`nextSample, src
      ensures src.Valid()
      ensures noSample <==> base + readCount + 1 >= |input|
      ensures !noSample ==> (lastSample == input[base + readCount] && nextSample == input[base + readCount + 1] &&
                             src.Avail() == input[base + readCount + 2..])
    {
      ghost var ok := 0;
      noSample := false;
      var i := 0;
      while i < readCount
        invariant 0 <= ok <= i <= readCount && src.Valid() && base + ok + 1 < |input|
        invariant lastSample == input[base + ok] && nextSample == input[base + ok + 1]
        invariant src.Avail() == input[base + ok + 2..]
        invariant (ok == i && !noSample) || (ok < i && noSample && base + ok + 2 == |input|)
      {
        noSample := ReadNext();
        if !noSample {
          ok := ok + 1;
        }
        i := i + 1;
      }
    }

    /** No output is read at time t, midpart being the weight of the
        previous one moved on: the input has fewer than two samples, or t
        lies beyond the last sample, or t is the last sample and the code
        has to move the pair on by two or more, which reads one sample past
        the end. */
    ghost predicate Past(t: real, midpart: real)
      reads this
    {
      |input| < 2 || t > |input| as real - 1.0 || (t == |input| as real - 1.0 && midpart > 1.0)
    }

    /** The pair of samples around the time of the next output is loaded,
        and that time lies between them. */
    ghost predicate Ready()
      reads this, src
    {
      src.Valid() && !doneError && started && inc > 0.0 && Tracking() && midpart <= 1.0
    }

    /** The first part of readSample (mfcc/source.go:126-140): start, then
        move the pair on by the whole part of midpart. */
    method Seek() returns (noSample: bool)
      requires Valid() && !doneError
      modifies this`lastSample, this`nextSample, this`started, this`base, this`midpart, src
      ensures src.Valid()
      ensures !noSample ==> Ready() && Time(produced) == base as real + midpart
      ensures noSample <==> Past(Time(produced), old(midpart))
    {
      noSample := false;
      if !started {
        noSample := Start();
        if noSample {
          return true;
        }
      }
      if midpart > 1.0 {
        var readCount := midpart.Floor;
        noSample := Advance(readCount);
        if noSample {
          return true;
        }
        midpart := midpart - readCount as real;
        base := base + readCount;
      }
    }

    /** readSample (mfcc/source.go:125-147): output produced + 1 is the input
        read at time produced / ratio, unless that time is Past the input. */
    method ReadSample() returns (sample: real, noSample: bool)
      requires Valid() && !doneError
      modifies this`lastSample, this`nextSample, this`started, this`base, this`midpart, this`produced, src
      ensures src.Valid() && !doneError
      ensures !noSample ==> (Valid() && produced == old(produced) + 1 && |input| >= 2 &&
                             Time(old(produced)) <= |input| as real - 1.0 && sample == Interp(input, Time(old(produced))))
      ensures noSample ==> sample == 0.0 && produced == old(produced)
      ensures noSample <==> Past(Time(old(produced)), old(midpart))
    {
      noSample := Seek();
      if noSample {
        return 0.0, true;
      }
      sample := Emit();
    }

    /** The last part of readSample (mfcc/source.go:144-146): the weighted
        mean of the pair, and the time moves on by one step. */
    method Emit() returns (sample: real)
      requires Ready() && Time(produced) == base as real + midpart
      modifies this`midpart, this`produced
      ensures Valid() && !doneError && produced == old(produced) + 1 && |input| >= 2
      ensures Time(old(produced)) <= |input| as real - 1.0 && sample == Interp(input, Time(old(produced)))
    {
      InterpAt(input, base, midpart);
      sample := Lerp(lastSample, nextSample, midpart);
      midpart := midpart + inc;
      produced := produced + 1;
    }

    /** The time, in input samples, at which output k + 1 is read: k
        steps of inc, which is k / ratio (StepsTime). */
    function Time(k: nat): real
      reads this
    {
      Steps(k, inc)
    }

    /** ReadSamples (mfcc/source.go:104-123) into s[lo..hi): consecutive
        outputs, each the input read at its own time, until s is full or the
        input runs out; the end is recorded for every later call. */
    method ReadSamples(s: array<real>, lo: nat, hi: nat) returns (n: nat, err: bool)
      requires Valid() && lo <= hi <= s.Length
      modifies this, src, s
      ensures Valid() && n <= hi - lo
      ensures err == doneError && (err <==> old(doneError) || n < hi - lo)
      ensures old(doneError) ==> n == 0
      ensures !old(doneError) ==> produced == old(produced) + n
      ensures !old(doneError) ==> forall j :: lo <= j < lo + n ==> Emitted(s[j], old(produced) + j - lo)
      ensures !old(doneError) && n < hi - lo ==>
        s[lo + n] == 0.0 && (|input| < 2 || Time(old(produced) + n) >= |input| as real - 1.0)
      ensures forall k :: 0 <= k < s.Length && (k < lo || k > lo + n || k >= hi || old(doneError)) ==> s[k] == old(s[k])
    {
      if doneError {
        return 0, true;
      }
      ghost var p0 := produced;
      n := 0;
      err := false;
      var i := lo;
      while i < hi
        invariant lo <= i <= hi && i == lo + n && !err
        invariant Valid() && !doneError && produced == p0 + n
        invariant forall j :: lo <= j < i ==> Emitted(s[j], p0 + j - lo)
        invariant forall k :: 0 <= k < s.Length && (k < lo || k >= i) ==> s[k] == old(s[k])
      {
        var x, noSample := ReadSample();
        s[i] := x;
        if noSample {
          err := true;
          break;
        }
        n := n + 1;
        i := i + 1;
      }
      if err {
        doneError := true;
      }
    }

    /** x is output k + 1: the input read at time k / ratio, which lies
        within the input. */
    ghost predicate Emitted(x: real, k: nat)
      reads this
    {
      Time(k) <= |input| as real - 1.0 && 0.0 <= Time(k) && x == Interp(input, Time(k))
    }
  }
}
