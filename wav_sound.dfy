/** jswav's Sound (recorder/assets/jswav.js:179-283): a WAVE file in a byte
    buffer, read through its header. getSample and indexForTime are
    functions of the buffer's bytes; crop is a method that builds a new
    buffer. */
module WavSound {
  import opened WavBytes
  import opened WavHeader

  datatype Option<T> = None | Some(value: T)

  function Min(x: real, y: real): real {
    if x <= y then x else y
  }

  function Max(x: real, y: real): real {
    if x >= y then x else y
  }

  /** Products keep the order of their factors. */
  lemma {:induction false} MulLe(a: int, b: int, k: nat)
    requires a <= b
    ensures a * k <= b * k
  {
    assert b * k - a * k == (b - a) * k;
  }

  lemma {:induction false} MulLeReal(x: real, y: real, k: real)
    requires x <= y && 0.0 <= k
    ensures x * k <= y * k
  {
    assert y * k - x * k == (y - x) * k;
  }

  /** A product with a positive factor k is at least k or at most -k,
      unless the other factor is zero. */
  lemma {:induction false} MulAway(x: int, k: int)
    requires k >= 0
    ensures x >= 1 ==> x * k >= k
    ensures x <= -1 ==> x * k <= -k
  {
    if x >= 1 {
      MulLe(1, x, k);
    } else if x <= -1 {
      MulLe(x, -1, k);
    }
  }

  /** A header whose duration is a non-zero number: the divisions in
      getSampleCount and getDuration, and the one in indexForTime, are by
      non-zero values. */
  predicate Timed(b: seq<byte>) {
    |b| >= HeaderSize && BitsPerSample(b) * Channels(b) != 0 && SampleRate(b) != 0 && DataSize(b) != 0
  }

  /** The bytes one sample frame takes, all channels together. */
  function BlockSize(b: seq<byte>): nat
    requires |b| >= HeaderSize
  {
    BitsPerSample(b) / 8 * Channels(b)
  }

  /** A header of whole bytes per sample, a data chunk of whole frames,
      and a buffer that holds the whole data chunk. */
  predicate WellFormed(b: seq<byte>) {
    |b| >= HeaderSize && BitsPerSample(b) > 0 && BitsPerSample(b) % 8 == 0 &&
    Channels(b) > 0 && SampleRate(b) > 0 && DataSize(b) > 0 &&
    DataSize(b) % BlockSize(b) == 0 && HeaderSize + DataSize(b) <= |b|
  }

  /** The number of frames in the data chunk. */
  function Frames(b: seq<byte>): nat
    requires WellFormed(b)
  {
    DataSize(b) / BlockSize(b)
  }

  /** The bytes getSample reads for sample idx of a channel lie in b;
      DataView throws a RangeError otherwise. */
  predicate HasSample(b: seq<byte>, idx: int, channel: int) {
    |b| >= HeaderSize &&
    (BitsPerSample(b) == 8 ==> 0 <= HeaderSize + idx * Channels(b) + channel < |b|) &&
    (BitsPerSample(b) == 16 ==> 0 <= HeaderSize + idx * Channels(b) * 2 + channel * 2 <= |b| - 2)
  }

  /** getSample (recorder/assets/jswav.js:248-264): sample idx of a
      channel, scaled into [-1, 1); a width other than 8 or 16 bits gives
      NaN, which is None here. */
  function GetSample(b: seq<byte>, idx: int, channel: int): (r: Option<real>)
    requires HasSample(b, idx, channel)
    ensures r.None? <==> BitsPerSample(b) != 8 && BitsPerSample(b) != 16
    ensures r.Some? ==> -1.0 <= r.value < 1.0
  {
    var bps := BitsPerSample(b);
    var channels := Channels(b);
    if bps == 8 then
      Some((b[HeaderSize + idx * channels + channel] as real - 128.0) / 128.0)
    else if bps == 16 then
      Some(GetInt16(b, HeaderSize + idx * channels * 2 + channel * 2) as real / 32768.0)
    else
      None
  }

  /** The index computed from a sample count and a duration: the time's
      share of the duration in samples, rounded down, then clamped to
      [0, samples]. */
  function IndexAt(samples: real, duration: real, time: real): (r: real)
    requires 0.0 <= samples && duration != 0.0
    ensures 0.0 <= r <= samples
  {
    var rawIdx := (samples * time / duration).Floor as real;
    Min(Max(rawIdx, 0.0), samples)
  }

  /** indexForTime (recorder/assets/jswav.js:276-281): the sample index of
      a time, clamped to [0, sample count]. */
  function IndexForTime(b: seq<byte>, time: real): (r: real)
    requires Timed(b)
    ensures 0.0 <= r <= SampleCount(b)
  {
    IndexAt(SampleCount(b), Duration(b), time)
  }

  /** s * t / (s / rate) is t * rate. */
  lemma {:induction false} Ratio(s: real, rate: real, t: real)
    requires 0.0 < s && 0.0 < rate
    ensures s * t / (s / rate) == t * rate
  {
    var d := s / rate;
    assert d * rate == s;
    assert (t * rate) * d == s * t;
  }

  /** With duration = samples / rate the index is the time in samples at
      the rate, rounded down and clamped. */
  lemma {:induction false} IndexAtRate(samples: real, rate: real, time: real)
    requires 0.0 < samples && 0.0 < rate
    ensures IndexAt(samples, samples / rate, time) == Min(Max((time * rate).Floor as real, 0.0), samples)
  {
    Ratio(samples, rate, time);
  }

  /** Rounding down and clamping keep the order of their argument. */
  lemma {:induction false} ClampMonotone(x: real, y: real, samples: real)
    requires x <= y
    ensures Min(Max(x.Floor as real, 0.0), samples) <= Min(Max(y.Floor as real, 0.0), samples)
  {
    assert x.Floor <= y.Floor;
  }

  lemma {:induction false} ScaledClampMonotone(t1: real, t2: real, rate: real, samples: real)
    requires t1 <= t2 && 0.0 <= rate
    ensures Min(Max((t1 * rate).Floor as real, 0.0), samples) <= Min(Max((t2 * rate).Floor as real, 0.0), samples)
  {
    MulLeReal(t1, t2, rate);
    ClampMonotone(t1 * rate, t2 * rate, samples);
  }

  /** A later time never has an earlier index, for a positive rate. */
  lemma {:induction false} IndexAtMonotone(samples: real, rate: real, t1: real, t2: real)
    requires 0.0 < samples && 0.0 < rate && t1 <= t2
    ensures IndexAt(samples, samples / rate, t1) <= IndexAt(samples, samples / rate, t2)
  {
    IndexAtRate(samples, rate, t1);
    IndexAtRate(samples, rate, t2);
    ScaledClampMonotone(t1, t2, rate, samples);
  }

  lemma {:induction false} IndexForTimeMonotone(b: seq<byte>, t1: real, t2: real)
    requires Timed(b) && t1 <= t2
    ensures IndexForTime(b, t1) <= IndexForTime(b, t2)
  {
    IndexAtMonotone(SampleCount(b), SampleRate(b) as real, t1, t2);
  }

  /** A whole multiple divides exactly in the reals too. */
  lemma {:induction false} DivExact(d: nat, k: nat)
    requires k > 0 && d % k == 0
    ensures d as real / k as real == (d / k) as real
  {
    var q := d / k;
    assert d == q * k;
    assert d as real == q as real * k as real;
  }

  /** In a well-formed header the sample count is the number of frames. */
  lemma {:induction false} SampleCountFrames(b: seq<byte>)
    requires WellFormed(b)
    ensures Timed(b) && SampleCount(b) == Frames(b) as real
  {
    var bits, ch := BitsPerSample(b), Channels(b);
    var block := BlockSize(b);
    assert bits * ch == 8 * block by {
      assert bits == 8 * (bits / 8);
    }
    assert FrameBytes(b) == block as real;
    DivExact(DataSize(b), block);
  }

  /** In a well-formed header indexForTime returns a whole frame index
      from 0 to the number of frames. */
  function FrameAt(b: seq<byte>, time: real): (k: nat)
    requires WellFormed(b)
    ensures Timed(b) && k <= Frames(b) && k as real == IndexForTime(b, time)
  {
    SampleCountFrames(b);
    IndexForTime(b, time).Floor
  }

  /** Frames lo to hi of a chunk of size bytes, in blocks of k bytes, lie
      inside the chunk. */
  lemma {:induction false} FrameArith(size: nat, k: nat, lo: nat, hi: nat)
    requires k > 0 && size % k == 0 && lo <= hi <= size / k
    ensures lo * k <= hi * k <= size && lo * k + k * (hi - lo) == hi * k && k * (hi - lo) <= size
  {
    var top := size / k;
    assert size == top * k;
    assert (hi - lo) * k >= 0 && (top - hi) * k >= 0;
    assert k * (hi - lo) == (hi - lo) * k;
  }

  /** k frames of a well-formed buffer lie inside its data chunk. */
  lemma {:induction false} FramesInside(b: seq<byte>, lo: nat, hi: nat)
    requires WellFormed(b) && lo <= hi <= Frames(b)
    ensures lo * BlockSize(b) <= hi * BlockSize(b) <= DataSize(b)
    ensures lo * BlockSize(b) + BlockSize(b) * (hi - lo) == hi * BlockSize(b)
    ensures BlockSize(b) * (hi - lo) <= DataSize(b)
  {
    FrameArith(DataSize(b), BlockSize(b), lo, hi);
  }

  /** The data chunk of r is the len bytes of b from start on. */
  predicate DataFrom(b: seq<byte>, r: seq<byte>, start: int, len: int) {
    0 <= start && 0 <= len && start + len <= |b| && |r| >= HeaderSize && r[HeaderSize..] == b[start..start + len]
  }

  /** The bytes crop builds for frames lo to hi: a fresh header for
      hi - lo frames, followed by their bytes copied from b. */
  function Cropped(b: seq<byte>, lo: nat, hi: nat): (r: seq<byte>)
    requires WellFormed(b) && lo <= hi <= Frames(b)
    ensures |r| == HeaderSize + BlockSize(b) * (hi - lo)
    ensures DataFrom(b, r, HeaderSize + lo * BlockSize(b), BlockSize(b) * (hi - lo))
  {
    var block := BlockSize(b);
    var start, len := HeaderSize + lo * block, block * (hi - lo);
    FramesInside(b, lo, hi);
    var h := FreshHeader(hi - lo, SampleRate(b), BitsPerSample(b), Channels(b));
    var d := b[start..start + len];
    assert (h + d)[HeaderSize..] == d;
    h + d
  }

  /** The data size setFields computes for n frames of a well-formed
      header is n blocks. */
  lemma {:induction false} BlockTotal(n: nat, bits: nat, ch: nat)
    requires bits % 8 == 0
    ensures TotalSize(n, bits, ch) == (bits / 8 * ch * n) as real
  {
    var block := bits / 8 * ch;
    assert n * bits * ch == 8 * (block * n) by {
      assert bits == 8 * (bits / 8);
    }
  }

  /** r's header keeps b's channels, bits per sample and rate, and
      describes a data chunk of n blocks of b, which fills the rest of r. */
  predicate HeaderFor(b: seq<byte>, r: seq<byte>, n: nat) {
    |b| >= HeaderSize && |r| >= HeaderSize && IsWaveHeader(r) && |r| == HeaderSize + DataSize(r) &&
    Channels(r) == Channels(b) && BitsPerSample(r) == BitsPerSample(b) &&
    SampleRate(r) == SampleRate(b) && DataSize(r) == BlockSize(b) * n
  }

  /** The header of a crop: the channels, the bits per sample and the
      rate of the original, and a data chunk of hi - lo blocks. */
  lemma {:induction false} CropHeader(b: seq<byte>, lo: nat, hi: nat)
    requires WellFormed(b) && lo <= hi <= Frames(b)
    ensures HeaderFor(b, Cropped(b, lo, hi), hi - lo)
  {
    var n, block := hi - lo, BlockSize(b);
    var bits, ch, rate := BitsPerSample(b), Channels(b), SampleRate(b);
    FramesInside(b, lo, hi);
    BlockTotal(n, bits, ch);
    var total: nat := block * n;
    var h := FreshHeader(n, rate, bits, ch);
    var start := HeaderSize + lo * block;
    var d := b[start..start + total];
    assert Cropped(b, lo, hi) == h[..HeaderSize] + d;
    HeadFields(h, d);
    FreshHeaderRead(n, rate, bits, ch, total);
  }

  /** n whole blocks are a positive size that divides into n blocks. */
  lemma {:induction false} BlocksOf(block: nat, n: nat)
    requires block > 0 && n > 0
    ensures block * n > 0 && (block * n) % block == 0 && (block * n) / block == n
  {
    var d := block * n;
    var q, m := d / block, d % block;
    assert d == q * block + m;
    assert (n - q) * block == m;
    MulAway(n - q, block);
    MulAway(n, block);
  }

  /** Whole bytes per sample and at least one channel make a block of at
      least one byte. */
  lemma {:induction false} BlockPositive(bits: nat, ch: nat)
    requires bits > 0 && bits % 8 == 0 && ch > 0
    ensures bits / 8 * ch > 0
  {
    MulAway(ch, bits / 8);
    assert bits / 8 * ch == ch * (bits / 8);
  }

  /** A header of whole bytes per sample whose data chunk is n > 0 whole
      blocks, all held in the buffer, is well-formed with n frames. */
  lemma {:induction false} FramesOf(r: seq<byte>, n: nat)
    requires |r| >= HeaderSize && n > 0
    requires BitsPerSample(r) > 0 && BitsPerSample(r) % 8 == 0 && Channels(r) > 0 && SampleRate(r) > 0
    requires DataSize(r) == BlockSize(r) * n && HeaderSize + DataSize(r) <= |r|
    ensures WellFormed(r) && Frames(r) == n
  {
    BlockPositive(BitsPerSample(r), Channels(r));
    BlocksOf(BlockSize(r), n);
  }

  /** A buffer holding a header for n > 0 blocks of a well-formed b, and
      the whole data chunk, is well-formed with n frames. */
  lemma {:induction false} HeaderForFrames(b: seq<byte>, r: seq<byte>, n: nat)
    requires WellFormed(b) && HeaderFor(b, r, n) && n > 0
    ensures WellFormed(r) && Frames(r) == n
  {
    assert BlockSize(r) == BlockSize(b);
    FramesOf(r, n);
  }

  /** A crop of at least one frame is a well-formed sound of hi - lo
      frames. */
  lemma {:induction false} CroppedWellFormed(b: seq<byte>, lo: nat, hi: nat)
    requires WellFormed(b) && lo < hi <= Frames(b)
    ensures WellFormed(Cropped(b, lo, hi)) && Frames(Cropped(b, lo, hi)) == hi - lo
  {
    CropHeader(b, lo, hi);
    assert WellFormed(Cropped(b, lo, hi)) && Frames(Cropped(b, lo, hi)) == hi - lo by {
      HeaderForFrames(b, Cropped(b, lo, hi), hi - lo);
    }
  }

  /** Offsets of sample i of channel j, 8 and 16 bits wide, in n frames
      of block bytes, and the offset of sample lo + i past lo frames. */
  lemma {:induction false} SampleArith8(lo: nat, i: nat, n: nat, j: nat, ch: nat, block: nat)
    requires block == ch && i < n && j < ch
    ensures 0 <= i * ch + j < block * n
    ensures (lo + i) * ch + j == lo * block + (i * ch + j)
  {
    MulLe(0, i, ch);
    MulLe(i + 1, n, ch);
    assert (i + 1) * ch == i * ch + ch;
    assert (lo + i) * ch == lo * ch + i * ch;
  }

  lemma {:induction false} SampleArith16(lo: nat, i: nat, n: nat, j: nat, ch: nat, block: nat)
    requires block == 2 * ch && i < n && j < ch
    ensures 0 <= i * ch * 2 + j * 2 && i * ch * 2 + j * 2 + 2 <= block * n
    ensures (lo + i) * ch * 2 + j * 2 == lo * block + (i * ch * 2 + j * 2)
  {
    SampleArith8(lo, i, n, j, ch, ch);
    assert block * n == 2 * (ch * n);
    assert lo * block == 2 * (lo * ch);
    assert (lo + i) * ch * 2 == 2 * ((lo + i) * ch) && i * ch * 2 == 2 * (i * ch);
  }

  /** Bytes off to off + w of a data chunk copied from base on are those
      from base + off on. */
  lemma {:induction false} CopiedBytes(b: seq<byte>, r: seq<byte>, base: int, len: int, off: nat, w: nat)
    requires DataFrom(b, r, base, len) && off + w <= len
    ensures r[HeaderSize + off..HeaderSize + off + w] == b[base + off..base + off + w]
  {
    var rw, bw := r[HeaderSize + off..HeaderSize + off + w], b[base + off..base + off + w];
    var rs, bs := r[HeaderSize..], b[base..base + len];
    assert forall k :: 0 <= k < w ==> rw[k] == rs[off + k] == bs[off + k] == bw[k];
  }

  /** Two buffers with the same bits per sample and channels, whose data
      from frame 0 of r on is the data from frame lo of b on, hold the same
      samples: sample i of r is sample lo + i of b. */
  predicate Shifted(b: seq<byte>, r: seq<byte>, lo: nat, n: nat) {
    |b| >= HeaderSize && |r| >= HeaderSize &&
    BitsPerSample(r) == BitsPerSample(b) && Channels(r) == Channels(b) &&
    DataFrom(b, r, HeaderSize + lo * BlockSize(b), BlockSize(b) * n)
  }

  lemma {:induction false} ShiftedSample8(b: seq<byte>, r: seq<byte>, lo: nat, n: nat, i: nat, j: nat)
    requires Shifted(b, r, lo, n) && BitsPerSample(b) == 8 && i < n && j < Channels(b)
    ensures HasSample(b, lo + i, j) && HasSample(r, i, j)
    ensures GetSample(r, i, j) == GetSample(b, lo + i, j)
  {
    var ch, block := Channels(b), BlockSize(b);
    var base := HeaderSize + lo * block;
    SampleArith8(lo, i, n, j, ch, block);
    var off := i * ch + j;
    CopiedBytes(b, r, base, block * n, off, 1);
    assert r[HeaderSize + off] == r[HeaderSize + off..HeaderSize + off + 1][0];
  }

  lemma {:induction false} ShiftedSample16(b: seq<byte>, r: seq<byte>, lo: nat, n: nat, i: nat, j: nat)
    requires Shifted(b, r, lo, n) && BitsPerSample(b) == 16 && i < n && j < Channels(b)
    ensures HasSample(b, lo + i, j) && HasSample(r, i, j)
    ensures GetSample(r, i, j) == GetSample(b, lo + i, j)
  {
    var ch, block := Channels(b), BlockSize(b);
    SampleArith16(lo, i, n, j, ch, block);
    CopiedBytes(b, r, HeaderSize + lo * block, block * n, i * ch * 2 + j * 2, 2);
  }

  lemma {:induction false} ShiftedSample(b: seq<byte>, r: seq<byte>, lo: nat, n: nat, i: nat, j: nat)
    requires Shifted(b, r, lo, n) && i < n && j < Channels(b)
    ensures HasSample(b, lo + i, j) && HasSample(r, i, j)
    ensures GetSample(r, i, j) == GetSample(b, lo + i, j)
  {
    if BitsPerSample(b) == 8 {
      ShiftedSample8(b, r, lo, n, i, j);
    } else if BitsPerSample(b) == 16 {
      ShiftedSample16(b, r, lo, n, i, j);
    }
  }

  /** A crop begins with a fresh header for its frames. */
  lemma {:induction false} CroppedHead(b: seq<byte>, lo: nat, hi: nat)
    requires WellFormed(b) && lo <= hi <= Frames(b)
    ensures Cropped(b, lo, hi)[..HeaderSize] == FreshHeader(hi - lo, SampleRate(b), BitsPerSample(b), Channels(b))
  {
    var h := FreshHeader(hi - lo, SampleRate(b), BitsPerSample(b), Channels(b));
    assert Cropped(b, lo, hi)[..HeaderSize] == h;
  }

  /** The data of a crop is the data of the original from frame lo on. */
  lemma {:induction false} CroppedShifted(b: seq<byte>, lo: nat, hi: nat)
    requires WellFormed(b) && lo <= hi <= Frames(b)
    ensures Shifted(b, Cropped(b, lo, hi), lo, hi - lo)
  {
    CropHeader(b, lo, hi);
    FramesInside(b, lo, hi);
  }

  /** Sample i of a crop is sample lo + i of the original, every channel
      and both widths included. */
  lemma {:induction false} CropSample(b: seq<byte>, lo: nat, hi: nat, i: nat, j: nat)
    requires WellFormed(b) && lo <= hi <= Frames(b) && i < hi - lo && j < Channels(b)
    ensures HasSample(b, lo + i, j) && HasSample(Cropped(b, lo, hi), i, j)
    ensures GetSample(Cropped(b, lo, hi), i, j) == GetSample(b, lo + i, j)
  {
    CroppedShifted(b, lo, hi);
    ShiftedSample(b, Cropped(b, lo, hi), lo, hi - lo, i, j);
  }

  /** The copy loop of crop: n bytes from src at srcOff to dst at dstOff,
      one getUint8 and setUint8 at a time. */
  method CopyBytes(dst: array<byte>, dstOff: nat, src: array<byte>, srcOff: nat, n: nat)
    requires dst != src && dstOff + n == dst.Length && srcOff + n <= src.Length
    modifies dst
    ensures dst[..] == old(dst[..dstOff]) + src[srcOff..srcOff + n]
  {
    var i := 0;
    while i < n
      invariant 0 <= i <= n
      invariant dst[..dstOff] == old(dst[..dstOff])
      invariant forall k :: dstOff <= k < dstOff + i ==> dst[k] == src[k - dstOff + srcOff]
    {
      dst[i + dstOff] := src[srcOff + i];
      i := i + 1;
    }
    assert dst[..] == dst[..dstOff] + dst[dstOff..];
  }

  class Sound {
    const buffer: array<byte>
    const header: Header

    /** Sound (recorder/assets/jswav.js:179-183). */
    constructor (buffer: array<byte>)
      ensures this.buffer == buffer && header.view == buffer
    {
      this.buffer := buffer;
      header := new Header(buffer);
    }

    /** crop (recorder/assets/jswav.js:219-246): a new sound holding the
        frames from indexForTime(start) to indexForTime(end). */
    method Crop(start: real, end: real) returns (s: Sound)
      requires header.view == buffer && WellFormed(buffer[..])
      requires IndexForTime(buffer[..], start) <= IndexForTime(buffer[..], end)
      ensures fresh(s) && fresh(s.buffer) && s.header.view == s.buffer
      ensures s.buffer[..] == Cropped(buffer[..], FrameAt(buffer[..], start), FrameAt(buffer[..], end))
    {
      var startIdx := FrameAt(buffer[..], start);
      var endIdx := FrameAt(buffer[..], end);
      s := CropFrames(startIdx, endIdx);
    }

    /** The body of crop once both indices are known
        (recorder/assets/jswav.js:225-245): a fresh header for the frames,
        then their bytes copied one at a time. */
    method CropFrames(startIdx: nat, endIdx: nat) returns (s: Sound)
      requires WellFormed(buffer[..]) && startIdx <= endIdx <= Frames(buffer[..])
      ensures fresh(s) && fresh(s.buffer) && s.header.view == s.buffer
      ensures s.buffer[..] == Cropped(buffer[..], startIdx, endIdx)
    {
      var b := buffer[..];
      var channels := Channels(b);
      var bps := BitsPerSample(b);
      var copyCount := endIdx - startIdx;
      var blockSize := BlockSize(b);
      var copyBytes := blockSize * copyCount;
      var bufferSource := HeaderSize + startIdx * blockSize;
      FramesInside(b, startIdx, endIdx);

      var buf := NewWave(copyBytes, copyCount, SampleRate(b), bps, channels);
      CopyBytes(buf, HeaderSize, buffer, bufferSource, copyBytes);
      s := new Sound(buf);
      CroppedHead(b, startIdx, endIdx);
      ghost var r := Cropped(b, startIdx, endIdx);
      assert r == r[..HeaderSize] + r[HeaderSize..];
    }
  }
}
