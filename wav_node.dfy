/** jswav's WavNode (recorder/assets/jswav.js:292-356): the audio callback
    encodes each block of input as 16-bit little-endian PCM, channels
    interleaved frame by frame, and pushes the bytes; sound() writes a
    header for 16-bit samples and copies the pushed bytes after it, in
    order. An input block is a value here; the script processor node and
    the audio context that deliver it are not modelled. */
module WavRecorder {
  import opened WavBytes
  import opened WavHeader
  import opened WavSound

  /** Math.round(x * 0x8000), the integer onaudioprocess stores for an
      input value x. */
  function Encode(x: real): (r: int)
    ensures r as real - 0.5 <= x * 32768.0 < r as real + 0.5
  {
    Round(x * 32768.0)
  }

  /** The 16-bit word setInt16 stores for x: ToInt16 and ToUint16 agree
      modulo 2^16, so the bits are those of ToUint16. */
  function Word(x: real): (w: nat)
    ensures w < Two16 && (w - Encode(x)) % Two16 == 0
  {
    ToUint16(Encode(x) as real)
  }

  /** The value getSample decodes from a stored 16-bit word. */
  function Decode(w: nat): (r: real)
    requires w < Two16
    ensures -1.0 <= r < 1.0
  {
    AsInt16(w) as real / 32768.0
  }

  /** Every value in [-1, 1) short of the last half step below 1 reads back
      within half a step (1/65536) of itself. */
  lemma {:induction false} SampleRoundTrip(x: real)
    requires -1.0 <= x && x * 32768.0 < 32767.5
    ensures -1.0 / 65536.0 <= Decode(Word(x)) - x <= 1.0 / 65536.0
  {
    var e := Encode(x);
    assert -0x8000 <= e < 0x8000;
    assert Trunc(e as real) == e;
    assert Word(x) == e % Two16;
    if e < 0 {
      assert Word(x) == e + Two16;
    }
    assert AsInt16(Word(x)) == e;
  }

  /** x = 1.0 becomes 32768, which does not fit an int16: setInt16 wraps it
      and the sample reads back as -1.0. */
  lemma {:induction false} FullScaleWraps()
    ensures Encode(1.0) == 0x8000 && Decode(Word(1.0)) == -1.0
  {
    assert Trunc(32768.0) == 0x8000;
  }

  /** Two bytes per value, the words of the values in order. */
  function Pcm16(s: seq<real>): (r: seq<byte>)
    ensures |r| == 2 * |s|
    decreases |s|
  {
    if s == [] then [] else Pcm16(s[..|s| - 1]) + Le16(Word(s[|s| - 1]))
  }

  lemma {:induction false} Pcm16Append(s: seq<real>, t: seq<real>)
    ensures Pcm16(s + t) == Pcm16(s) + Pcm16(t)
    decreases |t|
  {
    if t == [] {
      assert s + t == s;
    } else {
      var u := t[..|t| - 1];
      assert (s + t)[..|s + t| - 1] == s + u;
      Pcm16Append(s, u);
    }
  }

  lemma {:induction false} Pcm16Snoc(s: seq<real>, x: real)
    ensures Pcm16(s + [x]) == Pcm16(s) + Le16(Word(x))
  {
    assert (s + [x])[..|s|] == s;
  }

  /** Value k of s is stored at bytes 2k and 2k + 1. */
  lemma {:induction false} Pcm16At(s: seq<real>, k: nat)
    requires k < |s|
    ensures Get16(Pcm16(s), 2 * k) == Word(s[k])
  {
    var front, back := s[..k], s[k + 1..];
    assert s == front + [s[k]] + back;
    Pcm16Append(front + [s[k]], back);
    Pcm16Append(front, [s[k]]);
    assert [s[k]][..0] == [];
    var r := Pcm16(s);
    var w := Le16(Word(s[k]));
    assert r == Pcm16(front) + w + Pcm16(back);
    assert r[2 * k] == w[0] && r[2 * k + 1] == w[1];
    Le16RoundTrip(Word(s[k]));
  }

  /** An input block: its sample rate, and for each channel the values of
      its frames (AudioBuffer.getChannelData). */
  datatype AudioInput = AudioInput(sampleRate: real, numberOfChannels: nat, length: nat, channelData: seq<seq<real>>)

  /** Every channel of the block holds length values. */
  predicate Complete(input: AudioInput) {
    |input.channelData| == input.numberOfChannels &&
    forall j :: 0 <= j < |input.channelData| ==> |input.channelData[j]| == input.length
  }

  /** getChannelData(j)[i]. Past the end of a channel the value is
      undefined, which Math.round turns into NaN and setInt16 stores as 0,
      the same word as for 0.0. */
  function ChannelValue(data: seq<seq<real>>, j: nat, i: nat): real {
    if j < |data| && i < |data[j]| then data[j][i] else 0.0
  }

  /** Channels 0 to c of frame i, in channel order. */
  function FrameValues(data: seq<seq<real>>, i: nat, c: nat): (r: seq<real>)
    ensures |r| == c
  {
    if c == 0 then [] else FrameValues(data, i, c - 1) + [ChannelValue(data, c - 1, i)]
  }

  /** Frames 0 to n, each with channels 0 to ch: the order onaudioprocess
      writes the values in. */
  function Interleaved(data: seq<seq<real>>, n: nat, ch: nat): (r: seq<real>)
  {
    if n == 0 then [] else Interleaved(data, n - 1, ch) + FrameValues(data, n - 1, ch)
  }

  lemma {:induction false} InterleavedLength(data: seq<seq<real>>, n: nat, ch: nat)
    ensures |Interleaved(data, n, ch)| == n * ch
  {
    if n > 0 {
      InterleavedLength(data, n - 1, ch);
      assert n * ch == (n - 1) * ch + ch;
    }
  }

  lemma {:induction false} FrameValuesAt(data: seq<seq<real>>, i: nat, c: nat, j: nat)
    requires j < c
    ensures FrameValues(data, i, c)[j] == ChannelValue(data, j, i)
  {
    if j < c - 1 {
      FrameValuesAt(data, i, c - 1, j);
    }
  }

  /** i * ch + j, for j < ch, lies in frame i: before any later frame and
      at or after frame i's start. */
  lemma {:induction false} FrameOffset(i: nat, m: nat, j: nat, ch: nat)
    requires j < ch
    ensures i < m ==> i * ch + j < m * ch
    ensures i >= m ==> i * ch + j >= m * ch
  {
    if i < m {
      MulLe(i + 1, m, ch);
    } else {
      MulLe(m, i, ch);
    }
  }

  /** Value i * ch + j of the interleaved values is channel j of frame i. */
  lemma {:induction false} InterleavedAt(data: seq<seq<real>>, n: nat, ch: nat, i: nat, j: nat)
    requires i < n && j < ch
    ensures i * ch + j < n * ch == |Interleaved(data, n, ch)|
    ensures Interleaved(data, n, ch)[i * ch + j] == ChannelValue(data, j, i)
  {
    var m := n - 1;
    FrameOffset(i, m, j, ch);
    FrameOffset(i, n, j, ch);
    InterleavedLength(data, m, ch);
    InterleavedLength(data, n, ch);
    if i < m {
      InterleavedAt(data, m, ch, i, j);
    } else {
      assert i * ch + j == m * ch + j;
      FrameValuesAt(data, m, ch, j);
    }
  }

  /** The bytes of the pushed buffers, one after another. */
  function Concat(bs: seq<seq<byte>>): (r: seq<byte>)
    decreases |bs|
  {
    if bs == [] then [] else Concat(bs[..|bs| - 1]) + bs[|bs| - 1]
  }

  lemma {:induction false} ConcatPush(bs: seq<seq<byte>>, b: seq<byte>)
    ensures Concat(bs + [b]) == Concat(bs) + b
  {
    assert (bs + [b])[..|bs|] == bs;
  }

  /** No pushed buffer reaches past the frames counted: the encoded values
      and the count after one more block, when the channel count was
      either unset (and nothing was encoded) or stays the same. */
  lemma {:induction false} CountBound(len: nat, count: nat, n: nat, oldCh: nat, ch: nat)
    requires len <= count * oldCh && (oldCh == 0 || oldCh == ch)
    ensures (if oldCh == 0 then 0 else len) + n * ch <= (count + n) * ch
  {
    assert (count + n) * ch == count * ch + n * ch;
    MulLe(0, count, ch);
  }

  /** The pushed buffers encode the recorded values s, and those fill no
      more than count frames of ch channels. */
  predicate Encoded(bs: seq<seq<byte>>, s: seq<real>, count: nat, ch: nat) {
    Concat(bs) == Pcm16(s) && |s| <= count * ch
  }

  /** Pushing the encoding of n more frames keeps Encoded, when the channel
      count was either unset (and nothing was recorded) or stays the same. */
  lemma {:induction false} PushEncoded(bs: seq<seq<byte>>, s: seq<real>, count: nat, oldCh: nat, ch: nat,
                                       n: nat, values: seq<real>)
    requires Encoded(bs, s, count, oldCh) && (oldCh == 0 || oldCh == ch) && |values| == n * ch
    ensures oldCh == 0 ==> s == []
    ensures Encoded(bs + [Pcm16(values)], s + values, count + n, ch)
  {
    CountBound(|s|, count, n, oldCh, ch);
    if oldCh == 0 {
      assert count * oldCh == 0;
    }
    ConcatPush(bs, Pcm16(values));
    Pcm16Append(s, values);
  }

  /** The bytes sound() builds: the header h, then data, then zeros up to
      cap bytes of samples. */
  predicate Recorded(r: seq<byte>, h: seq<byte>, data: seq<byte>, cap: int) {
    |h| == HeaderSize && |r| == HeaderSize + cap && |data| <= cap &&
    r[..HeaderSize] == h && r[HeaderSize..HeaderSize + |data|] == data &&
    forall k :: HeaderSize + |data| <= k < |r| ==> r[k] == 0
  }

  /** setInt16(off, x, true): ToInt16 of x, stored as its two's-complement
      bits. */
  method SetInt16(view: array<byte>, off: nat, x: real)
    requires off + 2 <= view.Length
    modifies view
    ensures view[..off + 2] == old(view[..off]) + Le16(ToUint16(x))
    ensures view[off + 2..] == old(view[off + 2..])
  {
    var v := AsInt16(ToUint16(x));
    var bits := v % Two16;
    assert bits == ToUint16(x);
    view[off] := (bits % 0x100) as byte;
    view[off + 1] := (bits / 0x100) as byte;
  }

  /** The bytes of k frames of ch 16-bit values, a frame at a time. */
  function Stride(k: nat, ch: nat): (r: nat)
  {
    if k == 0 then 0 else Stride(k - 1, ch) + 2 * ch
  }

  lemma {:induction false} StrideBytes(k: nat, ch: nat)
    ensures Stride(k, ch) == k * ch * 2
  {
    if k > 0 {
      StrideBytes(k - 1, ch);
      assert k * ch * 2 == (k - 1) * ch * 2 + 2 * ch;
    }
  }

  /** Frame i + 1 ends no later than frame n when i < n. */
  lemma {:induction false} StrideNext(i: nat, n: nat, ch: nat)
    requires i < n
    ensures Stride(i + 1, ch) <= Stride(n, ch)
    decreases n - i
  {
    if i + 1 < n {
      StrideNext(i + 1, n, ch);
    }
  }

  /** One more channel of frame i adds the word of its value. */
  lemma {:induction false} FrameStep(data: seq<seq<real>>, i: nat, j: nat)
    ensures Pcm16(FrameValues(data, i, j + 1)) == Pcm16(FrameValues(data, i, j)) + Le16(Word(ChannelValue(data, j, i)))
  {
    Pcm16Snoc(FrameValues(data, i, j), ChannelValue(data, j, i));
  }

  /** The bytes of frames 0 to i followed by those of frame i are the
      bytes of frames 0 to i + 1. */
  lemma {:induction false} NextBlockBytes(prev: seq<byte>, cur: seq<byte>, data: seq<seq<real>>, i: nat, ch: nat)
    requires prev == Pcm16(Interleaved(data, i, ch))
    requires cur == prev + Pcm16(FrameValues(data, i, ch))
    ensures cur == Pcm16(Interleaved(data, i + 1, ch))
  {
    Pcm16Append(Interleaved(data, i, ch), FrameValues(data, i, ch));
  }

  /** Appending is associative. */
  lemma AppendAssoc(a: seq<byte>, b: seq<byte>, c: seq<byte>)
    ensures (a + b) + c == a + (b + c)
  {
  }

  /** The inner loop of onaudioprocess (recorder/assets/jswav.js:321-325):
      the ch values of frame i written with setInt16 from byte x0 on. */
  method EncodeFrame(buffer: array<byte>, x0: nat, data: seq<seq<real>>, i: nat, ch: nat)
    requires x0 + 2 * ch <= buffer.Length
    modifies buffer
    ensures buffer[..x0 + 2 * ch] == old(buffer[..x0]) + Pcm16(FrameValues(data, i, ch))
  {
    var x := x0;
    var j := 0;
    while j < ch
      invariant 0 <= j <= ch && x == x0 + 2 * j
      invariant buffer[..x] == old(buffer[..x0]) + Pcm16(FrameValues(data, i, j))
    {
      var value := Encode(ChannelValue(data, j, i));
      ghost var front := Pcm16(FrameValues(data, i, j));
      SetInt16(buffer, x, value as real);
      FrameStep(data, i, j);
      AppendAssoc(old(buffer[..x0]), front, Le16(Word(ChannelValue(data, j, i))));
      x := x + 2;
      j := j + 1;
    }
  }

  /** The outer loop of onaudioprocess (recorder/assets/jswav.js:319-326):
      frame by frame, each frame's values after those of the frames before. */
  method FillBlock(buffer: array<byte>, data: seq<seq<real>>, n: nat, ch: nat)
    requires buffer.Length == Stride(n, ch)
    modifies buffer
    ensures buffer[..] == Pcm16(Interleaved(data, n, ch))
  {
    var x: nat := 0;
    var i := 0;
    while i < n
      invariant i <= n && x == Stride(i, ch) <= buffer.Length
      invariant buffer[..x] == Pcm16(Interleaved(data, i, ch))
    {
      StrideNext(i, n, ch);
      ghost var prev := buffer[..x];
      EncodeFrame(buffer, x, data, i, ch);
      NextBlockBytes(prev, buffer[..x + 2 * ch], data, i, ch);
      x := x + 2 * ch;
      i := i + 1;
    }
    assert buffer[..] == buffer[..x];
  }

  /** The interleaving of onaudioprocess (recorder/assets/jswav.js:317-326):
      a new buffer of n * ch * 2 bytes, filled frame by frame. */
  method EncodeBlock(data: seq<seq<real>>, n: nat, ch: nat) returns (buffer: array<byte>)
    ensures fresh(buffer) && buffer[..] == Pcm16(Interleaved(data, n, ch))
  {
    buffer := new byte[n * ch * 2];
    StrideBytes(n, ch);
    FillBlock(buffer, data, n, ch);
  }

  /** The first i pushed buffers are a prefix of all of them. */
  lemma {:induction false} ConcatPrefix(bs: seq<seq<byte>>, i: nat)
    requires i < |bs|
    ensures Concat(bs[..i + 1]) == Concat(bs[..i]) + bs[i]
    ensures |Concat(bs[..i]) + bs[i]| <= |Concat(bs)|
    decreases |bs| - i
  {
    assert bs[..i + 1] == bs[..i] + [bs[i]];
    ConcatPush(bs[..i], bs[i]);
    if i + 1 < |bs| {
      ConcatPrefix(bs, i + 1);
    } else {
      assert bs[..i + 1] == bs;
    }
  }

  /** The copy loop of sound() for one pushed buffer
      (recorder/assets/jswav.js:350-352): the bytes of b stored one
      setUint8 at a time from byte off on. */
  method CopyBuffer(view: array<byte>, off: nat, b: seq<byte>)
    requires off + |b| <= view.Length
    modifies view
    ensures forall k :: 0 <= k < view.Length ==>
      view[k] == if off <= k < off + |b| then b[k - off] else old(view[k])
  {
    var j := 0;
    while j < |b|
      invariant 0 <= j <= |b|
      invariant forall k :: 0 <= k < view.Length ==>
        view[k] == if off <= k < off + j then b[k - off] else old(view[k])
    {
      view[off + j] := b[j];
      j := j + 1;
    }
  }

  /** Copying one more buffer right after the data copied so far, within
      the capacity, keeps the layout of header, data and zeros. */
  lemma {:induction false} RecordedPush(r: seq<byte>, r2: seq<byte>, h: seq<byte>, data: seq<byte>,
                                        b: seq<byte>, cap: int)
    requires Recorded(r, h, data, cap) && |data| + |b| <= cap && |r2| == |r|
    requires forall k :: 0 <= k < |r| ==>
      r2[k] == if HeaderSize + |data| <= k < HeaderSize + |data| + |b| then b[k - HeaderSize - |data|] else r[k]
    ensures Recorded(r2, h, data + b, cap)
  {
    var d := data + b;
    assert r2[..HeaderSize] == r[..HeaderSize];
    assert forall k :: HeaderSize <= k < HeaderSize + |d| ==> r2[HeaderSize..HeaderSize + |d|][k - HeaderSize] == r2[k] == d[k - HeaderSize];
  }

  /** The outer copy loop of sound() (recorder/assets/jswav.js:345-353):
      the pushed buffers copied in order from byte 44 on. */
  method CopyBuffers(buffer: array<byte>, ghost h: seq<byte>, bs: seq<seq<byte>>, ghost cap: int)
    requires Recorded(buffer[..], h, [], cap) && |Concat(bs)| <= cap
    modifies buffer
    ensures Recorded(buffer[..], h, Concat(bs), cap)
  {
    var byteIdx := HeaderSize;
    var i := 0;
    while i < |bs|
      invariant 0 <= i <= |bs| && byteIdx == HeaderSize + |Concat(bs[..i])|
      invariant Recorded(buffer[..], h, Concat(bs[..i]), cap)
    {
      var aBuffer := bs[i];
      ConcatPrefix(bs, i);
      ghost var before := buffer[..];
      CopyBuffer(buffer, byteIdx, aBuffer);
      RecordedPush(before, buffer[..], h, Concat(bs[..i]), aBuffer, cap);
      byteIdx := byteIdx + |aBuffer|;
      i := i + 1;
    }
    assert bs[..i] == bs;
  }

  /** The data size of count frames of ch 16-bit samples, as setFields
      computes it, is the whole number count * ch * 2. */
  lemma {:induction false} Pcm16Size(count: nat, ch: nat)
    ensures 0 <= count * ch * 2 && TotalSize(count, 16, ch) == (count * ch * 2) as real
  {
    assert count * 16 * ch == 8 * (count * ch * 2);
  }

  /** Value k of the recorded data, two bytes from byte 44 + 2k on: the
      word stored for s[k], or zero past the recorded values. */
  lemma {:induction false} RecordedWord(r: seq<byte>, h: seq<byte>, s: seq<real>, cap: int, k: nat)
    requires Recorded(r, h, Pcm16(s), cap) && HeaderSize + 2 * k + 2 <= |r|
    ensures Get16(r, HeaderSize + 2 * k) == if k < |s| then Word(s[k]) else 0
  {
    var off, p := HeaderSize + 2 * k, Pcm16(s);
    if k < |s| {
      Pcm16At(s, k);
      assert r[off..off + 2] == p[2 * k..2 * k + 2] by {
        assert r[off] == r[HeaderSize..HeaderSize + |p|][2 * k] == p[2 * k];
        assert r[off + 1] == r[HeaderSize..HeaderSize + |p|][2 * k + 1] == p[2 * k + 1];
      }
    } else {
      assert r[off] == 0 && r[off + 1] == 0;
    }
  }

  /** The header sound() writes reads back as a WAVE header of 16-bit
      samples with the channels, the rate and the data size it was given. */
  lemma {:induction false} RecordedHeader(r: seq<byte>, data: seq<byte>, count: nat, rate: int, ch: nat)
    requires Recorded(r, FreshHeader(count, rate, 16, ch), data, count * ch * 2)
    requires 0 < ch < Two16 && 0 < rate < Two32 && count * ch * 2 < Two32
    ensures Recording(r, count, ch) && SampleRate(r) == rate && IsWaveHeader(r)
  {
    var h, total := FreshHeader(count, rate, 16, ch), count * ch * 2;
    Pcm16Size(count, ch);
    FreshHeaderRead(count, rate, 16, ch, total);
    SameHead(h, r);
  }

  /** A buffer with a header for count frames of ch 16-bit samples at a
      positive rate, holding exactly its data chunk. */
  predicate Recording(r: seq<byte>, count: nat, ch: nat) {
    |r| == HeaderSize + count * ch * 2 && BitsPerSample(r) == 16 && Channels(r) == ch &&
    SampleRate(r) > 0 && DataSize(r) == count * ch * 2
  }

  /** Two bytes per 16-bit sample, ch samples per frame. */
  lemma {:induction false} Pcm16Block(ch: nat, count: nat)
    ensures 16 / 8 * ch * count == count * ch * 2
  {
  }

  /** Such a buffer is well-formed with count frames. */
  lemma {:induction false} RecordingFrames(r: seq<byte>, count: nat, ch: nat)
    requires Recording(r, count, ch) && 0 < ch && 0 < count
    ensures WellFormed(r) && Frames(r) == count
  {
    Pcm16Block(ch, count);
    FramesOf(r, count);
  }

  /** Sample j of frame i lies at value i * ch + j of the data. */
  lemma {:induction false} SampleSlot(i: nat, j: nat, count: nat, ch: nat)
    requires i < count && j < ch
    ensures 0 <= i * ch + j && i * ch * 2 + j * 2 == 2 * (i * ch + j) && 2 * (i * ch + j) + 2 <= count * ch * 2
  {
    FrameOffset(i, count, j, ch);
  }

  /** What getSample reads for interleaved value k of the recorded values
      s: the stored word decoded, or 0 past the recorded values. */
  function RecordedValue(s: seq<real>, k: int): (x: real)
    ensures -1.0 <= x < 1.0
  {
    if 0 <= k < |s| then Decode(Word(s[k])) else 0.0
  }

  /** Sample j of frame i of such a buffer is value i * ch + j of the
      recorded values. */
  lemma {:induction false} RecordingSample(r: seq<byte>, s: seq<real>, count: nat, ch: nat, i: nat, j: nat)
    requires Recording(r, count, ch) && Recorded(r, r[..HeaderSize], Pcm16(s), count * ch * 2)
    requires i < count && j < ch
    ensures HasSample(r, i, j) && GetSample(r, i, j) == Some(RecordedValue(s, i * ch + j))
  {
    SampleSlot(i, j, count, ch);
    RecordedWord(r, r[..HeaderSize], s, count * ch * 2, i * ch + j);
  }

  /** What a recording reads back as through Sound: a well-formed WAVE
      sound of count frames whose sample j of frame i is the value stored
      for interleaved value i * ch + j, or 0 past the recorded values. */
  lemma {:induction false} RecordedSample(r: seq<byte>, s: seq<real>, count: nat, rate: int, ch: nat, i: nat, j: nat)
    requires Recorded(r, FreshHeader(count, rate, 16, ch), Pcm16(s), count * ch * 2)
    requires 0 < ch < Two16 && 0 < rate < Two32 && count * ch * 2 < Two32
    requires i < count && j < ch
    ensures WellFormed(r) && Frames(r) == count && SampleRate(r) == rate
    ensures HasSample(r, i, j) && GetSample(r, i, j) == Some(RecordedValue(s, i * ch + j))
  {
    RecordedHeader(r, Pcm16(s), count, rate, ch);
    RecordingFrames(r, count, ch);
    RecordingSample(r, s, count, ch, i, j);
  }

  class WavNode {
    var buffers: seq<seq<byte>>
    var sampleCount: nat
    var sampleRate: int
    var channels: nat
    /** The input values encoded so far, in the order they were written. */
    ghost var samples: seq<real>

    /** The pushed bytes encode the values recorded, and those fill no more
        than sampleCount frames of the current channel count. */
    ghost predicate Valid()
      reads this
    {
      Encoded(buffers, samples, sampleCount, channels)
    }

    /** WavNode (recorder/assets/jswav.js:292-297). */
    constructor ()
      ensures buffers == [] && sampleCount == 0 && sampleRate == 0 && channels == 0
      ensures samples == [] && Valid()
    {
      buffers := [];
      sampleCount := 0;
      sampleRate := 0;
      channels := 0;
      samples := [];
    }

    /** The opening of onaudioprocess (recorder/assets/jswav.js:307-312):
        the rate and the channel count are taken from the first block. */
    method TakeFormat(input: AudioInput)
      requires Valid()
      modifies this
      ensures sampleRate == (if old(sampleRate) == 0 then Round(input.sampleRate) else old(sampleRate))
      ensures channels == (if old(channels) == 0 then input.numberOfChannels else old(channels))
      ensures sampleCount == old(sampleCount) && buffers == old(buffers) && samples == old(samples)
      ensures Valid()
    {
      if sampleRate == 0 {
        sampleRate := Round(input.sampleRate);
      }
      if channels == 0 {
        MulLe(0, sampleCount, input.numberOfChannels);
        channels := input.numberOfChannels;
      }
    }

    /** The rest of onaudioprocess (recorder/assets/jswav.js:315-327): n
        more frames counted, their values interleaved and pushed as one
        buffer of 16-bit words. */
    method PushBlock(data: seq<seq<real>>, n: nat)
      requires Valid()
      modifies this
      ensures sampleRate == old(sampleRate) && channels == old(channels)
      ensures sampleCount == old(sampleCount) + n
      ensures var values := Interleaved(data, n, channels);
        buffers == old(buffers) + [Pcm16(values)] && samples == old(samples) + values
      ensures Valid()
    {
      var ch := channels;
      sampleCount := sampleCount + n;
      var buffer := EncodeBlock(data, n, ch);
      ghost var values := Interleaved(data, n, ch);
      InterleavedLength(data, n, ch);
      PushEncoded(buffers, samples, sampleCount - n, ch, ch, n, values);
      buffers := buffers + [buffer[..]];
      samples := samples + values;
    }

    /** onaudioprocess (recorder/assets/jswav.js:305-331) on one input
        block. */
    method OnAudioProcess(input: AudioInput)
      requires Valid() && Complete(input)
      requires channels == 0 || channels <= input.numberOfChannels
      modifies this
      ensures sampleRate == (if old(sampleRate) == 0 then Round(input.sampleRate) else old(sampleRate))
      ensures channels == (if old(channels) == 0 then input.numberOfChannels else old(channels))
      ensures sampleCount == old(sampleCount) + input.length
      ensures var values := Interleaved(input.channelData, input.length, channels);
        buffers == old(buffers) + [Pcm16(values)] && samples == old(samples) + values
      ensures Valid()
    {
      TakeFormat(input);
      PushBlock(input.channelData, input.length);
    }

    /** sound() (recorder/assets/jswav.js:334-356): a buffer for
        sampleCount frames of channels 16-bit samples, the header
        setDefaults and setFields write, then the pushed bytes in order; a
        block of fewer channels than the count leaves its share of the
        buffer zero. */
    method Sound() returns (s: WavSound.Sound)
      requires Valid()
      ensures fresh(s) && fresh(s.buffer) && s.header.view == s.buffer
      ensures Recorded(s.buffer[..], FreshHeader(sampleCount, sampleRate, 16, channels), Concat(buffers),
                       sampleCount * channels * 2)
    {
      var dataBytes := sampleCount * channels * 2;
      var buffer := NewWave(dataBytes, sampleCount, sampleRate, 16, channels);
      ghost var h := FreshHeader(sampleCount, sampleRate, 16, channels);
      NewHeaderZeros(dataBytes, sampleCount, sampleRate, 16, channels);
      assert Recorded(buffer[..], h, [], dataBytes);
      assert |Concat(buffers)| <= dataBytes;
      CopyBuffers(buffer, h, buffers, dataBytes);
      s := new WavSound.Sound(buffer);
    }
  }
}
