/** The canonical 44-byte header of a RIFF WAVE file holding PCM data, as
    jswav's Header reads and writes it through a DataView (the layout of the
    Multimedia Programming Interface and Data Specifications 1.0: a 'RIFF'
    chunk of form 'WAVE' with a 16-byte 'fmt ' chunk and a 'data' chunk).
    The getters are functions of the viewed bytes; the setters are methods
    of Header over the byte array. */
module WavHeader {
  import opened WavBytes

  const HeaderSize: nat := 44

  /** The bytes of an ASCII string, one per character. */
  function Ascii(s: string): (r: seq<byte>)
    requires forall i :: 0 <= i < |s| ==> s[i] as int < 0x100
    ensures |r| == |s| && forall i :: 0 <= i < |s| ==> r[i] as int == s[i] as int
  {
    seq(|s|, i requires 0 <= i < |s| => s[i] as int as byte)
  }

  /** The chunk names as the little-endian numbers setDefaults stores. */
  const RiffId: nat := 0x46464952
  const WaveId: nat := 0x45564157
  const FmtId: nat := 0x20746d66
  const DataId: nat := 0x61746164

  /** The constant fields every header carries: the three chunk names,
      the 'fmt ' chunk length 16, format 1 (PCM) and the 'data' name. */
  predicate IsWaveHeader(b: seq<byte>) {
    |b| >= HeaderSize &&
    Get32(b, 0) == RiffId && Get32(b, 8) == WaveId && Get32(b, 12) == FmtId &&
    Get32(b, 16) == 16 && Get16(b, 20) == 1 && Get32(b, 36) == DataId
  }

  // The getters (recorder/assets/jswav.js:135-154).

  function BitsPerSample(b: seq<byte>): nat
    requires |b| >= HeaderSize
  {
    Get16(b, 34)
  }

  function Channels(b: seq<byte>): nat
    requires |b| >= HeaderSize
  {
    Get16(b, 22)
  }

  function SampleRate(b: seq<byte>): nat
    requires |b| >= HeaderSize
  {
    Get32(b, 24)
  }

  /** The size of the 'data' chunk, which getSampleCount divides. */
  function DataSize(b: seq<byte>): nat
    requires |b| >= HeaderSize
  {
    Get32(b, 40)
  }

  /** The bytes per sample frame as a JavaScript number. */
  function FrameBytes(b: seq<byte>): real
    requires |b| >= HeaderSize
  {
    (BitsPerSample(b) * Channels(b)) as real / 8.0
  }

  /** getSampleCount: the data size over the bytes per frame; a header
      with zero bits or zero channels would give NaN or Infinity. */
  function SampleCount(b: seq<byte>): (r: real)
    requires |b| >= HeaderSize && BitsPerSample(b) * Channels(b) != 0
    ensures 0.0 <= r && (DataSize(b) == 0 <==> r == 0.0)
  {
    DataSize(b) as real / FrameBytes(b)
  }

  /** getDuration: the sample count over the sample rate. */
  function Duration(b: seq<byte>): (r: real)
    requires |b| >= HeaderSize && BitsPerSample(b) * Channels(b) != 0 && SampleRate(b) != 0
    ensures 0.0 <= r && (DataSize(b) == 0 <==> r == 0.0)
  {
    SampleCount(b) / SampleRate(b) as real
  }

  /** setDefaults (recorder/assets/jswav.js:156-163) on the bytes b. */
  function Defaults(b: seq<byte>): (r: seq<byte>)
    requires |b| >= HeaderSize
    ensures |r| == |b|
  {
    var b1 := Put32(b, 0, RiffId);
    var b2 := Put32(b1, 8, WaveId);
    var b3 := Put32(b2, 12, FmtId);
    var b4 := Put32(b3, 16, 0x10);
    var b5 := Put16(b4, 20, 1);
    Put32(b5, 36, DataId)
  }

  /** The data size setFields computes: count times bytes per sample times
      channels, as a JavaScript number. The arithmetic is exact here, so the
      order of the factors does not matter. */
  function TotalSize(count: int, bits: int, ch: int): real {
    (count * bits * ch) as real / 8.0
  }

  /** The fields setFields writes, already converted: the 'RIFF' size at 4,
      channels at 22, sample rate at 24, byte rate at 28, block align at 32,
      bits per sample at 34 and the data size at 40, in that order. */
  function Layout(b: seq<byte>, riff: nat, ch: nat, rate: nat, byteRate: nat,
                  align: nat, bits: nat, data: nat): (r: seq<byte>)
    requires |b| >= HeaderSize
    requires riff < Two32 && ch < Two16 && rate < Two32 && byteRate < Two32
    requires align < Two16 && bits < Two16 && data < Two32
    ensures |r| == |b|
  {
    var b1 := Put32(b, 4, riff);
    var b2 := Put16(b1, 22, ch);
    var b3 := Put32(b2, 24, rate);
    var b4 := Put32(b3, 28, byteRate);
    var b5 := Put16(b4, 32, align);
    var b6 := Put16(b5, 34, bits);
    Put32(b6, 40, data)
  }

  /** setFields (recorder/assets/jswav.js:165-176) on the bytes b; every
      value goes through the setter's conversion to 16 or 32 bits. */
  function Fields(b: seq<byte>, count: int, rate: int, bits: int, ch: int): (r: seq<byte>)
    requires |b| >= HeaderSize
    ensures |r| == |b|
  {
    var total := TotalSize(count, bits, ch);
    Layout(b, ToUint32(total + 36.0), ToUint16(ch as real), ToUint32(rate as real),
           ToUint32((rate * ch * bits) as real / 8.0),
           ToUint16((bits * ch) as real / 8.0), ToUint16(bits as real), ToUint32(total))
  }

  /** The 44 header bytes setDefaults and setFields write over zeros. */
  function FreshHeader(count: int, rate: int, bits: int, ch: int): (r: seq<byte>)
    ensures |r| == HeaderSize
  {
    Fields(Defaults(seq(HeaderSize, _ => 0 as byte)), count, rate, bits, ch)
  }

  /** A new zero-filled buffer for len bytes of samples after setDefaults
      and setFields, as crop and sound() build it: a fresh header, then
      len zero bytes. */
  function NewHeader(len: nat, count: int, rate: int, bits: int, ch: int): (r: seq<byte>)
    ensures |r| == HeaderSize + len && r[..HeaderSize] == FreshHeader(count, rate, bits, ch)
  {
    var h := FreshHeader(count, rate, bits, ch);
    assert (h + seq(len, _ => 0 as byte))[..HeaderSize] == h;
    h + seq(len, _ => 0 as byte)
  }

  /** Past the header the new buffer is all zeros. */
  lemma {:induction false} NewHeaderZeros(len: nat, count: int, rate: int, bits: int, ch: int)
    ensures forall k :: HeaderSize <= k < HeaderSize + len ==> NewHeader(len, count, rate, bits, ch)[k] == 0
  {
    var h, z := FreshHeader(count, rate, bits, ch), seq(len, _ => 0 as byte);
    assert forall k :: HeaderSize <= k < HeaderSize + len ==> (h + z)[k] == z[k - HeaderSize];
  }

  /** The numbers setDefaults stores spell the chunk names in ASCII. */
  lemma {:induction false} ChunkNames()
    ensures Le32(RiffId) == Ascii("RIFF") && Le32(WaveId) == Ascii("WAVE")
    ensures Le32(FmtId) == Ascii("fmt ") && Le32(DataId) == Ascii("data")
  {
    assert Le32(RiffId) == [0x52, 0x49, 0x46, 0x46];
    assert Le32(WaveId) == [0x57, 0x41, 0x56, 0x45];
    assert Le32(FmtId) == [0x66, 0x6d, 0x74, 0x20];
    assert Le32(DataId) == [0x64, 0x61, 0x74, 0x61];
  }

  /** The writes of setDefaults and setFields touch only the first 44
      bytes: on a buffer h + t they act on h and leave t as it is. */
  lemma {:induction false} DefaultsPrefix(h: seq<byte>, t: seq<byte>)
    requires |h| == HeaderSize
    ensures Defaults(h + t) == Defaults(h) + t
  {
    var b1 := Put32(h, 0, RiffId);
    var b2 := Put32(b1, 8, WaveId);
    var b3 := Put32(b2, 12, FmtId);
    var b4 := Put32(b3, 16, 0x10);
    var b5 := Put16(b4, 20, 1);
    Put32Prefix(h, t, 0, RiffId);
    Put32Prefix(b1, t, 8, WaveId);
    Put32Prefix(b2, t, 12, FmtId);
    Put32Prefix(b3, t, 16, 0x10);
    Put16Prefix(b4, t, 20, 1);
    Put32Prefix(b5, t, 36, DataId);
  }

  lemma {:induction false} LayoutPrefix(h: seq<byte>, t: seq<byte>, riff: nat, ch: nat, rate: nat, byteRate: nat,
                                        align: nat, bits: nat, data: nat)
    requires |h| == HeaderSize
    requires riff < Two32 && ch < Two16 && rate < Two32 && byteRate < Two32
    requires align < Two16 && bits < Two16 && data < Two32
    ensures Layout(h + t, riff, ch, rate, byteRate, align, bits, data) == Layout(h, riff, ch, rate, byteRate, align, bits, data) + t
  {
    var b1 := Put32(h, 4, riff);
    var b2 := Put16(b1, 22, ch);
    var b3 := Put32(b2, 24, rate);
    var b4 := Put32(b3, 28, byteRate);
    var b5 := Put16(b4, 32, align);
    var b6 := Put16(b5, 34, bits);
    Put32Prefix(h, t, 4, riff);
    Put16Prefix(b1, t, 22, ch);
    Put32Prefix(b2, t, 24, rate);
    Put32Prefix(b3, t, 28, byteRate);
    Put16Prefix(b4, t, 32, align);
    Put16Prefix(b5, t, 34, bits);
    Put32Prefix(b6, t, 40, data);
  }

  lemma {:induction false} FieldsPrefix(h: seq<byte>, t: seq<byte>, count: int, rate: int, bits: int, ch: int)
    requires |h| == HeaderSize
    ensures Fields(h + t, count, rate, bits, ch) == Fields(h, count, rate, bits, ch) + t
  {
    var total := TotalSize(count, bits, ch);
    LayoutPrefix(h, t, ToUint32(total + 36.0), ToUint16(ch as real), ToUint32(rate as real),
                 ToUint32((rate * ch * bits) as real / 8.0),
                 ToUint16((bits * ch) as real / 8.0), ToUint16(bits as real), ToUint32(total));
  }

  /** A zero-filled buffer after setDefaults and setFields is the new
      header. */
  lemma {:induction false} ZerosHeader(len: nat, count: int, rate: int, bits: int, ch: int)
    ensures Fields(Defaults(seq(HeaderSize + len, _ => 0 as byte)), count, rate, bits, ch) == NewHeader(len, count, rate, bits, ch)
  {
    var z, t := seq(HeaderSize, _ => 0 as byte), seq(len, _ => 0 as byte);
    assert seq(HeaderSize + len, _ => 0 as byte) == z + t;
    DefaultsPrefix(z, t);
    FieldsPrefix(Defaults(z), t, count, rate, bits, ch);
  }

  /** setDefaults makes a wave header. */
  lemma {:induction false} DefaultsWaveHeader(b: seq<byte>)
    requires |b| >= HeaderSize
    ensures IsWaveHeader(Defaults(b))
  {
    var b1 := Put32(b, 0, RiffId);
    var b2 := Put32(b1, 8, WaveId);
    var b3 := Put32(b2, 12, FmtId);
    var b4 := Put32(b3, 16, 0x10);
    var b5 := Put16(b4, 20, 1);
    GetPut32(b, 0, RiffId);
    Get32Put32(b1, 8, WaveId, 0);
    Get32Put32(b2, 12, FmtId, 0);
    Get32Put32(b3, 16, 0x10, 0);
    Get32Put16(b4, 20, 1, 0);
    Get32Put32(b5, 36, DataId, 0);
    GetPut32(b1, 8, WaveId);
    Get32Put32(b2, 12, FmtId, 8);
    Get32Put32(b3, 16, 0x10, 8);
    Get32Put16(b4, 20, 1, 8);
    Get32Put32(b5, 36, DataId, 8);
    GetPut32(b2, 12, FmtId);
    Get32Put32(b3, 16, 0x10, 12);
    Get32Put16(b4, 20, 1, 12);
    Get32Put32(b5, 36, DataId, 12);
    GetPut32(b3, 16, 0x10);
    Get32Put16(b4, 20, 1, 16);
    Get32Put32(b5, 36, DataId, 16);
    GetPut16(b4, 20, 1);
    Get16Put32(b5, 36, DataId, 20);
    GetPut32(b5, 36, DataId);
  }

  /** A write to a field setFields owns keeps a wave header one: the
      'RIFF' size, the byte rate and the data size for 32 bits, channels,
      block align and bits per sample for 16. */
  lemma {:induction false} Put32KeepsWaveHeader(b: seq<byte>, off: nat, v: nat)
    requires IsWaveHeader(b) && v < Two32 && (off == 4 || off == 24 || off == 28 || off == 40)
    ensures IsWaveHeader(Put32(b, off, v))
  {
    Get32Put32(b, off, v, 0);
    Get32Put32(b, off, v, 8);
    Get32Put32(b, off, v, 12);
    Get32Put32(b, off, v, 16);
    Get16Put32(b, off, v, 20);
    Get32Put32(b, off, v, 36);
  }

  lemma {:induction false} Put16KeepsWaveHeader(b: seq<byte>, off: nat, v: nat)
    requires IsWaveHeader(b) && v < Two16 && (off == 22 || off == 32 || off == 34)
    ensures IsWaveHeader(Put16(b, off, v))
  {
    Get32Put16(b, off, v, 0);
    Get32Put16(b, off, v, 8);
    Get32Put16(b, off, v, 12);
    Get32Put16(b, off, v, 16);
    Get16Put16(b, off, v, 20);
    Get32Put16(b, off, v, 36);
  }

  /** The fields setFields writes lie outside the constant fields, so a
      wave header stays one. */
  lemma {:induction false} LayoutKeepsWaveHeader(b: seq<byte>, riff: nat, ch: nat, rate: nat, byteRate: nat,
                                                 align: nat, bits: nat, data: nat)
    requires IsWaveHeader(b)
    requires riff < Two32 && ch < Two16 && rate < Two32 && byteRate < Two32
    requires align < Two16 && bits < Two16 && data < Two32
    ensures IsWaveHeader(Layout(b, riff, ch, rate, byteRate, align, bits, data))
  {
    var b1 := Put32(b, 4, riff);
    var b2 := Put16(b1, 22, ch);
    var b3 := Put32(b2, 24, rate);
    var b4 := Put32(b3, 28, byteRate);
    var b5 := Put16(b4, 32, align);
    var b6 := Put16(b5, 34, bits);
    Put32KeepsWaveHeader(b, 4, riff);
    Put16KeepsWaveHeader(b1, 22, ch);
    Put32KeepsWaveHeader(b2, 24, rate);
    Put32KeepsWaveHeader(b3, 28, byteRate);
    Put16KeepsWaveHeader(b4, 32, align);
    Put16KeepsWaveHeader(b5, 34, bits);
    Put32KeepsWaveHeader(b6, 40, data);
  }

  lemma {:induction false} FieldsKeepWaveHeader(b: seq<byte>, count: int, rate: int, bits: int, ch: int)
    requires IsWaveHeader(b)
    ensures IsWaveHeader(Fields(b, count, rate, bits, ch))
  {
    var total := TotalSize(count, bits, ch);
    LayoutKeepsWaveHeader(b, ToUint32(total + 36.0), ToUint16(ch as real), ToUint32(rate as real),
                          ToUint32((rate * ch * bits) as real / 8.0),
                          ToUint16((bits * ch) as real / 8.0), ToUint16(bits as real), ToUint32(total));
  }

  /** Each field of the layout reads back as the value written there. */
  lemma {:induction false} LayoutReadBack(b: seq<byte>, riff: nat, ch: nat, rate: nat, byteRate: nat,
                                          align: nat, bits: nat, data: nat)
    requires |b| >= HeaderSize
    requires riff < Two32 && ch < Two16 && rate < Two32 && byteRate < Two32
    requires align < Two16 && bits < Two16 && data < Two32
    ensures var r := Layout(b, riff, ch, rate, byteRate, align, bits, data);
      Get32(r, 4) == riff && Channels(r) == ch && SampleRate(r) == rate && Get32(r, 28) == byteRate &&
      Get16(r, 32) == align && BitsPerSample(r) == bits && DataSize(r) == data
  {
    var b1 := Put32(b, 4, riff);
    var b2 := Put16(b1, 22, ch);
    var b3 := Put32(b2, 24, rate);
    var b4 := Put32(b3, 28, byteRate);
    var b5 := Put16(b4, 32, align);
    var b6 := Put16(b5, 34, bits);
    GetPut32(b, 4, riff);
    Get32Put16(b1, 22, ch, 4);
    Get32Put32(b2, 24, rate, 4);
    Get32Put32(b3, 28, byteRate, 4);
    Get32Put16(b4, 32, align, 4);
    Get32Put16(b5, 34, bits, 4);
    Get32Put32(b6, 40, data, 4);
    GetPut16(b1, 22, ch);
    Get16Put32(b2, 24, rate, 22);
    Get16Put32(b3, 28, byteRate, 22);
    Get16Put16(b4, 32, align, 22);
    Get16Put16(b5, 34, bits, 22);
    Get16Put32(b6, 40, data, 22);
    GetPut32(b2, 24, rate);
    Get32Put32(b3, 28, byteRate, 24);
    Get32Put16(b4, 32, align, 24);
    Get32Put16(b5, 34, bits, 24);
    Get32Put32(b6, 40, data, 24);
    GetPut32(b3, 28, byteRate);
    Get32Put16(b4, 32, align, 28);
    Get32Put16(b5, 34, bits, 28);
    Get32Put32(b6, 40, data, 28);
    GetPut16(b4, 32, align);
    Get16Put16(b5, 34, bits, 32);
    Get16Put32(b6, 40, data, 32);
    GetPut16(b5, 34, bits);
    Get16Put32(b6, 40, data, 34);
    GetPut32(b6, 40, data);
  }

  /** After setFields every getter reads back the converted value it was
      given, and the byte rate and block align fields hold theirs. */
  lemma {:induction false} FieldsReadBack(b: seq<byte>, count: int, rate: int, bits: int, ch: int)
    requires |b| >= HeaderSize
    ensures var r := Fields(b, count, rate, bits, ch);
      var total := TotalSize(count, bits, ch);
      Channels(r) == ToUint16(ch as real) && SampleRate(r) == ToUint32(rate as real) &&
      BitsPerSample(r) == ToUint16(bits as real) && DataSize(r) == ToUint32(total) &&
      Get32(r, 4) == ToUint32(total + 36.0) &&
      Get32(r, 28) == ToUint32((rate * ch * bits) as real / 8.0) &&
      Get16(r, 32) == ToUint16((bits * ch) as real / 8.0)
  {
    var total := TotalSize(count, bits, ch);
    LayoutReadBack(b, ToUint32(total + 36.0), ToUint16(ch as real), ToUint32(rate as real),
                   ToUint32((rate * ch * bits) as real / 8.0),
                   ToUint16((bits * ch) as real / 8.0), ToUint16(bits as real), ToUint32(total));
  }

  /** With values that fit their fields, the getters return exactly the
      rate, bits and channels given and the data size computed, and the
      'RIFF' size is the data size plus the 36 header bytes after it. */
  lemma {:induction false} FieldsExact(b: seq<byte>, count: int, rate: int, bits: int, ch: int, total: nat)
    requires |b| >= HeaderSize
    requires 0 <= ch < Two16 && 0 <= bits < Two16 && 0 <= rate < Two32
    requires TotalSize(count, bits, ch) == total as real && total < Two32
    ensures var r := Fields(b, count, rate, bits, ch);
      Channels(r) == ch && SampleRate(r) == rate && BitsPerSample(r) == bits && DataSize(r) == total
    ensures total + 36 < Two32 ==> Get32(Fields(b, count, rate, bits, ch), 4) == total + 36
  {
    FieldsReadBack(b, count, rate, bits, ch);
    ToUintExact(ch);
    ToUintExact(bits);
    ToUintExact(rate);
    ToUintExact(total);
    if total + 36 < Two32 {
      ToUintExact(total + 36);
      assert (total + 36) as real == TotalSize(count, bits, ch) + 36.0;
    }
  }

  /** count * bits * ch / 8 over bits * ch / 8 is count. */
  lemma {:induction false} CountOverFrame(count: int, bits: int, ch: int)
    requires bits * ch != 0
    ensures TotalSize(count, bits, ch) / ((bits * ch) as real / 8.0) == count as real
  {
    var p := bits * ch;
    assert count * bits * ch == count * p;
    assert (count * p) as real == count as real * p as real;
  }

  /** getSampleCount after setFields returns the count given, when every
      value fits its field and the data size is a whole number. */
  lemma {:induction false} SampleCountReadBack(b: seq<byte>, count: int, rate: int, bits: int, ch: int, total: nat)
    requires |b| >= HeaderSize
    requires 0 <= ch < Two16 && 0 <= bits < Two16 && 0 <= rate < Two32 && bits * ch != 0
    requires TotalSize(count, bits, ch) == total as real && total < Two32
    ensures var r := Fields(b, count, rate, bits, ch);
      BitsPerSample(r) * Channels(r) != 0 && SampleCount(r) == count as real
  {
    FieldsExact(b, count, rate, bits, ch, total);
    CountOverFrame(count, bits, ch);
  }

  /** The header fields of a buffer are those of its first 44 bytes,
      whatever follows them. */
  lemma {:induction false} HeadFields(h: seq<byte>, rest: seq<byte>)
    requires |h| >= HeaderSize
    ensures var b := h[..HeaderSize] + rest;
      IsWaveHeader(b) == IsWaveHeader(h) &&
      BitsPerSample(b) == BitsPerSample(h) && Channels(b) == Channels(h) &&
      SampleRate(b) == SampleRate(h) && DataSize(b) == DataSize(h)
  {
    var b := h[..HeaderSize] + rest;
    assert b[..HeaderSize] == h[..HeaderSize];
  }

  /** Two buffers that agree on their first 44 bytes have the same header. */
  lemma {:induction false} SameHead(h: seq<byte>, r: seq<byte>)
    requires |h| >= HeaderSize && |r| >= HeaderSize && r[..HeaderSize] == h[..HeaderSize]
    ensures IsWaveHeader(r) == IsWaveHeader(h) &&
      BitsPerSample(r) == BitsPerSample(h) && Channels(r) == Channels(h) &&
      SampleRate(r) == SampleRate(h) && DataSize(r) == DataSize(h)
  {
    assert forall k :: 0 <= k < HeaderSize ==> r[k] == r[..HeaderSize][k] == h[..HeaderSize][k] == h[k];
    assert r[0..4] == h[0..4] && r[8..12] == h[8..12] && r[12..16] == h[12..16] && r[16..20] == h[16..20];
    assert r[24..28] == h[24..28] && r[36..40] == h[36..40] && r[40..44] == h[40..44];
    assert r[20..22] == h[20..22] && r[22..24] == h[22..24] && r[34..36] == h[34..36];
  }

  /** A fresh header for values that fit their fields is a WAVE header
      that reads back those values. */
  lemma {:induction false} FreshHeaderRead(count: int, rate: int, bits: int, ch: int, total: nat)
    requires 0 <= ch < Two16 && 0 <= bits < Two16 && 0 <= rate < Two32
    requires TotalSize(count, bits, ch) == total as real && total < Two32
    ensures var h := FreshHeader(count, rate, bits, ch);
      IsWaveHeader(h) && Channels(h) == ch && SampleRate(h) == rate &&
      BitsPerSample(h) == bits && DataSize(h) == total
  {
    var zeros := seq(HeaderSize, _ => 0 as byte);
    DefaultsWaveHeader(zeros);
    FieldsKeepWaveHeader(Defaults(zeros), count, rate, bits, ch);
    FieldsExact(Defaults(zeros), count, rate, bits, ch, total);
  }

  /** The same holds for the whole new buffer, whatever its length. */
  lemma {:induction false} NewHeaderRead(len: nat, count: int, rate: int, bits: int, ch: int, total: nat)
    requires 0 <= ch < Two16 && 0 <= bits < Two16 && 0 <= rate < Two32
    requires TotalSize(count, bits, ch) == total as real && total < Two32
    ensures var h := NewHeader(len, count, rate, bits, ch);
      IsWaveHeader(h) && Channels(h) == ch && SampleRate(h) == rate &&
      BitsPerSample(h) == bits && DataSize(h) == total
  {
    FreshHeaderRead(count, rate, bits, ch, total);
    var h := NewHeader(len, count, rate, bits, ch);
    HeadFields(h, []);
    HeadFields(FreshHeader(count, rate, bits, ch), []);
  }

  /** DataView.setUint16(off, x, true) on the array view. */
  method SetUint16(view: array<byte>, off: nat, x: real)
    requires off + 2 <= view.Length
    modifies view
    ensures view[..] == Put16(old(view[..]), off, ToUint16(x))
  {
    var v := ToUint16(x);
    view[off] := (v % 0x100) as byte;
    view[off + 1] := (v / 0x100) as byte;
    assert view[..] == old(view[..])[..off] + Le16(v) + old(view[..])[off + 2..];
  }

  /** DataView.setUint32(off, x, true) on the array view. */
  method SetUint32(view: array<byte>, off: nat, x: real)
    requires off + 4 <= view.Length
    modifies view
    ensures view[..] == Put32(old(view[..]), off, ToUint32(x))
  {
    var v := ToUint32(x);
    var le := Le32(v);
    view[off] := le[0];
    view[off + 1] := le[1];
    view[off + 2] := le[2];
    view[off + 3] := le[3];
    assert view[..] == old(view[..])[..off] + le + old(view[..])[off + 4..];
  }

  /** Header (recorder/assets/jswav.js:131-177): a view of a byte buffer. */
  class Header {
    const view: array<byte>

    constructor (view: array<byte>)
      ensures this.view == view
    {
      this.view := view;
    }

    /** setDefaults (recorder/assets/jswav.js:156-163). */
    method SetDefaults()
      requires view.Length >= HeaderSize
      modifies view
      ensures view[..] == Defaults(old(view[..]))
    {
      ToUintExact(0x46464952);
      ToUintExact(0x45564157);
      ToUintExact(0x20746d66);
      ToUintExact(0x10);
      ToUintExact(1);
      ToUintExact(0x61746164);
      SetUint32(view, 0, 0x46464952 as real);
      SetUint32(view, 8, 0x45564157 as real);
      SetUint32(view, 12, 0x20746d66 as real);
      SetUint32(view, 16, 0x10 as real);
      SetUint16(view, 20, 1 as real);
      SetUint32(view, 36, 0x61746164 as real);
    }

    /** setFields (recorder/assets/jswav.js:165-176). */
    method SetFields(count: int, rate: int, bits: int, ch: int)
      requires view.Length >= HeaderSize
      modifies view
      ensures view[..] == Fields(old(view[..]), count, rate, bits, ch)
    {
      var totalSize := TotalSize(count, bits, ch);
      ghost var b0 := view[..];
      SetUint32(view, 4, totalSize + 36.0);
      SetUint16(view, 22, ch as real);
      SetUint32(view, 24, rate as real);
      SetUint32(view, 28, (rate * ch * bits) as real / 8.0);
      SetUint16(view, 32, (bits * ch) as real / 8.0);
      SetUint16(view, 34, bits as real);
      SetUint32(view, 40, totalSize);
      assert view[..] == Layout(b0, ToUint32(totalSize + 36.0), ToUint16(ch as real), ToUint32(rate as real),
                                ToUint32((rate * ch * bits) as real / 8.0),
                                ToUint16((bits * ch) as real / 8.0), ToUint16(bits as real), ToUint32(totalSize));
    }
  }

  /** A new buffer for a sound of dataBytes bytes of samples, with the
      header setDefaults and setFields write (the opening lines of crop,
      recorder/assets/jswav.js:228-234, and of sound(), 334-340). */
  method NewWave(dataBytes: nat, count: int, rate: int, bits: int, ch: int) returns (buf: array<byte>)
    ensures fresh(buf) && buf[..] == NewHeader(dataBytes, count, rate, bits, ch)
  {
    buf := new byte[HeaderSize + dataBytes](_ => 0 as byte);
    assert buf[..] == seq(HeaderSize + dataBytes, _ => 0 as byte);
    var header := new Header(buf);
    header.SetDefaults();
    header.SetFields(count, rate, bits, ch);
    ZerosHeader(dataBytes, count, rate, bits, ch);
  }
}
