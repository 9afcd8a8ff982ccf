/**
 * The PCM to WAV encoder of lib/yoruba-tts.ts (`floatToWavBlob`).
 *
 * The encoder allocates a buffer of 44 + 2n bytes, quantizes every sample to a
 * signed 16-bit value, writes the canonical RIFF/WAVE header of a mono 16-bit
 * PCM file and then the samples, little-endian. Samples are idealised as reals;
 * the DataView setters are modelled by their integer conversions (ToUint8,
 * ToUint16, ToUint32, ToInt16 are reductions modulo 2^8, 2^16, 2^32).
 */
module Wav {
  import opened Wrappers

  type Byte = b: int | 0 <= b < 256


  const Channels: int := 1
  const BytesPerSample: int := 2
  const BlockAlign: int := Channels * BytesPerSample
  const HeaderSize: int := 44

  // ---------------------------------------------------------------------------
  // Little-endian byte encodings, as written by DataView with littleEndian = true
  // ---------------------------------------------------------------------------

  /** The two bytes `setUint16`/`setInt16` store for `v` (reduced modulo 2^16). */
  function Le16(v: int): (r: seq<Byte>)
    ensures |r| == 2
  {
    var u := v % 0x1_0000;
    [u % 256, u / 256]
  }

  /** The four bytes `setUint32` stores for `v` (reduced modulo 2^32). */
  function Le32(v: int): (r: seq<Byte>)
    ensures |r| == 4
  {
    var u := v % 0x1_0000_0000;
    [u % 256, (u / 256) % 256, (u / 0x1_0000) % 256, u / 0x100_0000]
  }

  /** The bytes `setUint8(offset + i, str.charCodeAt(i))` stores for a string. */
  function Ascii(s: string): (r: seq<Byte>)
    ensures |r| == |s|
    ensures forall i :: 0 <= i < |s| ==> r[i] == (s[i] as int) % 256
  {
    seq(|s|, i requires 0 <= i < |s| => (s[i] as int) % 256)
  }

  /** Reading an unsigned little-endian 16-bit field at offset `k`. */
  function U16At(s: seq<Byte>, k: nat): int
    requires k + 2 <= |s|
  {
    s[k] as int + 256 * s[k + 1] as int
  }

  /** Reading an unsigned little-endian 32-bit field at offset `k`. */
  function U32At(s: seq<Byte>, k: nat): int
    requires k + 4 <= |s|
  {
    s[k] as int + 256 * s[k + 1] as int + 0x1_0000 * s[k + 2] as int + 0x100_0000 * s[k + 3] as int
  }

  /** Reading a signed (two's complement) little-endian 16-bit field at offset `k`. */
  function I16At(s: seq<Byte>, k: nat): int
    requires k + 2 <= |s|
  {
    var u := U16At(s, k);
    if u < 0x8000 then u else u - 0x1_0000
  }

  lemma Le16Reads(v: int)
    ensures U16At(Le16(v), 0) == v % 0x1_0000
  {
  }

  lemma Le32Reads(v: int)
    ensures U32At(Le32(v), 0) == v % 0x1_0000_0000
  {
    var u := v % 0x1_0000_0000;
    var q1 := u / 256;
    var q2 := q1 / 256;
    assert u == u % 256 + 256 * q1;
    assert q1 == q1 % 256 + 256 * q2;
    assert q2 == q2 % 256 + 256 * (q2 / 256);
    assert u / 0x1_0000 == q2;
    assert u / 0x100_0000 == q2 / 256;
  }

  lemma Le16ReadsSigned(v: int)
    requires -0x8000 <= v < 0x8000
    ensures I16At(Le16(v), 0) == v
  {
    Le16Reads(v);
  }

  // ---------------------------------------------------------------------------
  // Sample quantization: the `pcm16` loop
  // ---------------------------------------------------------------------------

  /** `Math.max(-1, Math.min(1, x))`. */
  function Clamp(x: real): (s: real)
    ensures -1.0 <= s <= 1.0
    ensures -1.0 <= x <= 1.0 ==> s == x
    ensures x > 1.0 ==> s == 1.0
    ensures x < -1.0 ==> s == -1.0
  {
    var m := if x < 1.0 then x else 1.0;
    if m > -1.0 then m else -1.0
  }

  /** The asymmetric full-scale mapping: negatives by 0x8000, the rest by 0x7fff. */
  function Scale(s: real): real
  {
    if s < 0.0 then s * 32768.0 else s * 32767.0
  }

  /** Truncation toward zero (ToIntegerOrInfinity on a finite number). */
  function Trunc(r: real): (t: int)
    ensures r >= 0.0 ==> t as real <= r < t as real + 1.0
    ensures r < 0.0 ==> t as real - 1.0 < r <= t as real
  {
    if r >= 0.0 then r.Floor else -((-r).Floor)
  }

  /** Reduction of an integer to a signed 16-bit value (ToInt16). */
  function Wrap16(v: int): (w: int)
    ensures -0x8000 <= w < 0x8000
    ensures (w - v) % 0x1_0000 == 0
  {
    var u := v % 0x1_0000;
    if u < 0x8000 then u else u - 0x1_0000
  }

  /** The value an Int16Array element holds after `pcm16[i] = r`. */
  function Int16Store(r: real): (v: int)
    ensures -0x8000 <= v < 0x8000
    ensures -32768.0 <= r < 32768.0 ==> v == Trunc(r)
  {
    Wrap16(Trunc(r))
  }

  /** The quantized value of one input sample. */
  function Quantize(x: real): (q: int)
    ensures -0x8000 <= q <= 0x7fff
    ensures q == Trunc(Scale(Clamp(x)))
    ensures x >= 0.0 ==> q >= 0
    ensures x < 0.0 ==> q <= 0
  {
    Int16Store(Scale(Clamp(x)))
  }

  /** Inputs beyond plus or minus one encode as the clamped extremes. */
  lemma QuantizeSaturates(x: real)
    ensures x >= 1.0 ==> Quantize(x) == Quantize(1.0) == 0x7fff
    ensures x <= -1.0 ==> Quantize(x) == Quantize(-1.0) == -0x8000
  {
  }

  /** Quantization never decreases when the sample grows. */
  lemma QuantizeMonotone(x: real, y: real)
    requires x <= y
    ensures Quantize(x) <= Quantize(y)
  {
  }

  function Quantized(samples: seq<real>): (q: seq<int>)
    ensures |q| == |samples|
    ensures forall i :: 0 <= i < |samples| ==> q[i] == Quantize(samples[i])
  {
    seq(|samples|, i requires 0 <= i < |samples| => Quantize(samples[i]))
  }

  // ---------------------------------------------------------------------------
  // The file layout
  // ---------------------------------------------------------------------------

  /** The RIFF chunk descriptor: tag, remaining file size, format tag. */
  function RiffHead(n: nat): (r: seq<Byte>)
    ensures |r| == 12
  {
    Ascii("RIFF") + Le32(36 + n * 2) + Ascii("WAVE")
  }

  /** The `fmt ` sub-chunk body: PCM, mono, rate, byte rate, block align, 16 bits. */
  function FmtBody(sampleRate: int): (r: seq<Byte>)
    ensures |r| == 16
  {
    Le16(1) + Le16(Channels) + Le32(sampleRate) + Le32(sampleRate * BlockAlign)
    + Le16(BlockAlign) + Le16(16)
  }

  /** The `fmt ` sub-chunk: tag, body size 16, body. */
  function FmtChunk(sampleRate: int): (r: seq<Byte>)
    ensures |r| == 24
  {
    Ascii("fmt ") + Le32(16) + FmtBody(sampleRate)
  }

  /** The `data` sub-chunk head: tag and the number of sample bytes. */
  function DataHead(n: nat): (r: seq<Byte>)
    ensures |r| == 8
  {
    Ascii("data") + Le32(n * 2)
  }

  /** The 44-byte header for `n` samples at `sampleRate`. */
  function Header(n: nat, sampleRate: int): (h: seq<Byte>)
    ensures |h| == HeaderSize
  {
    RiffHead(n) + FmtChunk(sampleRate) + DataHead(n)
  }

  /** The sample bytes: each quantized sample as two little-endian bytes. */
  function PcmBytes(q: seq<int>): (r: seq<Byte>)
    ensures |r| == 2 * |q|
  {
    if q == [] then [] else PcmBytes(q[..|q| - 1]) + Le16(q[|q| - 1])
  }

  /** The whole file `floatToWavBlob` produces. */
  function WavFile(samples: seq<real>, sampleRate: int): (w: seq<Byte>)
    ensures |w| == HeaderSize + 2 * |samples|
    ensures w[..HeaderSize] == Header(|samples|, sampleRate)
    ensures w[HeaderSize..] == PcmBytes(Quantized(samples))
  {
    Header(|samples|, sampleRate) + PcmBytes(Quantized(samples))
  }

  lemma {:induction false} PcmBytesAt(q: seq<int>, i: nat)
    requires i < |q|
    ensures PcmBytes(q)[2 * i] == Le16(q[i])[0] && PcmBytes(q)[2 * i + 1] == Le16(q[i])[1]
  {
    if i < |q| - 1 {
      PcmBytesAt(q[..|q| - 1], i);
    }
  }

  /** A 16-bit sample stored as `Le16` reads back through `I16At`. */
  lemma I16AtLe16(s: seq<Byte>, k: nat, v: int)
    requires k + 2 <= |s| && -0x8000 <= v < 0x8000
    requires s[k] == Le16(v)[0] && s[k + 1] == Le16(v)[1]
    ensures I16At(s, k) == v
  {
    Le16Reads(v);
  }

  const RiffTag: seq<Byte> := [0x52, 0x49, 0x46, 0x46]
  const WaveTag: seq<Byte> := [0x57, 0x41, 0x56, 0x45]
  const FmtTag: seq<Byte> := [0x66, 0x6d, 0x74, 0x20]
  const DataTag: seq<Byte> := [0x64, 0x61, 0x74, 0x61]

  lemma TagBytes()
    ensures Ascii("RIFF") == RiffTag && Ascii("WAVE") == WaveTag
    ensures Ascii("fmt ") == FmtTag && Ascii("data") == DataTag
  {
  }

  lemma RiffHeadFields(n: nat)
    ensures RiffHead(n)[0..4] == RiffTag && RiffHead(n)[8..12] == WaveTag
    ensures U32At(RiffHead(n), 4) == (36 + 2 * n) % 0x1_0000_0000
  {
    TagBytes();
    var h := RiffHead(n);
    assert h[4..8] == Le32(36 + n * 2);
    Le32Reads(36 + n * 2);
  }

  lemma FmtChunkFields(sampleRate: int)
    ensures var f := FmtChunk(sampleRate);
      && f[0..4] == FmtTag
      && U32At(f, 4) == 16 && U16At(f, 8) == 1 && U16At(f, 10) == 1
      && U32At(f, 12) == sampleRate % 0x1_0000_0000
      && U32At(f, 16) == (sampleRate * 2) % 0x1_0000_0000
      && U16At(f, 20) == 2 && U16At(f, 22) == 16
  {
    TagBytes();
    var f := FmtChunk(sampleRate);
    var b := FmtBody(sampleRate);
    assert f[4..8] == Le32(16);
    Le32At(f, 4, 16);
    assert f[8..] == b;
    FmtBodyFields(sampleRate);
  }

  lemma FmtBodyFields(sampleRate: int)
    ensures var b := FmtBody(sampleRate);
      && U16At(b, 0) == 1 && U16At(b, 2) == 1
      && U32At(b, 4) == sampleRate % 0x1_0000_0000
      && U32At(b, 8) == (sampleRate * 2) % 0x1_0000_0000
      && U16At(b, 12) == 2 && U16At(b, 14) == 16
  {
    var b := FmtBody(sampleRate);
    Le16At(b, 0, 1);
    Le16At(b, 2, 1);
    Le32At(b, 4, sampleRate);
    Le32At(b, 8, sampleRate * 2);
    Le16At(b, 12, 2);
    Le16At(b, 14, 16);
  }

  /** A 32-bit field stored with `Le32` at offset `k` reads back modulo 2^32. */
  lemma Le32At(s: seq<Byte>, k: nat, v: int)
    requires k + 4 <= |s| && s[k..k + 4] == Le32(v)
    ensures U32At(s, k) == v % 0x1_0000_0000
  {
    Le32Reads(v);
    assert s[k] == Le32(v)[0] && s[k + 1] == Le32(v)[1];
    assert s[k + 2] == Le32(v)[2] && s[k + 3] == Le32(v)[3];
  }

  /** A 16-bit field stored with `Le16` at offset `k` reads back modulo 2^16. */
  lemma Le16At(s: seq<Byte>, k: nat, v: int)
    requires k + 2 <= |s| && s[k..k + 2] == Le16(v)
    ensures U16At(s, k) == v % 0x1_0000
  {
    Le16Reads(v);
    assert s[k] == Le16(v)[0] && s[k + 1] == Le16(v)[1];
  }

  lemma DataHeadFields(n: nat)
    ensures DataHead(n)[0..4] == DataTag
    ensures U32At(DataHead(n), 4) == (2 * n) % 0x1_0000_0000
  {
    TagBytes();
    assert DataHead(n)[4..8] == Le32(n * 2);
    Le32Reads(n * 2);
  }

  /** The fields of the 44-byte header, at their offsets. */
  lemma HeaderFields(n: nat, sampleRate: int)
    ensures var h := Header(n, sampleRate);
      && h[0..4] == RiffTag
      && U32At(h, 4) == (36 + 2 * n) % 0x1_0000_0000
      && h[8..12] == WaveTag
      && h[12..16] == FmtTag
      && U32At(h, 16) == 16
      && U16At(h, 20) == 1
      && U16At(h, 22) == 1
      && U32At(h, 24) == sampleRate % 0x1_0000_0000
      && U32At(h, 28) == (sampleRate * 2) % 0x1_0000_0000
      && U16At(h, 32) == 2
      && U16At(h, 34) == 16
      && h[36..40] == DataTag
      && U32At(h, 40) == (2 * n) % 0x1_0000_0000
  {
    var h := Header(n, sampleRate);
    assert h[..12] == RiffHead(n);
    assert h[12..36] == FmtChunk(sampleRate);
    assert h[36..] == DataHead(n);
    RiffHeadFields(n);
    FmtChunkFields(sampleRate);
    DataHeadFields(n);
  }

  /**
   * The header fields of every encoded file: the four tags, the size fields,
   * the fixed `fmt ` fields and the two fields derived from the sample rate.
   */
  lemma WavHeaderFields(samples: seq<real>, sampleRate: int)
    ensures var w := WavFile(samples, sampleRate);
      && |w| == HeaderSize + 2 * |samples|
      && w[0..4] == RiffTag
      && U32At(w, 4) == (36 + 2 * |samples|) % 0x1_0000_0000
      && w[8..12] == WaveTag
      && w[12..16] == FmtTag
      && U32At(w, 16) == 16
      && U16At(w, 20) == 1
      && U16At(w, 22) == 1
      && U32At(w, 24) == sampleRate % 0x1_0000_0000
      && U32At(w, 28) == (sampleRate * 2) % 0x1_0000_0000
      && U16At(w, 32) == 2
      && U16At(w, 34) == 16
      && w[36..40] == DataTag
      && U32At(w, 40) == (2 * |samples|) % 0x1_0000_0000
  {
    var w := WavFile(samples, sampleRate);
    var h := Header(|samples|, sampleRate);
    HeaderFields(|samples|, sampleRate);
    assert w[..HeaderSize] == h;
    assert w[0..4] == h[0..4] && w[8..12] == h[8..12];
    assert w[12..16] == h[12..16] && w[36..40] == h[36..40];
  }

  /** Sample `i` is stored at offset 44 + 2i and reads back as its quantized value. */
  lemma WavSampleAt(samples: seq<real>, sampleRate: int, i: nat)
    requires i < |samples|
    ensures HeaderSize + 2 * i + 2 <= |WavFile(samples, sampleRate)|
    ensures I16At(WavFile(samples, sampleRate), HeaderSize + 2 * i) == Quantize(samples[i])
  {
    var w := WavFile(samples, sampleRate);
    var q := Quantized(samples);
    PcmBytesAt(q, i);
    I16AtLe16(w, HeaderSize + 2 * i, q[i]);
  }

  // ---------------------------------------------------------------------------
  // A reader for the format, as the independent partner of the encoder
  // ---------------------------------------------------------------------------

  datatype WavInfo = WavInfo(sampleRate: int, pcm: seq<int>)

  /** The signed 16-bit samples stored in a little-endian byte string. */
  function DecodePcm(b: seq<Byte>): (q: seq<int>)
    ensures |q| == |b| / 2
  {
    seq(|b| / 2, i requires 0 <= i < |b| / 2 => I16At(b, 2 * i))
  }

  /** The four tags and the fixed `fmt ` fields of a mono 16-bit PCM file. */
  predicate FixedFieldsOk(b: seq<Byte>)
    requires |b| >= HeaderSize
  {
    && b[0..4] == RiffTag && b[8..12] == WaveTag && b[12..16] == FmtTag && b[36..40] == DataTag
    && U32At(b, 16) == 16 && U16At(b, 20) == 1 && U16At(b, 22) == Channels
    && U16At(b, 32) == BlockAlign && U16At(b, 34) == 16
  }

  /** The size fields agree with the length and the byte rate with the sample rate. */
  predicate SizeFieldsOk(b: seq<Byte>)
    requires |b| >= HeaderSize
  {
    && U32At(b, 4) == |b| - 8
    && U32At(b, 40) == |b| - HeaderSize
    && U32At(b, 28) == 2 * U32At(b, 24)
  }

  /** A whole number of samples after a header whose fields are all consistent. */
  predicate WellFormed(b: seq<Byte>)
  {
    |b| >= HeaderSize && (|b| - HeaderSize) % 2 == 0 && FixedFieldsOk(b) && SizeFieldsOk(b)
  }

  /**
   * Accepts exactly the mono 16-bit PCM files whose size fields agree with
   * their length, and returns their sample rate and samples.
   */
  function ParseWav(b: seq<Byte>): (r: Option<WavInfo>)
    ensures r.Some? <==> WellFormed(b)
    ensures r.Some? ==> |r.value.pcm| == (|b| - HeaderSize) / 2
  {
    if WellFormed(b) then Some(WavInfo(U32At(b, 24), DecodePcm(b[HeaderSize..]))) else None
  }

  lemma DecodePcmAt(q: seq<int>, i: nat)
    requires i < |q| && -0x8000 <= q[i] < 0x8000
    ensures I16At(PcmBytes(q), 2 * i) == q[i]
  {
    var b := PcmBytes(q);
    assert 2 * i + 2 <= |b|;
    assert b[2 * i] == Le16(q[i])[0] && b[2 * i + 1] == Le16(q[i])[1] by {
      PcmBytesAt(q, i);
    }
    I16AtLe16(b, 2 * i, q[i]);
  }

  /** Reading back the sample bytes gives the 16-bit samples that were written. */
  lemma DecodePcmBytes(q: seq<int>)
    requires forall i :: 0 <= i < |q| ==> -0x8000 <= q[i] < 0x8000
    ensures DecodePcm(PcmBytes(q)) == q
  {
    var b := PcmBytes(q);
    var d := DecodePcm(b);
    assert |b| / 2 == |q|;
    forall i | 0 <= i < |q|
      ensures d[i] == q[i]
    {
      assert d[i] == I16At(b, 2 * i);
      DecodePcmAt(q, i);
    }
  }

  lemma SizeFieldsExact(b: seq<Byte>, n: nat, sampleRate: int)
    requires 0 <= sampleRate && sampleRate * 2 < 0x1_0000_0000 && 36 + 2 * n < 0x1_0000_0000
    requires |b| == HeaderSize + 2 * n
    requires U32At(b, 4) == (36 + 2 * n) % 0x1_0000_0000 && U32At(b, 40) == (2 * n) % 0x1_0000_0000
    requires U32At(b, 24) == sampleRate % 0x1_0000_0000 && U32At(b, 28) == (sampleRate * 2) % 0x1_0000_0000
    ensures SizeFieldsOk(b)
  {
    Below32(36 + 2 * n);
    Below32(2 * n);
    Below32(sampleRate);
    Below32(sampleRate * 2);
  }

  lemma Below32(x: int)
    requires 0 <= x < 0x1_0000_0000
    ensures x % 0x1_0000_0000 == x
  {
  }

  lemma ParseWellFormed(b: seq<Byte>, sampleRate: int, q: seq<int>)
    requires |b| == HeaderSize + 2 * |q| && FixedFieldsOk(b) && SizeFieldsOk(b)
    requires U32At(b, 24) == sampleRate && b[HeaderSize..] == PcmBytes(q)
    requires forall i :: 0 <= i < |q| ==> -0x8000 <= q[i] < 0x8000
    ensures ParseWav(b) == Some(WavInfo(sampleRate, q))
  {
    DecodePcmBytes(q);
    assert WellFormed(b);
  }

  /**
   * Round trip: whenever the sizes and the byte rate fit their 32-bit fields,
   * reading an encoded file gives back its sample rate and quantized samples.
   */
  lemma ParseWavFile(samples: seq<real>, sampleRate: int)
    requires 0 <= sampleRate && sampleRate * 2 < 0x1_0000_0000
    requires 36 + 2 * |samples| < 0x1_0000_0000
    ensures ParseWav(WavFile(samples, sampleRate)) == Some(WavInfo(sampleRate, Quantized(samples)))
  {
    var w := WavFile(samples, sampleRate);
    WavFixedFields(samples, sampleRate);
    WavHeaderFields(samples, sampleRate);
    SizeFieldsExact(w, |samples|, sampleRate);
    var q := Quantized(samples);
    Below32(sampleRate);
    ParseWellFormed(w, sampleRate, q);
  }

  lemma WavFixedFields(samples: seq<real>, sampleRate: int)
    ensures |WavFile(samples, sampleRate)| >= HeaderSize
    ensures FixedFieldsOk(WavFile(samples, sampleRate))
  {
    WavHeaderFields(samples, sampleRate);
  }

  // ---------------------------------------------------------------------------
  // The encoder itself, filling a buffer through DataView-style setters
  // ---------------------------------------------------------------------------

  /** `writeString`: one `setUint8` per character code. */
  method WriteString(buf: array<Byte>, offset: nat, str: string)
    requires offset + |str| <= buf.Length
    modifies buf
    ensures buf[offset..offset + |str|] == Ascii(str)
    ensures forall i :: 0 <= i < buf.Length && !(offset <= i < offset + |str|) ==> buf[i] == old(buf[i])
  {
    for k := 0 to |str|
      invariant buf[offset..offset + k] == Ascii(str)[..k]
      invariant forall i :: 0 <= i < buf.Length && !(offset <= i < offset + k) ==> buf[i] == old(buf[i])
    {
      buf[offset + k] := (str[k] as int) % 256;
    }
  }

  /** Stores `bytes` at `offset`, as one DataView setter does. */
  method SetBytes(buf: array<Byte>, offset: nat, bytes: seq<Byte>)
    requires offset + |bytes| <= buf.Length
    modifies buf
    ensures buf[offset..offset + |bytes|] == bytes
    ensures forall i :: 0 <= i < buf.Length && !(offset <= i < offset + |bytes|) ==> buf[i] == old(buf[i])
  {
    for k := 0 to |bytes|
      invariant buf[offset..offset + k] == bytes[..k]
      invariant forall i :: 0 <= i < buf.Length && !(offset <= i < offset + k) ==> buf[i] == old(buf[i])
    {
      buf[offset + k] := bytes[k];
    }
  }

  /** `view.setUint32(offset, v, true)`. */
  method SetUint32(buf: array<Byte>, offset: nat, v: int)
    requires offset + 4 <= buf.Length
    modifies buf
    ensures buf[offset..offset + 4] == Le32(v)
    ensures forall i :: 0 <= i < buf.Length && !(offset <= i < offset + 4) ==> buf[i] == old(buf[i])
  {
    SetBytes(buf, offset, Le32(v));
  }

  /** `view.setUint16(offset, v, true)` and `view.setInt16(offset, v, true)`. */
  method SetUint16(buf: array<Byte>, offset: nat, v: int)
    requires offset + 2 <= buf.Length
    modifies buf
    ensures buf[offset..offset + 2] == Le16(v)
    ensures forall i :: 0 <= i < buf.Length && !(offset <= i < offset + 2) ==> buf[i] == old(buf[i])
  {
    SetBytes(buf, offset, Le16(v));
  }

  /** The `pcm16` loop: clamp, scale asymmetrically, store into an Int16Array. */
  method QuantizeAll(samples: seq<real>) returns (pcm: array<int>)
    ensures pcm.Length == |samples|
    ensures pcm[..] == Quantized(samples)
  {
    pcm := new int[|samples|];
    for i := 0 to |samples|
      invariant forall j :: 0 <= j < i ==> pcm[j] == Quantize(samples[j])
    {
      var s := Clamp(samples[i]);
      pcm[i] := Int16Store(if s < 0.0 then s * 32768.0 else s * 32767.0);
    }
  }

  /** The RIFF descriptor writes (offsets 0 to 11). */
  method WriteRiffHead(buf: array<Byte>, n: nat)
    requires HeaderSize <= buf.Length
    modifies buf
    ensures buf[..12] == RiffHead(n)
    ensures forall i :: 12 <= i < buf.Length ==> buf[i] == old(buf[i])
  {
    WriteString(buf, 0, "RIFF");
    SetUint32(buf, 4, 36 + n * 2);
    assert buf[..8] == Ascii("RIFF") + Le32(36 + n * 2);
    WriteString(buf, 8, "WAVE");
    assert buf[..12] == buf[..8] + buf[8..12];
  }

  /** The `fmt ` sub-chunk writes (offsets 12 to 35). */
  method WriteFmtChunk(buf: array<Byte>, sampleRate: int)
    requires HeaderSize <= buf.Length
    modifies buf
    ensures buf[12..36] == FmtChunk(sampleRate)
    ensures forall i :: 0 <= i < buf.Length && !(12 <= i < 36) ==> buf[i] == old(buf[i])
  {
    var byteRate := sampleRate * BlockAlign;
    WriteString(buf, 12, "fmt ");
    SetUint32(buf, 16, 16);
    assert buf[12..20] == Ascii("fmt ") + Le32(16);
    SetUint16(buf, 20, 1);
    SetUint16(buf, 22, Channels);
    assert buf[20..24] == Le16(1) + Le16(Channels);
    SetUint32(buf, 24, sampleRate);
    assert buf[20..28] == Le16(1) + Le16(Channels) + Le32(sampleRate);
    SetUint32(buf, 28, byteRate);
    assert buf[20..32] == Le16(1) + Le16(Channels) + Le32(sampleRate) + Le32(byteRate);
    SetUint16(buf, 32, BlockAlign);
    assert buf[20..34] == Le16(1) + Le16(Channels) + Le32(sampleRate) + Le32(byteRate)
      + Le16(BlockAlign);
    SetUint16(buf, 34, 16);
    assert buf[20..36] == FmtBody(sampleRate);
    assert buf[12..36] == buf[12..20] + buf[20..36];
  }

  /** The `data` sub-chunk head writes (offsets 36 to 43). */
  method WriteDataHead(buf: array<Byte>, n: nat)
    requires HeaderSize <= buf.Length
    modifies buf
    ensures buf[36..44] == DataHead(n)
    ensures forall i :: 0 <= i < buf.Length && !(36 <= i < 44) ==> buf[i] == old(buf[i])
  {
    WriteString(buf, 36, "data");
    SetUint32(buf, 40, n * 2);
    assert buf[36..44] == buf[36..40] + buf[40..44];
  }

  /** The sample loop: `setInt16(offset, pcm16[i], true)` with offset advancing by two. */
  method WriteSamples(buf: array<Byte>, pcm: array<int>)
    requires buf.Length == HeaderSize + 2 * pcm.Length
    modifies buf
    ensures buf[HeaderSize..] == PcmBytes(pcm[..])
    ensures buf[..HeaderSize] == old(buf[..HeaderSize])
  {
    var offset := HeaderSize;
    var i := 0;
    while i < pcm.Length
      invariant 0 <= i <= pcm.Length && offset == HeaderSize + 2 * i
      invariant buf[HeaderSize..offset] == PcmBytes(pcm[..i])
      invariant buf[..HeaderSize] == old(buf[..HeaderSize])
    {
      ghost var done := buf[HeaderSize..offset];
      SetUint16(buf, offset, pcm[i]);
      assert buf[HeaderSize..offset] == done;
      assert buf[HeaderSize..offset + 2] == buf[HeaderSize..offset] + buf[offset..offset + 2];
      assert pcm[..i + 1][..i] == pcm[..i];
      i, offset := i + 1, offset + 2;
    }
    assert pcm[..i] == pcm[..];
  }

  /**
   * `floatToWavBlob`: the returned buffer holds exactly the header and the
   * quantized samples described by `WavFile` (see WavHeaderFields, WavSampleAt
   * and ParseWavFile for what that layout guarantees).
   */
  method FloatToWav(samples: seq<real>, sampleRate: int) returns (buf: array<Byte>)
    ensures buf.Length == HeaderSize + 2 * |samples|
    ensures buf[..] == WavFile(samples, sampleRate)
  {
    var n := |samples|;
    buf := new Byte[HeaderSize + n * 2](_ => 0);
    var pcm := QuantizeAll(samples);

    WriteRiffHead(buf, pcm.Length);
    WriteFmtChunk(buf, sampleRate);
    assert buf[..12] == RiffHead(n);
    WriteDataHead(buf, pcm.Length);
    assert buf[..12] == RiffHead(n) && buf[12..36] == FmtChunk(sampleRate);
    assert buf[..HeaderSize] == buf[..12] + buf[12..36] + buf[36..44];
    ghost var header := buf[..HeaderSize];
    assert header == Header(n, sampleRate);

    WriteSamples(buf, pcm);
    assert buf[..] == buf[..HeaderSize] + buf[HeaderSize..];
  }
}
