/**
 * The RIFF "WAVE" container the service builds around raw PCM: a 44-byte
 * header written field by field through a `DataView`, followed by the PCM
 * bytes unchanged (the canonical layout of the WAVE form of the Microsoft/IBM
 * Multimedia Programming Interface and Data Specifications 1.0).
 */
module Wav {
  import opened Wrappers
  import opened Bytes

  const Two16: int := 0x1_0000
  const Two32: int := 0x1_0000_0000
  const HeaderSize: nat := 44

  /** `getUint16`: the number two bytes hold in the given byte order. */
  function ReadUint16(s: seq<byte>, littleEndian: bool): int
    requires |s| == 2
  {
    if littleEndian then s[0] as int + 256 * s[1] as int
    else s[1] as int + 256 * s[0] as int
  }

  /** `getUint32`: the number four bytes hold in the given byte order. */
  function ReadUint32(s: seq<byte>, littleEndian: bool): int
    requires |s| == 4
  {
    if littleEndian then s[0] as int + 256 * s[1] as int + 65536 * s[2] as int + 16777216 * s[3] as int
    else s[3] as int + 256 * s[2] as int + 65536 * s[1] as int + 16777216 * s[0] as int
  }

  /** The bytes `setUint16` stores: the value wrapped to 16 bits (ToUint16), in the given byte order. */
  function Uint16Bytes(value: int, littleEndian: bool): (r: seq<byte>)
    ensures |r| == 2
    ensures ReadUint16(r, littleEndian) == value % Two16
  {
    var v := value % Two16;
    var lo, hi := (v % 256) as byte, (v / 256) as byte;
    if littleEndian then [lo, hi] else [hi, lo]
  }

  /** The bytes `setUint32` stores: the value wrapped to 32 bits (ToUint32), in the given byte order. */
  function Uint32Bytes(value: int, littleEndian: bool): (r: seq<byte>)
    ensures |r| == 4
    ensures ReadUint32(r, littleEndian) == value % Two32
  {
    var v := value % Two32;
    var b0, b1, b2, b3 := (v % 256) as byte, (v / 256 % 256) as byte, (v / 65536 % 256) as byte, (v / 16777216) as byte;
    assert v == b0 as int + 256 * (v / 256) && v / 256 == b1 as int + 256 * (v / 65536);
    assert v / 65536 == b2 as int + 256 * b3 as int;
    if littleEndian then [b0, b1, b2, b3] else [b3, b2, b1, b0]
  }

  /** A view that writes multi-byte integers into an array buffer. */
  class DataView {
    const buffer: array<byte>

    constructor (buffer: array<byte>)
      ensures this.buffer == buffer
    {
      this.buffer := buffer;
    }

    /** Stores `value` as an unsigned 16-bit integer at `byteOffset`; nothing else in the buffer changes. */
    method SetUint16(byteOffset: nat, value: int, littleEndian: bool)
      requires byteOffset + 2 <= buffer.Length
      modifies buffer
      ensures buffer[..] == old(buffer[..byteOffset]) + Uint16Bytes(value, littleEndian) + old(buffer[byteOffset + 2..])
    {
      var bytes := Uint16Bytes(value, littleEndian);
      buffer[byteOffset] := bytes[0];
      buffer[byteOffset + 1] := bytes[1];
    }

    /** Stores `value` as an unsigned 32-bit integer at `byteOffset`; nothing else in the buffer changes. */
    method SetUint32(byteOffset: nat, value: int, littleEndian: bool)
      requires byteOffset + 4 <= buffer.Length
      modifies buffer
      ensures buffer[..] == old(buffer[..byteOffset]) + Uint32Bytes(value, littleEndian) + old(buffer[byteOffset + 4..])
    {
      var bytes := Uint32Bytes(value, littleEndian);
      buffer[byteOffset] := bytes[0];
      buffer[byteOffset + 1] := bytes[1];
      buffer[byteOffset + 2] := bytes[2];
      buffer[byteOffset + 3] := bytes[3];
    }
  }

  /** The RIFF chunk descriptor: "RIFF", the chunk size, "WAVE". */
  function RiffDescriptor(dataLength: int): seq<byte> {
    Uint32Bytes(0x52494646, false) + Uint32Bytes(36 + dataLength, true) + Uint32Bytes(0x57415645, false)
  }

  /** The "fmt " sub-chunk: 16 bytes of format, linear PCM, one channel, 16 bits per sample. */
  function FormatChunk(sampleRate: int): seq<byte> {
    FormatPreamble() + FormatRates(sampleRate)
  }

  /** The first twelve bytes of the "fmt " sub-chunk: its code, its size and the fixed format fields. */
  function FormatPreamble(): seq<byte> {
    Uint32Bytes(0x666d7420, false)
    + Uint32Bytes(16, true)                 // format chunk size
    + Uint16Bytes(1, true)                  // linear PCM
    + Uint16Bytes(1, true)                  // one channel
  }

  /** The last twelve bytes of the "fmt " sub-chunk: the rates and the sample layout. */
  function FormatRates(sampleRate: int): seq<byte> {
    Uint32Bytes(sampleRate, true)
    + Uint32Bytes(sampleRate * 2, true)     // byte rate
    + Uint16Bytes(2, true)                  // block align
    + Uint16Bytes(16, true)                 // bits per sample
  }

  /** The "data" sub-chunk header: "data" and the payload size. */
  function DataChunkHeader(dataLength: int): seq<byte> {
    Uint32Bytes(0x64617461, false) + Uint32Bytes(dataLength, true)
  }

  /** The header bytes `createWavBlob` writes for a payload of `dataLength` bytes. */
  function WavHeader(dataLength: int, sampleRate: int): seq<byte> {
    RiffDescriptor(dataLength) + FormatChunk(sampleRate) + DataChunkHeader(dataLength)
  }

  /**
   * After a write of `x` at `off` over a buffer whose first `off` bytes were
   * `p`, its first `off + |x|` bytes are `p + x` and the bytes after them are
   * as they were.
   */
  lemma Written(before: seq<byte>, after: seq<byte>, off: nat, x: seq<byte>, p: seq<byte>)
    requires off + |x| <= |before| && before[..off] == p
    requires after == before[..off] + x + before[off + |x|..]
    ensures |after| == |before| && after[..off + |x|] == p + x
    ensures after[off + |x|..] == before[off + |x|..]
  {
    assert after[..off + |x|] == before[..off] + x;
  }

  /** Two buffers that agree from `from` on agree from any later offset `k` on. */
  lemma KeptFrom(before: seq<byte>, after: seq<byte>, from: nat, k: nat)
    requires from <= k <= |before| == |after| && after[from..] == before[from..]
    ensures after[k..] == before[k..]
  {
    assert after[k..] == after[from..][k - from..];
    assert before[k..] == before[from..][k - from..];
  }

  /** Offsets 0 to 11: the RIFF chunk descriptor. */
  method WriteRiffDescriptor(view: DataView, dataLength: int)
    requires view.buffer.Length == HeaderSize
    modifies view.buffer
    ensures view.buffer[..12] == RiffDescriptor(dataLength)
    ensures view.buffer[12..] == old(view.buffer[12..])
  {
    var header := view.buffer;
    ghost var h := header[..];
    view.SetUint32(0, 0x52494646, false);
    Written(h, header[..], 0, Uint32Bytes(0x52494646, false), []);
    ghost var done := Uint32Bytes(0x52494646, false);
    h := header[..];
    view.SetUint32(4, 36 + dataLength, true);
    Written(h, header[..], 4, Uint32Bytes(36 + dataLength, true), done);
    done, h := done + Uint32Bytes(36 + dataLength, true), header[..];
    view.SetUint32(8, 0x57415645, false);
    Written(h, header[..], 8, Uint32Bytes(0x57415645, false), done);
  }

  /** Offsets 12 to 35: the "fmt " sub-chunk; the first 12 bytes are kept. */
  method WriteFormatChunk(view: DataView, sampleRate: int)
    requires view.buffer.Length == HeaderSize
    modifies view.buffer
    ensures view.buffer[..12] == old(view.buffer[..12])
    ensures view.buffer[12..36] == FormatChunk(sampleRate)
    ensures view.buffer[36..] == old(view.buffer[36..])
  {
    WriteFormatPreamble(view);
    ghost var h := view.buffer[..];
    WriteFormatRates(view, sampleRate);
    assert view.buffer[..24] == h[..24];
    assert view.buffer[12..36] == view.buffer[12..24] + view.buffer[24..36];
  }

  /** Offsets 12 to 23: the "fmt " code, the sub-chunk size, the format and the channel count. */
  method WriteFormatPreamble(view: DataView)
    requires view.buffer.Length == HeaderSize
    modifies view.buffer
    ensures view.buffer[..12] == old(view.buffer[..12])
    ensures view.buffer[12..24] == FormatPreamble()
    ensures view.buffer[24..] == old(view.buffer[24..])
  {
    var header := view.buffer;
    ghost var h := header[..];
    ghost var done := h[..12];
    view.SetUint32(12, 0x666d7420, false);
    Written(h, header[..], 12, Uint32Bytes(0x666d7420, false), done);
    KeptFrom(h, header[..], 16, 24);
    done, h := done + Uint32Bytes(0x666d7420, false), header[..];
    view.SetUint32(16, 16, true);
    Written(h, header[..], 16, Uint32Bytes(16, true), done);
    KeptFrom(h, header[..], 20, 24);
    done, h := done + Uint32Bytes(16, true), header[..];
    view.SetUint16(20, 1, true);
    Written(h, header[..], 20, Uint16Bytes(1, true), done);
    KeptFrom(h, header[..], 22, 24);
    done, h := done + Uint16Bytes(1, true), header[..];
    view.SetUint16(22, 1, true);
    Written(h, header[..], 22, Uint16Bytes(1, true), done);
    done := done + Uint16Bytes(1, true);
    assert header[..24] == done;
    assert done[..12] == old(view.buffer[..12]);
    assert done[12..] == FormatPreamble();
  }

  /** Offsets 24 to 35: the sample rate, the byte rate, the block alignment and the sample width. */
  method WriteFormatRates(view: DataView, sampleRate: int)
    requires view.buffer.Length == HeaderSize
    modifies view.buffer
    ensures view.buffer[..24] == old(view.buffer[..24])
    ensures view.buffer[24..36] == FormatRates(sampleRate)
    ensures view.buffer[36..] == old(view.buffer[36..])
  {
    var header := view.buffer;
    ghost var h := header[..];
    ghost var done := h[..24];
    view.SetUint32(24, sampleRate, true);
    Written(h, header[..], 24, Uint32Bytes(sampleRate, true), done);
    KeptFrom(h, header[..], 28, 36);
    done, h := done + Uint32Bytes(sampleRate, true), header[..];
    view.SetUint32(28, sampleRate * 2, true);
    Written(h, header[..], 28, Uint32Bytes(sampleRate * 2, true), done);
    KeptFrom(h, header[..], 32, 36);
    done, h := done + Uint32Bytes(sampleRate * 2, true), header[..];
    view.SetUint16(32, 2, true);
    Written(h, header[..], 32, Uint16Bytes(2, true), done);
    KeptFrom(h, header[..], 34, 36);
    done, h := done + Uint16Bytes(2, true), header[..];
    view.SetUint16(34, 16, true);
    Written(h, header[..], 34, Uint16Bytes(16, true), done);
    done := done + Uint16Bytes(16, true);
    assert header[..36] == done;
    assert done[..24] == old(view.buffer[..24]);
    assert done[24..] == FormatRates(sampleRate);
  }

  /** Offsets 36 to 43: the data sub-chunk header; the first 36 bytes are kept. */
  method WriteDataChunkHeader(view: DataView, dataLength: int)
    requires view.buffer.Length == HeaderSize
    modifies view.buffer
    ensures view.buffer[..36] == old(view.buffer[..36])
    ensures view.buffer[36..] == DataChunkHeader(dataLength)
  {
    var header := view.buffer;
    ghost var h := header[..];
    view.SetUint32(36, 0x64617461, false);
    Written(h, header[..], 36, Uint32Bytes(0x64617461, false), h[..36]);
    ghost var done := h[..36] + Uint32Bytes(0x64617461, false);
    h := header[..];
    view.SetUint32(40, dataLength, true);
    Written(h, header[..], 40, Uint32Bytes(dataLength, true), done);
    assert header[..] == header[..44];
  }

  /**
   * `createWavBlob`: a 44-byte buffer holds the header, written through a
   * `DataView`; the blob is the header followed by the PCM bytes.
   */
  method CreateWavBlob(pcmData: array<byte>, sampleRate: int) returns (blob: seq<byte>)
    ensures blob == WavHeader(pcmData.Length, sampleRate) + pcmData[..]
  {
    var header := new byte[HeaderSize];
    var view := new DataView(header);
    WriteRiffDescriptor(view, pcmData.Length);
    WriteFormatChunk(view, sampleRate);
    WriteDataChunkHeader(view, pcmData.Length);
    assert header[..] == header[..12] + header[12..36] + header[36..];
    blob := header[..] + pcmData[..];
  }

  /** The fields a WAVE reader takes from a canonical 44-byte header. */
  datatype WavFormat = WavFormat(
    chunkSize: int, formatChunkSize: int, audioFormat: int, channels: int, sampleRate: int,
    byteRate: int, blockAlign: int, bitsPerSample: int, dataSize: int)

  /**
   * A reader of the canonical header, independent of the writer: the four
   * codes must be in place, and the numeric fields are read little-endian.
   */
  function ParseWavHeader(b: seq<byte>): Option<WavFormat> {
    if |b| < HeaderSize then None
    else if b[0..4] != Ascii("RIFF") || b[8..12] != Ascii("WAVE")
         || b[12..16] != Ascii("fmt ") || b[36..40] != Ascii("data") then None
    else Some(WavFormat(
      ReadUint32(b[4..8], true), ReadUint32(b[16..20], true), ReadUint16(b[20..22], true),
      ReadUint16(b[22..24], true), ReadUint32(b[24..28], true), ReadUint32(b[28..32], true),
      ReadUint16(b[32..34], true), ReadUint16(b[34..36], true), ReadUint32(b[40..44], true)))
  }

  /** The four-character codes, written big-endian, are their ASCII letters in order. */
  lemma FourCharacterCodes()
    ensures Uint32Bytes(0x52494646, false) == Ascii("RIFF")
    ensures Uint32Bytes(0x57415645, false) == Ascii("WAVE")
    ensures Uint32Bytes(0x666d7420, false) == Ascii("fmt ")
    ensures Uint32Bytes(0x64617461, false) == Ascii("data")
  {
  }

  lemma RiffFields(n: int)
    ensures var r := RiffDescriptor(n);
      |r| == 12 && r[0..4] == Ascii("RIFF") && r[4..8] == Uint32Bytes(36 + n, true) && r[8..12] == Ascii("WAVE")
  {
    FourCharacterCodes();
  }

  lemma FormatFields(sampleRate: int)
    ensures var f := FormatChunk(sampleRate);
      && |f| == 24
      && f[0..4] == Ascii("fmt ") && f[4..8] == Uint32Bytes(16, true)
      && f[8..10] == Uint16Bytes(1, true) && f[10..12] == Uint16Bytes(1, true)
      && f[12..16] == Uint32Bytes(sampleRate, true) && f[16..20] == Uint32Bytes(sampleRate * 2, true)
      && f[20..22] == Uint16Bytes(2, true) && f[22..24] == Uint16Bytes(16, true)
  {
    FourCharacterCodes();
    var a, r := FormatPreamble(), FormatRates(sampleRate);
    var f := FormatChunk(sampleRate);
    assert f[..12] == a && f[12..] == r;
  }

  lemma DataFields(n: int)
    ensures var d := DataChunkHeader(n);
      |d| == 8 && d[0..4] == Ascii("data") && d[4..8] == Uint32Bytes(n, true)
  {
    FourCharacterCodes();
  }

  /** Where each field sits in the header. */
  lemma HeaderFields(n: int, sampleRate: int)
    ensures var h := WavHeader(n, sampleRate);
      && |h| == HeaderSize
      && h[0..4] == Ascii("RIFF") && h[4..8] == Uint32Bytes(36 + n, true) && h[8..12] == Ascii("WAVE")
      && h[12..16] == Ascii("fmt ") && h[16..20] == Uint32Bytes(16, true)
      && h[20..22] == Uint16Bytes(1, true) && h[22..24] == Uint16Bytes(1, true)
      && h[24..28] == Uint32Bytes(sampleRate, true) && h[28..32] == Uint32Bytes(sampleRate * 2, true)
      && h[32..34] == Uint16Bytes(2, true) && h[34..36] == Uint16Bytes(16, true)
      && h[36..40] == Ascii("data") && h[40..44] == Uint32Bytes(n, true)
  {
    RiffFields(n);
    FormatFields(sampleRate);
    DataFields(n);
    var riff, fmt, data := RiffDescriptor(n), FormatChunk(sampleRate), DataChunkHeader(n);
    var head := riff + fmt;
    SliceLeft(riff, fmt, 0, 4);
    SliceLeft(riff, fmt, 4, 8);
    SliceLeft(riff, fmt, 8, 12);
    SliceRight(riff, fmt, 12, 16);
    SliceRight(riff, fmt, 16, 20);
    SliceRight(riff, fmt, 20, 22);
    SliceRight(riff, fmt, 22, 24);
    SliceRight(riff, fmt, 24, 28);
    SliceRight(riff, fmt, 28, 32);
    SliceRight(riff, fmt, 32, 34);
    SliceRight(riff, fmt, 34, 36);
    FieldsOfHead(head, data);
  }

  /** A slice inside the first part of a concatenation. */
  lemma SliceLeft(a: seq<byte>, b: seq<byte>, i: int, j: int)
    requires 0 <= i <= j <= |a|
    ensures (a + b)[i..j] == a[i..j]
  {
  }

  /** A slice inside the second part of a concatenation. */
  lemma SliceRight(a: seq<byte>, b: seq<byte>, i: int, j: int)
    requires |a| <= i <= j <= |a| + |b|
    ensures (a + b)[i..j] == b[i - |a|..j - |a|]
  {
  }

  /** The first 36 bytes and the data chunk header stay where they are once concatenated. */
  lemma FieldsOfHead(head: seq<byte>, data: seq<byte>)
    requires |head| == 36 && |data| == 8
    ensures var h := head + data;
      && |h| == 44
      && h[0..4] == head[0..4] && h[4..8] == head[4..8] && h[8..12] == head[8..12]
      && h[12..16] == head[12..16] && h[16..20] == head[16..20] && h[20..22] == head[20..22]
      && h[22..24] == head[22..24] && h[24..28] == head[24..28] && h[28..32] == head[28..32]
      && h[32..34] == head[32..34] && h[34..36] == head[34..36]
      && h[36..40] == data[0..4] && h[40..44] == data[4..8]
  {
    var h := head + data;
    SliceLeft(head, data, 0, 4);
    SliceLeft(head, data, 4, 8);
    SliceLeft(head, data, 8, 12);
    SliceLeft(head, data, 12, 16);
    SliceLeft(head, data, 16, 20);
    SliceLeft(head, data, 20, 22);
    SliceLeft(head, data, 22, 24);
    SliceLeft(head, data, 24, 28);
    SliceLeft(head, data, 28, 32);
    SliceLeft(head, data, 32, 34);
    SliceLeft(head, data, 34, 36);
    SliceRight(head, data, 36, 40);
    SliceRight(head, data, 40, 44);
  }

  /**
   * The container is the 44-byte header followed by the PCM bytes unchanged,
   * and reading the header back gives every field as `createWavBlob` wrote
   * it, the size and rate fields wrapped to 32 bits as `setUint32` does.
   */
  lemma WavLayout(pcm: seq<byte>, sampleRate: int)
    ensures |WavHeader(|pcm|, sampleRate) + pcm| == HeaderSize + |pcm|
    ensures (WavHeader(|pcm|, sampleRate) + pcm)[HeaderSize..] == pcm
    ensures ParseWavHeader(WavHeader(|pcm|, sampleRate) + pcm) == Some(WavFormat(
      (36 + |pcm|) % Two32, 16, 1, 1, sampleRate % Two32, (sampleRate * 2) % Two32, 2, 16, |pcm| % Two32))
  {
    var h := WavHeader(|pcm|, sampleRate);
    HeaderFields(|pcm|, sampleRate);
    var b := h + pcm;
    assert b[..HeaderSize] == h;
    assert b[0..4] == h[0..4] && b[4..8] == h[4..8] && b[8..12] == h[8..12];
    assert b[12..16] == h[12..16] && b[16..20] == h[16..20] && b[20..22] == h[20..22];
    assert b[22..24] == h[22..24] && b[24..28] == h[24..28] && b[28..32] == h[28..32];
    assert b[32..34] == h[32..34] && b[34..36] == h[34..36];
    assert b[36..40] == h[36..40] && b[40..44] == h[40..44];
  }

  /**
   * When the sizes fit in 32 bits (the payload is shorter than 2^32 - 36
   * bytes and twice the rate fits), the header holds them exactly.
   */
  lemma WavFieldsExact(pcm: seq<byte>, sampleRate: int)
    requires 36 + |pcm| < Two32 && 0 <= sampleRate && sampleRate * 2 < Two32
    ensures ParseWavHeader(WavHeader(|pcm|, sampleRate) + pcm) == Some(WavFormat(
      36 + |pcm|, 16, 1, 1, sampleRate, sampleRate * 2, 2, 16, |pcm|))
  {
    WavLayout(pcm, sampleRate);
    var n, r2 := |pcm|, sampleRate * 2;
    Below32(36 + n);
    Below32(n);
    Below32(sampleRate);
    Below32(r2);
  }

  lemma Below32(x: int)
    requires 0 <= x < Two32
    ensures x % Two32 == x
  {
  }
}
