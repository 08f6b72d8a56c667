/**
 * The 44-byte RIFF/WAVE PCM header the plugin writes in front of a file
 * recording: built once at start with zeroed length fields, patched at stop
 * with the payload length.  Field order and widths follow the canonical PCM
 * layout of the RIFF WAVE format (Microsoft/IBM Multimedia Programming
 * Interface and Data Specifications 1.0).
 */
module Wav {
  import opened Bytes
  import opened Wrappers

  /** A four-character chunk identifier. */
  type Tag = s: seq<uint8> | |s| == 4 witness [0, 0, 0, 0]

  /** The bytes of a four-character ASCII identifier. */
  function AsciiTag(s: string): (t: Tag)
    requires |s| == 4 && forall i | 0 <= i < 4 :: s[i] as int < 0x100
    ensures forall i | 0 <= i < 4 :: t[i] as int == s[i] as int
  {
    [s[0] as int as uint8, s[1] as int as uint8, s[2] as int as uint8, s[3] as int as uint8]
  }

  const RiffTag: Tag := AsciiTag("RIFF")
  const WaveTag: Tag := AsciiTag("WAVE")
  const FmtTag: Tag := AsciiTag("fmt ")
  const DataTag: Tag := AsciiTag("data")

  /** sizeof(WavHeader). */
  const HeaderSize: nat := 44
  /** Format tag 1: uncompressed PCM. */
  const PcmFormat: uint16 := 1
  /** Length of the PCM `fmt ` chunk body. */
  const PcmFmtLength: uint32 := 16

  datatype WavHeader = WavHeader(
    riff: Tag,
    overallSize: uint32,
    wave: Tag,
    fmtChunkMarker: Tag,
    lengthOfFmt: uint32,
    formatType: uint16,
    channels: uint16,
    sampleRate: uint32,
    byterate: uint32,
    blockAlign: uint16,
    bitsPerSample: uint16,
    dataChunkHeader: Tag,
    dataSize: uint32)

  /** The instance-init state of the header field: every byte zero. */
  const ZeroHeader: WavHeader :=
    WavHeader([0, 0, 0, 0], 0, [0, 0, 0, 0], [0, 0, 0, 0], 0, 0, 0, 0, 0, 0, 0, [0, 0, 0, 0], 0)

  /**
   * A consistent PCM header: the four identifiers in place, a 16-byte format
   * chunk with format tag 1, and byte rate and block alignment derived from
   * the sample rate, channel count and sample width.
   */
  predicate IsPcmHeader(h: WavHeader)
  {
    && h.riff == RiffTag && h.wave == WaveTag
    && h.fmtChunkMarker == FmtTag && h.dataChunkHeader == DataTag
    && h.lengthOfFmt == PcmFmtLength && h.formatType == PcmFormat
    && h.byterate as int == h.sampleRate as int * h.channels as int * (h.bitsPerSample as int / 8)
    && h.blockAlign as int == h.channels as int * (h.bitsPerSample as int / 8)
  }

  /** init_wav_header: the stereo, 44100 Hz, 16-bit template with zero lengths. */
  function InitWavHeader(): (h: WavHeader)
    ensures IsPcmHeader(h)
    ensures h.channels == 2 && h.sampleRate == 44100 && h.bitsPerSample == 16
    ensures h.byterate == 176400 && h.blockAlign == 4
    ensures h.overallSize == 0 && h.dataSize == 0
  {
    var channels: uint16 := 2;
    var sampleRate: uint32 := 44100;
    var bitsPerSample: uint16 := 16;
    WavHeader(
      riff := RiffTag, overallSize := 0, wave := WaveTag, fmtChunkMarker := FmtTag,
      lengthOfFmt := PcmFmtLength, formatType := PcmFormat,
      channels := channels, sampleRate := sampleRate,
      byterate := (sampleRate as int * channels as int * (bitsPerSample as int / 8)) as uint32,
      blockAlign := (channels as int * (bitsPerSample as int / 8)) as uint16,
      bitsPerSample := bitsPerSample, dataChunkHeader := DataTag, dataSize := 0)
  }

  /**
   * The length arithmetic of finalize_wav_header: the data chunk holds the
   * payload, the RIFF chunk everything after its own 8-byte preamble, both
   * truncated to 32 bits.  No other field changes.
   */
  function Finalize(h: WavHeader, totalDataBytes: nat): (r: WavHeader)
    ensures r.(dataSize := h.dataSize, overallSize := h.overallSize) == h
    ensures IsPcmHeader(h) ==> IsPcmHeader(r)
    ensures totalDataBytes + HeaderSize - 8 < TwoTo32 ==>
              r.dataSize as int == totalDataBytes &&
              r.overallSize as int == r.dataSize as int + HeaderSize - 8
  {
    h.(dataSize := ToUint32(totalDataBytes),
       overallSize := ToUint32(totalDataBytes + HeaderSize - 8))
  }

  /** Past 4 GiB of payload both length fields wrap around modulo 2^32. */
  lemma FinalizeTruncates(h: WavHeader, totalDataBytes: nat)
    ensures Finalize(h, totalDataBytes).dataSize as int == totalDataBytes % TwoTo32
    ensures Finalize(h, totalDataBytes).overallSize as int == (totalDataBytes + HeaderSize - 8) % TwoTo32
  {
  }

  /** The byte image write_wav_header puts at offset 0 of the file. */
  function Encode(h: WavHeader): (b: seq<uint8>)
    ensures |b| == HeaderSize
  {
    h.riff + Le32(h.overallSize) + h.wave + h.fmtChunkMarker
    + Le32(h.lengthOfFmt) + Le16(h.formatType) + Le16(h.channels)
    + Le32(h.sampleRate) + Le32(h.byterate) + Le16(h.blockAlign) + Le16(h.bitsPerSample)
    + h.dataChunkHeader + Le32(h.dataSize)
  }

  /** Reads a header image back; any 44 bytes are some header. */
  function Decode(b: seq<uint8>): Option<WavHeader>
  {
    if |b| != HeaderSize then None
    else Some(WavHeader(
      b[0..4], ReadLe32(b[4..8]), b[8..12], b[12..16],
      ReadLe32(b[16..20]), ReadLe16(b[20..22]), ReadLe16(b[22..24]),
      ReadLe32(b[24..28]), ReadLe32(b[28..32]), ReadLe16(b[32..34]), ReadLe16(b[34..36]),
      b[36..40], ReadLe32(b[40..44])))
  }

  /** Where each field sits in the image. */
  lemma EncodeLayout(h: WavHeader)
    ensures var b := Encode(h);
      && b[0..4] == h.riff && b[4..8] == Le32(h.overallSize)
      && b[8..12] == h.wave && b[12..16] == h.fmtChunkMarker
      && b[16..20] == Le32(h.lengthOfFmt) && b[20..22] == Le16(h.formatType)
      && b[22..24] == Le16(h.channels) && b[24..28] == Le32(h.sampleRate)
      && b[28..32] == Le32(h.byterate) && b[32..34] == Le16(h.blockAlign)
      && b[34..36] == Le16(h.bitsPerSample) && b[36..40] == h.dataChunkHeader
      && b[40..44] == Le32(h.dataSize)
  {
  }

  lemma DecodeEncode(h: WavHeader)
    ensures Decode(Encode(h)) == Some(h)
  {
    EncodeLayout(h);
    Le32RoundTrip(h.overallSize);
    Le32RoundTrip(h.lengthOfFmt);
    Le16RoundTrip(h.formatType);
    Le16RoundTrip(h.channels);
    Le32RoundTrip(h.sampleRate);
    Le32RoundTrip(h.byterate);
    Le16RoundTrip(h.blockAlign);
    Le16RoundTrip(h.bitsPerSample);
    Le32RoundTrip(h.dataSize);
  }

  lemma EncodeDecode(b: seq<uint8>)
    requires |b| == HeaderSize
    ensures Decode(b).Some? && Encode(Decode(b).value) == b
  {
    var h := Decode(b).value;
    EncodeLayout(h);
    ReadLe32RoundTrip(b[4..8]);
    ReadLe32RoundTrip(b[16..20]);
    ReadLe16RoundTrip(b[20..22]);
    ReadLe16RoundTrip(b[22..24]);
    ReadLe32RoundTrip(b[24..28]);
    ReadLe32RoundTrip(b[28..32]);
    ReadLe16RoundTrip(b[32..34]);
    ReadLe16RoundTrip(b[34..36]);
    ReadLe32RoundTrip(b[40..44]);
    var e := Encode(h);
    assert forall i | 0 <= i < HeaderSize :: e[i] == b[i] by {
      forall i | 0 <= i < HeaderSize ensures e[i] == b[i] {
        if i < 4 { assert e[i] == e[0..4][i]; assert b[i] == b[0..4][i]; }
        else if i < 8 { assert e[i] == e[4..8][i - 4]; assert b[i] == b[4..8][i - 4]; }
        else if i < 12 { assert e[i] == e[8..12][i - 8]; assert b[i] == b[8..12][i - 8]; }
        else if i < 16 { assert e[i] == e[12..16][i - 12]; assert b[i] == b[12..16][i - 12]; }
        else if i < 20 { assert e[i] == e[16..20][i - 16]; assert b[i] == b[16..20][i - 16]; }
        else if i < 22 { assert e[i] == e[20..22][i - 20]; assert b[i] == b[20..22][i - 20]; }
        else if i < 24 { assert e[i] == e[22..24][i - 22]; assert b[i] == b[22..24][i - 22]; }
        else if i < 28 { assert e[i] == e[24..28][i - 24]; assert b[i] == b[24..28][i - 24]; }
        else if i < 32 { assert e[i] == e[28..32][i - 28]; assert b[i] == b[28..32][i - 28]; }
        else if i < 34 { assert e[i] == e[32..34][i - 32]; assert b[i] == b[32..34][i - 32]; }
        else if i < 36 { assert e[i] == e[34..36][i - 34]; assert b[i] == b[34..36][i - 34]; }
        else if i < 40 { assert e[i] == e[36..40][i - 36]; assert b[i] == b[36..40][i - 36]; }
        else { assert e[i] == e[40..44][i - 40]; assert b[i] == b[40..44][i - 40]; }
      }
    }
  }

  /** The placeholder written at start reads back as the template, with both length fields zero. */
  lemma PlaceholderHeader()
    ensures Decode(Encode(InitWavHeader())) == Some(InitWavHeader())
    ensures ReadLe32(Encode(InitWavHeader())[4..8]) == 0
    ensures ReadLe32(Encode(InitWavHeader())[40..44]) == 0
  {
    var h := InitWavHeader();
    DecodeEncode(h);
    EncodeLayout(h);
    Le32RoundTrip(h.overallSize);
    Le32RoundTrip(h.dataSize);
  }

  /**
   * A finalized header followed by its payload is a well-formed file: bytes
   * 4..8 hold the file length minus 8 and bytes 40..44 the payload length.
   */
  lemma FinalizedFileLengths(h: WavHeader, payload: seq<uint8>)
    requires |payload| + HeaderSize - 8 < TwoTo32
    ensures var f := Encode(Finalize(h, |payload|)) + payload;
      && |f| == HeaderSize + |payload|
      && ReadLe32(f[4..8]) as int == |f| - 8
      && ReadLe32(f[40..44]) as int == |payload|
      && f[4] as int + 0x100 * f[5] as int + 0x1_0000 * f[6] as int + 0x100_0000 * f[7] as int == |f| - 8
      && f[40] as int + 0x100 * f[41] as int + 0x1_0000 * f[42] as int + 0x100_0000 * f[43] as int
         == |payload|
  {
    var r := Finalize(h, |payload|);
    var f := Encode(r) + payload;
    EncodeLayout(r);
    assert f[4..8] == Encode(r)[4..8];
    assert f[40..44] == Encode(r)[40..44];
    Le32RoundTrip(r.overallSize);
    Le32RoundTrip(r.dataSize);
    ReadLe32Weights(f[4..8]);
    ReadLe32Weights(f[40..44]);
  }
}
