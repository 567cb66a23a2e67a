/**
 * The sample conversions of the audio path: ITU-T G.711 expansion of 8-bit
 * A-law and mu-law samples to 16-bit linear PCM (the tables NAudio's
 * `ALawDecoder` and `MuLawDecoder` hold), and the little-endian byte pair a
 * 16-bit sample is written as.
 */
module Codecs {

  /** The audio codecs a media format can name; only the two G.711 laws are decodable. */
  datatype AudioCodec = PCMA | PCMU | OtherCodec(name: string)

  /** The static RTP payload types of the G.711 laws (section 6 of RFC 3551). */
  const PCMU_PAYLOAD_TYPE := 0
  const PCMA_PAYLOAD_TYPE := 8

  /** A byte of the 16-bit PCM stream. */
  newtype byte = x: int | 0 <= x < 0x100

  const MIN_INT16 := -0x8000
  const MAX_INT16 := 0x7FFF

  /** 2 to the power `n`, for the segment shifts 0 to 7. */
  function Shift(n: nat): (r: nat)
    requires n < 8
    ensures 1 <= r <= 128
  {
    [1, 2, 4, 8, 16, 32, 64, 128][n]
  }

  /** The magnitude an A-law byte (after inverting its even bits) decodes to. */
  function ALawMagnitude(a: bv8): (m: int)
    ensures 8 <= m <= 32256
  {
    var mantissa := (a & 0x0F) as int;
    var segment := ((a & 0x70) >> 4) as int;
    if segment == 0 then mantissa * 16 + 8
    else
      var base := mantissa * 16 + 0x108;
      assert base <= 504;
      base * Shift(segment - 1)
  }

  /** `ALawDecoder.ALawToLinearSample`: the G.711 A-law expansion. */
  function ALawToLinear(b: bv8): (s: int)
    ensures MIN_INT16 <= s <= MAX_INT16
    ensures s != 0
  {
    var a := b ^ 0x55;
    if a & 0x80 != 0 then ALawMagnitude(a) else -ALawMagnitude(a)
  }

  /** The biased magnitude a mu-law byte (after complementing it) decodes to. */
  function MuLawBiased(u: bv8): (t: int)
    ensures 0x84 <= t <= 32256
  {
    var mantissa := (u & 0x0F) as int;
    var segment := ((u & 0x70) >> 4) as int;
    (mantissa * 8 + 0x84) * Shift(segment)
  }

  /** `MuLawDecoder.MuLawToLinearSample`: the G.711 mu-law expansion. */
  function MuLawToLinear(b: bv8): (s: int)
    ensures MIN_INT16 <= s <= MAX_INT16
  {
    var u := !b;
    var t := MuLawBiased(u);
    if u & 0x80 != 0 then 0x84 - t else t - 0x84
  }

  /** The decoder `GotAudioRtp` picks for a codec; only PCMA and PCMU have one. */
  function Decode(codec: AudioCodec, b: bv8): (s: int)
    requires codec == PCMA || codec == PCMU
    ensures MIN_INT16 <= s <= MAX_INT16
  {
    if codec == PCMA then ALawToLinear(b) else MuLawToLinear(b)
  }

  /** `(byte)(pcm & 0xFF)`: the low byte of a sample's two's-complement form. */
  function LowByte(s: int): byte {
    ((s % 0x1_0000) % 0x100) as byte
  }

  /** `(byte)(pcm >> 8)`: the high byte of a sample's two's-complement form. */
  function HighByte(s: int): byte {
    ((s % 0x1_0000) / 0x100) as byte
  }

  /** How a reader of the PCM stream recovers a 16-bit sample from its little-endian byte pair. */
  function FromLittleEndian(lo: byte, hi: byte): (s: int)
    ensures MIN_INT16 <= s <= MAX_INT16
  {
    var u := hi as int * 0x100 + lo as int;
    if u <= MAX_INT16 then u else u - 0x1_0000
  }

  /** Writing a 16-bit sample as low byte then high byte loses nothing. */
  lemma SampleBytesRoundTrip(s: int)
    requires MIN_INT16 <= s <= MAX_INT16
    ensures FromLittleEndian(LowByte(s), HighByte(s)) == s
  {
    var u := s % 0x1_0000;
    assert (u / 0x100) * 0x100 + u % 0x100 == u;
    if s < 0 {
      assert u == s + 0x1_0000;
    }
  }

  /** The sign bit of an A-law byte is the sign of its sample: flipping it negates the sample. */
  lemma ALawSignSymmetric(b: bv8)
    ensures ALawToLinear(b ^ 0x80) == -ALawToLinear(b)
  {
    var a, a' := b ^ 0x55, (b ^ 0x80) ^ 0x55;
    assert a' & 0x0F == a & 0x0F && a' & 0x70 == a & 0x70;
    assert (a' & 0x80 != 0) == (a & 0x80 == 0);
  }

  /** The same holds for mu-law. */
  lemma MuLawSignSymmetric(b: bv8)
    ensures MuLawToLinear(b ^ 0x80) == -MuLawToLinear(b)
  {
    var u, u' := !b, !(b ^ 0x80);
    assert u' & 0x0F == u & 0x0F && u' & 0x70 == u & 0x70;
    assert (u' & 0x80 != 0) == (u & 0x80 == 0);
  }

  /** Mu-law has two codes for silence, 0x7F and 0xFF, and no other byte decodes to zero. */
  lemma MuLawZeroIff(b: bv8)
    ensures MuLawToLinear(b) == 0 <==> b == 0x7F || b == 0xFF
  {
    var u := !b;
    if MuLawToLinear(b) == 0 {
      var mantissa := (u & 0x0F) as int;
      var segment := ((u & 0x70) >> 4) as int;
      assert (mantissa * 8 + 0x84) * Shift(segment) == 0x84;
      assert segment == 0 && mantissa == 0;
      assert u & 0x7F == 0;
    }
  }

  /** A few entries of the published decoding tables, as a check on the two expansions. */
  lemma TableEntries()
    ensures ALawToLinear(0x00) == -5504 && ALawToLinear(0x55) == -8 && ALawToLinear(0xD5) == 8
    ensures ALawToLinear(0x2A) == -32256 && ALawToLinear(0xAA) == 32256
    ensures MuLawToLinear(0x00) == -32124 && MuLawToLinear(0x80) == 32124 && MuLawToLinear(0xFF) == 0
  {
  }

  /**
   * The `SelectMany` of `GotAudioRtp`: every payload byte decoded and written
   * as its little-endian byte pair, in payload order.
   */
  function ExpandToPcm(codec: AudioCodec, payload: seq<bv8>): (r: seq<byte>)
    requires codec == PCMA || codec == PCMU
    ensures |r| == 2 * |payload|
  {
    if payload == [] then []
    else
      var sample := Decode(codec, payload[0]);
      [LowByte(sample), HighByte(sample)] + ExpandToPcm(codec, payload[1..])
  }

  /** Bytes 2i and 2i+1 of the expansion are the low and high byte of the sample of payload[i]. */
  lemma {:induction false} ExpandToPcmAt(codec: AudioCodec, payload: seq<bv8>, i: nat)
    requires codec == PCMA || codec == PCMU
    requires i < |payload|
    ensures ExpandToPcm(codec, payload)[2 * i] == LowByte(Decode(codec, payload[i]))
    ensures ExpandToPcm(codec, payload)[2 * i + 1] == HighByte(Decode(codec, payload[i]))
  {
    if i > 0 {
      ExpandToPcmAt(codec, payload[1..], i - 1);
      assert payload[1..][i - 1] == payload[i];
    }
  }

  /** Reading the PCM stream back pair by pair recovers exactly the decoded samples, in order. */
  lemma ExpandDecodesBack(codec: AudioCodec, payload: seq<bv8>, i: nat)
    requires codec == PCMA || codec == PCMU
    requires i < |payload|
    ensures FromLittleEndian(ExpandToPcm(codec, payload)[2 * i], ExpandToPcm(codec, payload)[2 * i + 1])
      == Decode(codec, payload[i])
  {
    ExpandToPcmAt(codec, payload, i);
    SampleBytesRoundTrip(Decode(codec, payload[i]));
  }
}
