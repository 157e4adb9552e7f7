/** PCM-S16LE conversion.  A float32 sample is modelled as a real; every k / 32768 is exact. */
module Pcm {
  import opened Wrappers

  type Byte = b: int | 0 <= b < 256

  datatype PcmError = BadLength

  const FULL_SCALE: real := 32768.0
  const MAX_SAMPLE: real := 32767.0 / 32768.0

  /** Two little-endian bytes read as a signed 16-bit integer. */
  function Signed(lo: Byte, hi: Byte): int {
    var u := lo + 256 * hi;
    if u < 0x8000 then u else u - 0x1_0000
  }

  function Samples(pcm: seq<Byte>): (samples: seq<real>)
    requires |pcm| % 2 == 0
  {
    seq(|pcm| / 2, i requires 0 <= i < |pcm| / 2 => Signed(pcm[2 * i], pcm[2 * i + 1]) as real / FULL_SCALE)
  }

  function Decode(pcm: seq<Byte>): Result<seq<real>, PcmError> {
    if pcm == [] || |pcm| % 2 != 0 then Err(BadLength) else Ok(Samples(pcm))
  }

  /** Rounding to the nearest integer, ties to the even one. */
  function RoundHalfEven(x: real): int {
    var below := x.Floor;
    var part := x - below as real;
    if part < 0.5 || (part == 0.5 && below % 2 == 0) then below else below + 1
  }

  function Clamp(x: real): real {
    if x < -1.0 then -1.0 else if x > MAX_SAMPLE then MAX_SAMPLE else x
  }

  function Quantize(x: real): int {
    RoundHalfEven(Clamp(x) * FULL_SCALE)
  }

  function Unsigned(q: int): (u: int)
  {
    if q < 0 then q + 0x1_0000 else q
  }

  lemma QuantizeFitsInt16(x: real)
    ensures -0x8000 <= Quantize(x) <= 0x7fff
  {
    var scaled := Clamp(x) * FULL_SCALE;
    assert -32768.0 <= scaled <= 32767.0;
  }

  function Encode(wav: seq<real>): (pcm: seq<Byte>)
    ensures |pcm| == 2 * |wav|
  {
    seq(2 * |wav|, k requires 0 <= k < 2 * |wav| =>
      QuantizeFitsInt16(wav[k / 2]);
      if k % 2 == 0 then Unsigned(Quantize(wav[k / 2])) % 256 else Unsigned(Quantize(wav[k / 2])) / 256)
  }

  /** The encoder's real semantics: saturation outside the range, nearest integer inside it, ties to even. */
  lemma QuantizeIsNearest(x: real)
    ensures x <= -1.0 ==> Quantize(x) == -0x8000
    ensures x >= MAX_SAMPLE ==> Quantize(x) == 0x7fff
    ensures -1.0 <= x <= MAX_SAMPLE ==> -0.5 <= Quantize(x) as real - x * FULL_SCALE <= 0.5
    ensures -1.0 <= x <= MAX_SAMPLE
            && (Quantize(x) as real - x * FULL_SCALE == 0.5 || x * FULL_SCALE - Quantize(x) as real == 0.5)
            ==> Quantize(x) % 2 == 0
    ensures forall y :: x <= y ==> Quantize(x) <= Quantize(y)
  {
    forall y | x <= y ensures Quantize(x) <= Quantize(y) {
      assert Clamp(x) * FULL_SCALE <= Clamp(y) * FULL_SCALE;
    }
  }

  /** The 16-bit two's complement integer that a little-endian pair of bytes stands for. */
  function Little(pcm: seq<Byte>, k: nat): int
    requires 2 * k + 1 < |pcm|
  {
    var low: int, high: int := pcm[2 * k], pcm[2 * k + 1];
    low + 256 * high - (if high >= 0x80 then 0x1_0000 else 0)
  }

  /** Sample k of a signal is written at bytes 2k and 2k + 1, low byte first: the nearest 16-bit integer, the even one
      on a tie, and the end of the range outside it. */
  lemma EncodeIsNearest(wav: seq<real>, k: nat)
    requires k < |wav|
    ensures var x, v := wav[k], Little(Encode(wav), k);
            && (x <= -1.0 ==> v == -0x8000)
            && (x >= 32767.0 / 32768.0 ==> v == 0x7fff)
            && (-1.0 <= x <= 32767.0 / 32768.0 ==> -0.5 <= v as real - x * 32768.0 <= 0.5)
            && (-1.0 <= x <= 32767.0 / 32768.0 && (v as real - x * 32768.0 == 0.5 || x * 32768.0 - v as real == 0.5)
                ==> v % 2 == 0)
  {
    QuantizeIsNearest(wav[k]);
    EncodedBytes(wav, k);
  }

  lemma EncodedBytes(wav: seq<real>, k: nat)
    requires k < |wav|
    ensures Little(Encode(wav), k) == Quantize(wav[k])
  {
    QuantizeFitsInt16(wav[k]);
    assert (2 * k) / 2 == k && (2 * k + 1) / 2 == k;
    hide Quantize;
  }

  /** Decoding gives one sample for two bytes, the integer they stand for over 32768, and refuses nothing but an empty
      or odd number of bytes. */
  lemma DecodeIsExact(pcm: seq<Byte>)
    ensures Decode(pcm).Ok? <==> pcm != [] && |pcm| % 2 == 0
    ensures Decode(pcm).Ok? ==>
              && |Decode(pcm).value| == |pcm| / 2
              && forall k | 0 <= k < |pcm| / 2 :: Decode(pcm).value[k] * 32768.0 == Little(pcm, k) as real
  {
    if Decode(pcm).Ok? {
      forall k | 0 <= k < |pcm| / 2 ensures Decode(pcm).value[k] * 32768.0 == Little(pcm, k) as real {
        assert Decode(pcm).value[k] == Signed(pcm[2 * k], pcm[2 * k + 1]) as real / FULL_SCALE;
      }
    }
  }

  lemma SampleRoundTrip(v: int)
    requires -0x8000 <= v <= 0x7fff
    ensures Quantize(v as real / FULL_SCALE) == v
  {
    var x := v as real / FULL_SCALE;
    assert x * FULL_SCALE == v as real;
    assert Clamp(x) == x;
  }

  /** Decoding and encoding again returns the very same bytes. */
  lemma EncodeDecode(pcm: seq<Byte>)
    requires pcm != [] && |pcm| % 2 == 0
    ensures Decode(pcm).Ok? && Encode(Decode(pcm).value) == pcm
  {
    var wav := Decode(pcm).value;
    forall k | 0 <= k < |pcm| ensures Encode(wav)[k] == pcm[k] {
      var i := k / 2;
      SampleRoundTrip(Signed(pcm[2 * i], pcm[2 * i + 1]));
    }
  }

  /** Cutting the encoded bytes at a sample boundary is encoding the cut signal. */
  lemma EncodePrefix(wav: seq<real>, count: nat)
    requires count <= |wav|
    ensures Encode(wav)[..2 * count] == Encode(wav[..count])
  {
  }

  lemma SamplesConcat(a: seq<Byte>, b: seq<Byte>)
    requires |a| % 2 == 0 && |b| % 2 == 0
    ensures Samples(a + b) == Samples(a) + Samples(b)
  {
    forall i | 0 <= i < |a + b| / 2 ensures Samples(a + b)[i] == (Samples(a) + Samples(b))[i] {
    }
  }
}
