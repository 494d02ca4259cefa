/**
 * 16-bit little-endian PCM samples as the mixing loops of the karaoke engine
 * read and write them, and the per-sample arithmetic they apply: decode a byte
 * pair, scale by a volume percentage, clamp to the 16-bit range, re-encode.
 */
module Pcm {

  /** A byte, held as its unsigned value: every read of a byte in the source masks it with `& 0xff`. */
  type Byte = b: int | 0 <= b < 256

  /** A chunk of decoded PCM data: interleaved 16-bit little-endian samples. */
  type Chunk = seq<Byte>

  const MIN_SAMPLE: int := -32768
  const MAX_SAMPLE: int := 32767

  predicate IsSample(t: int) {
    MIN_SAMPLE <= t <= MAX_SAMPLE
  }

  /** A chunk holds whole 16-bit samples. */
  predicate EvenChunk(c: Chunk) {
    |c| % 2 == 0
  }

  function Abs(x: int): int {
    if x < 0 then -x else x
  }

  function Min(a: int, b: int): int {
    if a <= b then a else b
  }

  function Max(a: int, b: int): int {
    if a >= b then a else b
  }

  /**
   * `(short) ((lo & 0xff) | (hi & 0xff) << 8)`: the two bytes form an unsigned
   * 16-bit value (the `|` adds, since the shifted high byte has no low bits),
   * which the cast to `short` reads as two's complement.
   */
  function DecodeSample(lo: Byte, hi: Byte): (s: int)
    ensures IsSample(s)
  {
    var u := lo + 256 * hi;
    if u < 32768 then u else u - 65536
  }

  /** The sample is negative exactly when the high byte has its top bit set, and its low byte is `lo`. */
  lemma DecodeSampleBits(lo: Byte, hi: Byte)
    ensures DecodeSample(lo, hi) < 0 <==> hi >= 128
    ensures DecodeSample(lo, hi) % 256 == lo
  {
  }

  /**
   * `(byte) (temp & 0xff)`: the low byte of the two's complement
   * representation, the one byte value that differs from the sample by a
   * multiple of 256.
   */
  function EncodeLow(t: int): (r: Byte)
    ensures (t - r) % 256 == 0
  {
    t % 256
  }

  /**
   * `(byte) ((temp >>> 8) & 0xff)`: bits 8..15 of the two's complement
   * representation; for a 16-bit sample its top bit is the sign.
   */
  function EncodeHigh(t: int): (r: Byte)
    ensures IsSample(t) ==> (t < 0 <==> r >= 128)
  {
    (t / 256) % 256
  }

  /** The sample held by bytes `2 * k` and `2 * k + 1` of a chunk. */
  function SampleAt(c: Chunk, k: nat): (s: int)
    requires 2 * k + 1 < |c|
    ensures IsSample(s)
  {
    DecodeSample(c[2 * k], c[2 * k + 1])
  }

  /** Encoding a sample and decoding its two bytes gives the sample back. */
  lemma DecodeEncode(t: int)
    requires IsSample(t)
    ensures DecodeSample(EncodeLow(t), EncodeHigh(t)) == t
  {
    var lo, hi := EncodeLow(t), EncodeHigh(t);
    assert t == 256 * (t / 256) + lo;
    if t >= 0 {
      assert t / 256 < 128;
      assert hi == t / 256;
    } else {
      assert -128 <= t / 256 < 0;
      assert hi == t / 256 + 256;
    }
  }

  /** Decoding a byte pair and encoding the sample gives the same two bytes back. */
  lemma EncodeDecode(lo: Byte, hi: Byte)
    ensures EncodeLow(DecodeSample(lo, hi)) == lo
    ensures EncodeHigh(DecodeSample(lo, hi)) == hi
  {
    var s := DecodeSample(lo, hi);
    if lo + 256 * hi < 32768 {
      assert s == lo + 256 * hi;
      assert s / 256 == hi;
    } else {
      assert s == lo + 256 * (hi - 256);
      assert s / 256 == hi - 256;
    }
  }

  /**
   * The bound check of the mixing loops: a sum above 32767 becomes 32767, one
   * below -32768 becomes -32768, anything in between is kept.
   */
  function Clamp(t: int): (r: int)
    ensures IsSample(r)
    ensures IsSample(t) ==> r == t
  {
    if t > MAX_SAMPLE then MAX_SAMPLE
    else if t < MIN_SAMPLE then MIN_SAMPLE
    else t
  }

  /** Clamping never wraps: it yields the representable sample nearest to the sum. */
  lemma ClampIsNearest(t: int, u: int)
    requires IsSample(u)
    ensures Abs(Clamp(t) - t) <= Abs(u - t)
  {
  }

  /**
   * The gain `(int) (s * (v / 100f))` for a volume percentage `v`. The source
   * multiplies in single-precision floating point and truncates toward zero;
   * this model truncates the exact product `s * v / 100` toward zero, and
   * states only the facts that hold of both.
   */
  function Scale(s: int, v: int): (r: int)
    requires IsSample(s) && 0 <= v <= 100
    ensures v == 0 ==> r == 0
    ensures v == 100 ==> r == s
    ensures Abs(r) <= Abs(s)
    ensures (s >= 0 ==> r >= 0) && (s <= 0 ==> r <= 0)
  {
    var magnitude := ScaleMagnitude(Abs(s), v);
    if s >= 0 then magnitude else -magnitude
  }

  /** `s * v / 100` for a non-negative `s`: never more than `s`. */
  function ScaleMagnitude(s: nat, v: int): (r: int)
    requires 0 <= v <= 100
    ensures 0 <= r <= s
    ensures v == 0 ==> r == 0
    ensures v == 100 ==> r == s
  {
    assert 0 <= s * v <= s * 100 by {
      assert s * (100 - v) >= 0;
    }
    s * v / 100
  }

  /** One mixed sample: both gained samples added, then clamped. */
  function MixSample(s1: int, s2: int, v1: int, v2: int): (r: int)
    requires IsSample(s1) && IsSample(s2)
    requires 0 <= v1 <= 100 && 0 <= v2 <= 100
    ensures IsSample(r)
    ensures v2 == 0 ==> r == Scale(s1, v1)
    ensures v1 == 0 ==> r == Scale(s2, v2)
  {
    Clamp(Scale(s1, v1) + Scale(s2, v2))
  }
}
