/**
 * The buffer built for one pair of chunks by the mixing thread of the karaoke
 * manager: the longer chunk is copied into a new buffer, and over the common
 * prefix each sample pair is replaced by the clamped sum of the two gained
 * samples.
 */
module Mix {
  import opened Pcm

  /** The chunk whose bytes pre-fill the buffer: the original when it is at least as long. */
  function Longer(original: Chunk, music: Chunk): (r: Chunk)
    ensures |r| == Max(|original|, |music|)
  {
    if |original| >= |music| then original else music
  }

  /** The mixed sample of pair `k` of the common prefix. */
  function PairMix(original: Chunk, music: Chunk, ov: int, mv: int, k: nat): (t: int)
    requires 2 * k + 1 < Min(|original|, |music|)
    requires 0 <= ov <= 100 && 0 <= mv <= 100
    ensures IsSample(t)
  {
    MixSample(SampleAt(original, k), SampleAt(music, k), ov, mv)
  }

  /** The first `k` mixed sample pairs of the common prefix, as little-endian bytes. */
  function MixedPairs(original: Chunk, music: Chunk, ov: int, mv: int, k: nat): (r: Chunk)
    requires 2 * k <= Min(|original|, |music|)
    requires 0 <= ov <= 100 && 0 <= mv <= 100
    ensures |r| == 2 * k
  {
    if k == 0 then []
    else
      var t := PairMix(original, music, ov, mv, k - 1);
      MixedPairs(original, music, ov, mv, k - 1) + [EncodeLow(t), EncodeHigh(t)]
  }

  /**
   * The buffer the mixing thread hands to the player when both channels
   * delivered a chunk and the volumes are `ov` (original) and `mv` (music):
   * the mixed common prefix followed by the rest of the longer chunk.
   */
  function Mixed(original: Chunk, music: Chunk, ov: int, mv: int): (r: Chunk)
    requires EvenChunk(original) && EvenChunk(music)
    requires 0 <= ov <= 100 && 0 <= mv <= 100
    ensures |r| == Max(|original|, |music|)
  {
    var n := Min(|original|, |music|);
    MixedPairs(original, music, ov, mv, n / 2) + Longer(original, music)[n..]
  }

  /**
   * The loop of the mixing thread for two chunks: allocate the buffer, copy the
   * longer chunk into it, then rewrite the common prefix two bytes at a time.
   */
  method MixChunks(original: Chunk, music: Chunk, ov: int, mv: int) returns (mix: Chunk)
    requires EvenChunk(original) && EvenChunk(music)
    requires 0 <= ov <= 100 && 0 <= mv <= 100
    ensures mix == Mixed(original, music, ov, mv)
  {
    var minLength := Min(|original|, |music|);
    var longer := Longer(original, music);
    var buffer := new Byte[|longer|](j requires 0 <= j < |longer| => longer[j]);
    var i := 0;
    ghost var k := 0;
    while i < minLength
      invariant 0 <= i <= minLength && i == 2 * k
      invariant PairsWritten(original, music, ov, mv, k, buffer[..])
      invariant forall j :: i <= j < |longer| ==> buffer[j] == longer[j]
    {
      var temp1 := DecodeSample(original[i], original[i + 1]);
      var temp2 := DecodeSample(music[i], music[i + 1]);
      var temp := Clamp(Scale(temp1, ov) + Scale(temp2, mv));
      assert temp == PairMix(original, music, ov, mv, k);
      ghost var before := buffer[..];
      buffer[i] := EncodeLow(temp);
      buffer[i + 1] := EncodeHigh(temp);
      WriteNextPair(original, music, ov, mv, k, before, buffer[..]);
      i, k := i + 2, k + 1;
    }
    MixedFromPairs(original, music, ov, mv, buffer[..]);
    mix := buffer[..];
  }

  /** The first `k` sample pairs of `s` hold the mixed samples of the common prefix. */
  ghost predicate PairsWritten(original: Chunk, music: Chunk, ov: int, mv: int, k: nat, s: Chunk)
    requires 2 * k <= Min(|original|, |music|)
    requires 0 <= ov <= 100 && 0 <= mv <= 100
  {
    2 * k <= |s| &&
    forall j :: 0 <= j < k ==>
      s[2 * j] == EncodeLow(PairMix(original, music, ov, mv, j)) && s[2 * j + 1] == EncodeHigh(PairMix(original, music, ov, mv, j))
  }

  /** Writing mixed pair `k` after pairs `0 .. k - 1` extends the written prefix by one pair. */
  lemma WriteNextPair(original: Chunk, music: Chunk, ov: int, mv: int, k: nat, before: Chunk, after: Chunk)
    requires 2 * k + 1 < Min(|original|, |music|)
    requires 0 <= ov <= 100 && 0 <= mv <= 100
    requires PairsWritten(original, music, ov, mv, k, before)
    requires |after| == |before| && 2 * k + 1 < |after|
    requires after[2 * k] == EncodeLow(PairMix(original, music, ov, mv, k))
    requires after[2 * k + 1] == EncodeHigh(PairMix(original, music, ov, mv, k))
    requires forall j :: 0 <= j < 2 * k ==> after[j] == before[j]
    ensures PairsWritten(original, music, ov, mv, k + 1, after)
  {
    forall j | 0 <= j < k
      ensures after[2 * j] == EncodeLow(PairMix(original, music, ov, mv, j))
      ensures after[2 * j + 1] == EncodeHigh(PairMix(original, music, ov, mv, j))
    {
      assert after[2 * j] == before[2 * j] && after[2 * j + 1] == before[2 * j + 1];
    }
  }

  /** A buffer with every pair of the common prefix mixed and the longer chunk's bytes after it is the mixed buffer. */
  lemma MixedFromPairs(original: Chunk, music: Chunk, ov: int, mv: int, s: Chunk)
    requires EvenChunk(original) && EvenChunk(music)
    requires 0 <= ov <= 100 && 0 <= mv <= 100
    requires |s| == Max(|original|, |music|)
    requires PairsWritten(original, music, ov, mv, Min(|original|, |music|) / 2, s)
    requires forall j :: Min(|original|, |music|) <= j < |s| ==> s[j] == Longer(original, music)[j]
    ensures s == Mixed(original, music, ov, mv)
  {
    var n := Min(|original|, |music|);
    var r := Mixed(original, music, ov, mv);
    forall i | 0 <= i < |s| ensures s[i] == r[i] {
      if i < n {
        var j := i / 2;
        MixedPairsAt(original, music, ov, mv, n / 2, j);
      }
    }
  }

  /** Pair `j` of the mixed prefix sits at bytes `2 * j` and `2 * j + 1`. */
  lemma {:induction false} MixedPairsAt(original: Chunk, music: Chunk, ov: int, mv: int, k: nat, j: nat)
    requires 2 * k <= Min(|original|, |music|)
    requires 0 <= ov <= 100 && 0 <= mv <= 100
    requires j < k
    ensures MixedPairs(original, music, ov, mv, k)[2 * j] == EncodeLow(PairMix(original, music, ov, mv, j))
    ensures MixedPairs(original, music, ov, mv, k)[2 * j + 1] == EncodeHigh(PairMix(original, music, ov, mv, j))
  {
    if j < k - 1 {
      MixedPairsAt(original, music, ov, mv, k - 1, j);
    }
  }

  /** The buffer is as long as the longer chunk, and past the common prefix it is that chunk's bytes, whatever the volumes. */
  lemma MixedShape(original: Chunk, music: Chunk, ov: int, mv: int)
    requires EvenChunk(original) && EvenChunk(music)
    requires 0 <= ov <= 100 && 0 <= mv <= 100
    ensures |Mixed(original, music, ov, mv)| == Max(|original|, |music|)
    ensures forall i :: Min(|original|, |music|) <= i < Max(|original|, |music|) ==>
      Mixed(original, music, ov, mv)[i] == Longer(original, music)[i]
  {
  }

  /**
   * Every sample of the common prefix decodes to the clamped sum of the two
   * gained input samples, so it lies in [-32768, 32767] and never wraps.
   */
  lemma {:induction false} MixedSample(original: Chunk, music: Chunk, ov: int, mv: int, k: nat)
    requires EvenChunk(original) && EvenChunk(music)
    requires 0 <= ov <= 100 && 0 <= mv <= 100
    requires 2 * k + 1 < Min(|original|, |music|)
    ensures 2 * k + 1 < |Mixed(original, music, ov, mv)|
    ensures SampleAt(Mixed(original, music, ov, mv), k)
         == Clamp(Scale(SampleAt(original, k), ov) + Scale(SampleAt(music, k), mv))
  {
    var n := Min(|original|, |music|);
    var r := Mixed(original, music, ov, mv);
    var t := PairMix(original, music, ov, mv, k);
    MixedPairsAt(original, music, ov, mv, n / 2, k);
    assert r[2 * k] == EncodeLow(t) && r[2 * k + 1] == EncodeHigh(t);
    DecodeEncode(t);
  }

  /**
   * Once the crossfade has reached the original track (volumes 100 and 0), the
   * common prefix is the original's bytes unchanged; at (0, 100) it is the music's.
   */
  lemma {:induction false} MixedAtFullVolume(original: Chunk, music: Chunk)
    requires EvenChunk(original) && EvenChunk(music)
    ensures forall i :: 0 <= i < Min(|original|, |music|) ==> Mixed(original, music, 100, 0)[i] == original[i]
    ensures forall i :: 0 <= i < Min(|original|, |music|) ==> Mixed(original, music, 0, 100)[i] == music[i]
  {
    var n := Min(|original|, |music|);
    forall i | 0 <= i < n
      ensures Mixed(original, music, 100, 0)[i] == original[i]
      ensures Mixed(original, music, 0, 100)[i] == music[i]
    {
      var k := i / 2;
      assert i == 2 * k || i == 2 * k + 1;
      MixedPairsAt(original, music, 100, 0, n / 2, k);
      MixedPairsAt(original, music, 0, 100, n / 2, k);
      EncodeDecode(original[2 * k], original[2 * k + 1]);
      EncodeDecode(music[2 * k], music[2 * k + 1]);
    }
  }

  /** With the original at full volume and at least as long as the music chunk, the buffer is exactly the original chunk. */
  lemma MixedOriginalOnly(original: Chunk, music: Chunk)
    requires EvenChunk(original) && EvenChunk(music)
    requires |original| >= |music|
    ensures Mixed(original, music, 100, 0) == original
  {
    MixedAtFullVolume(original, music);
  }
}
