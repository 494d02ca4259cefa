/**
 * The offline merge of the demo activity: two decoded 16-bit little-endian
 * PCM files are read 2048 bytes at a time into two buffers; each pass copies
 * the first buffer into an output buffer, overwrites it with the clamped
 * sample-wise sum of both buffers while the second file still delivers, and
 * appends the whole output buffer to the merged file.
 */
module Merge {
  import opened Pcm
  import opened Mix

  /** The size of each of the three buffers. */
  const BUFFER_SIZE: nat := 2048

  /** A freshly allocated byte buffer: all zeros. */
  function Silence(n: nat): (r: seq<Byte>)
    ensures |r| == n && forall i :: 0 <= i < n ==> r[i] == 0
  {
    seq(n, _ => 0)
  }

  /** What `read(buffer)` on a file positioned at `pos` returns, leaves in the buffer and moves the position to. */
  datatype Read = Read(count: int, buffer: seq<Byte>, pos: nat)

  /**
   * `read(buffer)` on a file: -1 at the end of the file, the buffer and the
   * position untouched; otherwise up to a buffer's worth of the next bytes
   * overwrite the front of the buffer, and the bytes past them keep what the
   * buffer held before.
   */
  function ReadBlock(buffer: seq<Byte>, file: seq<Byte>, pos: nat): (r: Read)
    requires |buffer| == BUFFER_SIZE && pos <= |file|
    ensures |r.buffer| == BUFFER_SIZE && pos <= r.pos <= |file|
    ensures r.count == -1 <==> pos == |file|
  {
    if pos == |file| then Read(-1, buffer, pos)
    else
      var n := Min(BUFFER_SIZE, |file| - pos);
      Read(n, file[pos..pos + n] + buffer[n..], pos + n)
  }

  /**
   * What a read leaves behind: at the end of the file nothing changes; else
   * the count of bytes read is positive and short only at the end of the
   * file, those bytes are the file's next ones, and the rest of the buffer is
   * stale.
   */
  lemma ReadBlockContents(buffer: seq<Byte>, file: seq<Byte>, pos: nat)
    requires |buffer| == BUFFER_SIZE && pos <= |file|
    ensures var r := ReadBlock(buffer, file, pos);
            (r.count == -1 ==> r.buffer == buffer && r.pos == pos) &&
            (r.count != -1 ==>
              0 < r.count <= BUFFER_SIZE && r.pos == pos + r.count &&
              (r.count < BUFFER_SIZE ==> r.pos == |file|) &&
              r.buffer[..r.count] == file[pos..r.pos] && r.buffer[r.count..] == buffer[r.count..])
  {
  }

  /** The state the merge loop carries from one pass to the next. */
  datatype MergeState = MergeState(buffer1: seq<Byte>, buffer2: seq<Byte>, pos1: nat, pos2: nat, end1: bool, end2: bool)

  predicate Good(file1: seq<Byte>, file2: seq<Byte>, s: MergeState) {
    |s.buffer1| == BUFFER_SIZE && |s.buffer2| == BUFFER_SIZE &&
    s.pos1 <= |file1| && s.pos2 <= |file2| &&
    (s.end1 ==> s.pos1 == |file1|) && (s.end2 ==> s.pos2 == |file2|)
  }

  /** The number of buffer-sized blocks a file is read in. */
  function Blocks(file: seq<Byte>): nat {
    (|file| + BUFFER_SIZE - 1) / BUFFER_SIZE
  }

  /**
   * The passes in which a stream still reads: one per remaining block, and
   * one more in which `read` returns -1; none once it has ended.
   */
  function Passes(end: bool, file: seq<Byte>, pos: nat): nat
    requires pos <= |file|
  {
    if end then 0 else (|file| - pos + BUFFER_SIZE - 1) / BUFFER_SIZE + 1
  }

  /** Each read of a stream that has not ended uses up one of its passes. */
  lemma ReadUsesPass(buffer: seq<Byte>, file: seq<Byte>, pos: nat)
    requires |buffer| == BUFFER_SIZE && pos <= |file|
    ensures var r := ReadBlock(buffer, file, pos);
            Passes(r.count == -1, file, r.pos) == Passes(false, file, pos) - 1
  {
    ReadBlockContents(buffer, file, pos);
    var rest := |file| - pos;
    if rest > BUFFER_SIZE {
      assert (rest - BUFFER_SIZE + BUFFER_SIZE - 1) / BUFFER_SIZE == (rest + BUFFER_SIZE - 1) / BUFFER_SIZE - 1;
    }
  }

  /** The mix of two buffers: the clamped sum of each pair of samples, with no gain. */
  function MixBlock(buffer1: seq<Byte>, buffer2: seq<Byte>): (r: seq<Byte>)
    requires |buffer1| == BUFFER_SIZE && |buffer2| == BUFFER_SIZE
    ensures |r| == BUFFER_SIZE
  {
    MixedShape(buffer1, buffer2, 100, 100);
    Mixed(buffer1, buffer2, 100, 100)
  }

  /** Each sample of a mixed block is the clamped sum of the two buffers' samples. */
  lemma MixBlockSample(buffer1: seq<Byte>, buffer2: seq<Byte>, k: nat)
    requires |buffer1| == BUFFER_SIZE && |buffer2| == BUFFER_SIZE
    requires k < BUFFER_SIZE / 2
    ensures SampleAt(MixBlock(buffer1, buffer2), k) == Clamp(SampleAt(buffer1, k) + SampleAt(buffer2, k))
  {
    MixedSample(buffer1, buffer2, 100, 100, k);
  }

  /** The block mix does not depend on which buffer comes first. */
  lemma MixBlockSymmetric(buffer1: seq<Byte>, buffer2: seq<Byte>, k: nat)
    requires |buffer1| == BUFFER_SIZE && |buffer2| == BUFFER_SIZE
    requires k < BUFFER_SIZE / 2
    ensures SampleAt(MixBlock(buffer1, buffer2), k) == SampleAt(MixBlock(buffer2, buffer1), k)
  {
    MixBlockSample(buffer1, buffer2, k);
    MixBlockSample(buffer2, buffer1, k);
  }

  /** A stream that has ended is not read again; one that has not is read. */
  function ReadStream(end: bool, buffer: seq<Byte>, file: seq<Byte>, pos: nat): (r: Read)
    requires |buffer| == BUFFER_SIZE && pos <= |file|
    ensures |r.buffer| == BUFFER_SIZE && pos <= r.pos <= |file|
    ensures end ==> r.buffer == buffer && r.pos == pos && r.count != -1
  {
    if end then Read(0, buffer, pos) else ReadBlock(buffer, file, pos)
  }

  /** What one pass of the merge loop writes, and the state it leaves. */
  datatype PassResult = PassResult(state: MergeState, block: seq<Byte>)

  /**
   * One pass of the merge loop: each stream that has not ended reads into its
   * buffer; the block written is the mix of both buffers when the second
   * stream had not ended before the pass, and the first buffer otherwise.
   */
  function Pass(file1: seq<Byte>, file2: seq<Byte>, s: MergeState): (r: PassResult)
    requires Good(file1, file2, s) && !(s.end1 && s.end2)
    ensures Good(file1, file2, r.state)
    ensures |r.block| == BUFFER_SIZE
    ensures s.end2 ==> r.block == r.state.buffer1
    ensures !s.end2 ==> r.block == MixBlock(r.state.buffer1, r.state.buffer2)
  {
    var read1 := ReadStream(s.end1, s.buffer1, file1, s.pos1);
    var read2 := ReadStream(s.end2, s.buffer2, file2, s.pos2);
    var block := if s.end2 then read1.buffer else MixBlock(read1.buffer, read2.buffer);
    PassResult(MergeState(read1.buffer, read2.buffer, read1.pos, read2.pos,
                          s.end1 || read1.count == -1, s.end2 || read2.count == -1),
               block)
  }

  /** Each stream that has not ended uses up one pass. */
  lemma PassUsesPasses(file1: seq<Byte>, file2: seq<Byte>, s: MergeState)
    requires Good(file1, file2, s) && !(s.end1 && s.end2)
    ensures var r := Pass(file1, file2, s);
            Passes(r.state.end1, file1, r.state.pos1) == Max(0, Passes(s.end1, file1, s.pos1) - 1) &&
            Passes(r.state.end2, file2, r.state.pos2) == Max(0, Passes(s.end2, file2, s.pos2) - 1)
  {
    ReadUsesPass(s.buffer1, file1, s.pos1);
    ReadUsesPass(s.buffer2, file2, s.pos2);
  }

  /** Every pass uses up at least one pass of the streams together. */
  lemma PassDecreases(file1: seq<Byte>, file2: seq<Byte>, s: MergeState)
    requires Good(file1, file2, s) && !(s.end1 && s.end2)
    ensures var t := Pass(file1, file2, s).state;
            Passes(t.end1, file1, t.pos1) + Passes(t.end2, file2, t.pos2) < Passes(s.end1, file1, s.pos1) + Passes(s.end2, file2, s.pos2)
  {
    PassUsesPasses(file1, file2, s);
  }

  /** The merged file the loop writes from state `s` on: one block per pass until both streams have ended. */
  function MergeFrom(file1: seq<Byte>, file2: seq<Byte>, s: MergeState): seq<Byte>
    requires Good(file1, file2, s)
    decreases Passes(s.end1, file1, s.pos1) + Passes(s.end2, file2, s.pos2)
  {
    if s.end1 && s.end2 then []
    else
      var p := Pass(file1, file2, s);
      PassUsesPasses(file1, file2, s);
      p.block + MergeFrom(file1, file2, p.state)
  }

  /** The first pass of `MergeFrom` peeled off. */
  lemma MergeFromUnfold(file1: seq<Byte>, file2: seq<Byte>, s: MergeState)
    requires Good(file1, file2, s) && !(s.end1 && s.end2)
    ensures MergeFrom(file1, file2, s) == Pass(file1, file2, s).block + MergeFrom(file1, file2, Pass(file1, file2, s).state)
  {
  }

  lemma Regroup(a: seq<Byte>, b: seq<Byte>, c: seq<Byte>)
    ensures a + (b + c) == (a + b) + c
  {
  }

  /** From any state, one buffer-sized block per pass, for as many passes as the stream with more passes left needs. */
  lemma {:induction false} MergeFromLength(file1: seq<Byte>, file2: seq<Byte>, s: MergeState)
    requires Good(file1, file2, s)
    ensures |MergeFrom(file1, file2, s)| == Max(Passes(s.end1, file1, s.pos1), Passes(s.end2, file2, s.pos2)) * BUFFER_SIZE
    decreases Passes(s.end1, file1, s.pos1) + Passes(s.end2, file2, s.pos2)
  {
    if !(s.end1 && s.end2) {
      var p := Pass(file1, file2, s);
      PassUsesPasses(file1, file2, s);
      MergeFromLength(file1, file2, p.state);
    }
  }

  /** The state before the first pass: zeroed buffers, both files at their start. */
  function Initial(): (s: MergeState)
    ensures s.pos1 == 0 && s.pos2 == 0 && !s.end1 && !s.end2
  {
    MergeState(Silence(BUFFER_SIZE), Silence(BUFFER_SIZE), 0, 0, false, false)
  }

  /**
   * The merged file exactly as the loop writes it: at least one block, even
   * when both inputs are empty.
   */
  function MergeAsWritten(file1: seq<Byte>, file2: seq<Byte>): (r: seq<Byte>)
    ensures |r| >= BUFFER_SIZE
  {
    MergeFromLength(file1, file2, Initial());
    MergeFrom(file1, file2, Initial())
  }

  /**
   * As written, the merged file has one block per block of the longer input
   * plus one more: the loop runs a last pass, in which both reads return -1,
   * and writes the output buffer once more.
   */
  lemma MergeAsWrittenLength(file1: seq<Byte>, file2: seq<Byte>)
    ensures |MergeAsWritten(file1, file2)| == (Max(Blocks(file1), Blocks(file2)) + 1) * BUFFER_SIZE
  {
    MergeFromLength(file1, file2, Initial());
  }

  /**
   * The merge as evidently intended: the common part of the two
   * recordings mixed sample by sample (the clamped sum), followed by the rest
   * of the longer one, which after the shorter has ended is mixed with silence.
   */
  function MergeIntended(file1: seq<Byte>, file2: seq<Byte>): (r: seq<Byte>)
    requires EvenChunk(file1) && EvenChunk(file2)
    ensures |r| == Max(|file1|, |file2|)
  {
    MixedShape(file1, file2, 100, 100);
    Mixed(file1, file2, 100, 100)
  }

  /** Over the common part, each merged sample is the clamped sum of the two input samples. */
  lemma MergeIntendedSample(file1: seq<Byte>, file2: seq<Byte>, k: nat)
    requires EvenChunk(file1) && EvenChunk(file2)
    requires 2 * k + 1 < Min(|file1|, |file2|)
    ensures 2 * k + 1 < |MergeIntended(file1, file2)|
    ensures SampleAt(MergeIntended(file1, file2), k) == Clamp(SampleAt(file1, k) + SampleAt(file2, k))
  {
    MixedSample(file1, file2, 100, 100, k);
  }

  /** Past the end of the shorter input, the merged file is the longer input's bytes. */
  lemma MergeIntendedTail(file1: seq<Byte>, file2: seq<Byte>, i: nat)
    requires EvenChunk(file1) && EvenChunk(file2)
    requires Min(|file1|, |file2|) <= i < Max(|file1|, |file2|)
    ensures MergeIntended(file1, file2)[i] == (if |file1| >= |file2| then file1[i] else file2[i])
  {
    MixedShape(file1, file2, 100, 100);
  }

  /** Which file is the first does not matter, byte by byte. */
  lemma MergeIntendedSymmetricAt(file1: seq<Byte>, file2: seq<Byte>, i: nat)
    requires EvenChunk(file1) && EvenChunk(file2)
    requires i < Max(|file1|, |file2|)
    ensures MergeIntended(file1, file2)[i] == MergeIntended(file2, file1)[i]
  {
    var n := Min(|file1|, |file2|);
    if i < n {
      var k := i / 2;
      assert i == 2 * k || i == 2 * k + 1;
      MixedPairsAt(file1, file2, 100, 100, n / 2, k);
      MixedPairsAt(file2, file1, 100, 100, n / 2, k);
      assert PairMix(file1, file2, 100, 100, k) == PairMix(file2, file1, 100, 100, k);
    } else {
      MergeIntendedTail(file1, file2, i);
      MergeIntendedTail(file2, file1, i);
    }
  }

  /** Which file is the first does not matter. */
  lemma MergeIntendedSymmetric(file1: seq<Byte>, file2: seq<Byte>)
    requires EvenChunk(file1) && EvenChunk(file2)
    ensures MergeIntended(file1, file2) == MergeIntended(file2, file1)
  {
    forall i | 0 <= i < Max(|file1|, |file2|)
      ensures MergeIntended(file1, file2)[i] == MergeIntended(file2, file1)[i]
    {
      MergeIntendedSymmetricAt(file1, file2, i);
    }
  }

  /** Merging a recording with silence gives its bytes back, byte by byte. */
  lemma MergeIntendedWithSilenceAt(file: seq<Byte>, i: nat)
    requires EvenChunk(file) && i < |file|
    ensures MergeIntended(file, Silence(|file|))[i] == file[i]
  {
    var n := |file|;
    var k := i / 2;
    assert i == 2 * k || i == 2 * k + 1;
    MixedPairsAt(file, Silence(n), 100, 100, n / 2, k);
    EncodeDecode(file[2 * k], file[2 * k + 1]);
  }

  /** Merging a recording with silence of the same length gives the recording back. */
  lemma MergeIntendedWithSilence(file: seq<Byte>)
    requires EvenChunk(file)
    ensures MergeIntended(file, Silence(|file|)) == file
  {
    forall i | 0 <= i < |file|
      ensures MergeIntended(file, Silence(|file|))[i] == file[i]
    {
      MergeIntendedWithSilenceAt(file, i);
    }
  }

  /**
   * The extra block: two one-block recordings merge, as written, into two
   * blocks, where the intended merge has one.
   */
  lemma MergeAsWrittenExtraBlock(file1: seq<Byte>, file2: seq<Byte>)
    requires |file1| == BUFFER_SIZE && |file2| == BUFFER_SIZE
    ensures |MergeAsWritten(file1, file2)| == 2 * BUFFER_SIZE
    ensures |MergeIntended(file1, file2)| == BUFFER_SIZE
  {
    MergeAsWrittenLength(file1, file2);
  }

  /**
   * The stale buffer: once the first file has ended, its last block stays in
   * the first buffer and is mixed into every later block of the second file.
   * For a one-block first file and a two-block second file, the second block
   * written is the first file's block mixed again with the second file's
   * second block.
   */
  lemma MergeAsWrittenRemixesLastBlock(file1: seq<Byte>, file2: seq<Byte>)
    requires |file1| == BUFFER_SIZE && |file2| == 2 * BUFFER_SIZE
    ensures |MergeAsWritten(file1, file2)| == 3 * BUFFER_SIZE
    ensures MergeAsWritten(file1, file2)[BUFFER_SIZE..2 * BUFFER_SIZE] == MixBlock(file1, file2[BUFFER_SIZE..])
  {
    var p0 := Pass(file1, file2, Initial());
    assert p0.state.buffer1 == file1 && !p0.state.end1 && !p0.state.end2;
    assert p0.state.pos1 == BUFFER_SIZE && p0.state.pos2 == BUFFER_SIZE;
    var p1 := Pass(file1, file2, p0.state);
    assert p1.state.buffer1 == file1;
    assert p1.state.buffer2 == file2[BUFFER_SIZE..];
    MergeFromUnfold(file1, file2, Initial());
    MergeFromUnfold(file1, file2, p0.state);
    MergeAsWrittenLength(file1, file2);
    var rest := MergeFrom(file1, file2, p1.state);
    assert MergeAsWritten(file1, file2) == p0.block + (p1.block + rest);
    assert (p0.block + (p1.block + rest))[BUFFER_SIZE..2 * BUFFER_SIZE] == p1.block;
  }

  /** A stale sample of 1 mixed with silence stays 1: the low byte of the mixed block is 1. */
  lemma StaleSampleSurvives(buffer1: seq<Byte>, buffer2: seq<Byte>)
    requires |buffer1| == BUFFER_SIZE && buffer1[0] == 1 && buffer1[1] == 0
    requires |buffer2| == BUFFER_SIZE && buffer2[0] == 0 && buffer2[1] == 0
    ensures MixBlock(buffer1, buffer2)[0] == 1
  {
    var block := MixBlock(buffer1, buffer2);
    MixBlockSample(buffer1, buffer2, 0);
    assert SampleAt(buffer1, 0) == 1 && SampleAt(buffer2, 0) == 0;
    DecodeSampleBits(block[0], block[1]);
  }

  /**
   * An input that shows it: a one-block first file whose first sample is 1,
   * merged with two blocks of silence, yields 1 as the first sample of the
   * second block, where the intended merge has the second file's 0.
   */
  lemma MergeAsWrittenStaleBlock(file1: seq<Byte>, file2: seq<Byte>)
    requires |file1| == BUFFER_SIZE && file1[0] == 1 && file1[1] == 0
    requires |file2| == 2 * BUFFER_SIZE && forall i :: 0 <= i < |file2| ==> file2[i] == 0
    ensures |MergeAsWritten(file1, file2)| > BUFFER_SIZE
    ensures MergeAsWritten(file1, file2)[BUFFER_SIZE] == 1
    ensures MergeIntended(file1, file2)[BUFFER_SIZE] == 0
  {
    var out := MergeAsWritten(file1, file2);
    MergeAsWrittenRemixesLastBlock(file1, file2);
    assert out[BUFFER_SIZE..2 * BUFFER_SIZE][0] == out[BUFFER_SIZE];
    StaleSampleSurvives(file1, file2[BUFFER_SIZE..]);
    MergeIntendedTail(file1, file2, BUFFER_SIZE);
  }

  /**
   * `read(buffer)` on the file behind a stream at position `pos`: returns the
   * count (or -1) and the new position.
   */
  method ReadInto(buffer: array<Byte>, file: seq<Byte>, pos: nat) returns (count: int, newPos: nat)
    requires buffer.Length == BUFFER_SIZE && pos <= |file|
    modifies buffer
    ensures Read(count, buffer[..], newPos) == ReadBlock(old(buffer[..]), file, pos)
  {
    if pos == |file| {
      return -1, pos;
    }
    var n := Min(BUFFER_SIZE, |file| - pos);
    forall i | 0 <= i < n {
      buffer[i] := file[pos + i];
    }
    assert buffer[..] == file[pos..pos + n] + old(buffer[..])[n..];
    count, newPos := n, pos + n;
  }

  /**
   * The inner loop of a pass: two bytes at a time, decode a sample from each
   * input buffer, add, clamp to the 16-bit range and store the sum
   * little-endian in the output buffer.
   */
  method MixInto(buffer1: array<Byte>, buffer2: array<Byte>, buffer3: array<Byte>)
    requires buffer1.Length == BUFFER_SIZE && buffer2.Length == BUFFER_SIZE && buffer3.Length == BUFFER_SIZE
    requires buffer3 != buffer1 && buffer3 != buffer2
    modifies buffer3
    ensures buffer3[..] == MixBlock(buffer1[..], buffer2[..])
  {
    ghost var b1, b2 := buffer1[..], buffer2[..];
    var i := 0;
    ghost var k := 0;
    while i < buffer2.Length
      invariant 0 <= i <= BUFFER_SIZE && i == 2 * k
      invariant PairsWritten(b1, b2, 100, 100, k, buffer3[..])
    {
      var temp1 := DecodeSample(buffer1[i], buffer1[i + 1]);
      var temp2 := DecodeSample(buffer2[i], buffer2[i + 1]);
      var temp := temp1 + temp2;
      if temp > MAX_SAMPLE {
        temp := MAX_SAMPLE;
      } else if temp < MIN_SAMPLE {
        temp := MIN_SAMPLE;
      }
      assert temp == PairMix(b1, b2, 100, 100, k);
      ghost var before := buffer3[..];
      buffer3[i] := EncodeLow(temp);
      buffer3[i + 1] := EncodeHigh(temp);
      WriteNextPair(b1, b2, 100, 100, k, before, buffer3[..]);
      i, k := i + 2, k + 1;
    }
    MixedFromPairs(b1, b2, 100, 100, buffer3[..]);
  }

  /**
   * One pass of the loop of `merge` on the three buffers: each stream that
   * has not ended reads into its buffer, the first buffer is copied to the
   * output buffer when the first stream read, and the output buffer is
   * overwritten with the mix when the second stream read. The new state and
   * the output buffer are those of `Pass`.
   */
  method MergePass(buffer1: array<Byte>, buffer2: array<Byte>, buffer3: array<Byte>,
                   file1: seq<Byte>, file2: seq<Byte>, pos1: nat, pos2: nat, end1: bool, end2: bool)
    returns (newPos1: nat, newPos2: nat, newEnd1: bool, newEnd2: bool)
    requires buffer3 != buffer1 && buffer3 != buffer2 && buffer1 != buffer2
    requires buffer3.Length == BUFFER_SIZE
    requires Good(file1, file2, MergeState(buffer1[..], buffer2[..], pos1, pos2, end1, end2))
    requires !end1 || !end2
    modifies buffer1, buffer2, buffer3
    ensures var p := Pass(file1, file2, old(MergeState(buffer1[..], buffer2[..], pos1, pos2, end1, end2)));
            MergeState(buffer1[..], buffer2[..], newPos1, newPos2, newEnd1, newEnd2) == p.state &&
            buffer3[..] == p.block
    ensures Passes(newEnd1, file1, newPos1) + Passes(newEnd2, file2, newPos2) < Passes(end1, file1, pos1) + Passes(end2, file2, pos2)
  {
    PassDecreases(file1, file2, MergeState(buffer1[..], buffer2[..], pos1, pos2, end1, end2));
    newPos1, newEnd1 := StreamStep(buffer1, file1, pos1, end1);
    if !end1 {
      CopyBuffer(buffer1, buffer3);
    }
    newPos2, newEnd2 := StreamStep(buffer2, file2, pos2, end2);
    if !end2 {
      MixInto(buffer1, buffer2, buffer3);
    }
  }

  /** `new byte[2048]`: a fresh zeroed buffer. */
  method NewBuffer() returns (buffer: array<Byte>)
    ensures fresh(buffer) && buffer[..] == Silence(BUFFER_SIZE)
  {
    buffer := new Byte[BUFFER_SIZE](_ => 0);
  }

  /** `System.arraycopy` of a whole buffer. */
  method CopyBuffer(source: array<Byte>, target: array<Byte>)
    requires source.Length == target.Length && source != target
    modifies target
    ensures target[..] == source[..]
  {
    forall i | 0 <= i < source.Length {
      target[i] := source[i];
    }
  }

  /** The read of one stream in a pass, skipped once that stream has ended. */
  method StreamStep(buffer: array<Byte>, file: seq<Byte>, pos: nat, end: bool) returns (newPos: nat, newEnd: bool)
    requires buffer.Length == BUFFER_SIZE && pos <= |file|
    modifies buffer
    ensures var r := ReadStream(end, old(buffer[..]), file, pos);
            buffer[..] == r.buffer && newPos == r.pos && newEnd == (end || r.count == -1)
  {
    newPos, newEnd := pos, end;
    if !end {
      var count: int;
      count, newPos := ReadInto(buffer, file, pos);
      newEnd := count == -1;
    }
  }

  /**
   * `merge`, with the two decoded files as byte sequences and the merged file
   * returned: the loop runs until both streams have ended, and the bytes
   * written are exactly `MergeAsWritten`.
   */
  method Merge(file1: seq<Byte>, file2: seq<Byte>) returns (merged: seq<Byte>)
    ensures merged == MergeAsWritten(file1, file2)
  {
    var buffer1 := NewBuffer();
    var buffer2 := NewBuffer();
    var buffer3 := NewBuffer();
    var pos1, pos2 := 0, 0;
    var end1, end2 := false, false;
    merged := [];
    assert MergeState(buffer1[..], buffer2[..], pos1, pos2, end1, end2) == Initial();
    while !end1 || !end2
      invariant Good(file1, file2, MergeState(buffer1[..], buffer2[..], pos1, pos2, end1, end2))
      invariant merged + MergeFrom(file1, file2, MergeState(buffer1[..], buffer2[..], pos1, pos2, end1, end2))
        == MergeAsWritten(file1, file2)
      decreases Passes(end1, file1, pos1) + Passes(end2, file2, pos2)
    {
      ghost var s := MergeState(buffer1[..], buffer2[..], pos1, pos2, end1, end2);
      ghost var p := Pass(file1, file2, s);
      MergeFromUnfold(file1, file2, s);
      Regroup(merged, p.block, MergeFrom(file1, file2, p.state));
      pos1, pos2, end1, end2 := MergePass(buffer1, buffer2, buffer3, file1, file2, pos1, pos2, end1, end2);
      merged := merged + buffer3[..];
    }
  }
}
