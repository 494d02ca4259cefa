/**
 * The synchronous decode channel: a decoder thread runs `AudioDecode`, which
 * repeatedly asks the codec for an input buffer, fills it from the extractor,
 * then drains every ready output buffer into a bounded FIFO queue of decoded
 * chunks, until decoding is over.
 */
module ChannelSync {
  import opened Pcm
  import opened Decoder

  /**
   * What the codec answers during one pass of the decode loop: the index
   * `dequeueInputBuffer` returns, whether `getInputBuffer` gives a buffer for
   * it, and the output buffers `dequeueOutputBuffer` hands out before it
   * returns a negative index (`None` where `getOutputBuffer` gives no buffer).
   */
  datatype Round = Round(inputIndex: int, inputPresent: bool, outputs: seq<Option<Chunk>>)

  /** The chunks a sequence of output buffers puts into the queue, in order. */
  function Present(outputs: seq<Option<Chunk>>): (r: seq<Chunk>)
    ensures |r| <= |outputs|
  {
    if |outputs| == 0 then []
    else
      var last := outputs[|outputs| - 1];
      Present(outputs[..|outputs| - 1]) + (if last.Some? then [last.value] else [])
  }

  /** The chunks the output drains of a sequence of passes put into the queue, in order. */
  function Outputs(rounds: seq<Round>): seq<Chunk> {
    if |rounds| == 0 then []
    else Outputs(rounds[..|rounds| - 1]) + Present(rounds[|rounds| - 1].outputs)
  }

  /** The passes that fill an input buffer: those with an index above 0 and a buffer for it. */
  function Fills(rounds: seq<Round>): nat {
    if |rounds| == 0 then 0
    else
      var last := rounds[|rounds| - 1];
      Fills(rounds[..|rounds| - 1]) + (if last.inputIndex > 0 && last.inputPresent then 1 else 0)
  }

  /** The drain queues the data of exactly the output buffers that hold data. */
  lemma {:induction false} PresentIsFilter(outputs: seq<Option<Chunk>>)
    ensures forall i :: 0 <= i < |Present(outputs)| ==> Some(Present(outputs)[i]) in outputs
    ensures forall i :: 0 <= i < |outputs| && outputs[i].Some? ==> outputs[i].value in Present(outputs)
  {
    if |outputs| > 0 {
      var n := |outputs| - 1;
      PresentIsFilter(outputs[..n]);
      assert outputs == outputs[..n] + [outputs[n]];
    }
  }

  /** Buffers without data add nothing, and present buffers add their chunks in order. */
  lemma {:induction false} PresentAll(chunks: seq<Chunk>, outputs: seq<Option<Chunk>>)
    requires |outputs| == |chunks|
    requires forall i :: 0 <= i < |outputs| ==> outputs[i] == Some(chunks[i])
    ensures Present(outputs) == chunks
  {
    if |outputs| > 0 {
      var n := |outputs| - 1;
      PresentAll(chunks[..n], outputs[..n]);
      assert chunks == chunks[..n] + [chunks[n]];
    }
  }

  /** Extending a prefix of the passes by the next pass extends its outputs and its fills by that pass's. */
  lemma NextRound(rounds: seq<Round>, r: nat)
    requires r < |rounds|
    ensures Outputs(rounds[..r + 1]) == Outputs(rounds[..r]) + Present(rounds[r].outputs)
    ensures Fills(rounds[..r + 1]) == Fills(rounds[..r]) + (if rounds[r].inputIndex > 0 && rounds[r].inputPresent then 1 else 0)
  {
    assert rounds[..r + 1][..r] == rounds[..r];
  }

  /** Moving the chunks taken from a queue onto the delivered ones keeps the overall order. */
  lemma Regroup(delivered: seq<Chunk>, taken: seq<Chunk>, queue: seq<Chunk>, waiting: seq<Chunk>, added: seq<Chunk>)
    requires taken + queue == waiting + added
    ensures (delivered + taken) + queue == (delivered + waiting) + added
  {
    assert (delivered + taken) + queue == delivered + (taken + queue);
    assert delivered + (waiting + added) == (delivered + waiting) + added;
  }

  class SyncChannel {
    /** Whether decoding is over; a new channel starts out not over. */
    var decodeOver: bool
    /** The decoded chunks waiting for the mixing thread, oldest first. */
    var queue: seq<Chunk>
    var decoder: DecoderState
    /** Whether the channel still holds its extractor (`release` drops it). */
    var hasExtractor: bool
    /** Whether `release` has asked the decoder thread to quit. */
    var threadQuit: bool
    /** The track `initDecoder` selected. */
    const track: Option<nat>
    /** The sizes of the selected track's compressed samples. */
    const sampleSizes: seq<nat>
    /** The extractor's position: how many samples have been read. */
    var cursor: nat
    /** The sizes of the input buffers queued to the decoder, in order. */
    var fed: seq<nat>
    /** Whether an end-of-stream input buffer has been queued. */
    var eosQueued: bool

    ghost predicate Valid()
      reads this
    {
      |queue| <= QUEUE_CAPACITY &&
      cursor <= |sampleSizes| && fed == sampleSizes[..cursor] &&
      (eosQueued ==> cursor == |sampleSizes|)
    }

    /**
     * The constructor: an empty queue of capacity 5, `decodeOver` initially
     * false, then `initDecoder`, which here also starts the decoder, with the
     * failure handling its handler intends (see `Decoder.InitDecoder`).
     */
    constructor (extractor: Extractor, createFails: bool)
      ensures Valid()
      ensures queue == [] && !eosQueued && fed == [] && cursor == 0
      ensures hasExtractor && !threadQuit
      ensures sampleSizes == extractor.sampleSizes
      ensures track == FirstAudioTrack(extractor.mimes)
      ensures decodeOver <==> track.Some? && createFails
      ensures decoder == Executing <==> track.Some? && !createFails
      ensures decoder != Executing ==> decoder == NoDecoder
    {
      var selected := FindAudioTrack(extractor.mimes);
      var init := InitDecoder(extractor.mimes, createFails, false);
      decodeOver := init.decodeOver;
      queue := [];
      hasExtractor := true;
      threadQuit := false;
      track := selected;
      sampleSizes := extractor.sampleSizes;
      cursor := 0;
      fed := [];
      eosQueued := false;
      decoder := if init.decoder == Configured then Executing else init.decoder;
    }

    /** `start`: decoding is no longer over; the decode loop is posted to the decoder thread. */
    method Start()
      requires Valid()
      modifies this`decodeOver
      ensures Valid()
      ensures !decodeOver
    {
      decodeOver := false;
    }

    /** `pause` only logs; no field of the channel changes. */
    method Pause()
      requires Valid()
      ensures Valid()
    {
    }

    /** `resume` only logs; no field of the channel changes. */
    method Resume()
      requires Valid()
      ensures Valid()
    {
    }

    /** `stop` only raises `decodeOver`, which ends the decode loop; stopping twice is stopping once. */
    method Stop()
      requires Valid()
      modifies this`decodeOver
      ensures Valid()
      ensures decodeOver
    {
      decodeOver := true;
    }

    /** `release`: the decoder and the extractor are dropped; the null checks make a second call harmless. */
    method Release()
      requires Valid()
      modifies this`decoder, this`hasExtractor, this`threadQuit
      ensures Valid()
      ensures decoder == NoDecoder && !hasExtractor && threadQuit
    {
      if decoder != NoDecoder {
        decoder := NoDecoder;
      }
      if hasExtractor {
        hasExtractor := false;
      }
      threadQuit := true;
    }

    /** `getPCMData`: takes the oldest chunk; the blocking `take` is modelled as a non-empty queue. */
    method GetPCMData() returns (chunk: Chunk)
      requires Valid() && |queue| > 0
      modifies this`queue
      ensures Valid()
      ensures chunk == old(queue)[0] && queue == old(queue)[1..]
    {
      chunk := queue[0];
      queue := queue[1..];
    }

    /**
     * The input half of a pass of `AudioDecode`: for an index above 0 whose
     * buffer is present, read the next sample; at the end of the samples queue
     * end of stream, mark decoding over and report it; otherwise queue the
     * sample and advance the extractor. Index 0 is never filled.
     */
    method FillInput(inputIndex: int, inputPresent: bool) returns (endOfStream: bool)
      requires Valid()
      modifies this`decodeOver, this`eosQueued, this`fed, this`cursor
      ensures Valid()
      ensures endOfStream <==> inputIndex > 0 && inputPresent && old(cursor) == |sampleSizes|
      ensures endOfStream ==> decodeOver && eosQueued && cursor == old(cursor)
      ensures !endOfStream ==> decodeOver == old(decodeOver) && eosQueued == old(eosQueued)
      ensures !endOfStream ==> cursor == old(cursor) + (if inputIndex > 0 && inputPresent then 1 else 0)
    {
      endOfStream := false;
      if inputIndex > 0 && inputPresent {
        var bufferSize := ReadSampleData(sampleSizes, cursor);
        if bufferSize < 0 {
          eosQueued := true;
          decodeOver := true;
          endOfStream := true;
        } else {
          fed := fed + [bufferSize];
          cursor := cursor + 1;
          assert fed == sampleSizes[..cursor];
        }
      }
    }

    /**
     * The inner loop of `AudioDecode`: every ready output buffer that holds
     * data is put at the tail of the queue. When the queue is full, `put`
     * blocks until the mixing thread takes the head; the model performs that
     * take there and returns the chunks so taken, oldest first.
     */
    method DrainOutputs(outputs: seq<Option<Chunk>>) returns (taken: seq<Chunk>)
      requires Valid()
      modifies this`queue
      ensures Valid()
      ensures taken + queue == old(queue) + Present(outputs)
    {
      ghost var start := queue;
      taken := [];
      var j := 0;
      while j < |outputs|
        invariant 0 <= j <= |outputs|
        invariant Valid()
        invariant taken + queue == start + Present(outputs[..j])
      {
        assert outputs[..j + 1][..j] == outputs[..j];
        ghost var prev := taken + queue;
        if outputs[j].Some? {
          if |queue| == QUEUE_CAPACITY {
            assert queue == [queue[0]] + queue[1..];
            taken := taken + [queue[0]];
            queue := queue[1..];
          }
          assert taken + queue == prev;
          queue := queue + [outputs[j].value];
          assert taken + queue == prev + [outputs[j].value];
        }
        j := j + 1;
      }
      assert outputs[..j] == outputs;
    }

    /**
     * One pass of the loop of `AudioDecode`: fill an input buffer; unless that
     * reached the end of the samples, drain the ready output buffers into the
     * queue, returning the chunks the mixing thread took meanwhile.
     */
    method DecodeRound(round: Round) returns (endOfStream: bool, taken: seq<Chunk>)
      requires Valid()
      modifies this`decodeOver, this`eosQueued, this`fed, this`cursor, this`queue
      ensures Valid()
      ensures endOfStream <==> round.inputIndex > 0 && round.inputPresent && old(cursor) == |sampleSizes|
      ensures endOfStream ==>
        decodeOver && eosQueued && cursor == old(cursor) && queue == old(queue) && taken == []
      ensures !endOfStream ==>
        decodeOver == old(decodeOver) && eosQueued == old(eosQueued) &&
        cursor == old(cursor) + (if round.inputIndex > 0 && round.inputPresent then 1 else 0) &&
        taken + queue == old(queue) + Present(round.outputs)
    {
      endOfStream := FillInput(round.inputIndex, round.inputPresent);
      taken := [];
      if !endOfStream {
        taken := DrainOutputs(round.outputs);
      }
    }

    /**
     * `AudioDecode`, run against the codec's answers in `rounds`, one per pass
     * of its loop. Each pass fills an input buffer (`FillInput`) and leaves the
     * loop at the end of the samples; it then drains the ready output buffers into the queue
     * (`DrainOutputs`); the chunks the mixing thread takes meanwhile are
     * returned as `delivered`. Once the loop has ended because decoding is over,
     * the decoder is stopped and reset and the queue is cleared; the cleared
     * chunks are returned as `dropped`. `processed` counts the passes whose
     * output drain ran.
     */
    method AudioDecode(rounds: seq<Round>) returns (processed: nat, delivered: seq<Chunk>, dropped: seq<Chunk>)
      requires Valid() && decoder == Executing
      modifies this`decodeOver, this`eosQueued, this`fed, this`cursor, this`queue, this`decoder
      ensures Valid()
      ensures processed <= |rounds|
      ensures delivered + dropped + queue == old(queue) + Outputs(rounds[..processed])
      ensures decodeOver ==> queue == [] && decoder == Uninitialized
      ensures !decodeOver ==> processed == |rounds| && dropped == [] && decoder == Executing
      ensures old(decodeOver) ==> processed == 0 && delivered == []
      ensures eosQueued && !old(eosQueued) ==> decodeOver
      ensures cursor == old(cursor) + Fills(rounds[..processed])
      ensures decodeOver == (old(decodeOver) || processed < |rounds|)
      ensures !old(decodeOver) && processed < |rounds| ==>
        rounds[processed].inputIndex > 0 && rounds[processed].inputPresent && eosQueued &&
        cursor == |sampleSizes|
    {
      ghost var start := queue;
      ghost var startCursor := cursor;
      var r := 0;
      delivered := [];
      if !decodeOver {
        while r < |rounds|
          invariant Valid() && decoder == Executing
          invariant r <= |rounds|
          invariant delivered + queue == start + Outputs(rounds[..r])
          invariant cursor == startCursor + Fills(rounds[..r])
          invariant !decodeOver && eosQueued == old(eosQueued)
        {
          ghost var waiting := queue;
          var endOfStream, taken := DecodeRound(rounds[r]);
          if endOfStream {
            break;
          }
          Regroup(delivered, taken, queue, waiting, Present(rounds[r].outputs));
          delivered := delivered + taken;
          NextRound(rounds, r);
          r := r + 1;
        }
      }
      processed := r;
      if decodeOver {
        if decoder != NoDecoder {
          decoder := Uninitialized;
        }
        dropped := queue;
        queue := [];
      } else {
        dropped := [];
      }
    }
  }
}
