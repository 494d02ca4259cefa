/**
 * The asynchronous decode channel: the codec calls back when an input buffer
 * can be filled from the extractor and when an output buffer of decoded PCM
 * is ready; decoded chunks wait in a bounded FIFO queue for the mixing thread.
 */
module ChannelAsync {
  import opened Pcm
  import opened Decoder

  class AsyncChannel {
    /** Whether decoding is over; a new channel starts out over. */
    var decodeOver: bool
    /** The decoded chunks waiting for the mixing thread, oldest first. */
    var queue: seq<Chunk>
    var decoder: DecoderState
    /** Whether the channel still holds its extractor (`release` drops it). */
    var hasExtractor: bool
    /** Whether `release` has asked the decoder thread to quit. */
    var threadQuit: bool
    /** The track `initDecoder` selected. */
    const track: Option<nat>
    /** The sizes of the selected track's compressed samples. */
    const sampleSizes: seq<nat>
    /** The extractor's position: how many samples have been read. */
    var cursor: nat
    /** The sizes of the input buffers queued to the decoder, in order. */
    var fed: seq<nat>
    /** Whether an end-of-stream input buffer has been queued. */
    var eosQueued: bool

    ghost predicate Valid()
      reads this
    {
      |queue| <= QUEUE_CAPACITY &&
      cursor <= |sampleSizes| && fed == sampleSizes[..cursor] &&
      (eosQueued ==> decodeOver) &&
      (decoder == Configured ==> !eosQueued && cursor == 0)
    }

    /**
     * The constructor: an empty queue of capacity 5, `decodeOver` initially
     * true, then `initDecoder`, here with the failure handling its handler
     * intends (see `Decoder.InitDecoder`).
     */
    constructor (extractor: Extractor, createFails: bool)
      ensures Valid()
      ensures queue == [] && !eosQueued && fed == [] && cursor == 0
      ensures decodeOver
      ensures hasExtractor && !threadQuit
      ensures sampleSizes == extractor.sampleSizes
      ensures track == FirstAudioTrack(extractor.mimes)
      ensures decoder == InitDecoder(extractor.mimes, createFails, true).decoder
    {
      var selected := FindAudioTrack(extractor.mimes);
      var init := InitDecoder(extractor.mimes, createFails, true);
      decodeOver := true;
      queue := [];
      hasExtractor := true;
      threadQuit := false;
      track := selected;
      sampleSizes := extractor.sampleSizes;
      cursor := 0;
      fed := [];
      eosQueued := false;
      decoder := init.decoder;
    }

    /**
     * `start`: decoding is no longer over, then the decoder is started. Only a
     * configured decoder can start; a missing one (no audio track, or a failed
     * creation) or one in any other state makes `start` throw, after
     * `decodeOver` has already been cleared. The channel stays valid unless an
     * end of stream was already queued.
     */
    method Start() returns (thrown: bool)
      requires Valid()
      modifies this`decodeOver, this`decoder
      ensures thrown <==> old(decoder) != Configured
      ensures !decodeOver
      ensures decoder == if thrown then old(decoder) else Executing
      ensures Valid() <==> !eosQueued
    {
      decodeOver := false;
      if decoder != Configured {
        return true;
      }
      decoder := Executing;
      thrown := false;
    }

    /** `pause` parks the decoder thread; no field of the channel changes. */
    method Pause()
      requires Valid()
      ensures Valid()
    {
    }

    /** `resume` unparks the decoder thread; no field of the channel changes. */
    method Resume()
      requires Valid()
      ensures Valid()
    {
    }

    /** `stop` only raises `decodeOver`, so stopping twice is stopping once. */
    method Stop()
      requires Valid()
      modifies this`decodeOver
      ensures Valid()
      ensures decodeOver
    {
      decodeOver := true;
    }

    /** `release`: the decoder and the extractor are dropped; the null checks make a second call harmless. */
    method Release()
      requires Valid()
      modifies this`decoder, this`hasExtractor, this`threadQuit
      ensures Valid()
      ensures decoder == NoDecoder && !hasExtractor && threadQuit
    {
      if decoder != NoDecoder {
        decoder := NoDecoder;
      }
      if hasExtractor {
        hasExtractor := false;
      }
      threadQuit := true;
    }

    /** `getPCMData`: takes the oldest chunk; the blocking `take` is modelled as a non-empty queue. */
    method GetPCMData() returns (chunk: Chunk)
      requires Valid() && |queue| > 0
      modifies this`queue
      ensures Valid()
      ensures chunk == old(queue)[0] && queue == old(queue)[1..]
    {
      chunk := queue[0];
      queue := queue[1..];
    }

    /**
     * `onInputBufferAvailable`: for an index above 0 whose buffer is present,
     * read the next sample; at the end of the samples, or once decoding is
     * over, queue end of stream and mark decoding over; otherwise queue the
     * sample and advance the extractor.
     */
    method OnInputBufferAvailable(index: int, bufferPresent: bool)
      requires Valid() && decoder == Executing
      modifies this`decodeOver, this`eosQueued, this`fed, this`cursor
      ensures Valid()
      ensures !(index > 0 && bufferPresent) ==>
        decodeOver == old(decodeOver) && eosQueued == old(eosQueued) && cursor == old(cursor)
      ensures index > 0 && bufferPresent && (old(cursor) == |sampleSizes| || old(decodeOver)) ==>
        decodeOver && eosQueued && cursor == old(cursor)
      ensures index > 0 && bufferPresent && !(old(cursor) == |sampleSizes| || old(decodeOver)) ==>
        !decodeOver && eosQueued == old(eosQueued) && cursor == old(cursor) + 1 &&
        fed == old(fed) + [sampleSizes[old(cursor)]]
    {
      if index > 0 {
        if bufferPresent {
          var bufferSize := ReadSampleData(sampleSizes, cursor);
          if bufferSize < 0 || decodeOver {
            eosQueued := true;
            decodeOver := true;
          } else {
            fed := fed + [bufferSize];
            cursor := cursor + 1;
            assert fed == sampleSizes[..cursor];
          }
        }
      }
    }

    /**
     * `onOutputBufferAvailable`: a present buffer at a non-negative index is
     * appended to the queue (the blocking `put` is modelled as room in the
     * queue); then, on end of stream or once decoding is over, the decoder is
     * stopped and reset and the queue is cleared.
     */
    method OnOutputBufferAvailable(index: int, bufferPresent: bool, chunk: Chunk, endOfStream: bool)
      requires Valid() && decoder == Executing
      requires index >= 0 && bufferPresent ==> |queue| < QUEUE_CAPACITY
      modifies this`queue, this`decoder
      ensures Valid()
      ensures endOfStream || decodeOver ==> queue == [] && decoder == Uninitialized
      ensures !(endOfStream || decodeOver) ==> decoder == Executing
      ensures !(endOfStream || decodeOver) ==>
        queue == if index >= 0 && bufferPresent then old(queue) + [chunk] else old(queue)
    {
      if index >= 0 {
        if bufferPresent {
          queue := queue + [chunk];
        }
      }
      if endOfStream || decodeOver {
        if decoder != NoDecoder {
          decoder := Uninitialized;
        }
        queue := [];
      }
    }

    /** `onError`: decoding is over and the decoder is reset. */
    method OnError()
      requires Valid() && decoder != NoDecoder
      modifies this`decodeOver, this`decoder
      ensures Valid()
      ensures decodeOver && decoder == Uninitialized
    {
      decodeOver := true;
      decoder := Uninitialized;
    }
  }
}
