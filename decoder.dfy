/**
 * What both decode channels share: the media extractor seen as a list of
 * track types and a list of compressed sample sizes, the decoder's life-cycle
 * states, and `initDecoder`, which selects the first audio track and creates a
 * decoder for it.
 */
module Decoder {

  datatype Option<T> = None | Some(value: T)

  /** The capacity of each channel's queue of decoded chunks. */
  const QUEUE_CAPACITY: nat := 5

  /** The codec states the channels drive the decoder through; `NoDecoder` is a null decoder field. */
  datatype DecoderState = NoDecoder | Uninitialized | Configured | Executing

  /**
   * The extractor behind a channel: the MIME type of each track (a track may
   * have none) and the sizes of the compressed samples of the selected track,
   * in the order `readSampleData` returns them.
   */
  datatype Extractor = Extractor(mimes: seq<Option<string>>, sampleSizes: seq<nat>)

  /** The audio-track test of `initDecoder`: a MIME type is present and starts with "audio". */
  predicate IsAudio(mime: Option<string>): (r: bool)
    ensures r <==> mime.Some? && |mime.value| >= 5 && mime.value[..5] == "audio"
  {
    mime.Some? && "audio" <= mime.value
  }

  /** The track the loop of `initDecoder` stops at: the first audio track, if any. */
  function FirstAudioTrack(mimes: seq<Option<string>>): (r: Option<nat>)
    ensures r.Some? ==> r.value < |mimes| && IsAudio(mimes[r.value])
    ensures r.Some? ==> forall j :: 0 <= j < r.value ==> !IsAudio(mimes[j])
    ensures r.None? ==> forall j :: 0 <= j < |mimes| ==> !IsAudio(mimes[j])
  {
    if |mimes| == 0 then None
    else if IsAudio(mimes[0]) then Some(0)
    else
      match FirstAudioTrack(mimes[1..])
      case None => None
      case Some(i) => Some(i + 1)
  }

  /** The scan over the extractor's tracks in `initDecoder`, up to the first audio track. */
  method FindAudioTrack(mimes: seq<Option<string>>) returns (track: Option<nat>)
    ensures track == FirstAudioTrack(mimes)
  {
    var i := 0;
    while i < |mimes|
      invariant 0 <= i <= |mimes|
      invariant forall j :: 0 <= j < i ==> !IsAudio(mimes[j])
    {
      if IsAudio(mimes[i]) {
        return Some(i);
      }
      i := i + 1;
    }
    return None;
  }

  /** What `initDecoder` leaves behind, or the exception it lets escape. */
  datatype InitResult =
    | Initialized(track: Option<nat>, decoder: DecoderState, decodeOver: bool)
    | NullPointer

  /**
   * `initDecoder` as written. When creating the decoder throws, the handler
   * sets `decodeOver` and then calls `reset` on the decoder field, which the
   * failed creation left null, so the constructor throws instead of reporting
   * the failure.
   */
  function InitDecoderAsWritten(mimes: seq<Option<string>>, createFails: bool, decodeOver: bool): (r: InitResult)
    ensures FirstAudioTrack(mimes).None? ==> r == Initialized(None, NoDecoder, decodeOver)
    ensures FirstAudioTrack(mimes).Some? && !createFails ==> r == Initialized(FirstAudioTrack(mimes), Configured, decodeOver)
  {
    match FirstAudioTrack(mimes)
    case None => Initialized(None, NoDecoder, decodeOver)
    case Some(i) =>
      if createFails then NullPointer   // decodeOver := true; null.reset()
      else Initialized(Some(i), Configured, decodeOver)
  }

  /**
   * `initDecoder` as its handler intends: a failed creation leaves no decoder
   * and the channel marked as finished.
   */
  function InitDecoder(mimes: seq<Option<string>>, createFails: bool, decodeOver: bool): (r: InitResult)
    ensures r.Initialized?
    ensures r.track == FirstAudioTrack(mimes)
    ensures r.decoder == Configured <==> r.track.Some? && !createFails
    ensures r.decoder != Configured ==> r.decoder == NoDecoder
    ensures r.track.Some? && createFails ==> r.decodeOver
    ensures !(r.track.Some? && createFails) ==> r.decodeOver == decodeOver
  {
    match FirstAudioTrack(mimes)
    case None => Initialized(None, NoDecoder, decodeOver)
    case Some(i) =>
      if createFails then Initialized(Some(i), NoDecoder, true)
      else Initialized(Some(i), Configured, decodeOver)
  }

  /** The failure case: an audio track whose decoder cannot be created makes the constructor throw. */
  lemma InitDecoderAsWrittenThrows(decodeOver: bool)
    ensures InitDecoderAsWritten([Some("audio/mp4a-latm")], true, decodeOver) == NullPointer
    ensures InitDecoder([Some("audio/mp4a-latm")], true, decodeOver) == Initialized(Some(0), NoDecoder, true)
  {
    assert IsAudio(Some("audio/mp4a-latm"));
  }

  /** Whenever creating the decoder succeeds, or there is no audio track, the two versions agree. */
  lemma InitDecoderAgrees(mimes: seq<Option<string>>, createFails: bool, decodeOver: bool)
    requires !createFails || FirstAudioTrack(mimes).None?
    ensures InitDecoderAsWritten(mimes, createFails, decodeOver) == InitDecoder(mimes, createFails, decodeOver)
  {
  }

  /**
   * `readSampleData` on an extractor positioned at sample `cursor`: the
   * sample's size, or -1 once every sample has been read.
   */
  function ReadSampleData(sizes: seq<nat>, cursor: nat): (r: int)
    ensures r < 0 <==> cursor >= |sizes|
    ensures r >= 0 ==> r == sizes[cursor]
  {
    if cursor < |sizes| then sizes[cursor] else -1
  }
}
