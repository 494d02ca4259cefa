/**
 * The karaoke manager: it owns the two decode channels (original vocal track
 * and accompaniment), the player, and the two volume fields; its mixing
 * thread repeatedly takes one chunk from each channel, steps the crossfade,
 * mixes, and writes the buffer to the player.
 */
module Karaoke {
  import opened Pcm
  import opened Mix
  import opened Ramp
  import opened Decoder
  import opened ChannelAsync

  /** What one pass of the mixing thread produces: the new volumes and the buffer written to the player. */
  datatype Step = Step(volumes: Volumes, buffer: Chunk)

  /** What the whole mixing thread produces: the buffers written, in order, and the final volumes. */
  datatype Playback = Playback(buffers: seq<Chunk>, volumes: Volumes)

  /** The outcome of `prepare`: it throws when a media path is empty. */
  datatype PrepareResult = Prepared | EmptyPath

  predicate AllEven(chunks: seq<Chunk>) {
    forall i :: 0 <= i < |chunks| ==> EvenChunk(chunks[i])
  }

  /**
   * One pass of the mixing thread on the chunks it read (at least one). With
   * both chunks, the crossfade steps in the selected direction first and the
   * mix uses the new volumes; with a single chunk, the crossfade steps toward
   * the channel that delivered it and the chunk is passed on unchanged.
   */
  function MixStep(original: Option<Chunk>, music: Option<Chunk>, isOriginal: bool, v: Volumes): (r: Step)
    requires original.Some? || music.Some?
    requires Balanced(v)
    requires original.Some? && music.Some? ==> EvenChunk(original.value) && EvenChunk(music.value)
    ensures Balanced(r.volumes)
    ensures original.Some? && music.Some? ==>
      r.volumes == (if isOriginal then TowardOriginal(v) else TowardMusic(v)) &&
      r.buffer == Mixed(original.value, music.value, r.volumes.original, r.volumes.music) &&
      |r.buffer| == Max(|original.value|, |music.value|)
    ensures original.None? ==> r.buffer == music.value && r.volumes == TowardMusic(v)
    ensures music.None? ==> r.buffer == original.value && r.volumes == TowardOriginal(v)
  {
    match (original, music)
    case (Some(o), Some(m)) =>
      var w := if isOriginal then TowardOriginal(v) else TowardMusic(v);
      MixedShape(o, m, w.original, w.music);
      Step(w, Mixed(o, m, w.original, w.music))
    case (None, Some(m)) => Step(TowardMusic(v), m)
    case (Some(o), None) => Step(TowardOriginal(v), o)
  }

  function Head(chunks: seq<Chunk>): Option<Chunk> {
    if |chunks| > 0 then Some(chunks[0]) else None
  }

  function Tail(chunks: seq<Chunk>): (r: seq<Chunk>)
    ensures AllEven(chunks) ==> AllEven(r)
  {
    if |chunks| > 0 then chunks[1..] else []
  }

  /**
   * The mixing thread run to completion over the chunks each channel
   * delivers: one pass per pair of heads until both channels are exhausted.
   * One buffer is written per pass, so as many buffers as the longer stream
   * has chunks, and the volumes stay balanced throughout.
   */
  function Mixdown(originals: seq<Chunk>, musics: seq<Chunk>, isOriginal: bool, v: Volumes): (r: Playback)
    requires Balanced(v) && AllEven(originals) && AllEven(musics)
    ensures Balanced(r.volumes)
    ensures |r.buffers| == Max(|originals|, |musics|)
    decreases |originals| + |musics|
  {
    if |originals| == 0 && |musics| == 0 then Playback([], v)
    else
      var s := MixStep(Head(originals), Head(musics), isOriginal, v);
      var rest := Mixdown(Tail(originals), Tail(musics), isOriginal, s.volumes);
      Playback([s.buffer] + rest.buffers, rest.volumes)
  }

  /**
   * When only the accompaniment delivers chunks, they are played unchanged
   * and the crossfade moves toward the accompaniment once per chunk, whichever
   * track is selected.
   */
  lemma {:induction false} MusicOnlyPlaysMusic(musics: seq<Chunk>, isOriginal: bool, v: Volumes)
    requires Balanced(v) && AllEven(musics)
    ensures Mixdown([], musics, isOriginal, v).buffers == musics
    ensures Mixdown([], musics, isOriginal, v).volumes.music == Min(100, v.music + STEP * |musics|)
  {
    if |musics| > 0 {
      var w := TowardMusic(v);
      MusicOnlyPlaysMusic(musics[1..], isOriginal, w);
      assert musics == [musics[0]] + musics[1..];
    }
  }

  /** The mirror image of `MusicOnlyPlaysMusic` when only the original track delivers chunks. */
  lemma {:induction false} OriginalOnlyPlaysOriginal(originals: seq<Chunk>, isOriginal: bool, v: Volumes)
    requires Balanced(v) && AllEven(originals)
    ensures Mixdown(originals, [], isOriginal, v).buffers == originals
    ensures Mixdown(originals, [], isOriginal, v).volumes.original == Min(100, v.original + STEP * |originals|)
  {
    if |originals| > 0 {
      var w := TowardOriginal(v);
      OriginalOnlyPlaysOriginal(originals[1..], isOriginal, w);
      assert originals == [originals[0]] + originals[1..];
    }
  }

  /**
   * With the original track selected and both channels delivering chunks in
   * step, the crossfade reaches (100, 0) after 50 passes: the final volumes
   * follow the ramp toward the original.
   */
  lemma {:induction false} PairedRampsToSelected(originals: seq<Chunk>, musics: seq<Chunk>, v: Volumes)
    requires Balanced(v) && AllEven(originals) && AllEven(musics)
    requires |originals| == |musics|
    ensures Mixdown(originals, musics, true, v).volumes.original == Min(100, v.original + STEP * |originals|)
  {
    if |originals| > 0 {
      PairedRampsToSelected(originals[1..], musics[1..], TowardOriginal(v));
    }
  }

  /**
   * Singing along with the original selected from the start (volumes reset
   * to (100, 0)): whenever each original chunk is at least as long as its
   * accompaniment chunk, exactly the original chunks are played.
   */
  lemma {:induction false} OriginalSelectedPlaysOriginal(originals: seq<Chunk>, musics: seq<Chunk>)
    requires AllEven(originals) && AllEven(musics)
    requires |originals| == |musics|
    requires forall i :: 0 <= i < |originals| ==> |originals[i]| >= |musics[i]|
    ensures Mixdown(originals, musics, true, Reset(true)).buffers == originals
  {
    if |originals| > 0 {
      MixedOriginalOnly(originals[0], musics[0]);
      OriginalSelectedPlaysOriginal(originals[1..], musics[1..]);
      assert originals == [originals[0]] + originals[1..];
    }
  }

  /**
   * One pass of the mixing thread peeled off the front of `Mixdown`: its
   * buffer comes first, then the mixdown of what remains from the volumes
   * that pass left.
   */
  lemma MixdownUnfold(originals: seq<Chunk>, musics: seq<Chunk>, isOriginal: bool, v: Volumes)
    requires Balanced(v) && AllEven(originals) && AllEven(musics)
    requires |originals| > 0 || |musics| > 0
    ensures var s := MixStep(Head(originals), Head(musics), isOriginal, v);
            var rest := Mixdown(Tail(originals), Tail(musics), isOriginal, s.volumes);
            Mixdown(originals, musics, isOriginal, v) == Playback([s.buffer] + rest.buffers, rest.volumes)
  {
  }

  /** The chunk `getPCMData` would hand the mixing thread, if it reads the channel at all. */
  function Take(decodeOver: bool, queue: seq<Chunk>): (r: Option<Chunk>)
    requires !decodeOver ==> |queue| > 0
    ensures r.Some? <==> !decodeOver || |queue| != 0
  {
    if !decodeOver || |queue| != 0 then Some(queue[0]) else None
  }

  /**
   * The channel read of the mixing thread: a channel is read only while it is
   * not over or still has queued chunks. The blocking `take` is modelled as a
   * non-empty queue whenever the channel is not over.
   */
  method ReadChannel(channel: AsyncChannel) returns (chunk: Option<Chunk>)
    requires channel.Valid()
    requires !channel.decodeOver ==> |channel.queue| > 0
    modifies channel`queue
    ensures channel.Valid()
    ensures chunk == Take(old(channel.decodeOver), old(channel.queue))
    ensures channel.queue == if chunk.Some? then old(channel.queue)[1..] else old(channel.queue)
  {
    if !channel.decodeOver || |channel.queue| != 0 {
      var data := channel.GetPCMData();
      chunk := Some(data);
    } else {
      chunk := None;
    }
  }

  /**
   * The audio player: it accepts buffers while playing. Release drops its
   * track, after which every call dereferences null; `thrown` reports that
   * exception.
   */
  class Player {
    /** The buffers the audio track accepted, in order. */
    var written: seq<Chunk>
    var playing: bool
    var released: bool

    /** A new player is created playing. */
    constructor ()
      ensures written == [] && playing && !released
    {
      written := [];
      playing := true;
      released := false;
    }

    /**
     * `write`: the buffer is accepted only while the track plays. The play
     * state is read for a log line before the null check, so a write to a
     * released player throws.
     */
    method Write(buffer: Chunk) returns (thrown: bool)
      modifies this`written
      ensures thrown <==> released
      ensures written == if !released && playing then old(written) + [buffer] else old(written)
    {
      thrown := released;
      if !released && playing {
        written := written + [buffer];
      }
    }

    /** `stop`: pauses the track and flushes what it has not played yet; on a released player it throws. */
    method Stop() returns (thrown: bool)
      modifies this`playing
      ensures thrown <==> released
      ensures playing == (old(playing) && released)
    {
      thrown := released;
      if !released {
        playing := false;
      }
    }

    /** `release`: the track is released and dropped; a second call throws. */
    method Release() returns (thrown: bool)
      modifies this`released
      ensures thrown <==> old(released)
      ensures released
    {
      thrown := released;
      released := true;
    }
  }

  class Manager {
    const inputPath1: string
    const inputPath2: string
    var isOriginal: bool
    var originalVolume: int
    var musicVolume: int
    var channel1: AsyncChannel?
    var channel2: AsyncChannel?
    var player: Player?

    function CurrentVolumes(): Volumes
      reads this
    {
      Volumes(originalVolume, musicVolume)
    }

    ghost predicate Valid()
      reads this
    {
      Balanced(CurrentVolumes())
    }

    /** A prepared manager holds two distinct channels and a player. */
    ghost predicate IsPrepared()
      reads this, channel1, channel2
    {
      channel1 != null && channel2 != null && player != null && channel1 != channel2 &&
      channel1.Valid() && channel2.Valid()
    }

    /** A new manager: the accompaniment selected, volumes (0, 100), nothing prepared. */
    constructor (inputPath1: string, inputPath2: string)
      ensures Valid()
      ensures this.inputPath1 == inputPath1 && this.inputPath2 == inputPath2
      ensures !isOriginal && CurrentVolumes() == INITIAL
      ensures channel1 == null && channel2 == null && player == null
    {
      this.inputPath1 := inputPath1;
      this.inputPath2 := inputPath2;
      isOriginal := false;
      originalVolume := 0;
      musicVolume := 100;
      channel1 := null;
      channel2 := null;
      player := null;
    }

    /**
     * `prepare`: an empty media path makes it throw before anything changes;
     * otherwise the volumes are reset for the selected track and new channels
     * and a new player are created.
     */
    method Prepare(extractor1: Extractor, extractor2: Extractor, createFails1: bool, createFails2: bool)
      returns (result: PrepareResult)
      requires Valid()
      modifies this
      ensures Valid()
      ensures inputPath1 == [] || inputPath2 == [] ==>
        result == EmptyPath && unchanged(this)
      ensures inputPath1 != [] && inputPath2 != [] ==>
        result == Prepared && IsPrepared() &&
        fresh(channel1) && fresh(channel2) && fresh(player) &&
        isOriginal == old(isOriginal) && CurrentVolumes() == Reset(isOriginal) &&
        channel1.decodeOver && channel1.queue == [] && channel1.sampleSizes == extractor1.sampleSizes &&
        channel2.decodeOver && channel2.queue == [] && channel2.sampleSizes == extractor2.sampleSizes &&
        channel1.track == FirstAudioTrack(extractor1.mimes) &&
        channel2.track == FirstAudioTrack(extractor2.mimes) &&
        channel1.decoder == InitDecoder(extractor1.mimes, createFails1, true).decoder &&
        channel2.decoder == InitDecoder(extractor2.mimes, createFails2, true).decoder &&
        channel1.cursor == 0 && channel2.cursor == 0 && !channel1.eosQueued && !channel2.eosQueued &&
        player.written == [] && player.playing && !player.released
    {
      if inputPath1 == [] || inputPath2 == [] {
        return EmptyPath;
      }
      if isOriginal {
        originalVolume := 100;
        musicVolume := 0;
      } else {
        originalVolume := 0;
        musicVolume := 100;
      }
      channel1 := new AsyncChannel(extractor1, createFails1);
      channel2 := new AsyncChannel(extractor2, createFails2);
      player := new Player();
      result := Prepared;
    }

    /**
     * `start`: channel 1 is started, then channel 2; nothing else in them
     * changes. A channel whose decoder is not configured throws: if it is
     * channel 1, channel 2 is left untouched; if it is channel 2, channel 1
     * is already decoding.
     */
    method Start() returns (thrown: bool)
      requires IsPrepared()
      modifies channel1`decodeOver, channel1`decoder, channel2`decodeOver, channel2`decoder
      ensures thrown <==> old(channel1.decoder) != Configured || old(channel2.decoder) != Configured
      ensures !channel1.decodeOver
      ensures channel1.decoder == if old(channel1.decoder) == Configured then Executing else old(channel1.decoder)
      ensures old(channel1.decoder) == Configured ==>
        !channel2.decodeOver &&
        channel2.decoder == if old(channel2.decoder) == Configured then Executing else old(channel2.decoder)
      ensures old(channel1.decoder) != Configured ==>
        channel2.decodeOver == old(channel2.decodeOver) && channel2.decoder == old(channel2.decoder)
      ensures !channel1.eosQueued && !channel2.eosQueued ==> IsPrepared()
    {
      thrown := channel1.Start();
      if thrown {
        return;
      }
      thrown := channel2.Start();
    }

    /** `pause` and `resume` only forward to the channels, which keep their state. */
    method Pause()
      requires IsPrepared()
      ensures IsPrepared()
    {
      channel1.Pause();
      channel2.Pause();
    }

    method Resume()
      requires IsPrepared()
      ensures IsPrepared()
    {
      channel1.Resume();
      channel2.Resume();
    }

    /** `stop`: both channels are marked over; their queues are kept until each channel's next output callback clears them. */
    method Stop()
      requires IsPrepared()
      modifies channel1`decodeOver, channel2`decodeOver
      ensures IsPrepared()
      ensures channel1.decodeOver && channel2.decodeOver
    {
      channel1.Stop();
      channel2.Stop();
    }

    /**
     * `release`: the channels drop their decoders and extractors and their
     * threads quit, then the player is released; a second call throws there,
     * since the player has dropped its track.
     */
    method Release() returns (thrown: bool)
      requires IsPrepared()
      modifies channel1`decoder, channel1`hasExtractor, channel1`threadQuit
      modifies channel2`decoder, channel2`hasExtractor, channel2`threadQuit, player`released
      ensures IsPrepared()
      ensures channel1.decoder == NoDecoder && !channel1.hasExtractor && channel1.threadQuit
      ensures channel2.decoder == NoDecoder && !channel2.hasExtractor && channel2.threadQuit
      ensures player.released && (thrown <==> old(player.released))
    {
      channel1.Release();
      channel2.Release();
      thrown := player.Release();
    }

    /** `setOriginal`: selects the track the crossfade moves toward. */
    method SetOriginal(isOriginal: bool)
      modifies this`isOriginal
      ensures this.isOriginal == isOriginal
    {
      this.isOriginal := isOriginal;
    }

    /** `modifyOriginalVolume`: one crossfade step toward the original. */
    method ModifyOriginalVolume()
      requires Valid()
      modifies this`originalVolume, this`musicVolume
      ensures Valid()
      ensures CurrentVolumes() == TowardOriginal(old(CurrentVolumes()))
    {
      if originalVolume < 100 {
        originalVolume := originalVolume + 2;
      }
      if musicVolume > 0 {
        musicVolume := musicVolume - 2;
      }
    }

    /** `modifyMusicVolume`: one crossfade step toward the accompaniment. */
    method ModifyMusicVolume()
      requires Valid()
      modifies this`originalVolume, this`musicVolume
      ensures Valid()
      ensures CurrentVolumes() == TowardMusic(old(CurrentVolumes()))
    {
      if originalVolume > 0 {
        originalVolume := originalVolume - 2;
      }
      if musicVolume < 100 {
        musicVolume := musicVolume + 2;
      }
    }

    /**
     * The body of a pass of the mixing thread once the chunks are read: step
     * the crossfade, build the buffer, write it to the player.
     */
    method MixAndPlay(original: Option<Chunk>, music: Option<Chunk>)
      requires Valid() && player != null && !player.released
      requires original.Some? || music.Some?
      requires original.Some? && music.Some? ==> EvenChunk(original.value) && EvenChunk(music.value)
      modifies this`originalVolume, this`musicVolume, player`written
      ensures Valid()
      ensures CurrentVolumes() == MixStep(original, music, isOriginal, old(CurrentVolumes())).volumes
      ensures player.written == if player.playing
        then old(player.written) + [MixStep(original, music, isOriginal, old(CurrentVolumes())).buffer]
        else old(player.written)
    {
      var mix: Chunk;
      if original.Some? && music.Some? {
        if isOriginal {
          ModifyOriginalVolume();
        } else {
          ModifyMusicVolume();
        }
        mix := MixChunks(original.value, music.value, originalVolume, musicVolume);
      } else if original.None? {
        ModifyMusicVolume();
        mix := music.value;
      } else {
        ModifyOriginalVolume();
        mix := original.value;
      }
      var thrown := player.Write(mix);
    }

    /**
     * One pass of the mixing thread against the two channels: read each
     * channel that is not over or still has chunks; if neither was read, the
     * thread leaves its loop (`more` is false) and nothing is written;
     * otherwise the chunks read are mixed and played.
     */
    method Iteration() returns (more: bool)
      requires Valid() && IsPrepared() && !player.released
      requires !channel1.decodeOver ==> |channel1.queue| > 0
      requires !channel2.decodeOver ==> |channel2.queue| > 0
      requires AllEven(channel1.queue) && AllEven(channel2.queue)
      modifies this`originalVolume, this`musicVolume, player`written, channel1`queue, channel2`queue
      ensures Valid() && IsPrepared()
      ensures var original := Take(old(channel1.decodeOver), old(channel1.queue));
              var music := Take(old(channel2.decodeOver), old(channel2.queue));
              more == (original.Some? || music.Some?) &&
              (more ==>
                player.written == old(player.written) +
                  (if player.playing then [MixStep(original, music, isOriginal, old(CurrentVolumes())).buffer] else [])) &&
              (more ==> CurrentVolumes() == MixStep(original, music, isOriginal, old(CurrentVolumes())).volumes) &&
              (!more ==> player.written == old(player.written) && CurrentVolumes() == old(CurrentVolumes()))
      ensures channel1.queue == if Take(old(channel1.decodeOver), old(channel1.queue)).Some?
        then old(channel1.queue)[1..] else old(channel1.queue)
      ensures channel2.queue == if Take(old(channel2.decodeOver), old(channel2.queue)).Some?
        then old(channel2.queue)[1..] else old(channel2.queue)
    {
      var original := ReadChannel(channel1);
      var music := ReadChannel(channel2);
      if original.None? && music.None? {
        return false;
      }
      MixAndPlay(original, music);
      more := true;
    }

    /**
     * One pass of the mixing thread over the chunks still to come from each
     * channel: the buffer it writes and the volumes it leaves are those that
     * `Mixdown` puts in front of the mixdown of what remains.
     */
    method PlayNext(originals: seq<Chunk>, musics: seq<Chunk>)
      requires Valid() && player != null && player.playing && !player.released
      requires AllEven(originals) && AllEven(musics)
      requires |originals| > 0 || |musics| > 0
      modifies this`originalVolume, this`musicVolume, player`written
      ensures Valid()
      ensures player.written + Mixdown(Tail(originals), Tail(musics), isOriginal, CurrentVolumes()).buffers
        == old(player.written) + Mixdown(originals, musics, isOriginal, old(CurrentVolumes())).buffers
      ensures Mixdown(Tail(originals), Tail(musics), isOriginal, CurrentVolumes()).volumes
        == Mixdown(originals, musics, isOriginal, old(CurrentVolumes())).volumes
    {
      ghost var step := MixStep(Head(originals), Head(musics), isOriginal, CurrentVolumes());
      ghost var rest := Mixdown(Tail(originals), Tail(musics), isOriginal, step.volumes);
      MixdownUnfold(originals, musics, isOriginal, CurrentVolumes());
      assert old(player.written) + ([step.buffer] + rest.buffers) == (old(player.written) + [step.buffer]) + rest.buffers;
      MixAndPlay(Head(originals), Head(musics));
    }

    /**
     * The whole mixing thread, with the chunks each channel delivers given as
     * sequences: it loops until neither channel yields a chunk, writing one
     * buffer per pass, then stops the player once.
     */
    method Run(originals: seq<Chunk>, musics: seq<Chunk>)
      requires Valid() && player != null && player.playing && !player.released
      requires AllEven(originals) && AllEven(musics)
      modifies this`originalVolume, this`musicVolume, player`written, player`playing
      ensures Valid()
      ensures player.written == old(player.written) + Mixdown(originals, musics, isOriginal, old(CurrentVolumes())).buffers
      ensures CurrentVolumes() == Mixdown(originals, musics, isOriginal, old(CurrentVolumes())).volumes
      ensures !player.playing
    {
      ghost var whole := Mixdown(originals, musics, isOriginal, CurrentVolumes());
      var os, ms := originals, musics;
      while true
        invariant Valid() && player.playing && !player.released
        invariant AllEven(os) && AllEven(ms)
        invariant old(player.written) + whole.buffers == player.written + Mixdown(os, ms, isOriginal, CurrentVolumes()).buffers
        invariant whole.volumes == Mixdown(os, ms, isOriginal, CurrentVolumes()).volumes
        decreases |os| + |ms|
      {
        if Head(os).None? && Head(ms).None? {
          break;
        }
        PlayNext(os, ms);
        os, ms := Tail(os), Tail(ms);
      }
      var thrown := player.Stop();
    }
  }
}
