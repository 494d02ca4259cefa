# Karaoke mixing engine of HuskyMusicPlayer, modelled in Dafny

HuskyMusicPlayer's karaoke engine decodes two tracks at once: the original vocal track and the accompaniment. It mixes them sample by sample into one stream for the audio player. A toggle chooses which track the listener hears, and the engine crossfades toward it two volume points per mixed buffer instead of cutting.

The project models this engine:

- `pcm.dfy` (module `Pcm`): 16-bit little-endian samples, byte by byte. Decoding a byte pair, the volume gain, the clamp to the 16-bit range and re-encoding.
- `mix.dfy` (module `Mix`): the buffer the mixing thread builds from two chunks. The longer chunk is copied, then the common prefix is overwritten with the clamped sum of the gained samples.
- `ramp.dfy` (module `Ramp`): the two volume fields and the crossfade steps `modifyOriginalVolume` and `modifyMusicVolume`.
- `decoder.dfy` (module `Decoder`): what both decode channels share. The extractor is seen as track types plus sample sizes. Also the codec life cycle, `initDecoder`, and `readSampleData`.
- `channel_async.dfy` (class `ChannelAsync.AsyncChannel`): the callback-driven decode channel the manager uses. It holds a bounded queue of decoded chunks, capacity 5.
- `channel_sync.dfy` (class `ChannelSync.SyncChannel`): the alternative channel. A decoder thread runs `AudioDecode`, a loop that fills input buffers and drains output buffers into the queue.
- `karaoke.dfy` (module `Karaoke`, class `Karaoke.Manager`): the manager's life cycle (`prepare`, `start`, `pause`, `resume`, `stop`, `release`, `setOriginal`). Also the mixing thread: `Iteration` is one pass against the channel objects, and `Run` is the whole loop over the chunks the channels deliver. The whole loop is specified by the function `Mixdown`. `Karaoke.Player` models the audio player's `write`, `stop` and `release`.
- `merge.dfy` (module `Merge`): the demo activity's offline merge of two decoded PCM files.
  - The method `Merge` keeps the three 2048-byte arrays and the loop of the source. It is proved equal to `MergeAsWritten`, the merge as the code computes it.
  - `MergeIntended` is the sample-wise mix the merge evidently means. The lemmas under "## Findings" show where the two differ.

Bytes are their unsigned values (0..255), because every read of a byte in the source masks it with `& 0xff`. A decoded sample is the two's complement value of the byte pair.

## Model

| member | source | states |
|---|---|---|
| Pcm.DecodeSample | app/src/main/java/com/husky/mp/karaoke/KaraokeManager.java:251-252 | a byte pair read as `short` is always in [-32768, 32767] |
| Pcm.DecodeSampleBits | app/src/main/java/com/husky/mp/karaoke/KaraokeManager.java:251-252 | the sample is negative exactly when the high byte's top bit is set, and its low byte is the first byte |
| Pcm.DecodeEncode | app/src/main/java/com/husky/mp/karaoke/KaraokeManager.java:262-263 | writing a sample as two bytes and reading them back gives the sample again |
| Pcm.EncodeDecode | app/src/main/java/com/husky/mp/karaoke/KaraokeManager.java:251-263 | reading a byte pair and writing the sample back gives the same two bytes |
| Pcm.EncodeLow | app/src/main/java/com/husky/mp/karaoke/KaraokeManager.java:262 | the low byte stored is the byte value that differs from the sample by a multiple of 256 |
| Pcm.EncodeHigh | app/src/main/java/com/husky/mp/karaoke/KaraokeManager.java:263 | the high byte stored carries the sample's sign in its top bit |
| Pcm.Clamp | app/src/main/java/com/husky/mp/karaoke/KaraokeManager.java:256-260 | the bound check yields a 16-bit sample and leaves in-range sums unchanged |
| Pcm.ClampIsNearest | app/src/main/java/com/husky/mp/karaoke/KaraokeManager.java:256-260 | the bound check never wraps: no 16-bit value is closer to the sum |
| Pcm.Scale | app/src/main/java/com/husky/mp/karaoke/KaraokeManager.java:253 | the gain silences at volume 0, keeps the sample at 100, never grows its magnitude and keeps its sign |
| Pcm.MixSample | app/src/main/java/com/husky/mp/karaoke/KaraokeManager.java:253-260 | a mixed sample is a 16-bit value; with one volume at 0 it is the other track's gained sample alone |
| Mix.Mixed | app/src/main/java/com/husky/mp/karaoke/KaraokeManager.java:230-264 | the buffer built from two chunks is as long as the longer chunk |
| Mix.MixChunks | app/src/main/java/com/husky/mp/karaoke/KaraokeManager.java:230-264 | the copy-then-overwrite loop builds exactly the mixed buffer `Mixed` |
| Mix.MixedShape | app/src/main/java/com/husky/mp/karaoke/KaraokeManager.java:230-239 | the buffer is as long as the longer chunk, and past the common prefix it holds that chunk's bytes at any volumes |
| Mix.MixedSample | app/src/main/java/com/husky/mp/karaoke/KaraokeManager.java:250-264 | every sample of the common prefix is the clamped sum of the two gained input samples |
| Mix.MixedAtFullVolume | app/src/main/java/com/husky/mp/karaoke/KaraokeManager.java:250-264 | at volumes (100, 0) the common prefix is the original's bytes; at (0, 100) it is the accompaniment's |
| Mix.MixedOriginalOnly | app/src/main/java/com/husky/mp/karaoke/KaraokeManager.java:230-264 | at (100, 0), with the original at least as long, the buffer is the original chunk itself |
| Ramp.Reset | app/src/main/java/com/husky/mp/karaoke/KaraokeManager.java:80-86 | `prepare` resets to (100, 0) when the original is selected and to (0, 100) otherwise, both balanced |
| Ramp.TowardOriginal | app/src/main/java/com/husky/mp/karaoke/KaraokeManager.java:298-303 | a step keeps the volumes balanced, raises the original by 2 up to 100, and is idle at (100, 0) |
| Ramp.TowardMusic | app/src/main/java/com/husky/mp/karaoke/KaraokeManager.java:308-313 | a step keeps the volumes balanced, raises the accompaniment by 2 up to 100, and is idle at (0, 100) |
| Ramp.RampToOriginalValue | app/src/main/java/com/husky/mp/karaoke/KaraokeManager.java:298-303 | after n steps toward the original, its volume is min(100, start + 2n) and the accompaniment's is the rest of 100 |
| Ramp.RampToMusicValue | app/src/main/java/com/husky/mp/karaoke/KaraokeManager.java:308-313 | the mirror image for steps toward the accompaniment |
| Ramp.RampConverges | app/src/main/java/com/husky/mp/karaoke/KaraokeManager.java:224-228 | 50 or more steps reach the selected end point from any balanced state and stay there |
| Ramp.StepsUndo | app/src/main/java/com/husky/mp/karaoke/KaraokeManager.java:298-313 | a step toward the accompaniment undoes a step toward the original that moved |
| Decoder.IsAudio | app/src/main/java/com/husky/mp/karaoke/AudioChannelAsync.java:66 | a track is audio exactly when its MIME type is present and its first five characters are "audio" |
| Decoder.FirstAudioTrack | app/src/main/java/com/husky/mp/karaoke/AudioChannelAsync.java:63-67 | the selected track is the first whose MIME type starts with "audio"; no track is selected when none does |
| Decoder.FindAudioTrack | app/src/main/java/com/husky/mp/karaoke/AudioChannelAsync.java:63-67 | the loop over the tracks selects the first audio track |
| Decoder.InitDecoderAsWritten | app/src/main/java/com/husky/mp/karaoke/AudioChannelAsync.java:62-93 | with no audio track nothing is configured; with one, a created decoder is configured |
| Decoder.InitDecoder | app/src/main/java/com/husky/mp/karaoke/AudioChannelAsync.java:62-93 | a decoder is configured exactly when an audio track exists and creating it succeeds; a failed creation leaves no decoder and decoding over |
| Decoder.InitDecoderAsWrittenThrows | app/src/main/java/com/husky/mp/karaoke/AudioChannelAsync.java:84-89 | for an audio track whose decoder cannot be created, the code as written throws and the intended version reports failure |
| Decoder.InitDecoderAgrees | app/src/main/java/com/husky/mp/karaoke/AudioChannelSync.java:62-92 | when creation succeeds or there is no audio track, the as-written and intended versions agree |
| Decoder.ReadSampleData | app/src/main/java/com/husky/mp/karaoke/AudioChannelAsync.java:104-105 | a read is negative exactly at the end of the samples, and otherwise is the next sample's size |
| ChannelAsync.AsyncChannel.constructor | app/src/main/java/com/husky/mp/karaoke/AudioChannelAsync.java:40-55 | a new channel has an empty queue, decoding over, the first audio track selected, and the decoder `initDecoder` leaves |
| ChannelAsync.AsyncChannel.Start | app/src/main/java/com/husky/mp/karaoke/AudioChannelAsync.java:241-244 | decoding is no longer over in every case; a configured decoder then executes, and any other decoder state (none at all included) throws and is kept; the channel stays valid exactly when no end of stream was queued |
| ChannelAsync.AsyncChannel.Pause | app/src/main/java/com/husky/mp/karaoke/AudioChannelAsync.java:246-255 | no field of the channel changes |
| ChannelAsync.AsyncChannel.Resume | app/src/main/java/com/husky/mp/karaoke/AudioChannelAsync.java:257-260 | no field of the channel changes |
| ChannelAsync.AsyncChannel.Stop | app/src/main/java/com/husky/mp/karaoke/AudioChannelAsync.java:262-281 | decoding is over; nothing else changes |
| ChannelAsync.AsyncChannel.Release | app/src/main/java/com/husky/mp/karaoke/AudioChannelAsync.java:283-295 | decoder and extractor are dropped and the thread told to quit, also on a second call |
| ChannelAsync.AsyncChannel.GetPCMData | app/src/main/java/com/husky/mp/karaoke/AudioChannelAsync.java:204-206 | the oldest queued chunk is removed and returned |
| ChannelAsync.AsyncChannel.OnInputBufferAvailable | app/src/main/java/com/husky/mp/karaoke/AudioChannelAsync.java:98-115 | index 0 or a missing buffer changes nothing; at the end of the samples or once over, end of stream is queued and decoding is over; otherwise the next sample is fed and the extractor advances |
| ChannelAsync.AsyncChannel.OnOutputBufferAvailable | app/src/main/java/com/husky/mp/karaoke/AudioChannelAsync.java:118-159 | a present buffer is appended to the queue; on end of stream or once over, the decoder is reset and the queue cleared |
| ChannelAsync.AsyncChannel.OnError | app/src/main/java/com/husky/mp/karaoke/AudioChannelAsync.java:162-167 | decoding is over and the decoder is reset |
| ChannelSync.Present | app/src/main/java/com/husky/mp/karaoke/AudioChannelSync.java:256-287 | the chunks an output drain queues are at most as many as the output buffers |
| ChannelSync.PresentIsFilter | app/src/main/java/com/husky/mp/karaoke/AudioChannelSync.java:256-287 | the chunks an output drain queues come from the buffers that hold data: each queued chunk is the data of some output buffer, and each buffer's data is queued |
| ChannelSync.PresentAll | app/src/main/java/com/husky/mp/karaoke/AudioChannelSync.java:256-287 | when every output buffer holds data, the drain queues exactly those chunks, in order |
| ChannelSync.SyncChannel.constructor | app/src/main/java/com/husky/mp/karaoke/AudioChannelSync.java:41-60 | a new channel has an empty queue; decoding is over exactly when creating the decoder failed, and the decoder executes exactly when it was created |
| ChannelSync.SyncChannel.Start | app/src/main/java/com/husky/mp/karaoke/AudioChannelSync.java:160-163 | decoding is no longer over |
| ChannelSync.SyncChannel.Pause | app/src/main/java/com/husky/mp/karaoke/AudioChannelSync.java:165-174 | no field of the channel changes |
| ChannelSync.SyncChannel.Resume | app/src/main/java/com/husky/mp/karaoke/AudioChannelSync.java:176-179 | no field of the channel changes |
| ChannelSync.SyncChannel.Stop | app/src/main/java/com/husky/mp/karaoke/AudioChannelSync.java:181-200 | decoding is over; nothing else changes |
| ChannelSync.SyncChannel.Release | app/src/main/java/com/husky/mp/karaoke/AudioChannelSync.java:202-214 | decoder and extractor are dropped and the thread told to quit, also on a second call |
| ChannelSync.SyncChannel.GetPCMData | app/src/main/java/com/husky/mp/karaoke/AudioChannelSync.java:123-125 | the oldest queued chunk is removed and returned |
| ChannelSync.SyncChannel.FillInput | app/src/main/java/com/husky/mp/karaoke/AudioChannelSync.java:231-250 | end of stream is reported exactly for a filled buffer at the end of the samples, and then decoding is over; otherwise the extractor advances by one for each filled buffer |
| ChannelSync.SyncChannel.DrainOutputs | app/src/main/java/com/husky/mp/karaoke/AudioChannelSync.java:256-287 | the chunks taken by the consumer followed by the queue are the old queue followed by the drained chunks: nothing is lost or reordered |
| ChannelSync.SyncChannel.DecodeRound | app/src/main/java/com/husky/mp/karaoke/AudioChannelSync.java:229-287 | a pass reports end of stream exactly when it fills a buffer at the end of the samples, and then queues nothing; otherwise it keeps decodeOver, advances the extractor per filled buffer, and queues the drained chunks in order |
| ChannelSync.SyncChannel.AudioDecode | app/src/main/java/com/husky/mp/karaoke/AudioChannelSync.java:226-308 | delivered, dropped and still-queued chunks together are the decoded chunks in order; decoding ends only at a pass that fills a buffer at the end of the samples, which queues end of stream; once over, the decoder is reset and the queue empty; the extractor advanced once per filled buffer |
| Karaoke.MixStep | app/src/main/java/com/husky/mp/karaoke/KaraokeManager.java:217-277 | with both chunks, the crossfade steps toward the selected track first and the buffer is their mix at the new volumes; a lone chunk is passed on and the crossfade steps toward its track |
| Karaoke.Mixdown | app/src/main/java/com/husky/mp/karaoke/KaraokeManager.java:196-292 | the thread writes as many buffers as the longer stream has chunks, and the volumes stay balanced |
| Karaoke.MusicOnlyPlaysMusic | app/src/main/java/com/husky/mp/karaoke/KaraokeManager.java:265-270 | when only the accompaniment delivers, its chunks are played unchanged and its volume rises by 2 per chunk up to 100 |
| Karaoke.OriginalOnlyPlaysOriginal | app/src/main/java/com/husky/mp/karaoke/KaraokeManager.java:271-277 | when only the original delivers, its chunks are played unchanged and its volume rises by 2 per chunk up to 100 |
| Karaoke.PairedRampsToSelected | app/src/main/java/com/husky/mp/karaoke/KaraokeManager.java:218-228 | with the original selected and paired chunks, the final original volume is min(100, start + 2 per pass) |
| Karaoke.OriginalSelectedPlaysOriginal | app/src/main/java/com/husky/mp/karaoke/KaraokeManager.java:80-86 | from the reset with the original selected, and original chunks at least as long as the accompaniment's, exactly the original chunks are played |
| Karaoke.Take | app/src/main/java/com/husky/mp/karaoke/KaraokeManager.java:206-211 | a channel is read exactly when it is not over or still has queued chunks |
| Karaoke.ReadChannel | app/src/main/java/com/husky/mp/karaoke/KaraokeManager.java:206-211 | the read yields `Take`'s chunk and removes it from the channel's queue, and leaves the queue alone otherwise |
| Karaoke.Player.constructor | app/src/main/java/com/husky/mp/karaoke/AudioTrackPlayer.java:30-64 | a new player has accepted nothing and is playing |
| Karaoke.Player.Write | app/src/main/java/com/husky/mp/karaoke/AudioTrackPlayer.java:71-76 | a buffer is accepted exactly while the player plays and is not released; a write to a released player throws |
| Karaoke.Player.Stop | app/src/main/java/com/husky/mp/karaoke/AudioTrackPlayer.java:105-118 | the player no longer plays; a stop of a released player throws |
| Karaoke.Player.Release | app/src/main/java/com/husky/mp/karaoke/AudioTrackPlayer.java:123-126 | the player is released; a second release throws |
| Karaoke.Manager.constructor | app/src/main/java/com/husky/mp/karaoke/KaraokeManager.java:26-50 | a new manager has the accompaniment selected, volumes (0, 100) and nothing prepared |
| Karaoke.Manager.Prepare | app/src/main/java/com/husky/mp/karaoke/KaraokeManager.java:66-136 | an empty path throws before any change; otherwise the volumes are reset for the selected track, and two new channels (each with its first audio track and the decoder `initDecoder` leaves) and a playing player are created |
| Karaoke.Manager.Start | app/src/main/java/com/husky/mp/karaoke/KaraokeManager.java:141-146 | channel 1 is started, then channel 2; it throws exactly when either decoder is not configured; when channel 1 throws, channel 2 is untouched, and when only channel 2 throws, channel 1 is already decoding; nothing else in the channels changes |
| Karaoke.Manager.Pause | app/src/main/java/com/husky/mp/karaoke/KaraokeManager.java:148-153 | nothing in the manager or its channels changes |
| Karaoke.Manager.Resume | app/src/main/java/com/husky/mp/karaoke/KaraokeManager.java:155-160 | nothing in the manager or its channels changes |
| Karaoke.Manager.Stop | app/src/main/java/com/husky/mp/karaoke/KaraokeManager.java:165-168 | both channels are over and nothing else in them changes; their queues are kept until each channel's next output callback clears them |
| Karaoke.Manager.Release | app/src/main/java/com/husky/mp/karaoke/KaraokeManager.java:173-180 | both channels drop their decoders and extractors and their threads quit, the player is released, and a second release throws; queues and cursors are kept |
| Karaoke.Manager.SetOriginal | app/src/main/java/com/husky/mp/karaoke/KaraokeManager.java:187-189 | the selected track is the one given |
| Karaoke.Manager.ModifyOriginalVolume | app/src/main/java/com/husky/mp/karaoke/KaraokeManager.java:298-303 | the volumes take one step toward the original and stay balanced |
| Karaoke.Manager.ModifyMusicVolume | app/src/main/java/com/husky/mp/karaoke/KaraokeManager.java:308-313 | the volumes take one step toward the accompaniment and stay balanced |
| Karaoke.Manager.MixAndPlay | app/src/main/java/com/husky/mp/karaoke/KaraokeManager.java:217-283 | the volumes and the buffer written are those of `MixStep`; nothing is written to a player that does not play |
| Karaoke.Manager.Iteration | app/src/main/java/com/husky/mp/karaoke/KaraokeManager.java:202-283 | the loop goes on exactly when a channel was read, and then the volumes are `MixStep`'s on the chunks read and its buffer is written if and only if the player is playing; otherwise nothing is written and the volumes are kept; each channel read loses its head chunk and no other |
| Karaoke.Manager.PlayNext | app/src/main/java/com/husky/mp/karaoke/KaraokeManager.java:203-283 | one pass writes the first buffer of `Mixdown` and leaves the volumes from which the rest of `Mixdown` follows |
| Karaoke.Manager.Run | app/src/main/java/com/husky/mp/karaoke/KaraokeManager.java:196-292 | the thread writes exactly the buffers of `Mixdown`, ends with its volumes, and stops the player |
| Merge.Silence | app/src/main/java/com/husky/mp/MainActivity.java:136-138 | a new buffer holds n zero bytes |
| Merge.ReadBlock | app/src/main/java/com/husky/mp/MainActivity.java:154 | a read returns -1 exactly at the end of the file, and the position stays within the file |
| Merge.ReadBlockContents | app/src/main/java/com/husky/mp/MainActivity.java:154 | at -1 nothing changes; otherwise up to 2048 next bytes fill the front of the buffer, short only at the end of the file, and the rest of the buffer is stale |
| Merge.MixBlock | app/src/main/java/com/husky/mp/MainActivity.java:166-179 | the mixed block is as long as the buffers |
| Merge.MixBlockSample | app/src/main/java/com/husky/mp/MainActivity.java:166-179 | each sample of the mixed block is the clamped sum of the two buffers' samples |
| Merge.MixBlockSymmetric | app/src/main/java/com/husky/mp/MainActivity.java:166-179 | the block mix gives the same samples whichever buffer comes first |
| Merge.ReadStream | app/src/main/java/com/husky/mp/MainActivity.java:153-154 | a stream that has ended is not read again: its buffer and position are kept, and it does not report -1 again |
| Merge.Pass | app/src/main/java/com/husky/mp/MainActivity.java:153-181 | one pass keeps both positions within the files and writes one 2048-byte block: a copy of the first buffer once the second stream has ended, and the mix of the two buffers as just read otherwise |
| Merge.MergeFromLength | app/src/main/java/com/husky/mp/MainActivity.java:152-182 | the loop writes one block per pass until both streams have returned -1 |
| Merge.MergeAsWritten | app/src/main/java/com/husky/mp/MainActivity.java:150-182 | the loop writes at least one block, even for two empty files |
| Merge.MergeAsWrittenLength | app/src/main/java/com/husky/mp/MainActivity.java:152-182 | the merged file has one block more than the longer input has 2048-byte blocks |
| Merge.MergeIntended | app/src/main/java/com/husky/mp/MainActivity.java:166-179 | the intended merge is as long as the longer input |
| Merge.MergeIntendedSample | app/src/main/java/com/husky/mp/MainActivity.java:167-178 | over the common part, each sample is the clamped sum of the inputs' samples |
| Merge.MergeIntendedTail | app/src/main/java/com/husky/mp/MainActivity.java:152-182 | past the shorter input, the intended merge is the longer input's bytes |
| Merge.MergeIntendedSymmetric | app/src/main/java/com/husky/mp/MainActivity.java:166-179 | merging is symmetric in the two files |
| Merge.MergeIntendedWithSilence | app/src/main/java/com/husky/mp/MainActivity.java:166-179 | merging a file with silence of its length gives the file back |
| Merge.MergeAsWrittenExtraBlock | app/src/main/java/com/husky/mp/MainActivity.java:152-182 | two one-block files merge into two blocks as written, against one intended |
| Merge.MergeAsWrittenRemixesLastBlock | app/src/main/java/com/husky/mp/MainActivity.java:153-179 | for a one-block first file and a two-block second file, the second block written is the first file's block mixed again with the second file's second block |
| Merge.MergeAsWrittenStaleBlock | app/src/main/java/com/husky/mp/MainActivity.java:153-179 | for a concrete pair of files a byte of the as-written merge is 1 where the intended merge has 0 |
| Merge.ReadInto | app/src/main/java/com/husky/mp/MainActivity.java:154 | the read on the array does what `ReadBlock` describes |
| Merge.StreamStep | app/src/main/java/com/husky/mp/MainActivity.java:153-159 | a stream that has ended is not read, and one that returns -1 is marked ended |
| Merge.CopyBuffer | app/src/main/java/com/husky/mp/MainActivity.java:155 | the copy makes the output buffer equal to the first buffer |
| Merge.NewBuffer | app/src/main/java/com/husky/mp/MainActivity.java:136-138 | a new buffer is 2048 zero bytes |
| Merge.MixInto | app/src/main/java/com/husky/mp/MainActivity.java:166-179 | the loop over the buffers writes exactly `MixBlock` into the output buffer |
| Merge.MergePass | app/src/main/java/com/husky/mp/MainActivity.java:153-181 | one pass on the arrays produces the state and block of `Pass`, and the remaining passes decrease |
| Merge.Merge | app/src/main/java/com/husky/mp/MainActivity.java:135-182 | the bytes written are exactly `MergeAsWritten` of the two files |

## Left out

- Pcm.Scale: the source multiplies in single-precision floating point. The model truncates the exact product `s * v / 100` toward zero. Only facts true of both are stated: volume 0 silences, volume 100 keeps the sample, the magnitude never grows, and the sign is kept.
- Threads and blocking are not modelled. The queue's blocking `take` becomes a precondition that the queue is non-empty, and the blocking `put` becomes a precondition that the queue has room. In `DrainOutputs`, a full queue is unblocked by the consumer taking the head. `pause` parks the decoder thread and `resume` unparks it; in the model both change nothing.
- The MediaCodec and MediaExtractor APIs are abstracted. The extractor is its track types plus its sample sizes, the codec is its life-cycle state, and each callback is a method. Sample times, flags and buffer contents are not modelled.
- Decoded chunks are required to have even length (whole 16-bit samples). The source's mixing loop reads past the end of a chunk when the shorter chunk has odd length, or both have the same odd length.
- `getSupportCodec` (an unused helper), `setPCMPath`, writing PCM to files, logging, the main-thread handler and the prepared-listener callback are not modelled.
- These exception handlers are not modelled: the channels' and the mixing thread's `try`/`catch` of `InterruptedException`, and the catch-all in `AudioDecode`. Interleavings of `stop` with a running decode loop are not modelled either.
- ChannelSync.SyncChannel.AudioDecode requires an executing codec. It therefore leaves out two states `start` can run it in: a channel without a decoder (a file with no audio track), and a codec left `Uninitialized` by an earlier finished run, which stops and resets it. In both, every pass throws at `dequeueInputBuffer`, the catch-all swallows the exception, and the loop spins until `stop` sets decoding over.
- Karaoke.Manager.Prepare: the work on the background thread is modelled as part of the call.
  - Not modelled: the `IOException` of `setDataSource`, the release of extractors from an earlier `prepare`, and the format the player is created with (sample rate and channel count).
  - A null path counts as empty.
  - Nothing guards against a file without an audio track, whose `mediaFormat` would be used regardless.
- Karaoke.Manager.Release: the manager's own release of the two extractors is folded into the channels' release. It and the other life-cycle methods require a prepared manager; before `prepare` the channel, extractor and player fields are null and each call throws.
- Karaoke.Manager.MixAndPlay, Karaoke.Manager.Iteration, Karaoke.Manager.PlayNext and Karaoke.Manager.Run require a player that is not released. A write after release throws `NullPointerException` (see Karaoke.Player.Write), and the mixing thread catches only `InterruptedException`, so the thread dies there.
- The manager uses only the asynchronous channel; the synchronous one is modelled on its own.
- The manager's mixing thread is modelled twice. `Iteration` is one pass against the channel objects. `Run` covers the whole loop, given the sequences of chunks each channel delivers.
- The merge's file streams and their closing are not modelled, nor is its exception handler. The two input files are byte sequences, and the merged file is the returned bytes.
- ChannelAsync.AsyncChannel.constructor and ChannelSync.SyncChannel.constructor use the corrected `Decoder.InitDecoder`. The as-written version throws when a decoder cannot be created (see Findings).

Behaviour of the code worth noting:

- The gain truncates toward zero instead of rounding.
- A lone chunk, or the tail of the longer chunk, is passed on without gain.
- A second `release` of the manager throws, because the player has already dropped its track.
- The common prefix is not rounded down to whole samples; chunks are required to be even instead.
- A synchronous channel started without a decoder, or started again after a finished run, loops without end: each pass throws inside the catch-all until `stop` is called.
- After the manager's `stop`, the asynchronous channels keep their queues only until their next output callback, which sees decoding over, stops and resets the codec and clears the queue.
- When one file has no audio track, its channel has no decoder and `start` throws on it. If that is the accompaniment's channel, the original's channel has already started decoding.
- The asynchronous channel starts with decoding over, and the synchronous one with decoding not over.

## Findings

| source | as written | input that shows it | evidently intended | confidence | as-written member | corrected member |
|---|---|---|---|---|---|---|
| app/src/main/java/com/husky/mp/MainActivity.java:152-182 | the loop writes the output buffer also on the pass where a read returns -1, so the merged file has one block more than the longer input | two files of 2048 bytes each merge into 4096 bytes | a merged file as long as the longer input | not executed | Merge.MergeAsWrittenExtraBlock | Merge.MergeIntended |
| app/src/main/java/com/husky/mp/MainActivity.java:153-179 | after the first file has ended, the first buffer keeps its last block, which is mixed into every later block of the second file; bytes past a short read also stay stale | a first file of one block whose first sample is 1, and a second file of two silent blocks: byte 2048 of the merge is 1 | past the shorter file, the longer file's bytes (see Merge.MergeIntendedTail) | not executed | Merge.MergeAsWrittenStaleBlock | Merge.MergeIntended |
| app/src/main/java/com/husky/mp/karaoke/AudioChannelAsync.java:84-89 | when creating the decoder throws, the handler calls `reset` on the decoder field, which is still null | an extractor with one track of type "audio/mp4a-latm" whose decoder cannot be created | decoding marked over, with no decoder | not executed | Decoder.InitDecoderAsWrittenThrows | Decoder.InitDecoder |
