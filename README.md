# A verified model of the video-merge pipelines

AndroidMediaCodecVideoMerge joins a folder of short video segments into one
MP4. MainActivity puts the segments in order by the number in their file
names. A worker thread then runs three jobs in sequence:

- it re-encodes the video of all segments into one video file;
- it decodes the audio of all segments to PCM, stages it, and re-encodes it
  into one audio file;
- it remuxes the two results into the final file.

The merges feed a decoder from one MediaExtractor after another. They keep
a running timestamp offset so that each segment continues where the
previous one ended.

This project models the bookkeeping around the Android media calls:

- MediaExtractor is a sequence of samples `(size, rawTs, flags)` with a
  cursor and a released flag (`Media.Demuxer`).
- MediaMuxer is a class with its added formats, its started and stopped
  flags, and the log of written samples (`Muxing.Muxer`).
- Each MediaCodec is a finite sequence of answers to its dequeue calls. A
  run that uses up those answers before its loop ends stops with the
  outcome `Stalled`. Every property below therefore holds for every
  finite prefix of codec behaviour.

The modules are:

- `Media`: the shared vocabulary.
- `TrackSelector`: `extractMedia`.
- `Continuity`: the feed loop as a step function `FeedStep`, with its run
  and a reference trace.
- `ContinuityProps`: what that trace promises, and where it does not.
- `FeedLoop`: the imperative feed loop (class `Feeder`), proved against
  `FeedStep`.
- `Muxing`: the muxer.
- `VideoPassthrough`: VideoDataMerge.
- `AudioRestage`: AudioDataMerge.
- `GpuPipeline`: VideoDataOpenGlMerge.
- `Remuxer`: MergedDataMuxer.
- `FileOrder`: the ordering and the worker in MainActivity.

Kotlin `Int` arithmetic in the audio timestamp formula is modelled with
32-bit wrap-around and truncating division. Kotlin `Long` values (the
timestamp offsets) are modelled as unbounded integers.

Points where the code's behaviour is easy to misread:

- The offset added at a file boundary is the last raw sample timestamp of
  the file, not its duration. It grows before the test for a next file, so
  it also grows at the last file.
- A file with zero or one sample re-adds the stale value carried over from
  the file before it. It does not leave the offset unchanged.
- A missing track in a later file leaves the old, already released
  extractor in place. The next read from it throws.
- The audio decode loop breaks as soon as end of stream has been queued to
  the decoder. It does not wait for end of stream on the output side, so
  no decoder output is drained after that point.
- The worker runs the video merge first, then the audio merge, then the
  remux.

## Model

| member | source | states |
|---|---|---|
| Media.Demuxer.ReadSampleData | app/src/main/java/io/github/takusan23/androidmediacodecvideomerge/MergedDataMuxer.kt:53-55 | readSampleData is -1 exactly when the extractor is exhausted, and non-negative otherwise |
| Media.Demuxer.Advance | app/src/main/java/io/github/takusan23/androidmediacodecvideomerge/MergedDataMuxer.kt:61 | advance moves the cursor by one sample and never past the end; samples and the released flag are unchanged |
| Media.Wrap32 | app/src/main/java/io/github/takusan23/androidmediacodecvideomerge/AudioDataMerge.kt:185 | an Int value is in [-2^31, 2^31), congruent to the exact value modulo 2^32, and equal to it when it fits |
| Media.Wrap32Add | app/src/main/java/io/github/takusan23/androidmediacodecvideomerge/AudioDataMerge.kt:204 | adding to a wrapped Int gives the wrapped exact sum, so `totalBytesRead` is the byte count modulo 2^32 |
| Media.TruncDiv | app/src/main/java/io/github/takusan23/androidmediacodecvideomerge/AudioDataMerge.kt:206 | Kotlin division: equal to Euclidean division on non-negative operands, and non-negative when the signs agree |
| TrackSelector.FirstMatchFrom | app/src/main/java/io/github/takusan23/androidmediacodecvideomerge/AudioDataMerge.kt:273-275 | firstOrNull from an index: the result matches, nothing before it matches, and None exactly when nothing matches |
| TrackSelector.ExtractMedia | app/src/main/java/io/github/takusan23/androidmediacodecvideomerge/AudioDataMerge.kt:269-276 | the lowest track index whose MIME starts with the prefix (a missing MIME never matches), or None exactly when no track matches |
| TrackSelector.SelectTrack | app/src/main/java/io/github/takusan23/androidmediacodecvideomerge/VideoDataOpenGlMerge.kt:65-71 | the extractor opened on the selected track, with that track's index and format; None exactly when extractMedia finds nothing |
| TrackSelector.SelectsByTypeNotPosition | app/src/main/java/io/github/takusan23/androidmediacodecvideomerge/VideoDataMerge.kt:220-228 | with one audio and one video track, "audio/" picks the audio track and "video/" the video track, whatever their order |
| Continuity.Init | app/src/main/java/io/github/takusan23/androidmediacodecvideomerge/VideoDataOpenGlMerge.kt:75-79 | set-up fails exactly on an empty list or a first file without a matching track; otherwise both offsets are 0, nothing is queued, and the iterator is past the first file |
| Continuity.InitFailure | app/src/main/java/io/github/takusan23/androidmediacodecvideomerge/VideoDataOpenGlMerge.kt:76-79 | next() on an empty list throws NoSuchElement; the `!!` on a missing first format throws MissingTrack |
| Continuity.FeedStep | app/src/main/java/io/github/takusan23/androidmediacodecvideomerge/VideoDataOpenGlMerge.kt:137-181 | one granted input buffer keeps the state valid and appends exactly one buffer to the queue; a released extractor fails without queuing |
| Continuity.Run | app/src/main/java/io/github/takusan23/androidmediacodecvideomerge/VideoDataOpenGlMerge.kt:136-181 | feeding ends with input done or failed, in a valid state |
| Continuity.QueuedAtOffset | app/src/main/java/io/github/takusan23/androidmediacodecvideomerge/VideoDataOpenGlMerge.kt:143-146 | a non-empty sample is queued with its size, raw time plus the offset, and flags 0; the offset does not move |
| Continuity.PrevRecordsFollowingSample | app/src/main/java/io/github/takusan23/androidmediacodecvideomerge/VideoDataOpenGlMerge.kt:147-152 | after advance, prevPresentationTime takes the next sample's raw time, and stays unchanged when there is none |
| Continuity.BoundaryStep | app/src/main/java/io/github/takusan23/androidmediacodecvideomerge/VideoDataOpenGlMerge.kt:160-178 | an exhausted read adds prev to the offset once, whether or not a file follows; then it queues one empty buffer and moves on, or queues EOS and input is done |
| Continuity.MissingTrackKeepsOldExtractor | app/src/main/java/io/github/takusan23/androidmediacodecvideomerge/AudioDataMerge.kt:63-69 | a next file without the track keeps the released extractor and format, and the next granted buffer fails |
| Continuity.ReadRestOfFile | app/src/main/java/io/github/takusan23/androidmediacodecvideomerge/VideoDataMerge.kt:147-157 | the run from the middle of a file is the run from the state where the rest of that file is read: its remaining samples queued shifted by the offset, and prev at the file's last raw time if at least two samples remained |
| Continuity.EnterNextFile | app/src/main/java/io/github/takusan23/androidmediacodecvideomerge/VideoDataMerge.kt:158-168 | the boundary into the next well-formed file grows the offset by prev, queues one empty buffer and opens that file's track |
| Continuity.RunMatchesExpected | app/src/main/java/io/github/takusan23/androidmediacodecvideomerge/VideoDataMerge.kt:141-185 | from the start of a file, the run queues the reference trace from that file on and ends with input done |
| Continuity.AfterFile | app/src/main/java/io/github/takusan23/androidmediacodecvideomerge/VideoDataMerge.kt:158-176 | after a file is read through: EOS if it was the last file, otherwise an empty buffer and the rest at the grown offset |
| Continuity.RunQueuesTrace | app/src/main/java/io/github/takusan23/androidmediacodecvideomerge/VideoDataMerge.kt:137-185 | feeding well-formed files from the start queues exactly the reference trace and ends with input done |
| Continuity.RunAfterStep | app/src/main/java/io/github/takusan23/androidmediacodecvideomerge/VideoDataOpenGlMerge.kt:136-181 | a step that keeps feeding does not change where the run ends; a final step is where it ends |
| Continuity.QueuedPrefixOfRun | app/src/main/java/io/github/takusan23/androidmediacodecvideomerge/VideoDataOpenGlMerge.kt:136-181 | whatever has been queued so far is a prefix of what the whole run queues |
| Continuity.RunGoesOn | app/src/main/java/io/github/takusan23/androidmediacodecvideomerge/VideoDataOpenGlMerge.kt:136-181 | a feed loop that is still feeding has not reached the end of its run: the run queues more than has been queued so far, or it fails |
| ContinuityProps.FileSampleTimes | app/src/main/java/io/github/takusan23/androidmediacodecvideomerge/VideoDataMerge.kt:151 | a file's queued sample times are its raw times shifted by the offset |
| ContinuityProps.FileTimesBounded | app/src/main/java/io/github/takusan23/androidmediacodecvideomerge/VideoDataMerge.kt:151-157 | an ordered file's queued times do not go down and lie between the offset and the offset plus the recorded last time |
| ContinuityProps.ExpectedMonotone | app/src/main/java/io/github/takusan23/androidmediacodecvideomerge/VideoDataMerge.kt:151-159 | from any file on, queued sample times never go down and never drop below the starting offset |
| ContinuityProps.TraceMonotone | app/src/main/java/io/github/takusan23/androidmediacodecvideomerge/VideoDataMerge.kt:151-159 | when every file's raw times are non-negative and non-decreasing and single-sample files sit at 0, the merged sample times never go down |
| ContinuityProps.SingleFileTrace | app/src/main/java/io/github/takusan23/androidmediacodecvideomerge/VideoDataMerge.kt:161-176 | a one-file list queues its samples at their raw times and then EOS; no empty boundary buffer is queued |
| ContinuityProps.BoundaryShape | app/src/main/java/io/github/takusan23/androidmediacodecvideomerge/VideoDataMerge.kt:158-168 | between two files there is exactly one empty buffer, and the next file's offset is the old offset plus the recorded last time |
| ContinuityProps.BoundaryRepeatsTimestamp | app/src/main/java/io/github/takusan23/androidmediacodecvideomerge/VideoDataMerge.kt:155-159 | because the offset is the last raw time and not a duration, the second file's first frame gets the first file's last timestamp |
| ContinuityProps.StaleOffsetRewinds | app/src/main/java/io/github/takusan23/androidmediacodecvideomerge/VideoDataMerge.kt:155-159 | a single-sample file re-adds the stale prev, and when its sample is not at 0 the next file's timestamps go backwards |
| FeedLoop.Feeder.constructor | app/src/main/java/io/github/takusan23/androidmediacodecvideomerge/VideoDataMerge.kt:71 | the feeder starts in the state Init describes |
| FeedLoop.Feeder.ExtractFile | app/src/main/java/io/github/takusan23/androidmediacodecvideomerge/VideoDataMerge.kt:61-68 | extractVideoFile selects the file's track, or returns early and leaves the current extractor and format as they were |
| FeedLoop.Feeder.OnInputBuffer | app/src/main/java/io/github/takusan23/androidmediacodecvideomerge/VideoDataMerge.kt:143-178 | the in-place loop body changes the feeder exactly as FeedStep says |
| Muxing.Muxer.constructor | app/src/main/java/io/github/takusan23/androidmediacodecvideomerge/MergedDataMuxer.kt:27 | a new muxer has no tracks and no writes, and is neither started nor stopped |
| Muxing.Muxer.AddTrack | app/src/main/java/io/github/takusan23/androidmediacodecvideomerge/MergedDataMuxer.kt:40 | addTrack before start appends the format and returns its index |
| Muxing.Muxer.Start | app/src/main/java/io/github/takusan23/androidmediacodecvideomerge/MergedDataMuxer.kt:44 | start, once, changes only the started flag |
| Muxing.Muxer.WriteSampleData | app/src/main/java/io/github/takusan23/androidmediacodecvideomerge/MergedDataMuxer.kt:59 | a write is accepted only on a started, unstopped muxer and a known track, and then appended to the log unchanged; the sample's own fields are not checked |
| Muxing.Muxer.Stop | app/src/main/java/io/github/takusan23/androidmediacodecvideomerge/MergedDataMuxer.kt:67 | stop, on a started muxer, changes only the stopped flag |
| VideoPassthrough.Merge | app/src/main/java/io/github/takusan23/androidmediacodecvideomerge/VideoDataMerge.kt:71-188 | one track is added from the first file's format; the decoder gets a prefix of the run's trace, one buffer per granted input round plus EOS on completion; completion and the released-extractor throw happen at a granted round, completion with the whole trace queued; Stalled means the rounds ran out before the run ended; every decoder output is released with render=true and no size check; isEOLDecode is set exactly when the feed loop ends normally |
| AudioRestage.DecodePhase | app/src/main/java/io/github/takusan23/androidmediacodecvideomerge/AudioDataMerge.kt:118-172 | the decoder gets a prefix of the feed loop's trace, one buffer per granted round plus EOS on completion; completion (the whole trace queued) and the released-extractor throw happen at a granted round; Stalled means the rounds ran out before the run ended; the staging stream is the concatenation of the drained PCM chunks in order; the loop ends right after the EOS round, without draining that round's output |
| AudioRestage.ReadStaging | app/src/main/java/io/github/takusan23/androidmediacodecvideomerge/AudioDataMerge.kt:197-198 | reading the staged stream gives -1 at its end, 0 for an empty buffer, and otherwise as many bytes as fit, at most what is left |
| AudioRestage.QueueChunk | app/src/main/java/io/github/takusan23/androidmediacodecvideomerge/AudioDataMerge.kt:200-206 | queuing the next staged bytes at the time of the bytes before them keeps the encoder input faithful to the staged stream |
| AudioRestage.QueueEndOfStream | app/src/main/java/io/github/takusan23/androidmediacodecvideomerge/AudioDataMerge.kt:207-209 | an empty EOS buffer at time 0 queued after the staged stream is used up keeps the encoder input faithful |
| AudioRestage.EncoderInputs | app/src/main/java/io/github/takusan23/androidmediacodecvideomerge/AudioDataMerge.kt:193-210 | the reference inputs for n granted encoder buffers: n of them, carrying a prefix of the staged stream |
| AudioRestage.QueueNext | app/src/main/java/io/github/takusan23/androidmediacodecvideomerge/AudioDataMerge.kt:193-210 | queuing the next reference input after the first pos staged bytes keeps the encoder input faithful to the staged stream |
| AudioRestage.EncoderInputsFed | app/src/main/java/io/github/takusan23/androidmediacodecvideomerge/AudioDataMerge.kt:192-210 | for any number of granted buffers, the reference inputs carry the staged stream in order and without loss, at the time of the bytes before each chunk, with EOS only after the stream is used up |
| AudioRestage.ChunkTimeAfter | app/src/main/java/io/github/takusan23/androidmediacodecvideomerge/AudioDataMerge.kt:204-206 | the loop's Int update of totalBytesRead and presentationTime computes the chunk time of the bytes read so far |
| AudioRestage.OnEncoderInput | app/src/main/java/io/github/takusan23/androidmediacodecvideomerge/AudioDataMerge.kt:193-210 | one granted encoder buffer appends exactly the next reference input for the bytes read so far: the next chunk at the current time with the counters advanced, or EOS once the stream is used up; it throws exactly when channelCount*2 or the sampling rate is 0 at a chunk |
| AudioRestage.EncodePhase | app/src/main/java/io/github/takusan23/androidmediacodecvideomerge/AudioDataMerge.kt:192-227 | the encoder receives the reference inputs of its granted rounds (plus the chunk whose time update threw), so the staged stream in order and without loss, each chunk stamped with the time of the bytes before it; a throw happens only at a granted round; positive-size outputs are written; the first empty output ends the loop and every earlier polled output was non-empty |
| AudioRestage.ChunkTimeMonotone | app/src/main/java/io/github/takusan23/androidmediacodecvideomerge/AudioDataMerge.kt:203-206 | with a positive channel count and sampling rate, chunk times are non-negative and never go down while the byte count fits an Int |
| AudioRestage.EncoderTimesMonotone | app/src/main/java/io/github/takusan23/androidmediacodecvideomerge/AudioDataMerge.kt:198-206 | the queued encoder times are non-decreasing and start at 0 |
| AudioRestage.TimeWrapsAfterTwoGigabytes | app/src/main/java/io/github/takusan23/androidmediacodecvideomerge/AudioDataMerge.kt:185-206 | for stereo at 44.1 kHz, a chunk's time is never negative below 2^31 staged bytes; from 2^31 up to 2^32 - 4 bytes the Int byte count has wrapped and the time is negative |
| AudioRestage.OnTrack | app/src/main/java/io/github/takusan23/androidmediacodecvideomerge/AudioDataMerge.kt:219 | every written encoder output goes to the audio track with its size, time and flags unchanged |
| AudioRestage.WrittenPositive | app/src/main/java/io/github/takusan23/androidmediacodecvideomerge/AudioDataMerge.kt:217-224 | only encoder outputs of positive size are written |
| AudioRestage.Merge | app/src/main/java/io/github/takusan23/androidmediacodecvideomerge/AudioDataMerge.kt:73-227 | one track is added from the first file's format; a decode phase that does not complete is the merge's outcome and nothing reaches the encoder or the muxer, with the decode phase's guarantees: one queued buffer per granted decode round, the released-extractor throw only at a granted round of a failing run with its whole queue, Stalled only once the decode rounds are used up and before the run ended; otherwise decoding queued the whole trace and ended at a granted round, and encoding runs on the stream it staged with that format's channel count and rate, with the encode phase's guarantees: the reference inputs of the granted rounds, the first empty output ending the loop, every write on track 0 and non-empty |
| GpuPipeline.GlMerge.constructor | app/src/main/java/io/github/takusan23/androidmediacodecvideomerge/VideoDataOpenGlMerge.kt:75-134 | the set-up: feed loop at Init, no track added, muxer not started, both loop flags false |
| GpuPipeline.GlMerge.FeedInput | app/src/main/java/io/github/takusan23/androidmediacodecvideomerge/VideoDataOpenGlMerge.kt:137-181 | one decoder input poll is logged; a refused poll leaves the feeder unchanged; a granted poll changes the feeder exactly as one FeedStep does, queuing one more buffer unless the extractor was released, which throws; so the buffers queued always match the granted polls; inputDone becomes true exactly when the feed loop queues EOS; with no answers left it stalls and changes nothing |
| GpuPipeline.GlMerge.PollEncoder | app/src/main/java/io/github/takusan23/androidmediacodecvideomerge/VideoDataOpenGlMerge.kt:185-205 | one encoder poll is logged: a data output is written, the first config output adds the track and starts the muxer, and a data output before that throws; the loop goes on to the decoder exactly when the answer is INFO_TRY_AGAIN_LATER; with no answers left it stalls and changes nothing |
| GpuPipeline.GlMerge.PullDecoder | app/src/main/java/io/github/takusan23/androidmediacodecvideomerge/VideoDataOpenGlMerge.kt:207-230 | one decoder poll after an idle encoder is logged: a non-empty frame whose image arrived is drawn, and end of input is signalled on EOS; decoderOutputAvailable turns false exactly on INFO_TRY_AGAIN_LATER or an EOS frame; with no answers left it stalls and changes nothing |
| GpuPipeline.GlMerge.DrainStep | app/src/main/java/io/github/takusan23/androidmediacodecvideomerge/VideoDataOpenGlMerge.kt:185-230 | one pass of the inner loop: an encoder poll, then a decoder poll only when the encoder answered INFO_TRY_AGAIN_LATER; when it goes on, the loop continues exactly when the latest poll is neither a decoder INFO_TRY_AGAIN_LATER nor an EOS frame; it stalls only once the encoder's or the decoder's answers are used up; the muxer stays in step with the log |
| GpuPipeline.GlMerge.DrainOutputs | app/src/main/java/io/github/takusan23/androidmediacodecvideomerge/VideoDataOpenGlMerge.kt:182-231 | the inner loop polls the encoder at least once and ends normally only right after a decoder poll that answered INFO_TRY_AGAIN_LATER or carried EOS, and stalls only once the encoder's or the decoder's answers are used up; it keeps the muxer in step with the log |
| GpuPipeline.GlMerge.MergeLoop | app/src/main/java/io/github/takusan23/androidmediacodecvideomerge/VideoDataOpenGlMerge.kt:136-232 | the outer loop ends normally only when outputDone; it throws ReleasedExtractor exactly when feeding failed; it stalls only once the answers of one of the three polls are used up |
| GpuPipeline.Merge | app/src/main/java/io/github/takusan23/androidmediacodecvideomerge/VideoDataOpenGlMerge.kt:59-232 | the decoder gets a prefix of the feed trace, all of it once input is done, one buffer per granted input poll less the poll that found the extractor released, and the whole failing run's queue when that poll throws; Stalled means the answers of one of the three polls were used up; the muxer holds exactly the data outputs; one track, with the encoder's output format, is added exactly when a config output was seen and none otherwise; the decoder is polled only right after an idle encoder, and an idle encoder is always followed by a decoder poll unless the log ends there; completion means the latest encoder output carried EOS |
| GpuPipeline.OrderedIff | app/src/main/java/io/github/takusan23/androidmediacodecvideomerge/VideoDataOpenGlMerge.kt:203-207 | the tally's order flag holds exactly when every decoder poll directly follows an INFO_TRY_AGAIN_LATER encoder poll |
| GpuPipeline.IdleAnsweredIff | app/src/main/java/io/github/takusan23/androidmediacodecvideomerge/VideoDataOpenGlMerge.kt:203-207 | the tally's idle flag holds exactly when every INFO_TRY_AGAIN_LATER encoder poll that is not the last poll is directly followed by a decoder poll |
| GpuPipeline.ConfigSeenIff | app/src/main/java/io/github/takusan23/androidmediacodecvideomerge/VideoDataOpenGlMerge.kt:189-198 | the track has been added exactly when a codec-config output larger than one byte is in the log |
| GpuPipeline.WritesAreData | app/src/main/java/io/github/takusan23/androidmediacodecvideomerge/VideoDataOpenGlMerge.kt:188-190 | the muxer writes are exactly the data outputs (encoder outputs larger than one byte without the codec-config flag), in log order, each to the added track with that output's size, time and flags; at most one write per encoder output |
| GpuPipeline.DrawnFrames | app/src/main/java/io/github/takusan23/androidmediacodecvideomerge/VideoDataOpenGlMerge.kt:211-224 | the drawn frames are exactly the non-empty decoder outputs whose image arrived, in log order, each stamped with its µs time times 1000 |
| GpuPipeline.OutputDoneIsLatest | app/src/main/java/io/github/takusan23/androidmediacodecvideomerge/VideoDataOpenGlMerge.kt:200 | outputDone holds exactly when the latest encoder output carries the EOS flag |
| GpuPipeline.EndSignalsCount | app/src/main/java/io/github/takusan23/androidmediacodecvideomerge/VideoDataOpenGlMerge.kt:226-229 | signalEndOfInputStream is called exactly as many times as there are decoder EOS frames in the log, and never when there is none |
| Remuxer.CopyTrack | app/src/main/java/io/github/takusan23/androidmediacodecvideomerge/MergedDataMuxer.kt:50-62 | one file's copy writes every sample in extractor order, a size-0 sample included, and stops at the first negative read with the extractor exhausted |
| Remuxer.OpenAll | app/src/main/java/io/github/takusan23/androidmediacodecvideomerge/MergedDataMuxer.kt:30-37 | an extractor on track 0 of every file, with that track's format; this fails exactly when some file has no track |
| Remuxer.AddAll | app/src/main/java/io/github/takusan23/androidmediacodecvideomerge/MergedDataMuxer.kt:38-44 | one addTrack per file in list order, returning index i for file i, then start once |
| Remuxer.CopyAll | app/src/main/java/io/github/takusan23/androidmediacodecvideomerge/MergedDataMuxer.kt:46-65 | the files are copied one after the other, and each extractor is released after its copy |
| Remuxer.Mixed | app/src/main/java/io/github/takusan23/androidmediacodecvideomerge/MergedDataMuxer.kt:22-69 | the run completes exactly when every file has a track 0, doing what Expected lists, with every extractor exhausted and released and the muxer started and stopped; otherwise it throws before touching the muxer |
| Remuxer.AdditionsShape | app/src/main/java/io/github/takusan23/androidmediacodecvideomerge/MergedDataMuxer.kt:38-42 | the track additions are one per file, with that file's track 0 format, in list order |
| Remuxer.CopyShape | app/src/main/java/io/github/takusan23/androidmediacodecvideomerge/MergedDataMuxer.kt:53-61 | one file's copy is one write per sample, in order, with its size, time and flags |
| Remuxer.CopiesOnTrack | app/src/main/java/io/github/takusan23/androidmediacodecvideomerge/MergedDataMuxer.kt:46-65 | the writes to file i's track are exactly that file's copy |
| Remuxer.VerbatimCopy | app/src/main/java/io/github/takusan23/androidmediacodecvideomerge/MergedDataMuxer.kt:57-59 | the writes to track i are file i's track 0 samples, one for one and in order, with size, timestamp and flags unchanged |
| Remuxer.OneTrackPerFile | app/src/main/java/io/github/takusan23/androidmediacodecvideomerge/MergedDataMuxer.kt:30-42 | exactly one track per file is added, each with its track 0 format, in list order |
| Remuxer.EventsInOrder | app/src/main/java/io/github/takusan23/androidmediacodecvideomerge/MergedDataMuxer.kt:44-67 | all additions come before the one start, start before any write, the files are copied in list order with each release after the file's writes, and the one stop is last |
| FileOrder.LeadingDigits | app/src/main/java/io/github/takusan23/androidmediacodecvideomerge/MainActivity.kt:85 | the digits at the start of a name are all digits and a prefix of it |
| FileOrder.SortKey | app/src/main/java/io/github/takusan23/androidmediacodecvideomerge/MainActivity.kt:90 | the key is always within [0, Int.MAX_VALUE] |
| FileOrder.FirstRunOf | app/src/main/java/io/github/takusan23/androidmediacodecvideomerge/MainActivity.kt:85 | the regex finds the first maximal digit run: the one after a digit-free prefix that ends before the next non-digit |
| FileOrder.KeyOfName | app/src/main/java/io/github/takusan23/androidmediacodecvideomerge/MainActivity.kt:90 | the key of a name is the value of its first digit run when that fits an Int, and 0 otherwise |
| FileOrder.NoDigitsKeyZero | app/src/main/java/io/github/takusan23/androidmediacodecvideomerge/MainActivity.kt:90 | a name without digits has no run and key 0 |
| FileOrder.LeadingZeroIgnored | app/src/main/java/io/github/takusan23/androidmediacodecvideomerge/MainActivity.kt:90 | leading zeros do not change the value of a digit run |
| FileOrder.IntBoundary | app/src/main/java/io/github/takusan23/androidmediacodecvideomerge/MainActivity.kt:90 | "2147483647" keeps its value, while "2147483648" overflows toIntOrNull and gives key 0 |
| FileOrder.InsertSorted | app/src/main/java/io/github/takusan23/androidmediacodecvideomerge/MainActivity.kt:90 | inserting an entry into a list whose keys ascend keeps them ascending |
| FileOrder.InsertWithKey | app/src/main/java/io/github/takusan23/androidmediacodecvideomerge/MainActivity.kt:90 | the inserted entry goes after the entries with its key, and the other keys' runs are unchanged |
| FileOrder.SortedByAscends | app/src/main/java/io/github/takusan23/androidmediacodecvideomerge/MainActivity.kt:87-90 | the ordered list is non-decreasing by key |
| FileOrder.SortedByPermutes | app/src/main/java/io/github/takusan23/androidmediacodecvideomerge/MainActivity.kt:87-90 | the ordered list is a permutation of the folder listing |
| FileOrder.SortedByStable | app/src/main/java/io/github/takusan23/androidmediacodecvideomerge/MainActivity.kt:87-90 | entries with equal keys keep their listing order |
| FileOrder.Worker | app/src/main/java/io/github/takusan23/androidmediacodecvideomerge/MainActivity.kt:100-115 | video merge, then audio merge on the same ordered list, then the remux of [audio, video], strictly in sequence: the audio merge runs exactly when the video merge completed, the remux exactly when both completed, and the worker's outcome is that of its last job; a completed merge has fed its whole trace |

## Left out

- MediaCodec internals (decoding, encoding, output reordering, payload bytes and format configuration) are not modelled. The codecs' dequeue results are given as finite sequences of answers.
- The run's answers are finite: a loop that uses them all up ends with the outcome Stalled, so termination of the real loops is not modelled.
- The TIMEOUT_US busy polling and all timing are left out. A poll that times out is one of the modelled answers.
- The concurrent drain thread of VideoDataMerge and its cross-thread `isEOLDecode` flag are not modelled, because their point is concurrency. VideoPassthrough.Merge records only the moment the flag is set.
- The OpenGL surface (makeCurrent, awaitNewImage, drawImage, swapBuffers) is outside this model. Whether awaitNewImage returns normally is an answer of the decoder poll, and a drawn frame is recorded by its presentation time.
- The encoder's output format is a parameter of GpuPipeline.Merge (`outputFormat`), because it comes from the codec.
- Teardown is not modelled: the codecs' stop and release, the muxer's release, the try/catch around them, the `stop()` methods and temporary-file deletion. Remuxer.Mixed does model the muxer's stop.
- seekTo and ByteBuffer offsets are platform calls with no logic of their own.
- The staged PCM stream is a byte sequence, and `bufferedInputStream.read` is modelled as reading min(capacity, remaining) bytes for a fixed input-buffer capacity. A short read in the middle of the stream is not modelled.
- The UI and file plumbing of MainActivity (creating files, getExternalFilesDir, showMessage, elapsed times) are left out. A null `listFiles()` is also left out.
- Worker takes the merged audio and video files as parameters: they are what the remux reads back from disk, and file contents are outside this model.
- Media.Wrap32: timestamp offsets are Kotlin `Long` and are modelled unbounded; only the `Int` arithmetic of the audio time formula wraps.
- Muxing.Muxer.WriteSampleData: MediaMuxer's rejection of a sample with a negative presentation time is not modelled. So after 2^31 staged audio bytes, AudioRestage.EncodePhase records the write where the real loop would throw.
- Continuity.RunQueuesTrace: the trace theorems assume every sample has a positive size and a non-negative raw time. A zero-size sample mid-file ends that file early, because the feed loop takes it for the end of the file. FeedStep models that case, but the reference trace does not describe it.
- Continuity.RunMatchesExpected, Continuity.AfterFile and ContinuityProps.TraceMonotone: same assumption as Continuity.RunQueuesTrace.
- Muxing.Muxer.Stop: MediaMuxer's refusal to stop a muxer without written samples is not modelled.
