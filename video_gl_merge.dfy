/**
 * VideoDataOpenGlMerge: the decoder renders into an OpenGL surface that
 * draws into the encoder's input surface; one thread alternates between
 * feeding the decoder, draining the encoder into the muxer and pulling the
 * decoder's frames. The muxer track is added lazily, from the encoder's
 * first codec-config output.
 */
module GpuPipeline {
  import opened Media
  import opened Continuity
  import opened FeedLoop
  import opened Muxing

  /** The `videoTrackIndex` sentinel before the track has been added. */
  const NO_INDEX_VALUE: int := -100

  /**
   * What the decoder's dequeueOutputBuffer gave: INFO_TRY_AGAIN_LATER,
   * another negative INFO_ code, or a frame; for a frame, whether
   * awaitNewImage on the surface returned without an exception.
   */
  datatype DecoderEvent = DecTryAgain | DecOther | DecFrame(info: BufferInfo, imageReady: bool)

  /** One codec poll of the loop, in the order they happen. */
  datatype Poll =
    | InputPoll(granted: bool)       // decoder dequeueInputBuffer
    | EncoderPoll(enc: OutputPoll)   // encoder dequeueOutputBuffer
    | DecoderPoll(dec: DecoderEvent) // decoder dequeueOutputBuffer

  /** An encoder output that carries codec-specific data and is larger than one byte. */
  predicate IsConfigOutput(p: Poll)
  {
    p.EncoderPoll? && p.enc.Output? && p.enc.info.size > 1
    && HasFlag(p.enc.info.flags, BUFFER_FLAG_CODEC_CONFIG)
  }

  /** An encoder output that carries media data and is larger than one byte. */
  predicate IsDataOutput(p: Poll)
  {
    p.EncoderPoll? && p.enc.Output? && p.enc.info.size > 1
    && !HasFlag(p.enc.info.flags, BUFFER_FLAG_CODEC_CONFIG)
  }

  /** A decoder frame that is drawn: it is not empty and its image arrived. */
  predicate Drawable(p: Poll)
  {
    p.DecoderPoll? && p.dec.DecFrame? && p.dec.info.size != 0 && p.dec.imageReady
  }

  /** A decoder frame with the end-of-stream flag, which ends the encoder's input. */
  predicate EndsInput(p: Poll)
  {
    p.DecoderPoll? && p.dec.DecFrame? && HasFlag(p.dec.info.flags, BUFFER_FLAG_END_OF_STREAM)
  }

  /**
   * A decoder answer that ends the inner loop: INFO_TRY_AGAIN_LATER, or a
   * frame with the end-of-stream flag.
   */
  predicate EndsDrain(p: Poll)
  {
    p == DecoderPoll(DecTryAgain) || EndsInput(p)
  }

  /**
   * What a log of polls amounts to: the answers each codec gave, in order;
   * whether a codec-config output has been seen; the muxer writes the data
   * outputs call for; the presentation times (ns) set on the encoder
   * surface; the signalEndOfInputStream count; `outputDone`; whether every
   * decoder poll came right after an idle encoder poll; whether the latest
   * poll was an idle encoder poll; and whether every idle encoder poll
   * before the latest poll was followed by a decoder poll.
   */
  datatype Tally = Tally(
    inputs: seq<bool>, encoders: seq<OutputPoll>, decoders: seq<DecoderEvent>,
    configSeen: bool, writes: seq<MuxWrite>, drawn: seq<int>, endSignals: nat,
    outputDone: bool, ordered: bool, afterIdle: bool, idleAnswered: bool)

  const NO_POLLS: Tally := Tally([], [], [], false, [], [], 0, false, true, false, true)

  /** The effect of one more poll on the tally. */
  function Record(t: Tally, p: Poll): Tally
  {
    match p
    case InputPoll(granted) =>
      t.(inputs := t.inputs + [granted], afterIdle := false, idleAnswered := t.idleAnswered && !t.afterIdle)
    case EncoderPoll(e) =>
      t.(encoders := t.encoders + [e],
         configSeen := t.configSeen || IsConfigOutput(p),
         writes := t.writes + (if IsDataOutput(p) then [MuxWrite(0, e.info.size, e.info.ts, e.info.flags)] else []),
         outputDone := if e.Output? then HasFlag(e.info.flags, BUFFER_FLAG_END_OF_STREAM) else t.outputDone,
         afterIdle := e == TryAgainLater,
         idleAnswered := t.idleAnswered && !t.afterIdle)
    case DecoderPoll(d) =>
      t.(decoders := t.decoders + [d],
         drawn := t.drawn + (if Drawable(p) then [d.info.ts * 1000] else []),
         endSignals := t.endSignals + (if EndsInput(p) then 1 else 0),
         ordered := t.ordered && t.afterIdle,
         afterIdle := false)
  }

  /** The tally of a whole log. */
  function Tallied(log: seq<Poll>): Tally
  {
    if log == [] then NO_POLLS else Record(Tallied(log[..|log| - 1]), log[|log| - 1])
  }

  /** The decoder is only ever polled right after the encoder said INFO_TRY_AGAIN_LATER. */
  predicate DecoderAfterEncoderIdle(log: seq<Poll>)
  {
    forall k :: 0 <= k < |log| && log[k].DecoderPoll? ==> 0 < k && log[k - 1] == EncoderPoll(TryAgainLater)
  }

  /** Every INFO_TRY_AGAIN_LATER of the encoder, except as the latest poll, is followed by a decoder poll. */
  predicate EncoderIdleThenDecoder(log: seq<Poll>)
  {
    forall k :: 0 <= k < |log| - 1 && log[k] == EncoderPoll(TryAgainLater) ==> log[k + 1].DecoderPoll?
  }

  /** How many of these input polls were granted a buffer. */
  function Grants(inputs: seq<bool>): nat
  {
    if inputs == [] then 0 else Grants(inputs[..|inputs| - 1]) + (if inputs[|inputs| - 1] then 1 else 0)
  }

  /**
   * The state of one `merge()` run: the codecs' answers (consumed in order
   * through `ip`, `ei` and `di`), the feed loop, the muxer, the log of
   * polls with its tally, `videoTrackIndex`, the two loop flags, the
   * presentation times set on the encoder surface and the
   * signalEndOfInputStream count.
   */
  class GlMerge {
    const files: seq<MediaFile>
    const outputFormat: Track          // encodeMediaCodec.outputFormat
    const inputPolls: seq<bool>
    const encoderPolls: seq<OutputPoll>
    const decoderPolls: seq<DecoderEvent>
    const feeder: Feeder
    const mux: Muxer
    ghost const start: FeedState       // the feed state Init gives for `files`
    var log: seq<Poll>
    ghost var tally: Tally
    var ip: nat
    var ei: nat
    var di: nat
    var videoTrackIndex: int
    var inputDone: bool
    var outputDone: bool
    var drawn: seq<int>
    var endSignals: nat

    /** The feed loop is on the run that starts from `start`. */
    ghost predicate Feeding()
      reads feeder
    {
      && Continuity.Valid(start)
      && feeder.Valid() && feeder.files == files && feeder.prefix == "video/"
      && Run(feeder.State()) == Run(start)
    }

    /**
     * The log accounts for every answer consumed and for the state of the
     * drain loop, apart from the muxer's written samples and `outputDone`
     * (an exception can leave those behind the log).
     */
    ghost predicate Agrees()
      reads this, mux
    {
      && tally == Tallied(log)
      && ip <= |inputPolls| && tally.inputs == inputPolls[..ip]
      && ei <= |encoderPolls| && tally.encoders == encoderPolls[..ei]
      && di <= |decoderPolls| && tally.decoders == decoderPolls[..di]
      && videoTrackIndex == (if tally.configSeen then 0 else NO_INDEX_VALUE)
      && mux.formats == (if tally.configSeen then [outputFormat] else [])
      && mux.started == tally.configSeen && !mux.stopped
      && (!mux.started ==> mux.writes == [])
      && tally.ordered && tally.idleAnswered
      && drawn == tally.drawn && endSignals == tally.endSignals
    }

    /**
     * Every granted input buffer ran one feed step: one more sample queued,
     * except by the step that found the extractor released.
     */
    ghost predicate FedGrants()
      reads this, feeder
    {
      |feeder.queued| + (if feeder.status == Failed then 1 else 0) == |start.queued| + Grants(tally.inputs)
    }

    /** The muxer holds exactly the data outputs of the log, and `outputDone` is up to date. */
    ghost predicate Settled()
      reads this, mux
    {
      mux.writes == tally.writes && outputDone == tally.outputDone
    }

    /** The loop stopped at a data output that arrived before the track was added. */
    ghost predicate MuxerFault()
      reads this, mux
    {
      mux.writes == [] && |log| > 0 && IsDataOutput(log[|log| - 1]) && !tally.configSeen
    }

    /** The set-up of `merge()` up to the loop, for a list Init accepts. */
    constructor (files: seq<MediaFile>, outputFormat: Track, inputPolls: seq<bool>,
                 encoderPolls: seq<OutputPoll>, decoderPolls: seq<DecoderEvent>)
      requires Init(files, "video/").Some?
      ensures Feeding() && Agrees() && Settled() && FedGrants() && log == [] && feeder.status == Continuity.Feeding
      ensures !inputDone && !outputDone
      ensures this.files == files && this.outputFormat == outputFormat && this.inputPolls == inputPolls
      ensures this.encoderPolls == encoderPolls && this.decoderPolls == decoderPolls
      ensures fresh(feeder) && fresh(mux) && start == Init(files, "video/").value
    {
      this.files := files;
      this.outputFormat := outputFormat;
      this.inputPolls := inputPolls;
      this.encoderPolls := encoderPolls;
      this.decoderPolls := decoderPolls;
      feeder := new Feeder(files, "video/");
      start := Init(files, "video/").value;
      mux := new Muxer();
      log, tally := [], NO_POLLS;
      ip, ei, di := 0, 0, 0;
      videoTrackIndex := NO_INDEX_VALUE;
      inputDone, outputDone := false, false;
      drawn, endSignals := [], 0;
    }

    /** Appends a poll to the log and its tally. */
    method Log(p: Poll)
      requires tally == Tallied(log)
      modifies this
      ensures log == old(log) + [p] && tally == Record(old(tally), p) && tally == Tallied(log)
      ensures ip == old(ip) && ei == old(ei) && di == old(di) && videoTrackIndex == old(videoTrackIndex)
      ensures inputDone == old(inputDone) && outputDone == old(outputDone)
      ensures drawn == old(drawn) && endSignals == old(endSignals)
    {
      TallyStep(log, p);
      log, tally := log + [p], Record(tally, p);
    }

    /**
     * The `if (!inputDone)` part of an outer iteration: ask the decoder for
     * an input buffer and, when granted, run one feed step.
     */
    method FeedInput() returns (stop: Option<Outcome>)
      requires Feeding() && Agrees() && Settled() && FedGrants() && !inputDone && feeder.status == Continuity.Feeding
      requires !tally.afterIdle
      modifies this, feeder
      ensures Feeding() && Agrees() && Settled() && FedGrants() && ei == old(ei) && di == old(di) && !tally.afterIdle
      ensures stop == Some(Stalled) ==>
                ip == old(ip) == |inputPolls| && log == old(log) && feeder.queued == old(feeder.queued)
      ensures stop != Some(Stalled) ==> ip == old(ip) + 1 && log == old(log) + [InputPoll(inputPolls[old(ip)])]
      ensures stop != Some(Stalled) && !inputPolls[old(ip)] ==> stop.None? && feeder.queued == old(feeder.queued)
      ensures stop != Some(Stalled) && inputPolls[old(ip)] ==> feeder.State() == FeedStep(old(feeder.State()))
      ensures stop != Some(Stalled) && inputPolls[old(ip)] && feeder.status != Failed ==>
                |feeder.queued| == |old(feeder.queued)| + 1
      ensures inputDone <==> feeder.status == InputDone
      ensures stop.None? <==> feeder.status != Failed && ip == old(ip) + 1
      ensures stop.Some? ==> stop.value == Stalled || stop.value == Threw(ReleasedExtractor)
      ensures stop == Some(Threw(ReleasedExtractor)) <==> feeder.status == Failed
    {
      if ip == |inputPolls| {
        return Some(Stalled);
      }
      var granted := TakeInputAnswer();
      stop := None;
      if granted {
        feeder.OnInputBufferWithin(start);
        if feeder.status == Failed {
          // readSampleData on the released extractor throws
          return Some(Threw(ReleasedExtractor));
        }
        inputDone := feeder.status == InputDone;
      }
    }

    /** The decoder's answer to dequeueInputBuffer, taken into the log. */
    method TakeInputAnswer() returns (granted: bool)
      requires Agrees() && Settled() && ip < |inputPolls| && !tally.afterIdle
      modifies this
      ensures Agrees() && Settled() && ip == old(ip) + 1 && ei == old(ei) && di == old(di)
      ensures inputDone == old(inputDone) && granted == inputPolls[old(ip)]
      ensures log == old(log) + [InputPoll(granted)] && tally.inputs == old(tally.inputs) + [granted]
      ensures !tally.afterIdle
    {
      granted := inputPolls[ip];
      TakeOneMore(inputPolls, ip);
      Log(InputPoll(granted));
      ip := ip + 1;
    }

    /**
     * The encoder half of an inner iteration: dequeue one encoder output;
     * a data output goes to the muxer, the first codec-config output adds
     * the track and starts the muxer. `idle` says the encoder answered
     * INFO_TRY_AGAIN_LATER.
     */
    method PollEncoder() returns (stop: Option<Outcome>, idle: bool)
      requires Agrees() && Settled() && !tally.afterIdle
      modifies this, mux
      ensures Agrees() && ip == old(ip) && di == old(di) && inputDone == old(inputDone)
      ensures stop == Some(Stalled) ==> ei == old(ei) == |encoderPolls| && log == old(log) && !tally.afterIdle
      ensures stop != Some(Stalled) ==>
                ei == old(ei) + 1 && log == old(log) + [EncoderPoll(encoderPolls[old(ei)])]
      ensures stop.None? ==> Settled() && idle == tally.afterIdle && (idle <==> encoderPolls[old(ei)] == TryAgainLater)
      ensures stop == Some(Stalled) ==> Settled()
      ensures stop == Some(Threw(MuxerState)) ==> MuxerFault()
      ensures stop.Some? ==> stop.value == Stalled || stop.value == Threw(MuxerState)
    {
      if ei == |encoderPolls| {
        return Some(Stalled), false;
      }
      var encoderStatus := encoderPolls[ei];
      stop, idle := None, false;
      if IsConfigOutput(EncoderPoll(encoderStatus)) {
        ConfigOutput();
      } else if IsDataOutput(EncoderPoll(encoderStatus)) {
        var ok := DataOutput();
        if !ok {
          // writeSampleData before start() throws
          stop := Some(Threw(MuxerState));
        }
      } else {
        OtherAnswer();
        idle := encoderStatus == TryAgainLater;
      }
    }

    /** The encoder's answer to dequeueOutputBuffer, taken into the log. */
    method TakeEncoderAnswer() returns (answer: OutputPoll)
      requires tally == Tallied(log) && ei < |encoderPolls| && tally.encoders == encoderPolls[..ei]
      modifies this
      ensures answer == encoderPolls[old(ei)] && ei == old(ei) + 1 && tally.encoders == encoderPolls[..ei]
      ensures log == old(log) + [EncoderPoll(answer)] && tally == Record(old(tally), EncoderPoll(answer)) && tally == Tallied(log)
      ensures ip == old(ip) && di == old(di) && videoTrackIndex == old(videoTrackIndex)
      ensures inputDone == old(inputDone) && outputDone == old(outputDone)
      ensures drawn == old(drawn) && endSignals == old(endSignals)
    {
      answer := encoderPolls[ei];
      TakeOneMore(encoderPolls, ei);
      Log(EncoderPoll(answer));
      ei := ei + 1;
    }

    /** A codec-config output: the first one adds the track and starts the muxer. */
    method ConfigOutput()
      requires Agrees() && Settled() && ei < |encoderPolls| && IsConfigOutput(EncoderPoll(encoderPolls[ei]))
      requires !tally.afterIdle
      modifies this, mux
      ensures log == old(log) + [EncoderPoll(encoderPolls[old(ei)])]
      ensures Agrees() && Settled() && ip == old(ip) && di == old(di) && inputDone == old(inputDone)
      ensures ei == old(ei) + 1 && !tally.afterIdle
    {
      var answer := TakeEncoderAnswer();
      var info := answer.info;
      assert tally.configSeen && tally.writes == old(tally.writes) && tally.ordered == old(tally.ordered);
      if videoTrackIndex == NO_INDEX_VALUE {
        videoTrackIndex := mux.AddTrack(outputFormat);
        mux.Start();
      }
      outputDone := HasFlag(info.flags, BUFFER_FLAG_END_OF_STREAM);
    }

    /** A data output: written to the muxer, which refuses it before the track is added. */
    method DataOutput() returns (ok: bool)
      requires Agrees() && Settled() && ei < |encoderPolls| && IsDataOutput(EncoderPoll(encoderPolls[ei]))
      requires !tally.afterIdle
      modifies this, mux
      ensures log == old(log) + [EncoderPoll(encoderPolls[old(ei)])]
      ensures Agrees() && ip == old(ip) && di == old(di) && inputDone == old(inputDone)
      ensures ei == old(ei) + 1 && !tally.afterIdle
      ensures ok ==> Settled()
      ensures !ok ==> MuxerFault()
    {
      var answer := TakeEncoderAnswer();
      var info := answer.info;
      ok := mux.WriteSampleData(videoTrackIndex, info);
      if ok {
        outputDone := HasFlag(info.flags, BUFFER_FLAG_END_OF_STREAM);
      }
    }

    /** Any other answer: INFO_ codes, and outputs of at most one byte, which only set `outputDone`. */
    method OtherAnswer()
      requires Agrees() && Settled() && ei < |encoderPolls|
      requires !IsConfigOutput(EncoderPoll(encoderPolls[ei])) && !IsDataOutput(EncoderPoll(encoderPolls[ei]))
      requires !tally.afterIdle
      modifies this
      ensures log == old(log) + [EncoderPoll(encoderPolls[old(ei)])]
      ensures Agrees() && Settled() && ip == old(ip) && di == old(di) && inputDone == old(inputDone)
      ensures ei == old(ei) + 1 && tally.afterIdle == (encoderPolls[old(ei)] == TryAgainLater)
    {
      var encoderStatus := TakeEncoderAnswer();
      if encoderStatus.Output? {
        outputDone := HasFlag(encoderStatus.info.flags, BUFFER_FLAG_END_OF_STREAM);
      }
    }

    /** The decoder's answer to dequeueOutputBuffer, taken into the log. */
    method TakeDecoderAnswer() returns (event: DecoderEvent)
      requires tally == Tallied(log) && di < |decoderPolls| && tally.decoders == decoderPolls[..di]
      modifies this
      ensures event == decoderPolls[old(di)] && di == old(di) + 1 && tally.decoders == decoderPolls[..di]
      ensures log == old(log) + [DecoderPoll(event)] && tally == Record(old(tally), DecoderPoll(event)) && tally == Tallied(log)
      ensures ip == old(ip) && ei == old(ei) && videoTrackIndex == old(videoTrackIndex)
      ensures inputDone == old(inputDone) && outputDone == old(outputDone)
      ensures drawn == old(drawn) && endSignals == old(endSignals)
    {
      event := decoderPolls[di];
      TakeOneMore(decoderPolls, di);
      Log(DecoderPoll(event));
      di := di + 1;
    }

    /**
     * The decoder half of an inner iteration, after the encoder was idle:
     * dequeue one decoder output and draw it. `available` is the new
     * `decoderOutputAvailable`.
     */
    method PullDecoder() returns (stop: Option<Outcome>, available: bool)
      requires Agrees() && Settled() && tally.afterIdle
      modifies this
      ensures Agrees() && Settled() && ip == old(ip) && ei == old(ei) && inputDone == old(inputDone)
      ensures stop.Some? ==> stop.value == Stalled && di == old(di) == |decoderPolls| && log == old(log)
      ensures stop.None? ==>
                di == old(di) + 1 && log == old(log) + [DecoderPoll(decoderPolls[old(di)])]
                && (available <==> !EndsDrain(DecoderPoll(decoderPolls[old(di)])))
                && !tally.afterIdle
    {
      if di == |decoderPolls| {
        return Some(Stalled), false;
      }
      var event := TakeDecoderAnswer();
      RecordDecoder(old(tally), event);
      stop, available := None, true;
      match event
      case DecTryAgain =>
        available := false;
      case DecOther =>
      case DecFrame(info, imageReady) =>
        // released with render = (size != 0); a drawn frame is stamped µs * 1000
        if Drawable(DecoderPoll(event)) {
          drawn := drawn + [info.ts * 1000];
        }
        if EndsInput(DecoderPoll(event)) {
          available := false;
          endSignals := endSignals + 1;
        }
    }

    /**
     * One inner iteration: poll the encoder and, when it was idle, pull one
     * decoder output. `available` is the new `decoderOutputAvailable`.
     */
    method DrainStep() returns (stop: Option<Outcome>, available: bool)
      requires Agrees() && Settled() && !tally.afterIdle
      modifies this, mux
      ensures Agrees() && ip == old(ip) && inputDone == old(inputDone) && |old(log)| <= |log|
      ensures stop.None? ==>
                Settled() && ei > old(ei) && !tally.afterIdle && |log| > |old(log)|
                && (available <==> !EndsDrain(log[|log| - 1]))
      ensures stop == Some(Stalled) ==> Settled() && (ei == |encoderPolls| || di == |decoderPolls|)
      ensures stop == Some(Threw(MuxerState)) ==> MuxerFault()
      ensures stop.Some? ==> stop.value == Stalled || stop.value == Threw(MuxerState)
    {
      var idle;
      available := true;
      stop, idle := PollEncoder();
      if stop.Some? || !idle {
        return;
      }
      stop, available := PullDecoder();
    }

    /** The inner loop: drain until the decoder has no output available. */
    method DrainOutputs() returns (stop: Option<Outcome>)
      requires Agrees() && Settled() && !tally.afterIdle
      modifies this, mux
      ensures Agrees() && ip == old(ip) && inputDone == old(inputDone) && |old(log)| <= |log|
      ensures stop.None? ==>
                Settled() && ei > old(ei) && |log| > |old(log)| && EndsDrain(log[|log| - 1]) && !tally.afterIdle
      ensures stop == Some(Stalled) ==> Settled() && (ei == |encoderPolls| || di == |decoderPolls|)
      ensures stop == Some(Threw(MuxerState)) ==> MuxerFault()
      ensures stop.Some? ==> stop.value == Stalled || stop.value == Threw(MuxerState)
    {
      var decoderOutputAvailable := true;
      while decoderOutputAvailable
        invariant Agrees() && Settled() && ip == old(ip) && inputDone == old(inputDone) && !tally.afterIdle
        invariant old(ei) <= ei && (decoderOutputAvailable || old(ei) < ei)
        invariant |old(log)| <= |log|
        invariant !decoderOutputAvailable ==> |log| > |old(log)| && EndsDrain(log[|log| - 1])
        decreases |encoderPolls| - ei
      {
        stop, decoderOutputAvailable := DrainStep();
        if stop.Some? {
          return;
        }
      }
      stop := None;
    }

    /**
     * The outer `while (!outputDone)` loop: feed the decoder while input
     * remains, then drain, until the latest encoder output carries end of
     * stream or an exception ends the run.
     */
    method MergeLoop() returns (outcome: Outcome)
      requires Feeding() && Agrees() && Settled() && FedGrants() && !tally.afterIdle
      requires (inputDone <==> feeder.status == InputDone) && feeder.status != Failed
      modifies this, feeder, mux
      ensures Feeding() && Agrees() && FedGrants()
      ensures outcome != Threw(MuxerState) ==> Settled()
      ensures outcome == Threw(MuxerState) ==> MuxerFault()
      ensures outcome == Threw(ReleasedExtractor) <==> feeder.status == Failed
      ensures inputDone <==> feeder.status == InputDone
      ensures outcome == Completed ==> outputDone
      ensures outcome == Stalled ==> ip == |inputPolls| || ei == |encoderPolls| || di == |decoderPolls|
      ensures outcome.Threw? ==> outcome.failure in {ReleasedExtractor, MuxerState}
    {
      outcome := Completed;
      while !outputDone
        invariant Feeding() && Agrees() && Settled() && FedGrants() && !tally.afterIdle
        invariant (inputDone <==> feeder.status == InputDone) && feeder.status != Failed
        decreases |encoderPolls| - ei
      {
        if !inputDone {
          var stop := FeedInput();
          if stop.Some? {
            return stop.value;
          }
        }
        var stop := DrainOutputs();
        if stop.Some? {
          return stop.value;
        }
      }
    }
  }

  /**
   * `merge()` of the GPU pipeline, until `outputDone` ends the outer loop.
   *
   * `inputPolls`, `encoderPolls` and `decoderPolls` are the codecs'
   * answers, consumed in order; `log` records every poll; `queued` is what
   * went to the decoder; `drawn` the presentation times set on the encoder
   * surface; `writes` the muxer's samples, `formats` the formats of the
   * tracks added to the muxer (`outputFormat` is the encoder's output
   * format) and `endSignals` how many signalEndOfInputStream calls.
   */
  method Merge(files: seq<MediaFile>, outputFormat: Track, inputPolls: seq<bool>,
               encoderPolls: seq<OutputPoll>, decoderPolls: seq<DecoderEvent>)
    returns (outcome: Outcome, log: seq<Poll>, queued: seq<Queued>, inputDone: bool,
             drawn: seq<int>, writes: seq<MuxWrite>, formats: seq<Track>, endSignals: nat)
    ensures Init(files, "video/").None? ==>
              outcome == Threw(InitFailure(files, "video/")) && log == [] && queued == [] && writes == []
    ensures Tallied(log).inputs <= inputPolls && Tallied(log).encoders <= encoderPolls
    ensures Tallied(log).decoders <= decoderPolls
    ensures Init(files, "video/").Some? ==> queued <= Run(Init(files, "video/").value).queued
    ensures inputDone ==>
              Init(files, "video/").Some?
              && Run(Init(files, "video/").value).status == InputDone
              && queued == Run(Init(files, "video/").value).queued
    ensures outcome == Threw(ReleasedExtractor) ==>
              Init(files, "video/").Some? && Run(Init(files, "video/").value).status == Failed
              && queued == Run(Init(files, "video/").value).queued
    ensures outcome == Stalled ==>
              |Tallied(log).inputs| == |inputPolls| || |Tallied(log).encoders| == |encoderPolls|
              || |Tallied(log).decoders| == |decoderPolls|
    ensures outcome == Threw(MuxerState) ==>
              writes == [] && |log| > 0 && IsDataOutput(log[|log| - 1])
              && forall k :: 0 <= k < |log| ==> !IsConfigOutput(log[k])
    ensures outcome != Threw(MuxerState) ==> writes == Tallied(log).writes
    ensures formats == (if Tallied(log).configSeen then [outputFormat] else [])
    ensures DecoderAfterEncoderIdle(log) && EncoderIdleThenDecoder(log)
    ensures Init(files, "video/").Some? ==>
              |queued| + (if outcome == Threw(ReleasedExtractor) then 1 else 0) == Grants(Tallied(log).inputs)
    ensures drawn == Tallied(log).drawn && endSignals == Tallied(log).endSignals
    ensures outcome == Completed ==> Tallied(log).outputDone
    ensures outcome.Threw? ==> outcome.failure in {NoSuchElement, MissingTrack, ReleasedExtractor, MuxerState}
  {
    log, queued, inputDone, drawn, writes, formats, endSignals := [], [], false, [], [], [], 0;
    if Init(files, "video/").None? {
      outcome := Threw(InitFailure(files, "video/"));
      return;
    }
    var m := new GlMerge(files, outputFormat, inputPolls, encoderPolls, decoderPolls);
    outcome := m.MergeLoop();
    QueuedPrefixOfRun(m.feeder.State());
    log, queued, inputDone, drawn := m.log, m.feeder.queued, m.inputDone, m.drawn;
    writes, formats, endSignals := m.mux.writes, m.mux.formats, m.endSignals;
    assert Tallied(log) == m.tally;
    assert inputPolls[..m.ip] <= inputPolls && encoderPolls[..m.ei] <= encoderPolls;
    assert decoderPolls[..m.di] <= decoderPolls;
    assert DecoderAfterEncoderIdle(log) by {
      OrderedIff(log);
    }
    assert EncoderIdleThenDecoder(log) by {
      IdleAnsweredIff(log);
    }
    assert !Tallied(log).configSeen ==> forall k :: 0 <= k < |log| ==> !IsConfigOutput(log[k]) by {
      ConfigSeenIff(log);
    }
  }

  /** Taking one more answer from an oracle. */
  lemma TakeOneMore<T>(s: seq<T>, i: nat)
    requires i < |s|
    ensures s[..i + 1] == s[..i] + [s[i]]
  {
  }

  /** The tally of a log with one more poll. */
  lemma TallyStep(log: seq<Poll>, p: Poll)
    ensures Tallied(log + [p]) == Record(Tallied(log), p)
  {
    assert (log + [p])[..|log|] == log;
  }

  /** A decoder poll changes only the decoder's part of the tally. */
  lemma RecordDecoder(t: Tally, d: DecoderEvent)
    ensures var p := DecoderPoll(d);
            Record(t, p) == t.(decoders := t.decoders + [d],
                               drawn := t.drawn + (if Drawable(p) then [d.info.ts * 1000] else []),
                               endSignals := t.endSignals + (if EndsInput(p) then 1 else 0),
                               ordered := t.ordered && t.afterIdle,
                               afterIdle := false)
  {
  }

  /** The flags of a tally after one more poll. */
  lemma RecordFlags(t: Tally, p: Poll)
    ensures Record(t, p).ordered == (t.ordered && (p.DecoderPoll? ==> t.afterIdle))
    ensures Record(t, p).afterIdle == (p == EncoderPoll(TryAgainLater))
    ensures Record(t, p).idleAnswered == (t.idleAnswered && (p.DecoderPoll? || !t.afterIdle))
    ensures Record(t, p).configSeen == (t.configSeen || IsConfigOutput(p))
  {
  }

  /**
   * The tally's order flag holds exactly when every decoder poll directly
   * follows an INFO_TRY_AGAIN_LATER encoder poll.
   */
  lemma {:induction false} OrderedIff(log: seq<Poll>)
    ensures Tallied(log).ordered <==> DecoderAfterEncoderIdle(log)
    ensures Tallied(log).afterIdle <==> |log| > 0 && log[|log| - 1] == EncoderPoll(TryAgainLater)
  {
    if log != [] {
      var n := |log| - 1;
      var front, p := log[..n], log[n];
      OrderedIff(front);
      assert log == front + [p];
      TallyStep(front, p);
      RecordFlags(Tallied(front), p);
      IdleBeforeDecoderSnoc(front, p);
    }
  }

  lemma IdleBeforeDecoderSnoc(front: seq<Poll>, p: Poll)
    ensures DecoderAfterEncoderIdle(front + [p]) <==>
              DecoderAfterEncoderIdle(front)
              && (p.DecoderPoll? ==> |front| > 0 && front[|front| - 1] == EncoderPoll(TryAgainLater))
  {
    var log := front + [p];
    assert forall k :: 0 <= k < |front| ==> log[k] == front[k];
    if DecoderAfterEncoderIdle(log) {
      forall k | 0 <= k < |front| && front[k].DecoderPoll?
        ensures 0 < k && front[k - 1] == EncoderPoll(TryAgainLater)
      {
        assert log[k] == front[k];
      }
      if p.DecoderPoll? {
        assert log[|front|] == p;
      }
    }
  }

  /**
   * The tally's `idleAnswered` flag holds exactly when every
   * INFO_TRY_AGAIN_LATER encoder poll that is not the latest poll is
   * directly followed by a decoder poll.
   */
  lemma {:induction false} IdleAnsweredIff(log: seq<Poll>)
    ensures Tallied(log).idleAnswered <==> EncoderIdleThenDecoder(log)
  {
    if log != [] {
      var n := |log| - 1;
      var front, p := log[..n], log[n];
      IdleAnsweredIff(front);
      OrderedIff(front);
      assert log == front + [p];
      TallyStep(front, p);
      RecordFlags(Tallied(front), p);
      IdleThenDecoderSnoc(front, p);
    }
  }

  lemma IdleThenDecoderSnoc(front: seq<Poll>, p: Poll)
    ensures EncoderIdleThenDecoder(front + [p]) <==>
              EncoderIdleThenDecoder(front)
              && (|front| > 0 && front[|front| - 1] == EncoderPoll(TryAgainLater) ==> p.DecoderPoll?)
  {
    var log := front + [p];
    assert forall k :: 0 <= k < |front| ==> log[k] == front[k];
    if EncoderIdleThenDecoder(log) {
      forall k | 0 <= k < |front| - 1 && front[k] == EncoderPoll(TryAgainLater)
        ensures front[k + 1].DecoderPoll?
      {
        assert log[k] == front[k] && log[k + 1] == front[k + 1];
      }
      if |front| > 0 {
        assert log[|front| - 1] == front[|front| - 1] && log[|front|] == p;
      }
    }
  }

  /** A codec-config output has been seen iff one larger than a byte is in the log. */
  lemma {:induction false} ConfigSeenIff(log: seq<Poll>)
    ensures Tallied(log).configSeen <==> exists k :: 0 <= k < |log| && IsConfigOutput(log[k])
  {
    if log != [] {
      var front, p := log[..|log| - 1], log[|log| - 1];
      ConfigSeenIff(front);
      assert log == front + [p];
      TallyStep(front, p);
      RecordFlags(Tallied(front), p);
      ConfigInSnoc(front, p);
    }
  }

  lemma ConfigInSnoc(front: seq<Poll>, p: Poll)
    ensures (exists k :: 0 <= k < |front + [p]| && IsConfigOutput((front + [p])[k]))
            <==> (exists k :: 0 <= k < |front| && IsConfigOutput(front[k])) || IsConfigOutput(p)
  {
    var log := front + [p];
    if exists k :: 0 <= k < |front| && IsConfigOutput(front[k]) {
      var k :| 0 <= k < |front| && IsConfigOutput(front[k]);
      assert log[k] == front[k];
    }
    if exists k :: 0 <= k < |log| && IsConfigOutput(log[k]) {
      var k :| 0 <= k < |log| && IsConfigOutput(log[k]);
      if k < |front| {
        assert front[k] == log[k];
      }
    }
    if IsConfigOutput(p) {
      assert log[|front|] == p;
    }
  }

  /**
   * Reference definitions, read front to back: the writes the data outputs
   * of a log call for, the times of its drawable frames, and how many of
   * its frames end the input.
   */
  function DataWrites(log: seq<Poll>): seq<MuxWrite>
  {
    if log == [] then []
    else (if IsDataOutput(log[0]) then [MuxWrite(0, log[0].enc.info.size, log[0].enc.info.ts, log[0].enc.info.flags)] else [])
         + DataWrites(log[1..])
  }

  function DrawTimes(log: seq<Poll>): seq<int>
  {
    if log == [] then []
    else (if Drawable(log[0]) then [log[0].dec.info.ts * 1000] else []) + DrawTimes(log[1..])
  }

  function EndFrames(log: seq<Poll>): nat
  {
    if log == [] then 0
    else (if EndsInput(log[0]) then 1 else 0) + EndFrames(log[1..])
  }

  /** The reference definitions extended by one poll at the end. */
  lemma ReferenceSnoc(log: seq<Poll>, p: Poll)
    ensures DataWrites(log + [p]) == DataWrites(log) + DataWrites([p])
    ensures DrawTimes(log + [p]) == DrawTimes(log) + DrawTimes([p])
    ensures EndFrames(log + [p]) == EndFrames(log) + EndFrames([p])
  {
    DataWritesSnoc(log, p);
    DrawTimesSnoc(log, p);
    EndFramesSnoc(log, p);
  }

  lemma {:induction false} DataWritesSnoc(log: seq<Poll>, p: Poll)
    ensures DataWrites(log + [p]) == DataWrites(log) + DataWrites([p])
  {
    if log != [] {
      assert (log + [p])[1..] == log[1..] + [p];
      DataWritesSnoc(log[1..], p);
    }
  }

  lemma {:induction false} DrawTimesSnoc(log: seq<Poll>, p: Poll)
    ensures DrawTimes(log + [p]) == DrawTimes(log) + DrawTimes([p])
  {
    if log != [] {
      assert (log + [p])[1..] == log[1..] + [p];
      DrawTimesSnoc(log[1..], p);
    }
  }

  lemma {:induction false} EndFramesSnoc(log: seq<Poll>, p: Poll)
    ensures EndFrames(log + [p]) == EndFrames(log) + EndFrames([p])
  {
    if log != [] {
      assert (log + [p])[1..] == log[1..] + [p];
      EndFramesSnoc(log[1..], p);
    }
  }

  /**
   * The muxer receives exactly the data outputs, in order: one write per
   * encoder output larger than one byte that is not codec-config data, to
   * track 0 (the one added), with that output's size, time and flags.
   */
  lemma {:induction false} WritesAreData(log: seq<Poll>)
    ensures Tallied(log).writes == DataWrites(log)
    ensures |Tallied(log).writes| <= |Tallied(log).encoders|
    ensures forall j :: 0 <= j < |Tallied(log).writes| ==>
              Tallied(log).writes[j].track == 0 && Tallied(log).writes[j].size > 1
              && !HasFlag(Tallied(log).writes[j].flags, BUFFER_FLAG_CODEC_CONFIG)
  {
    if log != [] {
      var front, p := log[..|log| - 1], log[|log| - 1];
      WritesAreData(front);
      assert log == front + [p];
      ReferenceSnoc(front, p);
      assert Tallied(log).writes == Tallied(front).writes
               + (if IsDataOutput(p) then [MuxWrite(0, p.enc.info.size, p.enc.info.ts, p.enc.info.flags)] else []);
      assert |Tallied(log).encoders| == |Tallied(front).encoders| + (if p.EncoderPoll? then 1 else 0);
    }
  }

  /** `log[k]` is a non-empty decoder frame whose image arrived, and `t` its time in ns. */
  predicate DrawnFrom(log: seq<Poll>, k: int, t: int)
  {
    0 <= k < |log| && Drawable(log[k]) && t == log[k].dec.info.ts * 1000
  }

  /** `t` is the time in ns of some frame of `log` that qualifies for drawing. */
  ghost predicate FrameTime(log: seq<Poll>, t: int)
  {
    exists k :: DrawnFrom(log, k, t)
  }

  /**
   * Exactly the non-empty decoder frames whose image arrived are drawn, in
   * order, each stamped with its time in ns.
   */
  lemma {:induction false} DrawnFrames(log: seq<Poll>)
    ensures Tallied(log).drawn == DrawTimes(log)
    ensures |Tallied(log).drawn| <= |Tallied(log).decoders|
    ensures forall j :: 0 <= j < |Tallied(log).drawn| ==> FrameTime(log, Tallied(log).drawn[j])
  {
    if log != [] {
      var front := log[..|log| - 1];
      var p := log[|log| - 1];
      DrawnFrames(front);
      assert log == front + [p];
      ReferenceSnoc(front, p);
      var tf := Tallied(front);
      var t := Tallied(log);
      assert t.drawn == tf.drawn + (if Drawable(p) then [p.dec.info.ts * 1000] else []);
      assert |t.decoders| == |tf.decoders| + (if p.DecoderPoll? then 1 else 0);
      forall j | 0 <= j < |Tallied(log).drawn|
        ensures FrameTime(log, Tallied(log).drawn[j])
      {
        if j < |tf.drawn| {
          assert t.drawn[j] == tf.drawn[j];
          assert FrameTime(front, tf.drawn[j]);
          var k :| DrawnFrom(front, k, tf.drawn[j]);
          assert log[k] == front[k];
          assert DrawnFrom(log, k, t.drawn[j]);
          assert FrameTime(log, t.drawn[j]);
        } else {
          assert DrawnFrom(log, |log| - 1, t.drawn[j]);
          assert FrameTime(log, t.drawn[j]);
        }
      }
    } else {
      assert Tallied(log).drawn == [];
    }
  }

  /** An encoder poll that returned a buffer. */
  predicate IsEncoderOutput(p: Poll)
  {
    p.EncoderPoll? && p.enc.Output?
  }

  /** `log[k]` is an encoder output with the end-of-stream flag and the latest encoder output. */
  predicate LatestOutputEndsStream(log: seq<Poll>, k: int)
  {
    && 0 <= k < |log| && IsEncoderOutput(log[k])
    && HasFlag(log[k].enc.info.flags, BUFFER_FLAG_END_OF_STREAM)
    && forall j :: k < j < |log| ==> !IsEncoderOutput(log[j])
  }

  /**
   * `outputDone` is the end-of-stream flag of the latest encoder output:
   * it holds iff some encoder output carries the flag and no encoder
   * output comes after it.
   */
  lemma {:induction false} OutputDoneIsLatest(log: seq<Poll>)
    ensures Tallied(log).outputDone <==> exists k :: LatestOutputEndsStream(log, k)
  {
    if log != [] {
      var n := |log| - 1;
      var front := log[..n];
      OutputDoneIsLatest(front);
      if IsEncoderOutput(log[n]) {
        if HasFlag(log[n].enc.info.flags, BUFFER_FLAG_END_OF_STREAM) {
          assert LatestOutputEndsStream(log, n);
        } else {
          forall k | 0 <= k <= n
            ensures !LatestOutputEndsStream(log, k)
          {
            // log[n] is a later encoder output, or log[k] itself without the flag
          }
        }
      } else {
        forall k | 0 <= k < n
          ensures LatestOutputEndsStream(log, k) <==> LatestOutputEndsStream(front, k)
        {
          assert forall j :: k < j < n ==> front[j] == log[j];
        }
        assert !LatestOutputEndsStream(log, n);
      }
    }
  }

  /** A log has no frame that ends the input iff none of its polls is one. */
  lemma {:induction false} EndFramesZero(log: seq<Poll>)
    ensures EndFrames(log) == 0 <==> forall k :: 0 <= k < |log| ==> !EndsInput(log[k])
  {
    if log != [] {
      EndFramesZero(log[1..]);
      assert forall k :: 1 <= k < |log| ==> log[k] == log[1..][k - 1];
    }
  }

  /** Each decoder end-of-stream frame signals end of input once; nothing else does. */
  lemma {:induction false} EndSignalsCount(log: seq<Poll>)
    ensures Tallied(log).endSignals == EndFrames(log)
    ensures Tallied(log).endSignals <= |Tallied(log).decoders|
    ensures Tallied(log).endSignals == 0 <==> forall k :: 0 <= k < |log| ==> !EndsInput(log[k])
  {
    if log != [] {
      var front, p := log[..|log| - 1], log[|log| - 1];
      EndSignalsCount(front);
      assert log == front + [p];
      ReferenceSnoc(front, p);
      assert Tallied(log).endSignals == Tallied(front).endSignals + (if EndsInput(p) then 1 else 0);
      assert |Tallied(log).decoders| == |Tallied(front).decoders| + (if p.DecoderPoll? then 1 else 0);
    }
    EndFramesZero(log);
  }
}
