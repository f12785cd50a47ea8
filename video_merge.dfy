/**
 * VideoDataMerge: the decoder renders straight into the encoder's input
 * surface. The muxer track is added up front from the first file's format;
 * the main loop feeds the decoder and releases every decoder output with
 * render = true. The concurrent drain thread is not part of this model.
 */
module VideoPassthrough {
  import opened Media
  import opened Continuity
  import opened FeedLoop

  /**
   * The codec's answers in one loop iteration: whether dequeueInputBuffer
   * granted a buffer, and what dequeueOutputBuffer returned.
   */
  datatype Round = Round(inputGranted: bool, output: OutputPoll)

  /** How many of these rounds had an input buffer granted. */
  function Granted(rounds: seq<Round>): nat
  {
    if rounds == [] then 0
    else Granted(rounds[..|rounds| - 1]) + (if rounds[|rounds| - 1].inputGranted then 1 else 0)
  }

  /** The decoder outputs released (with render = true) over these rounds, in order. */
  function Rendered(rounds: seq<Round>): seq<BufferInfo>
  {
    if rounds == [] then []
    else
      var last := rounds[|rounds| - 1];
      Rendered(rounds[..|rounds| - 1]) + (if last.output.Output? then [last.output.info] else [])
  }

  /**
   * `merge()` up to the point where the decoder is stopped.
   *
   * `queued` is what went to the decoder, `rendered` the decoder outputs
   * released to the surface, `trackFormats` the muxer's addTrack calls, and
   * `eolDecode` the flag the drain thread watches. `polled` rounds had their
   * output dequeued. Each granted input buffer runs one feed step, so the
   * decoder receives the run's buffers one per granted round; the round
   * whose step ends feeding ends the loop before its output poll, and
   * Stalled means the answers ran out while the run was still going.
   */
  method Merge(files: seq<MediaFile>, rounds: seq<Round>)
    returns (outcome: Outcome, queued: seq<Queued>, rendered: seq<BufferInfo>,
             trackFormats: seq<Track>, eolDecode: bool, polled: nat)
    ensures Init(files, "video/").None? ==>
              outcome == Threw(InitFailure(files, "video/")) && queued == [] && trackFormats == []
    ensures Init(files, "video/").Some? ==>
              trackFormats == [Init(files, "video/").value.format]
              && queued <= Run(Init(files, "video/").value).queued
    ensures outcome == Completed ==>
              Init(files, "video/").Some?
              && Run(Init(files, "video/").value).status == InputDone
              && queued == Run(Init(files, "video/").value).queued
    ensures outcome == Threw(ReleasedExtractor) ==>
              Init(files, "video/").Some? && Run(Init(files, "video/").value).status == Failed
    ensures outcome.Threw? ==> outcome.failure in {NoSuchElement, MissingTrack, ReleasedExtractor}
    ensures polled <= |rounds| && rendered == Rendered(rounds[..polled])
    ensures eolDecode <==> outcome == Completed
    ensures Init(files, "video/").Some? ==>
              |queued| == Granted(rounds[..polled]) + (if outcome == Completed then 1 else 0)
    ensures outcome == Threw(ReleasedExtractor) ==> queued == Run(Init(files, "video/").value).queued
    ensures outcome == Stalled ==>
              polled == |rounds|
              && (Init(files, "video/").Some? ==>
                    queued != Run(Init(files, "video/").value).queued || Run(Init(files, "video/").value).status == Failed)
    ensures outcome == Completed || outcome == Threw(ReleasedExtractor) ==>
              polled < |rounds| && rounds[polled].inputGranted
  {
    queued, rendered, trackFormats, eolDecode, polled := [], [], [], false, 0;
    var init := Init(files, "video/");
    if init.None? {
      outcome := Threw(InitFailure(files, "video/"));
      return;
    }
    var feeder := new Feeder(files, "video/");
    // the muxer track comes from the first file's extractor format, before start()
    trackFormats := [feeder.format];
    outcome, rendered, polled := FeedRounds(feeder, rounds, feeder.State());
    queued := feeder.queued;
    eolDecode := outcome == Completed;
  }

  /**
   * The loop of `merge()` for a feeder that starts in state `start`: in
   * each round, one feed step if an input buffer was granted, then the
   * output poll.
   */
  method FeedRounds(feeder: Feeder, rounds: seq<Round>, ghost start: FeedState)
    returns (outcome: Outcome, rendered: seq<BufferInfo>, polled: nat)
    requires feeder.Valid() && feeder.status == Feeding && feeder.State() == start
    modifies feeder
    ensures polled <= |rounds| && rendered == Rendered(rounds[..polled])
    ensures feeder.queued <= Run(start).queued
    ensures |feeder.queued| == |start.queued| + Granted(rounds[..polled]) + (if outcome == Completed then 1 else 0)
    ensures outcome == Completed || outcome == Threw(ReleasedExtractor) ==>
              feeder.queued == Run(start).queued && polled < |rounds| && rounds[polled].inputGranted
    ensures outcome == Completed ==> Run(start).status == InputDone
    ensures outcome == Threw(ReleasedExtractor) ==> Run(start).status == Failed
    ensures outcome == Completed || outcome == Stalled || outcome == Threw(ReleasedExtractor)
    ensures outcome == Stalled ==>
              polled == |rounds| && (feeder.queued != Run(start).queued || Run(start).status == Failed)
  {
    rendered, polled := [], 0;
    var i := 0;
    while i < |rounds|
      invariant 0 <= i <= |rounds| && polled == i
      invariant feeder.Valid() && feeder.status == Feeding
      invariant Run(feeder.State()) == Run(start)
      invariant |feeder.queued| == |start.queued| + Granted(rounds[..i])
      invariant rendered == Rendered(rounds[..i])
      decreases |rounds| - i
    {
      var round := rounds[i];
      assert rounds[..i + 1][..i] == rounds[..i];
      if round.inputGranted {
        feeder.OnInputBufferWithin(start);
        if feeder.status == Failed {
          return Threw(ReleasedExtractor), rendered, polled;
        }
        if feeder.status == InputDone {
          return Completed, rendered, polled;
        }
      }
      if round.output.Output? {
        rendered := rendered + [round.output.info];
      }
      i := i + 1;
      polled := i;
    }
    QueuedPrefixOfRun(feeder.State());
    RunGoesOn(feeder.State());
    outcome := Stalled;
  }
}
