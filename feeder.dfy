/**
 * The feed loop as the pipelines run it: the list iterator, the current
 * extractor and format (fields of the pipeline objects) and the two offset
 * variables, updated in place one granted input buffer at a time.
 */
module FeedLoop {
  import opened Media
  import opened TrackSelector
  import opened Continuity

  class Feeder {
    const files: seq<MediaFile>
    const prefix: string
    var next: nat              // the iterator's position
    var demux: Demuxer         // currentMediaExtractor
    var format: Track          // currentMediaFormat
    var total: int             // totalPresentationTime
    var prev: int              // prevPresentationTime
    var status: Status
    var queued: seq<Queued>    // what has been queued to the decoder

    /** The abstract state of this feeder. */
    function State(): FeedState
      reads this
    {
      FeedState(files, prefix, next, demux, format, total, prev, status, queued)
    }

    ghost predicate Valid()
      reads this
    {
      Continuity.Valid(State())
    }

    /**
     * The set-up before the loop: `videoListIterator.next()` and
     * `extractVideoFile` on the first file, both offsets at 0. The caller
     * has checked what Init needs (a non-empty list whose first file has a
     * matching track); otherwise the source throws before getting here.
     */
    constructor (files: seq<MediaFile>, prefix: string)
      requires Init(files, prefix).Some?
      ensures Valid() && State() == Init(files, prefix).value
    {
      var sel := SelectTrack(files[0], prefix).value;
      this.files := files;
      this.prefix := prefix;
      next := 1;
      demux := sel.demux;
      format := sel.format;
      total := 0;
      prev := 0;
      status := Feeding;
      queued := [];
    }

    /**
     * `extractVideoFile(path)`: select the matching track of `file`, or
     * return early, leaving the current extractor and format as they are.
     */
    method ExtractFile(file: MediaFile)
      modifies this
      ensures SelectTrack(file, prefix).Some? ==>
                demux == SelectTrack(file, prefix).value.demux && format == SelectTrack(file, prefix).value.format
      ensures SelectTrack(file, prefix).None? ==> demux == old(demux) && format == old(format)
      ensures next == old(next) && total == old(total) && prev == old(prev)
      ensures status == old(status) && queued == old(queued)
    {
      var sel := SelectTrack(file, prefix);
      if sel.None? {
        return;
      }
      demux := sel.value.demux;
      format := sel.value.format;
    }

    /** One loop iteration in which the decoder handed out an input buffer. */
    method OnInputBuffer()
      requires Valid() && status == Feeding
      modifies this
      ensures Valid() && State() == FeedStep(old(State()))
    {
      if demux.released {
        // readSampleData on a released extractor throws
        status := Failed;
        return;
      }
      var size := demux.ReadSampleData();
      if size > 0 {
        queued := queued + [Queued(size, demux.SampleTime() + total, 0)];
        demux := demux.Advance();
        if demux.SampleTime() != NO_SAMPLE_TIME {
          prev := demux.SampleTime();
        }
      } else {
        total := total + prev;
        if next < |files| {
          var file := files[next];
          next := next + 1;
          queued := queued + [EMPTY_BUFFER];
          demux := demux.(released := true);
          ExtractFile(file);
        } else {
          queued := queued + [EOS_BUFFER];
          demux := demux.(released := true);
          status := InputDone;
        }
      }
    }

    /**
     * OnInputBuffer on a feeder that is part of the run from `start`: the
     * run from the new state is the same run.
     */
    method OnInputBufferWithin(ghost start: FeedState)
      requires Valid() && status == Feeding && Continuity.Valid(start) && Run(State()) == Run(start)
      modifies this
      ensures Valid() && State() == FeedStep(old(State())) && Run(State()) == Run(start)
      ensures status != Feeding ==> status == Run(start).status && queued == Run(start).queued
      ensures status == Failed ==> queued == old(queued)
      ensures status != Failed ==> |queued| == |old(queued)| + 1
    {
      RunAfterStep(State());
      OnInputBuffer();
    }
  }
}
