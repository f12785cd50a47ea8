/**
 * The multi-file feed loop that all three pipelines share, as a state
 * machine: which file the iterator is at, the current extractor and format,
 * `totalPresentationTime` (the offset added to every raw timestamp),
 * `prevPresentationTime` (the last raw timestamp seen after an advance), and
 * the log of buffers queued to the decoder.
 *
 * FeedStep is one iteration in which the decoder granted an input buffer;
 * iterations in which it did not change nothing here.
 */
module Continuity {
  import opened Media
  import opened TrackSelector

  datatype Status = Feeding | InputDone | Failed

  datatype FeedState = FeedState(
    files: seq<MediaFile>,   // the ordered input list
    prefix: string,          // "audio/" or "video/"
    next: nat,               // position of the list iterator
    demux: Demuxer,          // currentMediaExtractor
    format: Track,           // currentMediaFormat
    total: int,              // totalPresentationTime
    prev: int,               // prevPresentationTime
    status: Status,
    queued: seq<Queued>)     // queueInputBuffer calls on the decoder, in order

  /** What every reachable state satisfies. */
  predicate Valid(s: FeedState)
  {
    && 1 <= s.next <= |s.files|
    && s.demux.cursor <= |s.demux.samples|
    && s.prev != NO_SAMPLE_TIME
  }

  /**
   * The set-up before the loop: take the first file from the iterator
   * (`next()` throws on an empty list) and select its track (the later `!!`
   * on `currentMediaFormat` throws when there is none); both offsets start at 0.
   */
  function Init(files: seq<MediaFile>, prefix: string): (r: Option<FeedState>)
    ensures r.None? <==> |files| == 0 || SelectTrack(files[0], prefix).None?
    ensures r.Some? ==> (Valid(r.value) && r.value.status == Feeding && r.value.queued == []
                         && r.value.total == 0 && r.value.prev == 0 && r.value.next == 1)
  {
    if |files| == 0 then None
    else match SelectTrack(files[0], prefix)
      case None => None
      case Some(sel) => Some(FeedState(files, prefix, 1, sel.demux, sel.format, 0, 0, Feeding, []))
  }

  /** Why Init failed, when it did. */
  function InitFailure(files: seq<MediaFile>, prefix: string): (e: Failure)
    requires Init(files, prefix).None?
    ensures e == NoSuchElement <==> |files| == 0
    ensures e == MissingTrack <==> |files| > 0 && ExtractMedia(files[0], prefix).None?
  {
    if |files| == 0 then NoSuchElement else MissingTrack
  }

  /**
   * One iteration with an input buffer. A sample of positive size is queued
   * at raw time + offset and the extractor advanced; `prev` then takes the
   * new sample time unless it is the -1 sentinel. Otherwise the offset grows
   * by `prev`, and either an empty buffer is queued and the next file's
   * track selected, or the end-of-stream buffer is queued and input is done.
   * When the next file has no matching track, the released extractor stays
   * current; reading from a released extractor throws, which is Failed.
   */
  function FeedStep(s: FeedState): (r: FeedState)
    requires Valid(s) && s.status == Feeding
    ensures Valid(r)
    ensures r.files == s.files && r.prefix == s.prefix
    ensures s.demux.released ==> r == s.(status := Failed)
    ensures !s.demux.released ==> |r.queued| == |s.queued| + 1 && r.queued[..|s.queued|] == s.queued
    ensures r.next == s.next || r.next == s.next + 1
  {
    if s.demux.released then s.(status := Failed)
    else
      var size := s.demux.ReadSampleData();
      if size > 0 then
        var q := Queued(size, s.demux.SampleTime() + s.total, 0);
        var d := s.demux.Advance();
        var t := d.SampleTime();
        s.(demux := d, prev := if t != NO_SAMPLE_TIME then t else s.prev, queued := s.queued + [q])
      else
        var total := s.total + s.prev;
        var old_ := s.demux.(released := true);
        if s.next < |s.files| then
          match SelectTrack(s.files[s.next], s.prefix)
          case None =>
            s.(next := s.next + 1, total := total, demux := old_, queued := s.queued + [EMPTY_BUFFER])
          case Some(sel) =>
            s.(next := s.next + 1, total := total, demux := sel.demux, format := sel.format,
               queued := s.queued + [EMPTY_BUFFER])
        else
          s.(total := total, demux := old_, status := InputDone, queued := s.queued + [EOS_BUFFER])
  }

  /** Files still to be taken from the iterator, then samples left in the current one. */
  function Progress(s: FeedState): (nat, nat)
    requires Valid(s)
  {
    (|s.files| - s.next, |s.demux.samples| - s.demux.cursor)
  }

  /** Feed until input is done or the loop failed. */
  function Run(s: FeedState): (r: FeedState)
    requires Valid(s)
    ensures Valid(r) && r.status != Feeding
    decreases |s.files| - s.next, |s.demux.samples| - s.demux.cursor, s.status == Feeding
  {
    if s.status != Feeding then s
    else
      var s' := FeedStep(s);
      if s'.status != Feeding then s' else Run(s')
  }

  // ---------------------------------------------------------------------
  // The step, one branch at a time
  // ---------------------------------------------------------------------

  /** A non-empty sample is queued with flags 0 at raw time plus offset; the offset does not move. */
  lemma QueuedAtOffset(s: FeedState)
    requires Valid(s) && s.status == Feeding && !s.demux.released
    requires s.demux.ReadSampleData() > 0
    ensures FeedStep(s).queued == s.queued + [Queued(s.demux.samples[s.demux.cursor].size,
                                                     s.demux.samples[s.demux.cursor].rawTs + s.total, 0)]
    ensures FeedStep(s).total == s.total && FeedStep(s).status == Feeding
  {
  }

  /**
   * `prev` after queuing a sample: the following sample's raw time when
   * there is one (and it is not -1), otherwise unchanged.
   */
  lemma PrevRecordsFollowingSample(s: FeedState)
    requires Valid(s) && s.status == Feeding && !s.demux.released
    requires s.demux.ReadSampleData() > 0
    ensures var c := s.demux.cursor;
            FeedStep(s).prev ==
              if c + 1 < |s.demux.samples| && s.demux.samples[c + 1].rawTs != NO_SAMPLE_TIME
              then s.demux.samples[c + 1].rawTs else s.prev
  {
  }

  /**
   * An exhausted read adds `prev` to the offset exactly once, whether or
   * not a file follows; then it queues one empty buffer and moves to the
   * next file, or queues end of stream and stops feeding.
   */
  lemma BoundaryStep(s: FeedState)
    requires Valid(s) && s.status == Feeding && !s.demux.released
    requires s.demux.ReadSampleData() <= 0
    ensures FeedStep(s).total == s.total + s.prev && FeedStep(s).prev == s.prev
    ensures s.next < |s.files| ==>
              FeedStep(s).queued == s.queued + [EMPTY_BUFFER] && FeedStep(s).next == s.next + 1
              && FeedStep(s).status == Feeding
    ensures s.next == |s.files| ==>
              FeedStep(s).queued == s.queued + [EOS_BUFFER] && FeedStep(s).status == InputDone
  {
  }

  /**
   * A next file without a matching track leaves the old, released
   * extractor in place (extractVideoFile returns early), so the next
   * granted input buffer fails.
   */
  lemma MissingTrackKeepsOldExtractor(s: FeedState)
    requires Valid(s) && s.status == Feeding && !s.demux.released
    requires s.demux.ReadSampleData() <= 0 && s.next < |s.files|
    requires SelectTrack(s.files[s.next], s.prefix).None?
    ensures FeedStep(s).demux == s.demux.(released := true) && FeedStep(s).format == s.format
    ensures FeedStep(FeedStep(s)).status == Failed
  {
  }

  // ---------------------------------------------------------------------
  // Whole runs against a reference trace
  // ---------------------------------------------------------------------

  /** Every sample non-empty and with a non-negative raw time. */
  predicate Readable(samples: seq<Sample>)
  {
    forall i :: 0 <= i < |samples| ==> samples[i].size > 0 && samples[i].rawTs >= 0
  }

  /** Every file has a matching track, and its samples are Readable. */
  predicate WellFormed(files: seq<MediaFile>, prefix: string)
  {
    forall i :: 0 <= i < |files| ==>
      SelectTrack(files[i], prefix).Some? && Readable(SelectTrack(files[i], prefix).value.format.samples)
  }

  /** The samples the pipeline reads from each file, in list order. */
  function SelectedSamples(files: seq<MediaFile>, prefix: string): (t: seq<seq<Sample>>)
    requires WellFormed(files, prefix)
    ensures |t| == |files|
    ensures forall i :: 0 <= i < |files| ==> t[i] == SelectTrack(files[i], prefix).value.format.samples
  {
    seq(|files|, i requires 0 <= i < |files| => SelectTrack(files[i], prefix).value.format.samples)
  }

  /** The decoder buffers for `samples[from..]`, shifted by `offset`. */
  function FileTrace(samples: seq<Sample>, from: nat, offset: int): (q: seq<Queued>)
    requires from <= |samples|
    ensures |q| == |samples| - from
    ensures forall i :: 0 <= i < |q| ==>
              q[i] == Queued(samples[from + i].size, samples[from + i].rawTs + offset, 0)
    decreases |samples| - from
  {
    if from == |samples| then []
    else [Queued(samples[from].size, samples[from].rawTs + offset, 0)] + FileTrace(samples, from + 1, offset)
  }

  /**
   * `prevPresentationTime` once a file is read through: its last raw time
   * if it has at least two samples, otherwise the value carried in.
   */
  function LastRecorded(samples: seq<Sample>, carried: int): int
  {
    if |samples| >= 2 then samples[|samples| - 1].rawTs else carried
  }

  /**
   * The reference trace from file `k` on, entered with offset `total` and
   * carried `prev`: the file's samples shifted by `total`, then end of
   * stream after the last file, or an empty buffer and the rest with the
   * offset grown by LastRecorded.
   */
  function Expected(t: seq<seq<Sample>>, k: nat, total: int, prev: int): seq<Queued>
    requires k < |t|
    decreases |t| - k
  {
    var last := LastRecorded(t[k], prev);
    FileTrace(t[k], 0, total) +
      (if k + 1 == |t| then [EOS_BUFFER] else [EMPTY_BUFFER] + Expected(t, k + 1, total + last, last))
  }

  /** The state once the rest of the current file is read: cursor at the end, `prev` and the log as read leaves them. */
  function ReadThrough(s: FeedState): FeedState
    requires s.demux.cursor <= |s.demux.samples|
  {
    var n, c := |s.demux.samples|, s.demux.cursor;
    s.(demux := s.demux.(cursor := n),
       prev := if n - c >= 2 then s.demux.samples[n - 1].rawTs else s.prev,
       queued := s.queued + FileTrace(s.demux.samples, c, s.total))
  }

  /** One read of a Readable file: queue the sample and record the next one's time. */
  lemma SampleStep(s: FeedState)
    requires Valid(s) && s.status == Feeding && !s.demux.released
    requires Readable(s.demux.samples) && s.demux.cursor < |s.demux.samples|
    ensures FeedStep(s).status == Feeding
    ensures ReadThrough(FeedStep(s)) == ReadThrough(s)
  {
    var n, c, samples := |s.demux.samples|, s.demux.cursor, s.demux.samples;
    var q := Queued(samples[c].size, samples[c].rawTs + s.total, 0);
    var p' := if c + 1 < n then samples[c + 1].rawTs else s.prev;
    var s' := s.(demux := s.demux.(cursor := c + 1), prev := p', queued := s.queued + [q]);
    assert FeedStep(s) == s';
    assert FileTrace(samples, c, s.total) == [q] + FileTrace(samples, c + 1, s.total);
    ConcatAssoc3(s.queued, [q], FileTrace(samples, c + 1, s.total));
  }

  /** Reading the rest of a Readable file queues FileTrace and leaves `prev` as LastRecorded says. */
  lemma {:induction false} ReadRestOfFile(s: FeedState)
    requires Valid(s) && s.status == Feeding && !s.demux.released
    requires Readable(s.demux.samples)
    ensures Valid(ReadThrough(s)) && Run(s) == Run(ReadThrough(s))
    decreases |s.demux.samples| - s.demux.cursor
  {
    if s.demux.cursor < |s.demux.samples| {
      SampleStep(s);
      RunAfterStep(s);
      ReadRestOfFile(FeedStep(s));
    } else {
      assert s == ReadThrough(s) by {
        assert s.demux == s.demux.(cursor := |s.demux.samples|);
        assert s.queued + [] == s.queued;
      }
    }
  }

  lemma ConcatAssoc3<T>(a: seq<T>, b: seq<T>, c: seq<T>)
    ensures (a + b) + c == a + (b + c)
  {
  }

  /** The boundary step into file `k + 1` of well-formed files opens its selected samples. */
  lemma EnterNextFile(e: FeedState, t: seq<seq<Sample>>, k: nat)
    requires Valid(e) && e.status == Feeding && !e.demux.released && e.demux.cursor == |e.demux.samples|
    requires WellFormed(e.files, e.prefix) && t == SelectedSamples(e.files, e.prefix)
    requires k + 1 == e.next < |t|
    ensures FeedStep(e) == e.(next := k + 2, total := e.total + e.prev, demux := Open(t[k + 1]),
                              format := SelectTrack(e.files[k + 1], e.prefix).value.format,
                              queued := e.queued + [EMPTY_BUFFER])
  {
    assert SelectTrack(e.files[k + 1], e.prefix).Some?;
  }

  /** From the start of file `k` (the iterator already past it), the run queues Expected. */
  lemma {:induction false} RunMatchesExpected(s: FeedState, t: seq<seq<Sample>>, k: nat)
    requires Valid(s) && s.status == Feeding
    requires WellFormed(s.files, s.prefix) && t == SelectedSamples(s.files, s.prefix)
    requires k + 1 == s.next && s.demux == Open(t[k])
    ensures Run(s).queued == s.queued + Expected(t, k, s.total, s.prev)
    ensures Run(s).status == InputDone
    decreases |t| - k, 1
  {
    var last := LastRecorded(t[k], s.prev);
    var trace := FileTrace(t[k], 0, s.total);
    assert Readable(t[k]);
    ReadRestOfFile(s);
    var e := ReadThrough(s);
    assert e.prev == last && e.queued == s.queued + trace;
    AfterFile(e, t, k, s.total + last);
    if k + 1 == |t| {
      assert Expected(t, k, s.total, s.prev) == trace + [EOS_BUFFER];
      ConcatAssoc3(s.queued, trace, [EOS_BUFFER]);
    } else {
      var rest := [EMPTY_BUFFER] + Expected(t, k + 1, s.total + last, last);
      assert Expected(t, k, s.total, s.prev) == trace + rest;
      ConcatAssoc3(s.queued, trace, rest);
    }
  }

  /** Once file `k` is read through, the boundary and everything after it. */
  lemma {:induction false} AfterFile(e: FeedState, t: seq<seq<Sample>>, k: nat, total': int)
    requires Valid(e) && e.status == Feeding && !e.demux.released && e.demux.cursor == |e.demux.samples|
    requires WellFormed(e.files, e.prefix) && t == SelectedSamples(e.files, e.prefix)
    requires k + 1 == e.next && total' == e.total + e.prev
    ensures Run(e).status == InputDone
    ensures k + 1 == |t| ==> Run(e).queued == e.queued + [EOS_BUFFER]
    ensures k + 1 < |t| ==> Run(e).queued == e.queued + ([EMPTY_BUFFER] + Expected(t, k + 1, total', e.prev))
    decreases |t| - k, 0
  {
    var e' := FeedStep(e);
    assert Run(e) == if e'.status != Feeding then e' else Run(e');
    if k + 1 == |t| {
      BoundaryStep(e);
      assert Run(e) == e';
    } else {
      EnterNextFile(e, t, k);
      assert e'.status == Feeding && e'.queued == e.queued + [EMPTY_BUFFER];
      assert e'.total == total' && e'.prev == e.prev && Run(e) == Run(e');
      RunMatchesExpected(e', t, k + 1);
      ConcatAssoc3(e.queued, [EMPTY_BUFFER], Expected(t, k + 1, total', e.prev));
      assert Run(e).queued == (e.queued + [EMPTY_BUFFER]) + Expected(t, k + 1, total', e.prev);
    }
  }

  /** The trace of a whole run over well-formed files. */
  function Trace(files: seq<MediaFile>, prefix: string): (q: seq<Queued>)
    requires |files| > 0 && WellFormed(files, prefix)
  {
    Expected(SelectedSamples(files, prefix), 0, 0, 0)
  }

  /**
   * Feeding well-formed files from the start queues exactly Trace and ends
   * with input done.
   */
  lemma RunQueuesTrace(files: seq<MediaFile>, prefix: string)
    requires |files| > 0 && WellFormed(files, prefix)
    ensures Init(files, prefix).Some?
    ensures Run(Init(files, prefix).value).queued == Trace(files, prefix)
    ensures Run(Init(files, prefix).value).status == InputDone
  {
    var s := Init(files, prefix).value;
    RunMatchesExpected(s, SelectedSamples(files, prefix), 0);
  }

  // ---------------------------------------------------------------------
  // Runs seen one step at a time
  // ---------------------------------------------------------------------

  /** A step that keeps feeding does not change where the run ends. */
  lemma RunAfterStep(s: FeedState)
    requires Valid(s) && s.status == Feeding
    ensures FeedStep(s).status == Feeding ==> Run(FeedStep(s)) == Run(s)
    ensures FeedStep(s).status != Feeding ==> Run(s) == FeedStep(s)
  {
  }

  /**
   * A loop that is still feeding has not reached the end of its run: the
   * run queues more than it has, or fails at its next read.
   */
  lemma RunGoesOn(s: FeedState)
    requires Valid(s) && s.status == Feeding
    ensures Run(s).status == Failed || |Run(s).queued| > |s.queued|
  {
    var s' := FeedStep(s);
    if s'.status == Feeding {
      QueuedPrefixOfRun(s');
    }
  }

  /** Whatever has been queued so far is a prefix of what the run queues. */
  lemma {:induction false} QueuedPrefixOfRun(s: FeedState)
    requires Valid(s)
    ensures s.queued <= Run(s).queued
    decreases |s.files| - s.next, |s.demux.samples| - s.demux.cursor, s.status == Feeding
  {
    if s.status == Feeding {
      var s' := FeedStep(s);
      if s'.status == Feeding {
        QueuedPrefixOfRun(s');
      }
      assert s.queued <= s'.queued by {
        if !s.demux.released { assert s'.queued[..|s.queued|] == s.queued; }
      }
    }
  }
}
