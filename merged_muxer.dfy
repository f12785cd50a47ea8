/**
 * MergedDataMuxer.mixed: the final remux. Every file's track 0 becomes one
 * muxer track, in list order; after start() the files are copied one after
 * the other, sample by sample and unchanged, each extractor is released
 * once its copy is done, and the muxer is stopped at the end.
 */
module Remuxer {
  import opened Media
  import opened Muxing

  /** What `mixed()` does to the muxer and the extractors, in order. */
  datatype Event =
    | Added(format: Track)    // mediaMuxer.addTrack
    | Started                 // mediaMuxer.start
    | Wrote(write: MuxWrite)  // mediaMuxer.writeSampleData
    | Released(file: nat)     // release() of the extractor of that file
    | Stopped                 // mediaMuxer.stop

  /** Every file has a track 0 (getTrackFormat(0) throws otherwise). */
  predicate HasTrackZero(files: seq<MediaFile>)
  {
    forall i :: 0 <= i < |files| ==> |files[i].tracks| > 0
  }

  /** A sample as writeSampleData receives it on `track`: size, sampleTime and sampleFlags. */
  function WriteOf(track: nat, s: Sample): MuxWrite
  {
    MuxWrite(track, s.size, s.rawTs, s.flags)
  }

  /** The addTrack calls for the first `n` files. */
  function Additions(files: seq<MediaFile>, n: nat): seq<Event>
    requires n <= |files| && HasTrackZero(files)
  {
    if n == 0 then [] else Additions(files, n - 1) + [Added(files[n - 1].tracks[0])]
  }

  /** The writes that copy `samples` to `track`. */
  function CopyOf(track: nat, samples: seq<Sample>): seq<Event>
  {
    if samples == [] then []
    else CopyOf(track, samples[..|samples| - 1]) + [Wrote(WriteOf(track, samples[|samples| - 1]))]
  }

  /** The copies of the first `n` files, each followed by the release of its extractor. */
  function Copies(files: seq<MediaFile>, n: nat): seq<Event>
    requires n <= |files| && HasTrackZero(files)
  {
    if n == 0 then []
    else Copies(files, n - 1) + CopyOf(n - 1, files[n - 1].tracks[0].samples) + [Released(n - 1)]
  }

  /** What `mixed()` does on a list whose files all have a track 0. */
  function Expected(files: seq<MediaFile>): seq<Event>
    requires HasTrackZero(files)
  {
    Additions(files, |files|) + [Started] + Copies(files, |files|) + [Stopped]
  }

  /** The samples written, in order. */
  function WritesIn(events: seq<Event>): seq<MuxWrite>
  {
    if events == [] then []
    else
      var e := events[|events| - 1];
      WritesIn(events[..|events| - 1]) + (if e.Wrote? then [e.write] else [])
  }

  /** The formats added, in order. */
  function FormatsIn(events: seq<Event>): seq<Track>
  {
    if events == [] then []
    else
      var e := events[|events| - 1];
      FormatsIn(events[..|events| - 1]) + (if e.Added? then [e.format] else [])
  }

  /** The writes to one track, in order. */
  function TrackWrites(writes: seq<MuxWrite>, track: int): seq<MuxWrite>
  {
    if writes == [] then []
    else
      var w := writes[|writes| - 1];
      TrackWrites(writes[..|writes| - 1], track) + (if w.track == track then [w] else [])
  }

  /** One pass of the copy loop on a sample that was read: write it with its time and flags, then advance. */
  method CopySample(mux: Muxer, index: nat, extractor: Demuxer) returns (e: Event, next: Demuxer)
    requires mux.started && !mux.stopped && index < |mux.formats|
    requires !extractor.Exhausted() && !extractor.released
    modifies mux
    ensures e == Wrote(WriteOf(index, extractor.samples[extractor.cursor])) && next == extractor.Advance()
    ensures mux.writes == old(mux.writes) + [e.write]
    ensures mux.formats == old(mux.formats) && mux.started && !mux.stopped
  {
    var info := BufferInfo(extractor.ReadSampleData(), extractor.SampleTime(), extractor.SampleFlags());
    var ok := mux.WriteSampleData(index, info);
    assert ok;
    e := Wrote(MuxWrite(index, info.size, info.ts, info.flags));
    next := extractor.Advance();
  }

  /**
   * The `forEach` body for one file: read, write and advance until a read
   * returns a negative size, on a started muxer and a fresh extractor.
   */
  method CopyTrack(mux: Muxer, index: nat, extractor: Demuxer) returns (events: seq<Event>, done: Demuxer)
    requires mux.started && !mux.stopped && index < |mux.formats|
    requires extractor.cursor == 0 && !extractor.released
    modifies mux
    ensures events == CopyOf(index, extractor.samples)
    ensures mux.writes == old(mux.writes) + WritesIn(events) && FormatsIn(events) == []
    ensures mux.formats == old(mux.formats) && mux.started && !mux.stopped
    ensures done.samples == extractor.samples && done.Exhausted() && !done.released
  {
    done, events := extractor, [];
    ghost var written: seq<MuxWrite> := [];
    while true
      invariant done.samples == extractor.samples && done.cursor <= |extractor.samples| && !done.released
      invariant |events| == |written| == done.cursor
      invariant forall k :: 0 <= k < |events| ==> events[k] == Wrote(WriteOf(index, extractor.samples[k]))
      invariant forall k :: 0 <= k < |written| ==> written[k] == WriteOf(index, extractor.samples[k])
      invariant mux.writes == old(mux.writes) + written
      invariant mux.formats == old(mux.formats) && mux.started && !mux.stopped
      decreases |extractor.samples| - done.cursor
    {
      if done.ReadSampleData() < 0 {
        break;
      }
      var e;
      e, done := CopySample(mux, index, done);
      events := events + [e];
      written := written + [e.write];
    }
    CopyShape(index, extractor.samples);
    assert events == CopyOf(index, extractor.samples);
    assert written == WritesIn(events);
  }

  /**
   * The first `map`: a new extractor per file, with the format of track 0
   * read and track 0 selected; getTrackFormat(0) throws on a file without
   * tracks, before anything reaches the muxer.
   */
  method OpenAll(files: seq<MediaFile>) returns (ok: bool, extractors: seq<Demuxer>, trackFormats: seq<Track>)
    ensures ok <==> HasTrackZero(files)
    ensures ok ==> |extractors| == |files| && |trackFormats| == |files|
    ensures ok ==> forall i :: 0 <= i < |files| ==>
              extractors[i] == Open(files[i].tracks[0].samples) && trackFormats[i] == files[i].tracks[0]
  {
    extractors, trackFormats := [], [];
    var i := 0;
    while i < |files|
      invariant i <= |files| && |extractors| == i && |trackFormats| == i
      invariant forall j :: 0 <= j < i ==>
                  |files[j].tracks| > 0 && extractors[j] == Open(files[j].tracks[0].samples)
                  && trackFormats[j] == files[j].tracks[0]
    {
      if |files[i].tracks| == 0 {
        return false, extractors, trackFormats;
      }
      extractors := extractors + [Open(files[i].tracks[0].samples)];
      trackFormats := trackFormats + [files[i].tracks[0]];
      i := i + 1;
    }
    ok := true;
  }

  /** The second `map`: one addTrack per file, in list order. */
  method AddTracks(mux: Muxer, files: seq<MediaFile>, trackFormats: seq<Track>) returns (indices: seq<nat>, events: seq<Event>)
    requires HasTrackZero(files) && |trackFormats| == |files|
    requires forall i :: 0 <= i < |files| ==> trackFormats[i] == files[i].tracks[0]
    requires mux.formats == [] && !mux.started && !mux.stopped && mux.writes == []
    modifies mux
    ensures |indices| == |files| && forall i :: 0 <= i < |files| ==> indices[i] == i
    ensures events == Additions(files, |files|)
    ensures |mux.formats| == |files| && forall j :: 0 <= j < |files| ==> mux.formats[j] == files[j].tracks[0]
    ensures !mux.started && !mux.stopped && mux.writes == []
  {
    indices, events := [], [];
    var i := 0;
    while i < |files|
      invariant i <= |files| && |indices| == i
      invariant forall j :: 0 <= j < i ==> indices[j] == j
      invariant events == Additions(files, i)
      invariant |mux.formats| == i && forall j :: 0 <= j < i ==> mux.formats[j] == files[j].tracks[0]
      invariant !mux.started && !mux.stopped && mux.writes == []
    {
      ghost var earlier := mux.formats;
      var index := mux.AddTrack(trackFormats[i]);
      forall j | 0 <= j <= i
        ensures mux.formats[j] == files[j].tracks[0]
      {
        if j < i {
          assert mux.formats[j] == earlier[j];
        }
      }
      events := events + [Added(trackFormats[i])];
      ghost var before := indices;
      indices := indices + [index];
      forall j | 0 <= j <= i
        ensures indices[j] == j
      {
        if j < i {
          assert indices[j] == before[j];
        }
      }
      i := i + 1;
    }
  }

  /** The second `map` and start(): one addTrack per file, in list order, then start once. */
  method AddAll(mux: Muxer, files: seq<MediaFile>, trackFormats: seq<Track>) returns (indices: seq<nat>, events: seq<Event>)
    requires HasTrackZero(files) && |trackFormats| == |files|
    requires forall i :: 0 <= i < |files| ==> trackFormats[i] == files[i].tracks[0]
    requires mux.formats == [] && !mux.started && !mux.stopped && mux.writes == []
    modifies mux
    ensures |indices| == |files| && forall i :: 0 <= i < |files| ==> indices[i] == i
    ensures events == Additions(files, |files|) + [Started]
    ensures mux.formats == FormatsIn(events) && |mux.formats| == |files|
    ensures mux.writes == WritesIn(events) && mux.started && !mux.stopped
  {
    indices, events := AddTracks(mux, files, trackFormats);
    AdditionsShape(files, |files|);
    assert mux.formats == FormatsIn(events);
    mux.Start();
    WriteLogged(events, Started);
    events := events + [Started];
  }

  /** One turn of the `forEach`: copy file `i`, then release its extractor. */
  method CopyFile(mux: Muxer, files: seq<MediaFile>, i: nat, index: nat, extractor: Demuxer, ghost copies: seq<Event>)
    returns (copied: seq<Event>, done: Demuxer)
    requires HasTrackZero(files) && i < |files| && copies == Copies(files, i)
    requires index == i && extractor == Open(files[i].tracks[0].samples)
    requires |mux.formats| == |files| && mux.started && !mux.stopped
    modifies mux
    ensures copies + copied == Copies(files, i + 1)
    ensures WritesIn(copies + copied) == WritesIn(copies) + WritesIn(copied)
    ensures mux.writes == old(mux.writes) + WritesIn(copied)
    ensures mux.formats == old(mux.formats) && mux.started && !mux.stopped
    ensures done.samples == files[i].tracks[0].samples && done.Exhausted() && done.released
  {
    var events;
    events, done := CopyTrack(mux, index, extractor);
    CopiesStep(files, i + 1);
    copied := events + [Released(i)];
    WriteLogged(events, Released(i));
    assert copies + copied == Copies(files, i + 1);
    done := done.(released := true);
  }

  /** The `forEach`: copy the files one after the other, releasing each extractor after its copy. */
  method CopyAll(mux: Muxer, files: seq<MediaFile>, indices: seq<nat>, pending: seq<Demuxer>)
    returns (copies: seq<Event>, extractors: seq<Demuxer>)
    requires HasTrackZero(files) && |indices| == |files| && |pending| == |files|
    requires forall i :: 0 <= i < |files| ==> indices[i] == i && pending[i] == Open(files[i].tracks[0].samples)
    requires |mux.formats| == |files| && mux.started && !mux.stopped
    modifies mux
    ensures copies == Copies(files, |files|)
    ensures mux.writes == old(mux.writes) + WritesIn(copies)
    ensures mux.formats == old(mux.formats) && mux.started && !mux.stopped
    ensures |extractors| == |files|
    ensures forall i :: 0 <= i < |files| ==>
              extractors[i].samples == files[i].tracks[0].samples
              && extractors[i].Exhausted() && extractors[i].released
  {
    copies, extractors := [], [];
    var i := 0;
    while i < |files|
      invariant i <= |files| && |extractors| == i
      invariant copies == Copies(files, i)
      invariant mux.writes == old(mux.writes) + WritesIn(copies)
      invariant mux.formats == old(mux.formats) && mux.started && !mux.stopped
      invariant forall j :: 0 <= j < i ==>
                  extractors[j].samples == files[j].tracks[0].samples
                  && extractors[j].Exhausted() && extractors[j].released
    {
      var copied, done := CopyFile(mux, files, i, indices[i], pending[i], copies);
      ConcatAssoc(old(mux.writes), WritesIn(copies), WritesIn(copied));
      copies := copies + copied;
      ghost var earlier := extractors;
      extractors := extractors + [done];
      forall j | 0 <= j <= i
        ensures extractors[j].samples == files[j].tracks[0].samples
        ensures extractors[j].Exhausted() && extractors[j].released
      {
        if j < i {
          assert extractors[j] == earlier[j];
        }
      }
      i := i + 1;
    }
  }

  /**
   * `mixed(resultFile, mergeFileList)`. `events` is what happened to the
   * muxer and extractors, `extractors` the extractors at the end, and
   * `formats`, `writes`, `started`, `stopped` the muxer's final state.
   */
  method Mixed(files: seq<MediaFile>)
    returns (outcome: Outcome, events: seq<Event>, extractors: seq<Demuxer>,
             formats: seq<Track>, writes: seq<MuxWrite>, started: bool, stopped: bool)
    ensures outcome == Completed <==> HasTrackZero(files)
    ensures outcome != Completed ==>
              outcome == Threw(NoTrackZero) && events == [] && formats == [] && writes == [] && !started
    ensures outcome == Completed ==>
              events == Expected(files)
              && formats == FormatsIn(events) && writes == WritesIn(events) && started && stopped
              && |extractors| == |files|
              && forall i :: 0 <= i < |files| ==>
                   extractors[i].samples == files[i].tracks[0].samples
                   && extractors[i].Exhausted() && extractors[i].released
  {
    events, extractors, formats, writes, started, stopped := [], [], [], [], false, false;
    var ok, pending, trackFormats := OpenAll(files);
    if !ok {
      outcome := Threw(NoTrackZero);
      return;
    }
    var mux := new Muxer();
    var indices, added := AddAll(mux, files, trackFormats);
    var copies;
    copies, extractors := CopyAll(mux, files, indices, pending);
    CopiesHaveNoFormats(files, |files|);
    LoggedTogether(added, copies);
    mux.Stop();
    WriteLogged(added + copies, Stopped);
    events := added + copies + [Stopped];
    outcome := Completed;
    formats, writes, started, stopped := mux.formats, mux.writes, mux.started, mux.stopped;
  }

  /** Regrouping a concatenation of three parts. */
  lemma ConcatAssoc<T>(a: seq<T>, b: seq<T>, c: seq<T>)
    ensures a + b + c == a + (b + c)
  {
  }

  /** Logging one event: how the written samples and the added formats move. */
  lemma WriteLogged(events: seq<Event>, e: Event)
    ensures WritesIn(events + [e]) == WritesIn(events) + (if e.Wrote? then [e.write] else [])
    ensures FormatsIn(events + [e]) == FormatsIn(events) + (if e.Added? then [e.format] else [])
  {
    assert (events + [e])[..|events|] == events;
  }

  /** The written samples and the added formats of two logs one after the other. */
  lemma {:induction false} LoggedTogether(a: seq<Event>, b: seq<Event>)
    ensures WritesIn(a + b) == WritesIn(a) + WritesIn(b)
    ensures FormatsIn(a + b) == FormatsIn(a) + FormatsIn(b)
  {
    if b == [] {
      assert a + b == a;
    } else {
      var b', e := b[..|b| - 1], b[|b| - 1];
      LoggedTogether(a, b');
      assert a + b == (a + b') + [e];
      WriteLogged(a + b', e);
      var w, f := if e.Wrote? then [e.write] else [], if e.Added? then [e.format] else [];
      ConcatAssoc(WritesIn(a), WritesIn(b'), w);
      ConcatAssoc(FormatsIn(a), FormatsIn(b'), f);
    }
  }

  /** The addTrack calls: one per file, with that file's track 0 format, in list order. */
  lemma {:induction false} AdditionsShape(files: seq<MediaFile>, n: nat)
    requires n <= |files| && HasTrackZero(files)
    ensures |Additions(files, n)| == n
    ensures forall k :: 0 <= k < n ==> Additions(files, n)[k] == Added(files[k].tracks[0])
    ensures |FormatsIn(Additions(files, n))| == n && WritesIn(Additions(files, n)) == []
    ensures forall k :: 0 <= k < n ==> FormatsIn(Additions(files, n))[k] == files[k].tracks[0]
  {
    if n > 0 {
      var prev := Additions(files, n - 1);
      var x := Added(files[n - 1].tracks[0]);
      AdditionsShape(files, n - 1);
      WriteLogged(prev, x);
      assert Additions(files, n) == prev + [x];
      forall k | 0 <= k < n
        ensures Additions(files, n)[k] == Added(files[k].tracks[0])
        ensures FormatsIn(Additions(files, n))[k] == files[k].tracks[0]
      {
        if k < n - 1 {
          assert (prev + [x])[k] == prev[k];
          assert (FormatsIn(prev) + [x.format])[k] == FormatsIn(prev)[k];
        }
      }
    }
  }

  /** The copy of one file: one write per sample, in order, carrying its size, time and flags. */
  lemma {:induction false} CopyShape(track: nat, samples: seq<Sample>)
    ensures |CopyOf(track, samples)| == |samples| && FormatsIn(CopyOf(track, samples)) == []
    ensures forall k :: 0 <= k < |samples| ==> CopyOf(track, samples)[k] == Wrote(WriteOf(track, samples[k]))
    ensures |WritesIn(CopyOf(track, samples))| == |samples|
    ensures forall k :: 0 <= k < |samples| ==> WritesIn(CopyOf(track, samples))[k] == WriteOf(track, samples[k])
    ensures forall k :: 0 <= k < |WritesIn(CopyOf(track, samples))| ==> WritesIn(CopyOf(track, samples))[k].track == track
  {
    if samples != [] {
      var front := samples[..|samples| - 1];
      var prev := CopyOf(track, front);
      var x := Wrote(WriteOf(track, samples[|samples| - 1]));
      CopyShape(track, front);
      WriteLogged(prev, x);
      assert CopyOf(track, samples) == prev + [x];
      forall k | 0 <= k < |samples|
        ensures CopyOf(track, samples)[k] == Wrote(WriteOf(track, samples[k]))
        ensures WritesIn(CopyOf(track, samples))[k] == WriteOf(track, samples[k])
      {
        if k < |front| {
          assert (prev + [x])[k] == prev[k];
          assert (WritesIn(prev) + [x.write])[k] == WritesIn(prev)[k];
          assert front[k] == samples[k];
        }
      }
    }
  }

  /** The writes to one track of two runs of writes, one after the other. */
  lemma {:induction false} TrackWritesTogether(a: seq<MuxWrite>, b: seq<MuxWrite>, track: int)
    ensures TrackWrites(a + b, track) == TrackWrites(a, track) + TrackWrites(b, track)
  {
    if b == [] {
      assert a + b == a;
    } else {
      var b' := b[..|b| - 1];
      TrackWritesTogether(a, b', track);
      assert (a + b)[..|a + b| - 1] == a + b';
      assert (a + b)[|a + b| - 1] == b[|b| - 1];
    }
  }

  /** Filtering writes that are all to one track keeps all of them, or none. */
  lemma {:induction false} TrackWritesUniform(writes: seq<MuxWrite>, on: int, track: int)
    requires forall k :: 0 <= k < |writes| ==> writes[k].track == on
    ensures on == track ==> TrackWrites(writes, track) == writes
    ensures on != track ==> TrackWrites(writes, track) == []
  {
    if writes != [] {
      TrackWritesUniform(writes[..|writes| - 1], on, track);
    }
  }

  /** One more file copied: its writes follow those before it, and it adds no track. */
  lemma {:induction false} CopiesStep(files: seq<MediaFile>, m: nat)
    requires 0 < m <= |files| && HasTrackZero(files)
    ensures WritesIn(Copies(files, m))
              == WritesIn(Copies(files, m - 1)) + WritesIn(CopyOf(m - 1, files[m - 1].tracks[0].samples))
    ensures FormatsIn(Copies(files, m)) == FormatsIn(Copies(files, m - 1))
  {
    var own := CopyOf(m - 1, files[m - 1].tracks[0].samples);
    CopyShape(m - 1, files[m - 1].tracks[0].samples);
    LoggedTogether(Copies(files, m - 1) + own, [Released(m - 1)]);
    LoggedTogether(Copies(files, m - 1), own);
    assert WritesIn([Released(m - 1)]) == [] && FormatsIn([Released(m - 1)]) == [];
  }

  /** The copy of one file writes to its own track only. */
  lemma CopyOnTrack(track: nat, samples: seq<Sample>, i: nat)
    ensures TrackWrites(WritesIn(CopyOf(track, samples)), i) == if i == track then WritesIn(CopyOf(track, samples)) else []
  {
    CopyShape(track, samples);
    TrackWritesUniform(WritesIn(CopyOf(track, samples)), track, i);
  }

  /** Appending one file's copy changes only that file's track, where it adds the copy. */
  lemma AfterCopy(prev: seq<MuxWrite>, track: nat, samples: seq<Sample>, i: nat)
    ensures i != track ==> TrackWrites(prev + WritesIn(CopyOf(track, samples)), i) == TrackWrites(prev, i)
    ensures i == track ==>
              TrackWrites(prev + WritesIn(CopyOf(track, samples)), i) == TrackWrites(prev, i) + WritesIn(CopyOf(track, samples))
  {
    TrackWritesTogether(prev, WritesIn(CopyOf(track, samples)), i);
    CopyOnTrack(track, samples, i);
    assert i != track ==> TrackWrites(prev, i) + [] == TrackWrites(prev, i);
  }

  /** The step of CopiesOnTrack: from what the first `m - 1` copies wrote to track `i`, what the first `m` wrote. */
  lemma CopiesOnTrackStep(files: seq<MediaFile>, m: nat, i: nat)
    requires 0 < m <= |files| && HasTrackZero(files)
    requires i < m - 1 ==> TrackWrites(WritesIn(Copies(files, m - 1)), i) == WritesIn(CopyOf(i, files[i].tracks[0].samples))
    requires i >= m - 1 ==> TrackWrites(WritesIn(Copies(files, m - 1)), i) == []
    ensures i < m ==> TrackWrites(WritesIn(Copies(files, m)), i) == WritesIn(CopyOf(i, files[i].tracks[0].samples))
    ensures i >= m ==> TrackWrites(WritesIn(Copies(files, m)), i) == []
  {
    var own := WritesIn(CopyOf(m - 1, files[m - 1].tracks[0].samples));
    CopiesStep(files, m);
    AfterCopy(WritesIn(Copies(files, m - 1)), m - 1, files[m - 1].tracks[0].samples, i);
    assert i == m - 1 ==> [] + own == own;
  }

  /** The writes of the first `m` copies to file `i`'s track are exactly that file's copy. */
  lemma {:induction false} CopiesOnTrack(files: seq<MediaFile>, m: nat, i: nat)
    requires m <= |files| && HasTrackZero(files)
    ensures i < m ==> TrackWrites(WritesIn(Copies(files, m)), i) == WritesIn(CopyOf(i, files[i].tracks[0].samples))
    ensures i >= m ==> TrackWrites(WritesIn(Copies(files, m)), i) == []
  {
    if m > 0 {
      CopiesOnTrack(files, m - 1, i);
      CopiesOnTrackStep(files, m, i);
    } else {
      assert WritesIn(Copies(files, m)) == [];
    }
  }

  /** The written samples of the whole run are those of the copies. */
  lemma {:induction false} WritesOfExpected(files: seq<MediaFile>)
    requires HasTrackZero(files)
    ensures WritesIn(Expected(files)) == WritesIn(Copies(files, |files|))
    ensures FormatsIn(Expected(files)) == FormatsIn(Additions(files, |files|)) + FormatsIn(Copies(files, |files|))
  {
    var adds := Additions(files, |files|);
    var copies := Copies(files, |files|);
    AdditionsShape(files, |files|);
    LoggedTogether(adds + [Started] + copies, [Stopped]);
    LoggedTogether(adds + [Started], copies);
    LoggedTogether(adds, [Started]);
    assert WritesIn([Started]) == [] && FormatsIn([Started]) == [];
    assert WritesIn([Stopped]) == [] && FormatsIn([Stopped]) == [];
  }

  /**
   * Every sample of every file is copied unchanged: the writes to track
   * `i` are file `i`'s track 0 samples, one for one and in order, with the
   * extractor's size, timestamp and flags untouched.
   */
  lemma VerbatimCopy(files: seq<MediaFile>, i: nat)
    requires HasTrackZero(files) && i < |files|
    ensures |TrackWrites(WritesIn(Expected(files)), i)| == |files[i].tracks[0].samples|
    ensures forall k :: 0 <= k < |files[i].tracks[0].samples| ==>
              TrackWrites(WritesIn(Expected(files)), i)[k]
                == MuxWrite(i, files[i].tracks[0].samples[k].size, files[i].tracks[0].samples[k].rawTs,
                            files[i].tracks[0].samples[k].flags)
  {
    WritesOfExpected(files);
    CopiesOnTrack(files, |files|, i);
    CopyShape(i, files[i].tracks[0].samples);
  }

  /** Exactly one track per file is added, each with its track 0 format, in list order. */
  lemma OneTrackPerFile(files: seq<MediaFile>)
    requires HasTrackZero(files)
    ensures |FormatsIn(Expected(files))| == |files|
    ensures forall i :: 0 <= i < |files| ==> FormatsIn(Expected(files))[i] == files[i].tracks[0]
  {
    WritesOfExpected(files);
    AdditionsShape(files, |files|);
    CopiesHaveNoFormats(files, |files|);
  }

  /** The copies add no track. */
  lemma {:induction false} CopiesHaveNoFormats(files: seq<MediaFile>, m: nat)
    requires m <= |files| && HasTrackZero(files)
    ensures FormatsIn(Copies(files, m)) == []
  {
    if m > 0 {
      CopiesHaveNoFormats(files, m - 1);
      CopiesStep(files, m);
    }
  }

  /**
   * Where an event may come in the run: all addTrack calls, then start,
   * then for each file in turn its writes and the release of its
   * extractor, then stop.
   */
  function Rank(e: Event, files: nat): int
  {
    match e
    case Added(_) => -2
    case Started => -1
    case Wrote(w) => 2 * w.track
    case Released(i) => 2 * i + 1
    case Stopped => 2 * files
  }

  predicate InOrder(events: seq<Event>, files: nat)
  {
    forall a, b :: 0 <= a < b < |events| ==> Rank(events[a], files) <= Rank(events[b], files)
  }

  /** Every event of `events` has a rank between `lo` and `hi`. */
  predicate RanksIn(events: seq<Event>, lo: int, hi: int, files: nat)
  {
    forall k :: 0 <= k < |events| ==> lo <= Rank(events[k], files) <= hi
  }

  /** Two runs of events in order, the second ranked no lower than the first, are in order together. */
  lemma InOrderTogether(a: seq<Event>, b: seq<Event>, files: nat, la: int, ha: int, lb: int, hb: int)
    requires InOrder(a, files) && InOrder(b, files)
    requires RanksIn(a, la, ha, files) && RanksIn(b, lb, hb, files)
    requires la <= lb && ha <= lb && ha <= hb
    ensures InOrder(a + b, files) && RanksIn(a + b, la, hb, files)
  {
    var c := a + b;
    forall k | 0 <= k < |c|
      ensures c[k] == if k < |a| then a[k] else b[k - |a|]
    {
    }
  }

  /** The copy of one file is all on its track, so all of one rank. */
  lemma CopyRanked(track: nat, samples: seq<Sample>, files: nat)
    ensures InOrder(CopyOf(track, samples), files)
    ensures RanksIn(CopyOf(track, samples), 2 * track, 2 * track, files)
  {
    CopyShape(track, samples);
  }

  /** The copies of the first `m` files come in file order, each release right after its file's writes. */
  lemma {:induction false} CopiesInOrder(files: seq<MediaFile>, m: nat)
    requires m <= |files| && HasTrackZero(files)
    ensures InOrder(Copies(files, m), |files|) && RanksIn(Copies(files, m), 0, 2 * m - 1, |files|)
  {
    if m > 0 {
      var prev := Copies(files, m - 1);
      var own := CopyOf(m - 1, files[m - 1].tracks[0].samples);
      var last := [Released(m - 1)];
      CopiesInOrder(files, m - 1);
      CopyRanked(m - 1, files[m - 1].tracks[0].samples, |files|);
      assert InOrder(last, |files|) && RanksIn(last, 2 * m - 1, 2 * m - 1, |files|);
      InOrderTogether(prev, own, |files|, 0, 2 * (m - 1) - 1, 2 * (m - 1), 2 * (m - 1));
      InOrderTogether(prev + own, last, |files|, 0, 2 * (m - 1), 2 * m - 1, 2 * m - 1);
      assert Copies(files, m) == prev + own + last;
    }
  }

  /** The runs of the whole event list follow each other in rank order. */
  lemma ExpectedRanked(files: seq<MediaFile>)
    requires HasTrackZero(files)
    ensures InOrder(Expected(files), |files|)
  {
    var n := |files|;
    var adds := Additions(files, n);
    var copies := Copies(files, n);
    AdditionsShape(files, n);
    CopiesInOrder(files, n);
    assert InOrder(adds, n) && RanksIn(adds, -2, -2, n);
    InOrderTogether(adds, [Started], n, -2, -2, -1, -1);
    InOrderTogether(adds + [Started], copies, n, -2, -1, 0, 2 * n - 1);
    InOrderTogether(adds + [Started] + copies, [Stopped], n, -2, 2 * n - 1, 2 * n, 2 * n);
  }

  /** Where the additions, the start and the stop sit in the whole event list. */
  lemma ExpectedPlaces(files: seq<MediaFile>)
    requires HasTrackZero(files)
    ensures |Expected(files)| >= |files| + 2
    ensures forall k :: 0 <= k < |Expected(files)| ==>
              (Expected(files)[k].Added? <==> k < |files|)
              && (Expected(files)[k] == Started <==> k == |files|)
              && (Expected(files)[k] == Stopped <==> k == |Expected(files)| - 1)
  {
    var n := |files|;
    var adds := Additions(files, n);
    var copies := Copies(files, n);
    AdditionsShape(files, n);
    CopiesInOrder(files, n);
    var e := adds + [Started] + copies + [Stopped];
    assert e == Expected(files);
    forall k | 0 <= k < |e|
      ensures (e[k].Added? <==> k < n) && (e[k] == Started <==> k == n) && (e[k] == Stopped <==> k == |e| - 1)
    {
      if k < n {
        assert e[k] == adds[k];
      } else if k == n {
        assert e[k] == Started;
      } else if k < |e| - 1 {
        assert e[k] == copies[k - n - 1];
        assert 0 <= Rank(copies[k - n - 1], n) < 2 * n;
      }
    }
  }

  /**
   * The run's events come in the source's order: every addTrack before
   * start(), start() before any write, the files copied one after the
   * other with each extractor released right after its last write and
   * before the next file's first, and stop() last. Start and stop happen
   * once each.
   */
  lemma EventsInOrder(files: seq<MediaFile>)
    requires HasTrackZero(files)
    ensures InOrder(Expected(files), |files|)
    ensures |Expected(files)| >= |files| + 2
    ensures forall k :: 0 <= k < |Expected(files)| ==>
              (Expected(files)[k].Added? <==> k < |files|)
              && (Expected(files)[k] == Started <==> k == |files|)
              && (Expected(files)[k] == Stopped <==> k == |Expected(files)| - 1)
  {
    ExpectedRanked(files);
    ExpectedPlaces(files);
  }
}
