/**
 * What the reference trace of the feed loop promises, and where it does
 * not: monotone sample timestamps, the buffers at file boundaries, the
 * single-file case, and the two quirks of using the last raw timestamp
 * (not a duration) as the offset.
 */
module ContinuityProps {
  import opened Media
  import opened Continuity

  predicate NonDecreasing(xs: seq<int>)
  {
    forall i, j :: 0 <= i < j < |xs| ==> xs[i] <= xs[j]
  }

  /** Timestamps of the buffers that carry a sample (size > 0), in queue order. */
  function SampleTimes(q: seq<Queued>): (ts: seq<int>)
    ensures |ts| <= |q|
  {
    if q == [] then []
    else (if q[0].size > 0 then [q[0].ts] else []) + SampleTimes(q[1..])
  }

  lemma {:induction false} SampleTimesAppend(a: seq<Queued>, b: seq<Queued>)
    ensures SampleTimes(a + b) == SampleTimes(a) + SampleTimes(b)
  {
    if a == [] {
      assert a + b == b;
    } else {
      assert (a + b)[1..] == a[1..] + b;
      SampleTimesAppend(a[1..], b);
    }
  }

  /** Raw timestamps non-negative and non-decreasing within the file. */
  predicate Ordered(samples: seq<Sample>)
  {
    forall i, j :: 0 <= i < j < |samples| ==> 0 <= samples[i].rawTs <= samples[j].rawTs
  }

  /** The sample timestamps of a file's buffers are its raw times shifted by the offset. */
  lemma {:induction false} FileSampleTimes(samples: seq<Sample>, from: nat, offset: int)
    requires from <= |samples| && Readable(samples)
    ensures |SampleTimes(FileTrace(samples, from, offset))| == |samples| - from
    ensures forall i :: 0 <= i < |samples| - from ==>
              SampleTimes(FileTrace(samples, from, offset))[i] == samples[from + i].rawTs + offset
    decreases |samples| - from
  {
    if from < |samples| {
      var q := FileTrace(samples, from, offset);
      assert q[1..] == FileTrace(samples, from + 1, offset);
      FileSampleTimes(samples, from + 1, offset);
    }
  }

  lemma NonDecreasingConcat(a: seq<int>, b: seq<int>, lo: int, bound: int)
    requires NonDecreasing(a) && NonDecreasing(b) && lo <= bound
    requires forall i :: 0 <= i < |a| ==> lo <= a[i] <= bound
    requires forall i :: 0 <= i < |b| ==> bound <= b[i]
    ensures NonDecreasing(a + b)
    ensures forall i :: 0 <= i < |a + b| ==> (a + b)[i] >= lo
  {
    var all := a + b;
    forall i | 0 <= i < |all| ensures all[i] >= lo {
      if i >= |a| {
        assert all[i] == b[i - |a|];
      }
    }
    forall i, j | 0 <= i < j < |all| ensures all[i] <= all[j] {
      if j < |a| {
      } else if i < |a| {
        assert all[i] <= bound <= all[j];
      } else {
        assert all[i] == b[i - |a|] && all[j] == b[j - |a|];
      }
    }
  }

  /** Sample times after a file: none after the last file, the next file's own otherwise. */
  lemma RestTimes(t: seq<seq<Sample>>, k: nat, total: int, last: int)
    requires k < |t|
    ensures k + 1 == |t| ==> SampleTimes([EOS_BUFFER]) == []
    ensures k + 1 < |t| ==>
              SampleTimes([EMPTY_BUFFER] + Expected(t, k + 1, total, last)) == SampleTimes(Expected(t, k + 1, total, last))
  {
    assert SampleTimes([EOS_BUFFER]) == [] + SampleTimes([EOS_BUFFER][1..]);
    if k + 1 < |t| {
      SampleTimesAppend([EMPTY_BUFFER], Expected(t, k + 1, total, last));
      assert SampleTimes([EMPTY_BUFFER]) == [] + SampleTimes([EMPTY_BUFFER][1..]);
    }
  }

  /**
   * One Ordered file's sample times are non-decreasing and lie between the
   * offset and the offset plus LastRecorded (a single sample being at 0).
   */
  lemma FileTimesBounded(s: seq<Sample>, total: int, prev: int)
    requires Readable(s) && Ordered(s) && prev >= 0
    requires |s| == 1 ==> s[0].rawTs == 0
    ensures LastRecorded(s, prev) >= 0
    ensures NonDecreasing(SampleTimes(FileTrace(s, 0, total)))
    ensures forall i :: 0 <= i < |SampleTimes(FileTrace(s, 0, total))| ==>
              total <= SampleTimes(FileTrace(s, 0, total))[i] <= total + LastRecorded(s, prev)
  {
    var n := |s|;
    FileSampleTimes(s, 0, total);
    var ta := SampleTimes(FileTrace(s, 0, total));
    if n >= 2 { assert 0 <= s[0].rawTs <= s[n - 1].rawTs; }
    forall i | 0 <= i < |ta| ensures total <= ta[i] <= total + LastRecorded(s, prev) {
      assert ta[i] == s[i].rawTs + total;
      if n >= 2 {
        if i < n - 1 { assert s[i].rawTs <= s[n - 1].rawTs; }
        if i > 0 { assert s[0].rawTs <= s[i].rawTs; }
      }
    }
    forall i, j | 0 <= i < j < |ta| ensures ta[i] <= ta[j] {
      assert s[i].rawTs <= s[j].rawTs;
    }
  }

  /**
   * Within the trace from file `k` on, sample timestamps never go down and
   * never drop below the offset the trace starts with, provided every file
   * is Ordered and a file with a single sample has it at time 0.
   */
  lemma {:induction false} ExpectedMonotone(t: seq<seq<Sample>>, k: nat, total: int, prev: int)
    requires k < |t| && prev >= 0
    requires forall j :: k <= j < |t| ==> Readable(t[j]) && Ordered(t[j])
    requires forall j :: k <= j < |t| && |t[j]| == 1 ==> t[j][0].rawTs == 0
    ensures NonDecreasing(SampleTimes(Expected(t, k, total, prev)))
    ensures forall i :: 0 <= i < |SampleTimes(Expected(t, k, total, prev))| ==>
              SampleTimes(Expected(t, k, total, prev))[i] >= total
    decreases |t| - k
  {
    var last := LastRecorded(t[k], prev);
    var a := FileTrace(t[k], 0, total);
    var rest := if k + 1 == |t| then [EOS_BUFFER] else [EMPTY_BUFFER] + Expected(t, k + 1, total + last, last);
    assert Expected(t, k, total, prev) == a + rest;
    SampleTimesAppend(a, rest);
    FileTimesBounded(t[k], total, prev);
    RestTimes(t, k, total + last, last);
    if k + 1 < |t| {
      ExpectedMonotone(t, k + 1, total + last, last);
    } else {
      assert SampleTimes(rest) == [];
    }
    NonDecreasingConcat(SampleTimes(a), SampleTimes(rest), total, total + last);
  }

  /**
   * Timestamp monotonicity over a whole merge: when every file's raw times
   * are non-negative and non-decreasing and single-sample files sit at 0,
   * the timestamps of the samples queued to the decoder never go down.
   */
  lemma TraceMonotone(files: seq<MediaFile>, prefix: string)
    requires |files| > 0 && WellFormed(files, prefix)
    requires forall i :: 0 <= i < |files| ==> Ordered(SelectedSamples(files, prefix)[i])
    requires forall i :: 0 <= i < |files| && |SelectedSamples(files, prefix)[i]| == 1 ==>
               SelectedSamples(files, prefix)[i][0].rawTs == 0
    ensures NonDecreasing(SampleTimes(Trace(files, prefix)))
  {
    var t := SelectedSamples(files, prefix);
    assert forall j :: 0 <= j < |t| ==> Readable(t[j]);
    ExpectedMonotone(t, 0, 0, 0);
  }

  /**
   * A one-file list behaves as a straight transcode: its samples at their
   * raw times, then end of stream; no empty boundary buffer is queued.
   */
  lemma SingleFileTrace(files: seq<MediaFile>, prefix: string)
    requires |files| == 1 && WellFormed(files, prefix)
    ensures Trace(files, prefix) == FileTrace(SelectedSamples(files, prefix)[0], 0, 0) + [EOS_BUFFER]
    ensures EMPTY_BUFFER !in Trace(files, prefix)
  {
    var s := SelectedSamples(files, prefix)[0];
    var q := FileTrace(s, 0, 0);
    assert Readable(s);
    assert forall i :: 0 <= i < |q| ==> q[i].size > 0;
  }

  /**
   * Between two files the trace holds exactly one empty buffer, and the
   * offset the next file gets is the previous offset plus LastRecorded.
   */
  lemma BoundaryShape(t: seq<seq<Sample>>, k: nat, total: int, prev: int)
    requires k + 1 < |t|
    ensures var last := LastRecorded(t[k], prev);
            Expected(t, k, total, prev)
              == FileTrace(t[k], 0, total) + [EMPTY_BUFFER] + Expected(t, k + 1, total + last, last)
  {
    var last := LastRecorded(t[k], prev);
    ConcatAssoc3(FileTrace(t[k], 0, total), [EMPTY_BUFFER], Expected(t, k + 1, total + last, last));
  }

  function S(ts: int): Sample { Sample(1, ts, 0) }

  lemma MarkerTimes()
    ensures SampleTimes([EMPTY_BUFFER]) == [] && SampleTimes([EOS_BUFFER]) == []
  {
    assert SampleTimes([EMPTY_BUFFER]) == [] + SampleTimes([EMPTY_BUFFER][1..]);
    assert SampleTimes([EOS_BUFFER]) == [] + SampleTimes([EOS_BUFFER][1..]);
  }

  /** Sample times of a file's buffers followed by a marker and what comes after. */
  lemma ThenMarker(file: seq<Queued>, marker: Queued, after: seq<Queued>)
    requires marker == EMPTY_BUFFER || marker == EOS_BUFFER
    ensures SampleTimes(file + [marker] + after) == SampleTimes(file) + SampleTimes(after)
  {
    MarkerTimes();
    SampleTimesAppend(file + [marker], after);
    SampleTimesAppend(file, [marker]);
  }

  /**
   * The offset is the last raw timestamp, not a duration: two files whose
   * samples sit at 0 and 33333 µs queue the second file's first frame at the
   * same time as the first file's last frame.
   */
  lemma BoundaryRepeatsTimestamp()
    ensures SampleTimes(Expected([[S(0), S(33333)], [S(0), S(33333)]], 0, 0, 0)) == [0, 33333, 33333, 66666]
  {
    var t := [[S(0), S(33333)], [S(0), S(33333)]];
    var f0, f1 := FileTrace(t[0], 0, 0), FileTrace(t[1], 0, 33333);
    FileSampleTimes(t[0], 0, 0);
    FileSampleTimes(t[1], 0, 33333);
    assert SampleTimes(f0) == [0, 33333];
    assert SampleTimes(f1) == [33333, 66666];
    assert Expected(t, 1, 33333, 33333) == f1 + [EOS_BUFFER];
    ThenMarker(f1, EOS_BUFFER, []);
    assert f1 + [EOS_BUFFER] + [] == f1 + [EOS_BUFFER];
    assert SampleTimes([]) == [];
    assert LastRecorded(t[0], 0) == 33333;
    BoundaryShape(t, 0, 0, 0);
    ThenMarker(f0, EMPTY_BUFFER, Expected(t, 1, 33333, 33333));
    assert SampleTimes(Expected(t, 0, 0, 0)) == [0, 33333] + [33333, 66666];
  }

  /** The part of StaleOffsetRewinds after the first file. */
  lemma StaleOffsetTail(t: seq<seq<Sample>>)
    requires t == [[S(0), S(10)], [S(50)], [S(0)]]
    ensures SampleTimes(Expected(t, 1, 10, 10)) == [60, 20]
  {
    var f1, f2 := FileTrace(t[1], 0, 10), FileTrace(t[2], 0, 20);
    FileSampleTimes(t[1], 0, 10);
    FileSampleTimes(t[2], 0, 20);
    assert SampleTimes(f1) == [60];
    assert SampleTimes(f2) == [20];
    assert LastRecorded(t[1], 10) == 10;
    assert Expected(t, 2, 20, 10) == f2 + [EOS_BUFFER];
    ThenMarker(f2, EOS_BUFFER, []);
    assert f2 + [EOS_BUFFER] + [] == f2 + [EOS_BUFFER];
    assert SampleTimes([]) == [];
    BoundaryShape(t, 1, 10, 10);
    ThenMarker(f1, EMPTY_BUFFER, Expected(t, 2, 20, 10));
  }

  /**
   * A single-sample file keeps the stale `prev` of the file before it, so
   * when that sample is not at 0 the following file rewinds: files at
   * [0, 10], [50] and [0] queue samples at 0, 10, 60 and then 20.
   */
  lemma StaleOffsetRewinds()
    ensures SampleTimes(Expected([[S(0), S(10)], [S(50)], [S(0)]], 0, 0, 0)) == [0, 10, 60, 20]
    ensures !NonDecreasing(SampleTimes(Expected([[S(0), S(10)], [S(50)], [S(0)]], 0, 0, 0)))
  {
    var t := [[S(0), S(10)], [S(50)], [S(0)]];
    var f0 := FileTrace(t[0], 0, 0);
    FileSampleTimes(t[0], 0, 0);
    assert SampleTimes(f0) == [0, 10];
    StaleOffsetTail(t);
    BoundaryShape(t, 0, 0, 0);
    assert LastRecorded(t[0], 0) == 10;
    ThenMarker(f0, EMPTY_BUFFER, Expected(t, 1, 10, 10));
    var ts := SampleTimes(Expected(t, 0, 0, 0));
    assert ts == [0, 10] + [60, 20];
    assert ts == [0, 10, 60, 20];
    assert ts[2] > ts[3];
  }
}
