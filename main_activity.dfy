/**
 * MainActivity: the input files are ordered by the number in their names
 * (a stable `sortedBy` on the first run of digits), then one worker thread
 * runs the video merge, the audio merge and the final remux, in that order,
 * the first two on the same ordered list.
 */
module FileOrder {
  import opened Media
  import Continuity
  import VideoPassthrough
  import AudioRestage
  import Remuxer

  /** Kotlin's Int.MAX_VALUE: `toIntOrNull` gives null above it. */
  const INT_MAX: int := 0x7FFF_FFFF

  /** `\d` in a Java regular expression: an ASCII digit. */
  predicate IsDigit(c: char)
  {
    '0' <= c <= '9'
  }

  predicate AllDigits(s: string)
  {
    forall i :: 0 <= i < |s| ==> IsDigit(s[i])
  }

  /** The digits at the start of `s`, as many as there are. */
  function LeadingDigits(s: string): (d: string)
    ensures AllDigits(d) && d <= s
  {
    if s == [] || !IsDigit(s[0]) then [] else [s[0]] + LeadingDigits(s[1..])
  }

  /** What `"(\\d+)".toRegex().find(name)?.groupValues?.get(0)` finds: the first maximal digit run, or nothing. */
  function FirstDigitRun(s: string): (d: string)
    ensures AllDigits(d)
  {
    if s == [] then []
    else if IsDigit(s[0]) then LeadingDigits(s)
    else FirstDigitRun(s[1..])
  }

  /** The decimal value of a string of digits. */
  function DigitsValue(d: string): nat
    requires AllDigits(d)
  {
    if d == [] then 0 else DigitsValue(d[..|d| - 1]) * 10 + (d[|d| - 1] as int - '0' as int)
  }

  /**
   * The sort key of a file name: the value of its first digit run, or 0
   * when there is none or when it does not fit an `Int` (`toIntOrNull`
   * gives null, and `?: 0` applies).
   */
  function SortKey(name: string): (k: int)
    ensures 0 <= k <= INT_MAX
  {
    var d := FirstDigitRun(name);
    if d != [] && DigitsValue(d) <= INT_MAX then DigitsValue(d) else 0
  }

  /** A file of the folder listing: its name and its content. */
  datatype Entry = Entry(name: string, file: MediaFile)

  function Key(e: Entry): int
  {
    SortKey(e.name)
  }

  /** `r` with `x` placed after every entry whose key is not larger than its own. */
  function Insert(r: seq<Entry>, x: Entry): seq<Entry>
  {
    if r == [] then [x]
    else if Key(r[|r| - 1]) <= Key(x) then r + [x]
    else Insert(r[..|r| - 1], x) + [r[|r| - 1]]
  }

  /** `sortedBy { key }`: Kotlin's stable sort, as insertion of each entry in listing order. */
  function SortedBy(entries: seq<Entry>): seq<Entry>
  {
    if entries == [] then [] else Insert(SortedBy(entries[..|entries| - 1]), entries[|entries| - 1])
  }

  predicate KeysAscend(r: seq<Entry>)
  {
    forall i, j :: 0 <= i < j < |r| ==> Key(r[i]) <= Key(r[j])
  }

  /** The entries whose key is `k`, in order. */
  function WithKey(entries: seq<Entry>, k: int): seq<Entry>
  {
    if entries == [] then []
    else
      var e := entries[|entries| - 1];
      WithKey(entries[..|entries| - 1], k) + (if Key(e) == k then [e] else [])
  }

  function Files(entries: seq<Entry>): (files: seq<MediaFile>)
    ensures |files| == |entries| && forall i :: 0 <= i < |entries| ==> files[i] == entries[i].file
  {
    if entries == [] then [] else Files(entries[..|entries| - 1]) + [entries[|entries| - 1].file]
  }

  /** One of the worker's three jobs, with the files it was given. */
  datatype Stage =
    | VideoStage(files: seq<MediaFile>)  // videoDataMerge.merge()
    | AudioStage(files: seq<MediaFile>)  // audioDataMerge.merge()
    | RemuxStage(files: seq<MediaFile>)  // MergedDataMuxer.mixed(finalResultFile, ...)

  /**
   * The worker's jobs, in order: both merges on the ordered listing, then
   * the remux of the merged audio file and the merged video file, audio first.
   */
  function Plan(listing: seq<Entry>, mergedAudio: MediaFile, mergedVideo: MediaFile): seq<Stage>
  {
    var ordered := Files(SortedBy(listing));
    [VideoStage(ordered), AudioStage(ordered), RemuxStage([mergedAudio, mergedVideo])]
  }

  /**
   * The worker thread. The merged files are what the remux reads back
   * from disk. A job that does not complete ends the thread: an exception
   * escapes it, and a Stalled job has not finished within the codec
   * answers given. `videoOutcome` is the video merge's outcome and
   * `audioOutcome` the audio merge's, None when that job never started;
   * `outcome` is the outcome of the last job started.
   */
  method Worker(listing: seq<Entry>, videoRounds: seq<VideoPassthrough.Round>, capacity: nat,
                decodeRounds: seq<AudioRestage.DecodeRound>, encodeRounds: seq<AudioRestage.EncodeRound>,
                mergedAudio: MediaFile, mergedVideo: MediaFile)
    returns (stages: seq<Stage>, videoOutcome: Outcome, audioOutcome: Option<Outcome>, outcome: Outcome)
    ensures 1 <= |stages| <= 3 && stages == Plan(listing, mergedAudio, mergedVideo)[..|stages|]
    ensures |stages| >= 2 <==> videoOutcome == Completed
    ensures |stages| >= 2 <==> audioOutcome.Some?
    ensures |stages| == 3 <==> videoOutcome == Completed && audioOutcome == Some(Completed)
    ensures |stages| == 1 ==> outcome == videoOutcome
    ensures |stages| == 2 ==> audioOutcome == Some(outcome)
    ensures |stages| < 3 ==> outcome != Completed
    ensures outcome == Completed <==> |stages| == 3 && Remuxer.HasTrackZero([mergedAudio, mergedVideo])
    ensures var ordered := Files(SortedBy(listing));
            videoOutcome == Completed ==>
              Continuity.Init(ordered, "video/").Some?
              && Continuity.Run(Continuity.Init(ordered, "video/").value).status == Continuity.InputDone
    ensures var ordered := Files(SortedBy(listing));
            audioOutcome == Some(Completed) ==>
              Continuity.Init(ordered, "audio/").Some?
              && Continuity.Run(Continuity.Init(ordered, "audio/").value).status == Continuity.InputDone
  {
    var ordered := Files(SortedBy(listing));
    stages, videoOutcome, audioOutcome, outcome := RunStages(ordered, videoRounds, capacity, decodeRounds, encodeRounds, mergedAudio, mergedVideo);
  }

  /** The worker's jobs on the ordered files, each started only once the one before it completed. */
  method RunStages(ordered: seq<MediaFile>, videoRounds: seq<VideoPassthrough.Round>, capacity: nat,
                   decodeRounds: seq<AudioRestage.DecodeRound>, encodeRounds: seq<AudioRestage.EncodeRound>,
                   mergedAudio: MediaFile, mergedVideo: MediaFile)
    returns (stages: seq<Stage>, videoOutcome: Outcome, audioOutcome: Option<Outcome>, outcome: Outcome)
    ensures 1 <= |stages| <= 3
    ensures stages == [VideoStage(ordered), AudioStage(ordered), RemuxStage([mergedAudio, mergedVideo])][..|stages|]
    ensures |stages| >= 2 <==> videoOutcome == Completed
    ensures |stages| >= 2 <==> audioOutcome.Some?
    ensures |stages| == 3 <==> videoOutcome == Completed && audioOutcome == Some(Completed)
    ensures |stages| == 1 ==> outcome == videoOutcome
    ensures |stages| == 2 ==> audioOutcome == Some(outcome)
    ensures |stages| < 3 ==> outcome != Completed
    ensures outcome == Completed <==> |stages| == 3 && Remuxer.HasTrackZero([mergedAudio, mergedVideo])
    ensures videoOutcome == Completed ==>
              Continuity.Init(ordered, "video/").Some?
              && Continuity.Run(Continuity.Init(ordered, "video/").value).status == Continuity.InputDone
    ensures audioOutcome == Some(Completed) ==>
              Continuity.Init(ordered, "audio/").Some?
              && Continuity.Run(Continuity.Init(ordered, "audio/").value).status == Continuity.InputDone
  {
    ghost var all := [VideoStage(ordered), AudioStage(ordered), RemuxStage([mergedAudio, mergedVideo])];
    stages := [VideoStage(ordered)];
    assert stages == all[..1];
    audioOutcome := None;
    var video := VideoJob(ordered, videoRounds);
    videoOutcome := video;
    if video != Completed {
      return stages, videoOutcome, audioOutcome, video;
    }
    stages := stages + [AudioStage(ordered)];
    assert stages == all[..2];
    var audio := AudioJob(ordered, capacity, decodeRounds, encodeRounds);
    audioOutcome := Some(audio);
    if audio != Completed {
      return stages, videoOutcome, audioOutcome, audio;
    }
    stages := stages + [RemuxStage([mergedAudio, mergedVideo])];
    assert stages == all[..3];
    var remuxOutcome, _, _, _, _, _, _ := Remuxer.Mixed([mergedAudio, mergedVideo]);
    outcome := remuxOutcome;
  }

  /** `videoDataMerge.merge()` as the worker sees it: only its outcome. */
  method VideoJob(ordered: seq<MediaFile>, videoRounds: seq<VideoPassthrough.Round>) returns (outcome: Outcome)
    ensures outcome == Completed ==>
              Continuity.Init(ordered, "video/").Some?
              && Continuity.Run(Continuity.Init(ordered, "video/").value).status == Continuity.InputDone
  {
    var video, _, _, _, _, _ := VideoPassthrough.Merge(ordered, videoRounds);
    outcome := video;
  }

  /** `audioDataMerge.merge()` as the worker sees it: only its outcome. */
  method AudioJob(ordered: seq<MediaFile>, capacity: nat, decodeRounds: seq<AudioRestage.DecodeRound>,
                  encodeRounds: seq<AudioRestage.EncodeRound>) returns (outcome: Outcome)
    ensures outcome == Completed ==>
              Continuity.Init(ordered, "audio/").Some?
              && Continuity.Run(Continuity.Init(ordered, "audio/").value).status == Continuity.InputDone
  {
    var audio, _, _, _, _, _, _, _, _ := AudioRestage.Merge(ordered, capacity, decodeRounds, encodeRounds);
    outcome := audio;
  }

  // ---------------------------------------------------------------- the key

  /** The first digit run starts after the digit-free prefix and ends before the first non-digit. */
  lemma {:induction false} FirstRunOf(p: string, d: string, q: string)
    requires forall i :: 0 <= i < |p| ==> !IsDigit(p[i])
    requires d != [] && AllDigits(d) && (q == [] || !IsDigit(q[0]))
    ensures FirstDigitRun(p + d + q) == d
  {
    if p == [] {
      assert p + d + q == d + q;
      LeadingOf(d, q);
    } else {
      assert (p + d + q)[1..] == p[1..] + d + q;
      FirstRunOf(p[1..], d, q);
    }
  }

  lemma {:induction false} LeadingOf(d: string, q: string)
    requires AllDigits(d) && (q == [] || !IsDigit(q[0]))
    ensures LeadingDigits(d + q) == d
  {
    if d == [] {
      assert d + q == q;
    } else {
      assert (d + q)[1..] == d[1..] + q;
      LeadingOf(d[1..], q);
    }
  }

  /**
   * The key of a name `p + d + q`, where `p` holds no digit, `d` is a digit
   * run and `q` does not continue it, is the value of `d` if that fits an
   * `Int`, and 0 otherwise.
   */
  lemma KeyOfName(p: string, d: string, q: string)
    requires forall i :: 0 <= i < |p| ==> !IsDigit(p[i])
    requires d != [] && AllDigits(d) && (q == [] || !IsDigit(q[0]))
    ensures SortKey(p + d + q) == if DigitsValue(d) <= INT_MAX then DigitsValue(d) else 0
  {
    FirstRunOf(p, d, q);
  }

  /** A name without digits has key 0. */
  lemma {:induction false} NoDigitsKeyZero(name: string)
    requires forall i :: 0 <= i < |name| ==> !IsDigit(name[i])
    ensures FirstDigitRun(name) == [] && SortKey(name) == 0
  {
    if name != [] {
      NoDigitsKeyZero(name[1..]);
    }
  }

  /** Leading zeros do not change the value of a digit run. */
  lemma {:induction false} LeadingZeroIgnored(d: string)
    requires AllDigits(d)
    ensures DigitsValue(['0'] + d) == DigitsValue(d)
  {
    if d != [] {
      var front := d[..|d| - 1];
      LeadingZeroIgnored(front);
      assert (['0'] + d)[..|d|] == ['0'] + front;
    }
  }

  /** One more digit multiplies the value by ten and adds the digit. */
  lemma DigitsSnoc(d: string, c: char)
    requires AllDigits(d) && IsDigit(c)
    ensures AllDigits(d + [c]) && DigitsValue(d + [c]) == DigitsValue(d) * 10 + (c as int - '0' as int)
  {
    assert (d + [c])[..|d|] == d;
  }

  /** The value of the first four digits of Int.MAX_VALUE. */
  lemma FourDigits()
    ensures AllDigits("2147") && DigitsValue("2147") == 2147
  {
    assert DigitsValue("2") == 2 by { assert "2"[..0] == []; }
    DigitsSnoc("2", '1');
    assert "2" + ['1'] == "21";
    DigitsSnoc("21", '4');
    assert "21" + ['4'] == "214";
    DigitsSnoc("214", '7');
    assert "214" + ['7'] == "2147";
  }

  /** The value of the first nine digits of Int.MAX_VALUE. */
  lemma NineDigits()
    ensures AllDigits("214748364") && DigitsValue("214748364") == 214748364
  {
    FourDigits();
    DigitsSnoc("2147", '4');
    assert "2147" + ['4'] == "21474";
    DigitsSnoc("21474", '8');
    assert "21474" + ['8'] == "214748";
    DigitsSnoc("214748", '3');
    assert "214748" + ['3'] == "2147483";
    DigitsSnoc("2147483", '6');
    assert "2147483" + ['6'] == "21474836";
    DigitsSnoc("21474836", '4');
    assert "21474836" + ['4'] == "214748364";
  }

  /** The boundary of `toIntOrNull`: "2147483647" keeps its value, "2147483648" falls back to 0. */
  lemma IntBoundary()
    ensures SortKey("clip2147483647.ts") == 2147483647
    ensures SortKey("clip2147483648.ts") == 0
  {
    NineDigits();
    DigitsSnoc("214748364", '7');
    DigitsSnoc("214748364", '8');
    KeyOfName("clip", "214748364" + ['7'], ".ts");
    assert "clip" + ("214748364" + ['7']) + ".ts" == "clip2147483647.ts";
    KeyOfName("clip", "214748364" + ['8'], ".ts");
    assert "clip" + ("214748364" + ['8']) + ".ts" == "clip2147483648.ts";
  }

  // ---------------------------------------------------------------- the sort

  /** Inserting adds exactly the entry. */
  lemma {:induction false} InsertAdds(r: seq<Entry>, x: Entry)
    ensures multiset(Insert(r, x)) == multiset(r) + multiset{x}
  {
    if r != [] && Key(r[|r| - 1]) > Key(x) {
      InsertAdds(r[..|r| - 1], x);
      assert r == r[..|r| - 1] + [r[|r| - 1]];
    } else if r != [] {
      assert multiset(r + [x]) == multiset(r) + multiset{x};
    }
  }

  /** Appending an entry whose key bounds every key of an ascending list keeps it ascending. */
  lemma AscendingSnoc(r: seq<Entry>, y: Entry)
    requires KeysAscend(r) && forall i :: 0 <= i < |r| ==> Key(r[i]) <= Key(y)
    ensures KeysAscend(r + [y])
  {
    var out := r + [y];
    forall i, j | 0 <= i < j < |out|
      ensures Key(out[i]) <= Key(out[j])
    {
      assert out[i] == r[i];
      if j < |r| {
        assert out[j] == r[j];
      }
    }
  }

  /** A bound on every key, the inserted entry's included, bounds the keys after the insertion. */
  lemma InsertBounded(r: seq<Entry>, x: Entry, b: int)
    requires Key(x) <= b && forall i :: 0 <= i < |r| ==> Key(r[i]) <= b
    ensures forall i :: 0 <= i < |Insert(r, x)| ==> Key(Insert(r, x)[i]) <= b
  {
    InsertAdds(r, x);
    var ins := Insert(r, x);
    forall i | 0 <= i < |ins|
      ensures Key(ins[i]) <= b
    {
      assert ins[i] in multiset(ins);
      if ins[i] != x {
        assert ins[i] in multiset(r);
        var j :| 0 <= j < |r| && r[j] == ins[i];
      }
    }
  }

  /** Inserting into an ascending list keeps it ascending. */
  lemma {:induction false} InsertSorted(r: seq<Entry>, x: Entry)
    requires KeysAscend(r)
    ensures KeysAscend(Insert(r, x))
  {
    if r != [] && Key(r[|r| - 1]) > Key(x) {
      var front := r[..|r| - 1];
      var last := r[|r| - 1];
      assert KeysAscend(front) && forall i :: 0 <= i < |front| ==> Key(front[i]) <= Key(last) by {
        forall i | 0 <= i < |front| ensures front[i] == r[i] { }
      }
      InsertSorted(front, x);
      InsertBounded(front, x, Key(last));
      AscendingSnoc(Insert(front, x), last);
    } else if r != [] {
      AscendingSnoc(r, x);
    }
  }

  /** Inserting adds the entry after those with its key and leaves the other keys' runs alone. */
  lemma {:induction false} InsertWithKey(r: seq<Entry>, x: Entry, k: int)
    ensures WithKey(Insert(r, x), k) == WithKey(r, k) + (if Key(x) == k then [x] else [])
  {
    if r == [] {
      assert Insert(r, x)[..0] == [];
    } else if Key(r[|r| - 1]) <= Key(x) {
      assert (r + [x])[..|r|] == r;
    } else {
      var front := r[..|r| - 1];
      var last := r[|r| - 1];
      InsertWithKey(front, x, k);
      var ins := Insert(front, x);
      var wf := WithKey(front, k);
      var own := if Key(last) == k then [last] else [];
      assert WithKey(r, k) == wf + own;
      assert WithKey(ins + [last], k) == WithKey(ins, k) + own by {
        assert (ins + [last])[..|ins|] == ins;
      }
      if Key(x) == k {
        assert own == [];
        assert wf + [x] + [] == wf + [] + [x];
      } else {
        assert wf + [] + own == wf + own + [];
      }
    }
  }

  /** `sortedBy` orders by key: the keys ascend along the result. */
  lemma {:induction false} SortedByAscends(entries: seq<Entry>)
    ensures KeysAscend(SortedBy(entries))
  {
    if entries != [] {
      var front := entries[..|entries| - 1];
      SortedByAscends(front);
      InsertSorted(SortedBy(front), entries[|entries| - 1]);
    }
  }

  /** `sortedBy` reorders the listing: the same entries, each as often. */
  lemma {:induction false} SortedByPermutes(entries: seq<Entry>)
    ensures multiset(SortedBy(entries)) == multiset(entries)
  {
    if entries != [] {
      var front := entries[..|entries| - 1];
      var x := entries[|entries| - 1];
      assert multiset(entries) == multiset(front) + multiset{x} by {
        assert entries == front + [x];
      }
      SortedByPermutes(front);
      InsertAdds(SortedBy(front), x);
    }
  }

  /**
   * `sortedBy` is stable: for every key, the entries with that key keep
   * their listing order.
   */
  lemma {:induction false} SortedByStable(entries: seq<Entry>, k: int)
    ensures WithKey(SortedBy(entries), k) == WithKey(entries, k)
  {
    if entries != [] {
      var front := entries[..|entries| - 1];
      SortedByStable(front, k);
      InsertWithKey(SortedBy(front), entries[|entries| - 1], k);
    }
  }
}
