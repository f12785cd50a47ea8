/**
 * The `extractMedia` helper that each pipeline carries a copy of: open a
 * file, scan its tracks in declaration order and return the first one whose
 * MIME type starts with the requested prefix ("audio/" or "video/").
 */
module TrackSelector {
  import opened Media

  predicate StartsWith(s: string, prefix: string)
  {
    |prefix| <= |s| && s[..|prefix|] == prefix
  }

  /** `track.getString(KEY_MIME)?.startsWith(prefix) == true`: a missing MIME never matches. */
  predicate Matches(t: Track, prefix: string)
  {
    t.mime.Some? && StartsWith(t.mime.value, prefix)
  }

  /** `firstOrNull` over the tracks from index `from` onwards. */
  function FirstMatchFrom(tracks: seq<Track>, prefix: string, from: nat): (r: Option<nat>)
    requires from <= |tracks|
    ensures r.Some? ==> from <= r.value < |tracks| && Matches(tracks[r.value], prefix)
    ensures r.Some? ==> forall j :: from <= j < r.value ==> !Matches(tracks[j], prefix)
    ensures r.None? <==> forall j :: from <= j < |tracks| ==> !Matches(tracks[j], prefix)
    decreases |tracks| - from
  {
    if from == |tracks| then None
    else if Matches(tracks[from], prefix) then Some(from)
    else FirstMatchFrom(tracks, prefix, from + 1)
  }

  /**
   * The index `extractMedia` selects: the lowest track index whose MIME
   * starts with `prefix`, or None (the source's null) when no track does.
   */
  function ExtractMedia(f: MediaFile, prefix: string): (r: Option<nat>)
    ensures r.Some? ==> r.value < |f.tracks| && Matches(f.tracks[r.value], prefix)
    ensures r.Some? ==> forall j :: 0 <= j < r.value ==> !Matches(f.tracks[j], prefix)
    ensures r.None? <==> forall j :: 0 <= j < |f.tracks| ==> !Matches(f.tracks[j], prefix)
  {
    FirstMatchFrom(f.tracks, prefix, 0)
  }

  /** What `extractMedia` hands back: the extractor with that track selected, its index and format. */
  datatype Selection = Selection(demux: Demuxer, index: nat, format: Track)

  /** `extractMedia` followed by `selectTrack(index)`. */
  function SelectTrack(f: MediaFile, prefix: string): (r: Option<Selection>)
    ensures r.None? <==> ExtractMedia(f, prefix).None?
    ensures r.Some? ==> (r.value.index == ExtractMedia(f, prefix).value
                         && r.value.format == f.tracks[r.value.index]
                         && r.value.demux == Open(r.value.format.samples))
  {
    match ExtractMedia(f, prefix)
    case None => None
    case Some(i) => Some(Selection(Open(f.tracks[i].samples), i, f.tracks[i]))
  }

  /**
   * Given one audio and one video track (in either order), asking for
   * "audio/" selects the audio track and asking for "video/" the video one,
   * whatever their declared indices.
   */
  lemma SelectsByTypeNotPosition(f: MediaFile, audio: nat, video: nat)
    requires |f.tracks| == 2 && audio < 2 && video < 2 && audio != video
    requires f.tracks[audio].mime == Some("audio/mp4a-latm")
    requires f.tracks[video].mime == Some("video/avc")
    ensures ExtractMedia(f, "audio/") == Some(audio)
    ensures ExtractMedia(f, "video/") == Some(video)
  {
    assert Matches(f.tracks[audio], "audio/");
    assert Matches(f.tracks[video], "video/");
    assert !Matches(f.tracks[video], "audio/") by {
      assert "video/avc"[..6] != "audio/" by { assert "video/avc"[0] == 'v'; }
    }
    assert !Matches(f.tracks[audio], "video/") by {
      assert "audio/mp4a-latm"[..6] != "video/" by { assert "audio/mp4a-latm"[0] == 'a'; }
    }
  }
}
