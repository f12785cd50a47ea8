/**
 * MediaMuxer as abstract state: the track formats added, whether it has
 * been started and stopped, and the log of samples written.
 */
module Muxing {
  import opened Media

  /** One writeSampleData call: track index, size, presentation time, flags. */
  datatype MuxWrite = MuxWrite(track: int, size: int, ts: int, flags: int)

  class Muxer {
    var formats: seq<Track>
    var started: bool
    var stopped: bool
    var writes: seq<MuxWrite>

    constructor ()
      ensures formats == [] && !started && !stopped && writes == []
    {
      formats := [];
      started := false;
      stopped := false;
      writes := [];
    }

    /** addTrack: tracks may only be added before start(); returns the new track's index. */
    method AddTrack(format: Track) returns (index: int)
      requires !started
      modifies this
      ensures index == |old(formats)| && formats == old(formats) + [format]
      ensures started == old(started) && stopped == old(stopped) && writes == old(writes)
    {
      index := |formats|;
      formats := formats + [format];
    }

    /** start: once, after the tracks are added. */
    method Start()
      requires !started
      modifies this
      ensures started && formats == old(formats) && stopped == old(stopped) && writes == old(writes)
    {
      started := true;
    }

    /**
     * writeSampleData: accepted only on a started, not yet stopped muxer
     * and an index addTrack returned; the platform throws otherwise, which
     * `ok == false` reports.
     */
    method WriteSampleData(track: int, info: BufferInfo) returns (ok: bool)
      modifies this
      ensures ok <==> old(started) && !old(stopped) && 0 <= track < |old(formats)|
      ensures writes == if ok then old(writes) + [MuxWrite(track, info.size, info.ts, info.flags)] else old(writes)
      ensures formats == old(formats) && started == old(started) && stopped == old(stopped)
    {
      ok := started && !stopped && 0 <= track < |formats|;
      if ok {
        writes := writes + [MuxWrite(track, info.size, info.ts, info.flags)];
      }
    }

    /** stop: once, on a started muxer. */
    method Stop()
      requires started && !stopped
      modifies this
      ensures stopped && started && formats == old(formats) && writes == old(writes)
    {
      stopped := true;
    }
  }
}
