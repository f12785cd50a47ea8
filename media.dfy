/**
 * Shared vocabulary of the merge pipelines: samples, tracks and files as the
 * demuxer (MediaExtractor) sees them, the buffer metadata the codecs report
 * (MediaCodec.BufferInfo), and the platform constants the pipelines test.
 */
module Media {

  datatype Option<+T> = None | Some(value: T)

  /** One byte of payload. */
  type Byte = x: int | 0 <= x < 256

  /** MediaExtractor.getSampleTime() once the extractor has run out of samples. */
  const NO_SAMPLE_TIME: int := -1

  /** MediaExtractor.readSampleData() once the extractor has run out of samples. */
  const NO_SAMPLE_SIZE: int := -1

  /** MediaCodec.BUFFER_FLAG_CODEC_CONFIG */
  const BUFFER_FLAG_CODEC_CONFIG: int := 2

  /** MediaCodec.BUFFER_FLAG_END_OF_STREAM */
  const BUFFER_FLAG_END_OF_STREAM: int := 4

  /** Bit test `flags and flag != 0`, for the single-bit flags above. */
  predicate HasFlag(flags: int, flag: int)
    requires flag == BUFFER_FLAG_CODEC_CONFIG || flag == BUFFER_FLAG_END_OF_STREAM
  {
    (flags / flag) % 2 == 1
  }

  /** One compressed sample of a track: its byte count, raw timestamp (µs) and flags. */
  datatype Sample = Sample(size: nat, rawTs: int, flags: int)

  /**
   * One track of a container file. `mime` is the KEY_MIME string of its
   * format, absent when the format has none; the audio parameters are the
   * KEY_SAMPLE_RATE and KEY_CHANNEL_COUNT entries.
   */
  datatype Track = Track(mime: Option<string>, sampleRate: int, channelCount: int, samples: seq<Sample>)

  /** A container file: its tracks in declaration order. */
  datatype MediaFile = MediaFile(tracks: seq<Track>)

  /**
   * A MediaExtractor with one selected track: the samples of that track, a
   * read cursor, and whether release() has been called on it.
   */
  datatype Demuxer = Demuxer(samples: seq<Sample>, cursor: nat, released: bool)
  {
    predicate Exhausted() { cursor >= |samples| }

    /** readSampleData(): the current sample's size, or -1 when none is left. */
    function ReadSampleData(): (size: int)
      ensures size == NO_SAMPLE_SIZE <==> Exhausted()
      ensures size >= 0 <==> !Exhausted()
    {
      if cursor < |samples| then samples[cursor].size else NO_SAMPLE_SIZE
    }

    /** getSampleTime(): the current sample's raw timestamp, or -1 when none is left. */
    function SampleTime(): int
    {
      if cursor < |samples| then samples[cursor].rawTs else NO_SAMPLE_TIME
    }

    /** getSampleFlags(): the current sample's flags, or -1 when none is left. */
    function SampleFlags(): int
    {
      if cursor < |samples| then samples[cursor].flags else -1
    }

    /** advance(): move to the next sample; nothing moves past the end. */
    function Advance(): (d: Demuxer)
      ensures d.samples == samples && d.released == released
      ensures d.cursor == if cursor < |samples| then cursor + 1 else cursor
    {
      if cursor < |samples| then this.(cursor := cursor + 1) else this
    }
  }

  /** A fresh extractor over `samples`, positioned at the first one. */
  function Open(samples: seq<Sample>): Demuxer
  {
    Demuxer(samples, 0, false)
  }

  /** Metadata of one queueInputBuffer call: size, presentation time (µs), flags. */
  datatype Queued = Queued(size: int, ts: int, flags: int)

  /** The empty, flag-less buffer queued at a file boundary. */
  const EMPTY_BUFFER: Queued := Queued(0, 0, 0)

  /** The end-of-stream buffer queued when the last file is exhausted. */
  const EOS_BUFFER: Queued := Queued(0, 0, BUFFER_FLAG_END_OF_STREAM)

  /** MediaCodec.BufferInfo of a dequeued output buffer. */
  datatype BufferInfo = BufferInfo(size: int, ts: int, flags: int)

  /**
   * Result of MediaCodec.dequeueOutputBuffer: INFO_TRY_AGAIN_LATER, another
   * negative INFO_ code (format or buffers changed), or a buffer.
   */
  datatype OutputPoll = TryAgainLater | OtherInfo | Output(info: BufferInfo)

  /** The exceptions a pipeline run can end with. */
  datatype Failure =
    | NoSuchElement      // `next()` on an empty file list
    | MissingTrack       // `!!` on the format of a first file without a matching track
    | ReleasedExtractor  // a read from an extractor that was already released
    | MuxerState         // writeSampleData on a muxer that is not started, or to an unknown track
    | NoTrackZero        // getTrackFormat(0) on a file without tracks
    | DivideByZero       // integer division by zero

  /**
   * How a pipeline run ends: normally, with an exception, or Stalled when
   * the codec responses it was given ran out before the loop finished.
   */
  datatype Outcome = Completed | Threw(failure: Failure) | Stalled

  /** Kotlin's `Int`: two's-complement 32-bit wrap-around of an integer. */
  function Wrap32(x: int): (r: int)
    ensures -0x8000_0000 <= r < 0x8000_0000
    ensures (x - r) % 0x1_0000_0000 == 0
    ensures -0x8000_0000 <= x < 0x8000_0000 ==> r == x
  {
    var m := x % 0x1_0000_0000;
    if m < 0x8000_0000 then m else m - 0x1_0000_0000
  }

  /** Adding to a wrapped `Int` wraps the exact sum. */
  lemma Wrap32Add(a: int, b: int)
    ensures Wrap32(Wrap32(a) + b) == Wrap32(a + b)
  {
    var M := 0x1_0000_0000;
    var w := Wrap32(a);
    var k := (a - w) / M;
    assert a - w == k * M;
    assert (w + b) % M == (a + b) % M by {
      assert a + b == (w + b) + k * M;
    }
  }

  /** Kotlin's integer `/`: the quotient truncated toward zero. */
  function TruncDiv(a: int, b: int): (q: int)
    requires b != 0
    ensures a >= 0 && b > 0 ==> q == a / b
    ensures (a >= 0) == (b > 0) ==> q >= 0
  {
    var q0 := (if a >= 0 then a else -a) / (if b > 0 then b else -b);
    if (a >= 0) == (b > 0) then q0 else -q0
  }
}
