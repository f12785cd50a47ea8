/**
 * AudioDataMerge: decode every file's audio to PCM, stage the PCM bytes in
 * a temporary stream, then re-encode the staged stream with timestamps
 * computed from the number of bytes read so far.
 */
module AudioRestage {
  import opened Media
  import opened Continuity
  import opened FeedLoop
  import opened Muxing

  // ---------------------------------------------------------------------
  // Decode phase
  // ---------------------------------------------------------------------

  /** What the decoder's dequeueOutputBuffer gave: no buffer, or a PCM chunk. */
  datatype PcmPoll = NoPcm | Pcm(data: seq<Byte>)

  /** One iteration of the decode loop: input buffer granted?, then the output poll. */
  datatype DecodeRound = DecodeRound(inputGranted: bool, output: PcmPoll)

  /** How many of these rounds had a decoder input buffer granted. */
  function DecodeGranted(rounds: seq<DecodeRound>): nat
  {
    if rounds == [] then 0
    else DecodeGranted(rounds[..|rounds| - 1]) + (if rounds[|rounds| - 1].inputGranted then 1 else 0)
  }

  /** The staging stream after these rounds: their PCM chunks, concatenated in order. */
  function Staged(rounds: seq<DecodeRound>): seq<Byte>
  {
    if rounds == [] then []
    else
      var last := rounds[|rounds| - 1];
      Staged(rounds[..|rounds| - 1]) + (if last.output.Pcm? then last.output.data else [])
  }

  /**
   * The first loop of `merge()`. Each granted input buffer runs one feed
   * step, so the decoder receives the run's buffers one per granted round.
   * The loop breaks as soon as end of stream has been queued, so the output
   * poll of that round never happens; Stalled means the answers ran out
   * while the run was still going.
   */
  method DecodePhase(files: seq<MediaFile>, rounds: seq<DecodeRound>)
    returns (outcome: Outcome, queued: seq<Queued>, staging: seq<Byte>, polled: nat)
    ensures Init(files, "audio/").None? ==>
              outcome == Threw(InitFailure(files, "audio/")) && queued == [] && staging == []
    ensures Init(files, "audio/").Some? ==> queued <= Run(Init(files, "audio/").value).queued
    ensures outcome == Completed ==>
              Init(files, "audio/").Some?
              && Run(Init(files, "audio/").value).status == InputDone
              && queued == Run(Init(files, "audio/").value).queued
              && polled < |rounds| && rounds[polled].inputGranted
    ensures outcome == Threw(ReleasedExtractor) ==>
              Init(files, "audio/").Some? && Run(Init(files, "audio/").value).status == Failed
    ensures outcome.Threw? ==> outcome.failure in {NoSuchElement, MissingTrack, ReleasedExtractor}
    ensures outcome == Stalled ==> polled == |rounds|
    ensures polled <= |rounds| && staging == Staged(rounds[..polled])
    ensures Init(files, "audio/").Some? ==>
              |queued| == DecodeGranted(rounds[..polled]) + (if outcome == Completed then 1 else 0)
    ensures outcome == Threw(ReleasedExtractor) ==>
              queued == Run(Init(files, "audio/").value).queued && polled < |rounds| && rounds[polled].inputGranted
    ensures outcome == Stalled && Init(files, "audio/").Some? ==>
              queued != Run(Init(files, "audio/").value).queued || Run(Init(files, "audio/").value).status == Failed
  {
    queued, staging, polled := [], [], 0;
    var init := Init(files, "audio/");
    if init.None? {
      outcome := Threw(InitFailure(files, "audio/"));
      return;
    }
    var feeder := new Feeder(files, "audio/");
    outcome, queued, staging, polled := DecodeLoop(feeder, rounds, feeder.State());
  }

  /** The rounds of the decode loop, for a feeder that starts in state `start`. */
  method DecodeLoop(feeder: Feeder, rounds: seq<DecodeRound>, ghost start: FeedState)
    returns (outcome: Outcome, queued: seq<Queued>, staging: seq<Byte>, polled: nat)
    requires feeder.Valid() && feeder.status == Feeding && feeder.State() == start && Continuity.Valid(start)
    modifies feeder
    ensures queued <= Run(start).queued
    ensures outcome == Completed ==>
              Run(start).status == InputDone && queued == Run(start).queued
              && polled < |rounds| && rounds[polled].inputGranted
    ensures outcome == Threw(ReleasedExtractor) ==> Run(start).status == Failed
    ensures outcome == Completed || outcome == Stalled || outcome == Threw(ReleasedExtractor)
    ensures outcome == Stalled ==> polled == |rounds|
    ensures polled <= |rounds| && staging == Staged(rounds[..polled])
    ensures |queued| == |start.queued| + DecodeGranted(rounds[..polled]) + (if outcome == Completed then 1 else 0)
    ensures outcome == Threw(ReleasedExtractor) ==>
              queued == Run(start).queued && polled < |rounds| && rounds[polled].inputGranted
    ensures outcome == Stalled ==> queued != Run(start).queued || Run(start).status == Failed
  {
    queued, staging, polled := feeder.queued, [], 0;
    var i := 0;
    while i < |rounds|
      invariant 0 <= i <= |rounds| && polled == i
      invariant feeder.Valid() && feeder.status == Feeding
      invariant Run(feeder.State()) == Run(start)
      invariant queued == feeder.queued && |queued| == |start.queued| + DecodeGranted(rounds[..i])
      invariant staging == Staged(rounds[..i])
      decreases |rounds| - i
    {
      var round := rounds[i];
      assert rounds[..i + 1][..i] == rounds[..i];
      if round.inputGranted {
        feeder.OnInputBufferWithin(start);
        queued := feeder.queued;
        if feeder.status == Failed {
          outcome := Threw(ReleasedExtractor);
          return;
        }
        if feeder.status == InputDone {
          outcome := Completed;
          return;
        }
      }
      if round.output.Pcm? {
        staging := staging + round.output.data;
      }
      i := i + 1;
      polled := i;
    }
    QueuedPrefixOfRun(feeder.State());
    RunGoesOn(feeder.State());
    outcome := Stalled;
  }

  // ---------------------------------------------------------------------
  // Encode phase
  // ---------------------------------------------------------------------

  /** One queueInputBuffer call on the encoder: the PCM bytes, time (µs) and flags. */
  datatype PcmInput = PcmInput(data: seq<Byte>, ts: int, flags: int)

  /** One iteration of the encode loop: input buffer granted?, then the output poll. */
  datatype EncodeRound = EncodeRound(inputGranted: bool, output: OutputPoll)

  /**
   * `bufferedInputStream.read(buffer)` for a buffer of `capacity` bytes at
   * position `pos` of the staged file: 0 for an empty buffer, -1 at the end,
   * otherwise as many bytes as fit.
   */
  function ReadStaging(staging: seq<Byte>, pos: nat, capacity: nat): (n: int)
    requires pos <= |staging|
    ensures n == -1 <==> capacity > 0 && pos == |staging|
    ensures n > 0 ==> n <= capacity && pos + n <= |staging|
    ensures n > 0 <==> capacity > 0 && pos < |staging|
    ensures n > 0 ==> (n == capacity || pos + n == |staging|)
  {
    if capacity == 0 then 0
    else if pos == |staging| then -1
    else if |staging| - pos < capacity then |staging| - pos
    else capacity
  }

  /**
   * `1000000L * (totalBytesRead / (channelCount * 2)) / samplingRate`, with
   * `totalBytesRead` and `channelCount * 2` as 32-bit `Int`s; the time of a
   * chunk that follows `bytes` bytes. Before any byte it is 0; a zero
   * divisor throws, so no chunk ever follows one.
   */
  function ChunkTime(bytes: int, channelCount: int, samplingRate: int): int
  {
    var frameBytes := Wrap32(channelCount * 2);
    if bytes == 0 || frameBytes == 0 || samplingRate == 0 then 0
    else TruncDiv(1000000 * TruncDiv(Wrap32(bytes), frameBytes), samplingRate)
  }

  /** The PCM bytes carried by these encoder inputs, concatenated. */
  function DataOf(inputs: seq<PcmInput>): seq<Byte>
  {
    if inputs == [] then [] else DataOf(inputs[..|inputs| - 1]) + inputs[|inputs| - 1].data
  }

  /** How many of these rounds had an encoder input buffer granted. */
  function EncodeGranted(rounds: seq<EncodeRound>): nat
  {
    if rounds == [] then 0
    else EncodeGranted(rounds[..|rounds| - 1]) + (if rounds[|rounds| - 1].inputGranted then 1 else 0)
  }

  /**
   * What a granted encoder input buffer receives once `pos` staged bytes
   * have been read: the next chunk, as much as the read returns, stamped
   * with the time of the bytes before it; or an empty end-of-stream buffer
   * at time 0 when the read returns nothing.
   */
  function NextInput(staging: seq<Byte>, pos: nat, capacity: nat, channelCount: int, samplingRate: int): PcmInput
    requires pos <= |staging|
  {
    var size := ReadStaging(staging, pos, capacity);
    if size > 0 then PcmInput(staging[pos..pos + size], ChunkTime(pos, channelCount, samplingRate), 0)
    else PcmInput([], 0, BUFFER_FLAG_END_OF_STREAM)
  }

  /** The encoder inputs of `n` granted buffers, the staged stream read from its start. */
  function EncoderInputs(staging: seq<Byte>, capacity: nat, channelCount: int, samplingRate: int, n: nat)
    : (inputs: seq<PcmInput>)
    ensures |inputs| == n && DataOf(inputs) <= staging
  {
    if n == 0 then []
    else
      var prev := EncoderInputs(staging, capacity, channelCount, samplingRate, n - 1);
      var next := NextInput(staging, |DataOf(prev)|, capacity, channelCount, samplingRate);
      DataOfSnoc(prev, next);
      assert staging[..|DataOf(prev)|] + next.data <= staging;
      prev + [next]
  }

  lemma DataOfSnoc(inputs: seq<PcmInput>, x: PcmInput)
    ensures DataOf(inputs + [x]) == DataOf(inputs) + x.data
  {
    assert (inputs + [x])[..|inputs|] == inputs;
  }

  /** Encoder outputs of these rounds that get written: the ones with size > 0. */
  function Written(rounds: seq<EncodeRound>): seq<BufferInfo>
  {
    if rounds == [] then []
    else
      var last := rounds[|rounds| - 1];
      Written(rounds[..|rounds| - 1])
        + (if last.output.Output? && last.output.info.size > 0 then [last.output.info] else [])
  }

  /**
   * What the encoder has been given so far: the chunks carry the staged
   * stream from its start, in order and without loss; each chunk fits the
   * input buffer and is stamped with the time of the bytes before it; each
   * end-of-stream buffer is empty, at time 0, and queued only once the
   * staged stream is exhausted (or when the buffer has no room).
   */
  ghost predicate EncoderFed(inputs: seq<PcmInput>, staging: seq<Byte>, capacity: nat,
                             channelCount: int, samplingRate: int)
  {
    && DataOf(inputs) <= staging
    && (forall k :: 0 <= k < |inputs| ==>
          (inputs[k].flags == 0 || inputs[k].flags == BUFFER_FLAG_END_OF_STREAM))
    && (forall k :: 0 <= k < |inputs| && inputs[k].flags == 0 ==>
          0 < |inputs[k].data| <= capacity
          && inputs[k].ts == ChunkTime(|DataOf(inputs[..k])|, channelCount, samplingRate))
    && (forall k :: 0 <= k < |inputs| && inputs[k].flags == BUFFER_FLAG_END_OF_STREAM ==>
          inputs[k].data == [] && inputs[k].ts == 0
          && (capacity == 0 || |DataOf(inputs[..k])| == |staging|))
  }

  /** Queuing the next `size` staged bytes at the time of the bytes before them keeps EncoderFed. */
  lemma QueueChunk(inputs: seq<PcmInput>, staging: seq<Byte>, capacity: nat,
                   channelCount: int, samplingRate: int, pos: nat, size: nat)
    requires EncoderFed(inputs, staging, capacity, channelCount, samplingRate)
    requires pos + size <= |staging| && DataOf(inputs) == staging[..pos] && 0 < size <= capacity
    ensures var next := inputs + [PcmInput(staging[pos..pos + size], ChunkTime(pos, channelCount, samplingRate), 0)];
            EncoderFed(next, staging, capacity, channelCount, samplingRate)
            && DataOf(next) == staging[..pos + size]
  {
    var next := inputs + [PcmInput(staging[pos..pos + size], ChunkTime(pos, channelCount, samplingRate), 0)];
    assert next[..|inputs|] == inputs;
    assert staging[..pos] + staging[pos..pos + size] == staging[..pos + size];
    forall k | 0 <= k < |inputs|
      ensures next[..k] == inputs[..k]
    {
    }
  }

  /** Queuing end of stream once the staged stream is used up keeps EncoderFed. */
  lemma QueueEndOfStream(inputs: seq<PcmInput>, staging: seq<Byte>, capacity: nat,
                         channelCount: int, samplingRate: int)
    requires EncoderFed(inputs, staging, capacity, channelCount, samplingRate)
    requires capacity == 0 || DataOf(inputs) == staging
    ensures var next := inputs + [PcmInput([], 0, BUFFER_FLAG_END_OF_STREAM)];
            EncoderFed(next, staging, capacity, channelCount, samplingRate)
            && DataOf(next) == DataOf(inputs)
  {
    var next := inputs + [PcmInput([], 0, BUFFER_FLAG_END_OF_STREAM)];
    assert next[..|inputs|] == inputs;
    forall k | 0 <= k < |inputs|
      ensures next[..k] == inputs[..k]
    {
    }
  }

  /**
   * The reference inputs meet EncoderFed whatever the number of granted
   * buffers: the stream goes to the encoder in order and without loss, and
   * end of stream only once it is used up.
   */
  lemma {:induction false} EncoderInputsFed(staging: seq<Byte>, capacity: nat, channelCount: int,
                                            samplingRate: int, n: nat)
    ensures EncoderFed(EncoderInputs(staging, capacity, channelCount, samplingRate, n),
                       staging, capacity, channelCount, samplingRate)
  {
    if n > 0 {
      var prev := EncoderInputs(staging, capacity, channelCount, samplingRate, n - 1);
      EncoderInputsFed(staging, capacity, channelCount, samplingRate, n - 1);
      QueueNext(prev, staging, capacity, channelCount, samplingRate, |DataOf(prev)|);
    }
  }

  /** Queuing NextInput after the bytes already sent keeps EncoderFed. */
  lemma QueueNext(inputs: seq<PcmInput>, staging: seq<Byte>, capacity: nat,
                  channelCount: int, samplingRate: int, pos: nat)
    requires EncoderFed(inputs, staging, capacity, channelCount, samplingRate)
    requires pos <= |staging| && DataOf(inputs) == staging[..pos]
    ensures EncoderFed(inputs + [NextInput(staging, pos, capacity, channelCount, samplingRate)],
                       staging, capacity, channelCount, samplingRate)
  {
    var size := ReadStaging(staging, pos, capacity);
    if size > 0 {
      assert NextInput(staging, pos, capacity, channelCount, samplingRate)
             == PcmInput(staging[pos..pos + size], ChunkTime(pos, channelCount, samplingRate), 0);
      QueueChunk(inputs, staging, capacity, channelCount, samplingRate, pos, size);
    } else {
      assert NextInput(staging, pos, capacity, channelCount, samplingRate) == PcmInput([], 0, BUFFER_FLAG_END_OF_STREAM);
      QueueEndOfStream(inputs, staging, capacity, channelCount, samplingRate);
    }
  }

  /** The loop's time update computes ChunkTime of the bytes read so far. */
  lemma ChunkTimeAfter(bytes: int, total: int, channelCount: int, samplingRate: int)
    requires bytes > 0 && total == Wrap32(bytes)
    requires Wrap32(channelCount * 2) != 0 && samplingRate != 0
    ensures TruncDiv(1000000 * TruncDiv(total, Wrap32(channelCount * 2)), samplingRate)
            == ChunkTime(bytes, channelCount, samplingRate)
  {
  }

  /**
   * One encode-loop iteration in which the encoder handed out an input
   * buffer: read the next chunk of the staged stream into it and queue it
   * at the current time, then advance the byte count and the time; or
   * queue end of stream when nothing was read. `threw` reports the
   * division by zero of the time update.
   */
  method OnEncoderInput(staging: seq<Byte>, capacity: nat, channelCount: int, samplingRate: int,
                        inputs: seq<PcmInput>, pos: nat, totalBytesRead: int, presentationTime: int)
    returns (inputs': seq<PcmInput>, pos': nat, totalBytesRead': int, presentationTime': int, threw: bool)
    requires pos <= |staging| && DataOf(inputs) == staging[..pos]
    requires totalBytesRead == Wrap32(pos) && presentationTime == ChunkTime(pos, channelCount, samplingRate)
    requires EncoderFed(inputs, staging, capacity, channelCount, samplingRate)
    ensures EncoderFed(inputs', staging, capacity, channelCount, samplingRate)
    ensures threw <==> pos < |staging| && capacity > 0 && (Wrap32(channelCount * 2) == 0 || samplingRate == 0)
    ensures !threw ==>
              pos' <= |staging| && DataOf(inputs') == staging[..pos']
              && totalBytesRead' == Wrap32(pos') && presentationTime' == ChunkTime(pos', channelCount, samplingRate)
    ensures |inputs'| == |inputs| + 1 && inputs'[..|inputs|] == inputs
    ensures inputs' == inputs + [NextInput(staging, pos, capacity, channelCount, samplingRate)]
  {
    inputs', pos', totalBytesRead', presentationTime', threw := inputs, pos, totalBytesRead, presentationTime, false;
    var size := ReadStaging(staging, pos, capacity);
    if size > 0 {
      QueueChunk(inputs, staging, capacity, channelCount, samplingRate, pos, size);
      inputs' := inputs + [PcmInput(staging[pos..pos + size], presentationTime, 0)];
      pos' := pos + size;
      Wrap32Add(pos, size);
      totalBytesRead' := Wrap32(totalBytesRead + size);
      var frameBytes := Wrap32(channelCount * 2);
      if frameBytes == 0 || samplingRate == 0 {
        threw := true;
        return;
      }
      presentationTime' := TruncDiv(1000000 * TruncDiv(totalBytesRead', frameBytes), samplingRate);
      ChunkTimeAfter(pos', totalBytesRead', channelCount, samplingRate);
    } else {
      QueueEndOfStream(inputs, staging, capacity, channelCount, samplingRate);
      inputs' := inputs + [PcmInput([], 0, BUFFER_FLAG_END_OF_STREAM)];
    }
  }

  /**
   * The encode loop's state after `n` granted input buffers: the encoder
   * holds EncoderInputs of `n`, `pos` staged bytes have been read, and the
   * byte count and the time are those of `pos`.
   */
  ghost predicate EncoderAt(staging: seq<Byte>, capacity: nat, channelCount: int, samplingRate: int, n: nat,
                            inputs: seq<PcmInput>, pos: nat, totalBytesRead: int, presentationTime: int)
  {
    && pos <= |staging| && inputs == EncoderInputs(staging, capacity, channelCount, samplingRate, n)
    && DataOf(inputs) == staging[..pos]
    && totalBytesRead == Wrap32(pos) && presentationTime == ChunkTime(pos, channelCount, samplingRate)
  }

  /** OnEncoderInput on the loop's state: the next granted buffer gets the next reference input. */
  method GrantEncoderInput(staging: seq<Byte>, capacity: nat, channelCount: int, samplingRate: int, ghost n: nat,
                           inputs: seq<PcmInput>, pos: nat, totalBytesRead: int, presentationTime: int)
    returns (inputs': seq<PcmInput>, pos': nat, totalBytesRead': int, presentationTime': int, threw: bool)
    requires EncoderAt(staging, capacity, channelCount, samplingRate, n, inputs, pos, totalBytesRead, presentationTime)
    ensures inputs' == EncoderInputs(staging, capacity, channelCount, samplingRate, n + 1)
    ensures EncoderFed(inputs', staging, capacity, channelCount, samplingRate)
    ensures threw ==> Wrap32(channelCount * 2) == 0 || samplingRate == 0
    ensures !threw ==>
              EncoderAt(staging, capacity, channelCount, samplingRate, n + 1, inputs', pos', totalBytesRead', presentationTime')
  {
    EncoderInputsFed(staging, capacity, channelCount, samplingRate, n);
    inputs', pos', totalBytesRead', presentationTime', threw :=
      OnEncoderInput(staging, capacity, channelCount, samplingRate, inputs, pos, totalBytesRead, presentationTime);
  }

  /**
   * The second loop of `merge()`. Each granted encoder input buffer gets
   * the next NextInput of the staged stream, so the encoder receives
   * EncoderInputs of the granted rounds (one more when the time update of
   * the last one threw); encoder outputs of positive size are written to
   * the audio track, and the first empty one ends the loop. A zero
   * `channelCount * 2` or sampling rate throws at the first chunk's time
   * computation.
   */
  method EncodePhase(staging: seq<Byte>, capacity: nat, channelCount: int, samplingRate: int,
                     rounds: seq<EncodeRound>)
    returns (outcome: Outcome, inputs: seq<PcmInput>, writes: seq<BufferInfo>, polled: nat)
    ensures EncoderFed(inputs, staging, capacity, channelCount, samplingRate)
    ensures polled <= |rounds| && writes == Written(rounds[..polled])
    ensures outcome == Completed ==> 0 < polled && EndsEncode(rounds[polled - 1])
    ensures outcome.Threw? ==>
              outcome.failure == DivideByZero && (Wrap32(channelCount * 2) == 0 || samplingRate == 0)
    ensures outcome == Stalled ==> polled == |rounds|
    ensures outcome.Threw? ==> polled < |rounds| && rounds[polled].inputGranted
    ensures inputs == EncoderInputs(staging, capacity, channelCount, samplingRate,
                                    EncodeGranted(rounds[..polled]) + (if outcome.Threw? then 1 else 0))
    ensures forall j :: 0 <= j < polled && EndsEncode(rounds[j]) ==> outcome == Completed && j == polled - 1
  {
    inputs, writes, polled := [], [], 0;
    var pos: nat := 0;
    var totalBytesRead := 0;
    var presentationTime := 0;
    var i := 0;
    ghost var granted := 0;
    while i < |rounds|
      invariant 0 <= i <= |rounds| && polled == i
      invariant EncoderAt(staging, capacity, channelCount, samplingRate, granted, inputs, pos, totalBytesRead, presentationTime)
      invariant writes == Written(rounds[..i])
      invariant granted == EncodeGranted(rounds[..i])
      invariant forall j :: 0 <= j < i ==> !EndsEncode(rounds[j])
      decreases |rounds| - i
    {
      var round := rounds[i];
      EncodeRoundsNext(rounds, i);
      if round.inputGranted {
        var threw;
        inputs, pos, totalBytesRead, presentationTime, threw :=
          GrantEncoderInput(staging, capacity, channelCount, samplingRate, granted,
                            inputs, pos, totalBytesRead, presentationTime);
        granted := granted + 1;
        if threw {
          outcome := Threw(DivideByZero);
          return;
        }
      }
      i := i + 1;
      polled := i;
      if round.output.Output? {
        if round.output.info.size > 0 {
          writes := writes + [round.output.info];
        } else {
          outcome := Completed;
          EncoderInputsFed(staging, capacity, channelCount, samplingRate, granted);
          return;
        }
      }
    }
    EncoderInputsFed(staging, capacity, channelCount, samplingRate, granted);
    outcome := Stalled;
  }

  /** A round whose encoder output is empty: the encode loop ends there. */
  predicate EndsEncode(round: EncodeRound)
  {
    round.output.Output? && round.output.info.size <= 0
  }

  /** How the encode-loop counts grow by one round. */
  lemma EncodeRoundsNext(rounds: seq<EncodeRound>, i: nat)
    requires i < |rounds|
    ensures EncodeGranted(rounds[..i + 1]) == EncodeGranted(rounds[..i]) + (if rounds[i].inputGranted then 1 else 0)
    ensures Written(rounds[..i + 1]) == Written(rounds[..i])
              + (if rounds[i].output.Output? && rounds[i].output.info.size > 0 then [rounds[i].output.info] else [])
  {
    assert rounds[..i + 1][..i] == rounds[..i];
  }

  /**
   * With a positive channel count (small enough for `channelCount * 2` to
   * fit an `Int`) and a positive sampling rate, chunk times never go down
   * while the byte count fits an `Int`.
   */
  lemma ChunkTimeMonotone(n: int, m: int, channelCount: int, samplingRate: int)
    requires 0 <= n <= m < 0x8000_0000
    requires 0 < channelCount < 0x4000_0000 && samplingRate > 0
    ensures 0 <= ChunkTime(n, channelCount, samplingRate) <= ChunkTime(m, channelCount, samplingRate)
  {
    var d := channelCount * 2;
    if n > 0 {
      assert Wrap32(n) == n && Wrap32(m) == m && Wrap32(d) == d;
      DivMonotone(n, m, d);
      MulDivMonotone(n / d, m / d, samplingRate);
    } else if m > 0 {
      assert Wrap32(m) == m && Wrap32(d) == d;
      assert m / d >= 0;
      assert 1000000 * (m / d) >= 0;
    }
  }

  lemma MulMonotone(d: int, x: int, y: int)
    requires d >= 0 && x <= y
    ensures d * x <= d * y
  {
    assert d * y - d * x == d * (y - x);
  }

  lemma DivMonotone(a: int, b: int, d: int)
    requires 0 <= a <= b && d > 0
    ensures 0 <= a / d <= b / d
  {
    var qa, qb := a / d, b / d;
    assert a == d * qa + a % d && 0 <= a % d < d;
    assert b == d * qb + b % d && 0 <= b % d < d;
    if qa < 0 {
      MulMonotone(d, qa, -1);
      assert false;
    }
    if qa > qb {
      MulMonotone(d, qb + 1, qa);
      assert false;
    }
  }

  lemma MulDivMonotone(a: int, b: int, r: int)
    requires 0 <= a <= b && r > 0
    ensures 0 <= (1000000 * a) / r <= (1000000 * b) / r
  {
    DivMonotone(1000000 * a, 1000000 * b, r);
  }

  /**
   * Queued encoder times are non-decreasing and start at 0, given what
   * EncodePhase ensures of them, a staged stream that fits an `Int`, and
   * sane format parameters.
   */
  lemma EncoderTimesMonotone(inputs: seq<PcmInput>, staging: seq<Byte>, channelCount: int, samplingRate: int)
    requires |staging| < 0x8000_0000 && DataOf(inputs) <= staging
    requires 0 < channelCount < 0x4000_0000 && samplingRate > 0
    requires forall k :: 0 <= k < |inputs| && inputs[k].flags == 0 ==>
               inputs[k].ts == ChunkTime(|DataOf(inputs[..k])|, channelCount, samplingRate)
    ensures forall j, k :: 0 <= j < k < |inputs| && inputs[j].flags == 0 && inputs[k].flags == 0 ==>
              inputs[j].ts <= inputs[k].ts
    ensures |inputs| > 0 && inputs[0].flags == 0 ==> inputs[0].ts == 0
  {
    forall j, k | 0 <= j < k < |inputs| && inputs[j].flags == 0 && inputs[k].flags == 0
      ensures inputs[j].ts <= inputs[k].ts
    {
      DataOfPrefixGrows(inputs, j, k);
      DataOfPrefixGrows(inputs, k, |inputs|);
      assert inputs[..|inputs|] == inputs;
      ChunkTimeMonotone(|DataOf(inputs[..j])|, |DataOf(inputs[..k])|, channelCount, samplingRate);
    }
    if |inputs| > 0 && inputs[0].flags == 0 {
      assert DataOf(inputs[..0]) == [];
    }
  }

  lemma {:induction false} DataOfPrefixGrows(inputs: seq<PcmInput>, j: nat, k: nat)
    requires j <= k <= |inputs|
    ensures |DataOf(inputs[..j])| <= |DataOf(inputs[..k])|
    decreases k - j
  {
    if j < k {
      DataOfPrefixGrows(inputs, j, k - 1);
      assert inputs[..k][..k - 1] == inputs[..k - 1];
    }
  }

  /**
   * The byte count is a 32-bit `Int` (stereo, 44.1 kHz here): below 2^31
   * staged bytes a chunk's time is never negative, from 2^31 up to four
   * bytes short of 2^32 the count has wrapped negative and so has the time.
   */
  lemma TimeWrapsAfterTwoGigabytes(n: int)
    ensures 0 <= n < 0x8000_0000 ==> ChunkTime(n, 2, 44100) >= 0
    ensures 0x8000_0000 <= n <= 0xFFFF_FFFC ==> ChunkTime(n, 2, 44100) < 0
  {
    assert Wrap32(2 * 2) == 4;
    if 0x8000_0000 <= n <= 0xFFFF_FFFC {
      var w := Wrap32(n);
      assert n % 0x1_0000_0000 == n;
      assert w == n - 0x1_0000_0000;
      var q := TruncDiv(w, 4);
      assert q == -((-w) / 4) && (-w) / 4 >= 1;
      assert 1000000 * q <= -1000000;
      var a := 1000000 * q;
      assert TruncDiv(a, 44100) == -((-a) / 44100);
      assert (-a) / 44100 >= 1;
    }
  }

  /** The muxer writes for these encoder outputs, all to `track`, metadata unchanged. */
  function OnTrack(infos: seq<BufferInfo>, track: int): (w: seq<MuxWrite>)
    ensures |w| == |infos|
    ensures forall k :: 0 <= k < |w| ==>
              w[k] == MuxWrite(track, infos[k].size, infos[k].ts, infos[k].flags)
  {
    if infos == [] then []
    else OnTrack(infos[..|infos| - 1], track)
         + [MuxWrite(track, infos[|infos| - 1].size, infos[|infos| - 1].ts, infos[|infos| - 1].flags)]
  }

  /** Every encoder output this loop writes has a positive size. */
  lemma {:induction false} WrittenPositive(rounds: seq<EncodeRound>)
    ensures forall k :: 0 <= k < |Written(rounds)| ==> Written(rounds)[k].size > 0
  {
    if rounds != [] {
      WrittenPositive(rounds[..|rounds| - 1]);
    }
  }

  /**
   * `merge()` as a whole. The audio track is added once, from the first
   * file's extractor format, before start(); the encoder is configured
   * with that format's channel count and sampling rate; the encode loop
   * starts only after the decode loop has queued end of stream, on the
   * stream that loop staged; every muxer write goes to the audio track and
   * carries a non-empty encoder output.
   */
  method Merge(files: seq<MediaFile>, capacity: nat, decodeRounds: seq<DecodeRound>, encodeRounds: seq<EncodeRound>)
    returns (outcome: Outcome, decoded: Outcome, trackFormats: seq<Track>, queued: seq<Queued>, staging: seq<Byte>,
             decodePolled: nat, inputs: seq<PcmInput>, encodePolled: nat, writes: seq<MuxWrite>)
    ensures Init(files, "audio/").None? ==>
              decoded == Threw(InitFailure(files, "audio/")) && trackFormats == [] && queued == []
    ensures Init(files, "audio/").Some? ==>
              var start := Init(files, "audio/").value;
              trackFormats == [start.format]
              && queued <= Run(start).queued
              && decodePolled <= |decodeRounds| && staging == Staged(decodeRounds[..decodePolled])
              && EncoderFed(inputs, staging, capacity, start.format.channelCount, start.format.sampleRate)
    ensures inputs != [] || writes != [] ==>
              Init(files, "audio/").Some?
              && Run(Init(files, "audio/").value).status == InputDone
              && queued == Run(Init(files, "audio/").value).queued
    ensures forall k :: 0 <= k < |writes| ==> writes[k].track == 0 && writes[k].size > 0
    ensures outcome.Threw? ==>
              outcome.failure in {NoSuchElement, MissingTrack, ReleasedExtractor, DivideByZero}
    ensures decoded != Completed ==> outcome == decoded && inputs == [] && writes == [] && encodePolled == 0
    ensures decoded.Threw? ==> decoded.failure in {NoSuchElement, MissingTrack, ReleasedExtractor}
    ensures Init(files, "audio/").Some? ==>
              |queued| == DecodeGranted(decodeRounds[..decodePolled]) + (if decoded == Completed then 1 else 0)
    ensures decoded == Threw(ReleasedExtractor) ==>
              Init(files, "audio/").Some?
              && Run(Init(files, "audio/").value).status == Failed
              && queued == Run(Init(files, "audio/").value).queued
              && decodePolled < |decodeRounds| && decodeRounds[decodePolled].inputGranted
    ensures decoded == Stalled ==>
              decodePolled == |decodeRounds|
              && (Init(files, "audio/").Some? ==>
                    queued != Run(Init(files, "audio/").value).queued || Run(Init(files, "audio/").value).status == Failed)
    ensures decoded == Completed ==>
              Init(files, "audio/").Some?
              && var start := Init(files, "audio/").value;
              var channelCount, samplingRate := start.format.channelCount, start.format.sampleRate;
              && Run(start).status == InputDone && queued == Run(start).queued
              && decodePolled < |decodeRounds| && decodeRounds[decodePolled].inputGranted
              && EncodedToTrack(staging, capacity, channelCount, samplingRate, encodeRounds,
                                outcome, inputs, encodePolled, writes)
  {
    trackFormats, staging, decodePolled, inputs, encodePolled, writes := [], [], 0, [], 0, [];
    var init := Init(files, "audio/");
    if init.None? {
      outcome := Threw(InitFailure(files, "audio/"));
      decoded := outcome;
      queued := [];
      return;
    }
    var format := init.value.format;
    // the first file's format becomes track 0 of a fresh muxer, which is then started
    trackFormats := [format];
    outcome, queued, staging, decodePolled := DecodePhase(files, decodeRounds);
    decoded := outcome;
    if outcome != Completed {
      return;
    }
    outcome, inputs, encodePolled, writes :=
      EncodeToTrack(staging, capacity, format.channelCount, format.sampleRate, encodeRounds);
  }

  /**
   * What the encode loop on `staging` amounts to, its outputs written to
   * track 0: the writes are the non-empty encoder outputs of the polled
   * rounds; the encoder received EncoderInputs of the granted rounds (one
   * more when the time update of the last one threw); the loop ends at the
   * first empty encoder output, at a division by zero, or when the rounds
   * run out.
   */
  ghost predicate EncodedToTrack(staging: seq<Byte>, capacity: nat, channelCount: int, samplingRate: int,
                                 rounds: seq<EncodeRound>, outcome: Outcome, inputs: seq<PcmInput>,
                                 polled: nat, writes: seq<MuxWrite>)
  {
    && polled <= |rounds|
    && writes == OnTrack(Written(rounds[..polled]), 0)
    && inputs == EncoderInputs(staging, capacity, channelCount, samplingRate,
                               EncodeGranted(rounds[..polled]) + (if outcome.Threw? then 1 else 0))
    && (outcome == Completed ==> 0 < polled && EndsEncode(rounds[polled - 1]))
    && (outcome == Stalled ==> polled == |rounds|)
    && (outcome.Threw? ==>
          outcome.failure == DivideByZero && (Wrap32(channelCount * 2) == 0 || samplingRate == 0)
          && polled < |rounds| && rounds[polled].inputGranted)
    && (forall j :: 0 <= j < polled && EndsEncode(rounds[j]) ==> outcome == Completed && j == polled - 1)
  }

  /** The encode loop with its outputs written to the audio track, track 0 of the muxer. */
  method EncodeToTrack(staging: seq<Byte>, capacity: nat, channelCount: int, samplingRate: int,
                       rounds: seq<EncodeRound>)
    returns (outcome: Outcome, inputs: seq<PcmInput>, polled: nat, writes: seq<MuxWrite>)
    ensures EncodedToTrack(staging, capacity, channelCount, samplingRate, rounds, outcome, inputs, polled, writes)
    ensures EncoderFed(inputs, staging, capacity, channelCount, samplingRate)
    ensures forall k :: 0 <= k < |writes| ==> writes[k].track == 0 && writes[k].size > 0
  {
    var encoded;
    outcome, inputs, encoded, polled := EncodePhase(staging, capacity, channelCount, samplingRate, rounds);
    writes := OnTrack(encoded, 0);
    forall k | 0 <= k < |writes|
      ensures writes[k].track == 0 && writes[k].size > 0
    {
      WrittenPositive(rounds[..polled]);
      assert writes[k].size == encoded[k].size;
    }
  }
}
