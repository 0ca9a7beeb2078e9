/**
 * The anti-spoofing stage of lib/anti_spoofing.py: the byte recentering that
 * starts `resample_audio`, and `anti_spoofing_worker`, which collects
 * resampled chunks until they hold two seconds of 16 kHz audio, scores the
 * concatenation with the model, queues the score and starts again.
 *
 * The resampling filter, the peak normalisation, the model and the softmax
 * are floating-point code outside this model; they enter as functions.
 */
module AntiSpoofing {
  import opened Common

  /** The working sample rate after resampling. */
  const WORKING_RATE: nat := 16000

  /** Two seconds at the working rate. */
  const SPOOFING_WINDOW_SIZE_SAMPLES: nat := WORKING_RATE * 2

  // ---------------------------------------------------------------------
  // resample_audio, step one: recentering

  /**
   * As written: `np.frombuffer(chunk, dtype=np.uint8) - 128` subtracts in
   * `uint8`, so the difference wraps modulo 256 and stays in 0..255.
   */
  function WrapRecenter(b: byte): byte {
    (b - 128) % 256
  }

  /** The whole chunk, as written: every byte moved by 128 modulo 256. */
  function WrapRecenterChunk(chunk: seq<byte>): (s: seq<byte>)
    ensures |s| == |chunk|
    ensures forall i :: 0 <= i < |s| ==> s[i] == (chunk[i] as int + 128) % 256
  {
    seq(|chunk|, i requires 0 <= i < |chunk| => WrapRecenter(chunk[i]))
  }

  /** As intended: the signed sample of an unsigned 8-bit sample, midpoint 128 at zero. */
  function Recenter(b: byte): (r: int)
    ensures -128 <= r < 128
    ensures r + 128 == b
  {
    b - 128
  }

  /** The whole chunk recentred to signed samples, as the pipeline intends. */
  function RecenterChunk(chunk: seq<byte>): (s: seq<int>)
    ensures |s| == |chunk|
    ensures forall i :: 0 <= i < |s| ==> -128 <= s[i] < 128 && s[i] + 128 == chunk[i]
  {
    seq(|chunk|, i requires 0 <= i < |chunk| => Recenter(chunk[i]))
  }

  /**
   * The wrapped value agrees with the signed one modulo 256, and equals it
   * exactly for the upper half of the byte range only; wrapping loses
   * nothing, since applying it twice gives back the byte.
   */
  lemma WrapRecenterAgreesModulo(b: byte)
    ensures WrapRecenter(b) == Recenter(b) % 256
    ensures WrapRecenter(b) == Recenter(b) <==> b >= 128
    ensures WrapRecenter(WrapRecenter(b)) == b
  {
  }

  /** On a chunk of the upper half of the scale only, the code as written and the intended recentering agree. */
  lemma WrapRecenterAgreesOnUpperHalf(chunk: seq<byte>)
    ensures (forall i :: 0 <= i < |chunk| ==> chunk[i] >= 128) ==> WrapRecenterChunk(chunk) == RecenterChunk(chunk)
  {
    if forall i :: 0 <= i < |chunk| ==> chunk[i] >= 128 {
      forall i | 0 <= i < |chunk|
        ensures WrapRecenterChunk(chunk)[i] == RecenterChunk(chunk)[i]
      {
        WrapRecenterAgreesModulo(chunk[i]);
      }
    }
  }

  /**
   * The input that shows the wrap: the byte 0, the bottom of the unsigned
   * scale, becomes +128 instead of -128. Silence, the byte 128, becomes 0
   * either way, so the two agree only on the upper half of the scale.
   */
  lemma WrapRecenterCounterexample()
    ensures WrapRecenterChunk([0]) == [128]
    ensures RecenterChunk([0]) == [-128]
    ensures WrapRecenterChunk([0]) != RecenterChunk([0])
    ensures WrapRecenterChunk([128]) == [0] && RecenterChunk([128]) == [0]
  {
    assert WrapRecenterChunk([0])[0] == 128;
    assert RecenterChunk([0])[0] == -128;
    assert WrapRecenterChunk([128])[0] == 0;
    assert RecenterChunk([128])[0] == 0;
  }

  /**
   * `resample_audio`: recentre (the signed version, see `WrapRecenterChunk`
   * for what line 20 computes), then the resampling filter and the peak
   * normalisation, which are given as `filter`. `filter` is None where that
   * floating-point code raises, as torchaudio does on an empty chunk. On a
   * chunk of the upper half of the scale only, the filter sees exactly what
   * the code as written gives it.
   */
  function ResampleAudio<S>(chunk: seq<byte>, filter: seq<int> -> Option<seq<S>>): (r: Option<seq<S>>)
    ensures (forall i :: 0 <= i < |chunk| ==> chunk[i] >= 128) ==> r == filter(WrapRecenterChunk(chunk))
  {
    WrapRecenterAgreesOnUpperHalf(chunk);
    filter(RecenterChunk(chunk))
  }

  // ---------------------------------------------------------------------
  // Score extraction

  /** What the model returns: a tuple of tensors, or a single-element tensor. */
  datatype ModelOutput<L> = TupleOutput(elems: seq<L>) | TensorOutput(value: real)

  /**
   * A tuple carries the logits at index 1, whose softmax probability of class
   * 0 ("genuine") is the score; a tensor is the score. A tuple without an
   * index 1 raises: None.
   */
  function ExtractScore<L>(out: ModelOutput<L>, softmaxClass0: L -> real): (score: Option<real>)
    ensures out.TensorOutput? ==> score == Some(out.value)
    ensures out.TupleOutput? ==> (score.Some? <==> |out.elems| >= 2)
    ensures out.TupleOutput? && score.Some? ==> score.value == softmaxClass0(out.elems[1])
  {
    match out
    case TupleOutput(elems) => if |elems| >= 2 then Some(softmaxClass0(elems[1])) else None
    case TensorOutput(value) => Some(value)
  }

  /**
   * The floating-point collaborators of the worker. Each is None where it
   * raises: nothing in the worker catches an exception, so any of them ends it.
   */
  datatype Capabilities<!S, !L> = Capabilities(
    filter: seq<int> -> Option<seq<S>>,        // the resampler and the peak normalisation
    model: seq<S> -> Option<ModelOutput<L>>,   // `check_audio_file`, then the model
    softmaxClass0: L -> real)

  /** `resample_audio` with the worker's filter. */
  function Resample<S, L>(cap: Capabilities<S, L>, chunk: seq<byte>): Option<seq<S>> {
    ResampleAudio(chunk, cap.filter)
  }

  /** The score of a window; None when the model or the score extraction raises. */
  function Score<S, L>(cap: Capabilities<S, L>, window: seq<S>): Option<real> {
    match cap.model(window)
    case None => None
    case Some(out) => ExtractScore(out, cap.softmaxClass0)
  }

  // ---------------------------------------------------------------------
  // anti_spoofing_worker

  /** The worker's list of resampled chunks, and what it has scored so far. */
  datatype Worker<S> = Worker(buffer: seq<seq<S>>, windows: seq<seq<S>>, scores: seq<real>)

  /**
   * The worker's invariant: fewer than a window of samples is buffered, every
   * emitted window holds at least a window of samples, and the i-th score is
   * the score of the i-th window.
   */
  ghost predicate Valid<S, L>(cap: Capabilities<S, L>, w: Worker<S>) {
    && TotalLength(w.buffer) < SPOOFING_WINDOW_SIZE_SAMPLES
    && |w.windows| == |w.scores|
    && forall i :: 0 <= i < |w.windows| ==>
         SPOOFING_WINDOW_SIZE_SAMPLES <= |w.windows[i]| && Score(cap, w.windows[i]) == Some(w.scores[i])
  }

  /**
   * One chunk: resample it and append it; once the summed length reaches the
   * window size, score the untrimmed concatenation and empty the buffer.
   * None when resampling or scoring raises, which ends the worker.
   */
  function Push<S, L>(cap: Capabilities<S, L>, w: Worker<S>, chunk: seq<byte>): (r: Option<Worker<S>>)
    ensures Resample(cap, chunk).None? ==> r.None?
    ensures Resample(cap, chunk).Some? ==>
      var buffer := w.buffer + [Resample(cap, chunk).value];
      && (TotalLength(buffer) < SPOOFING_WINDOW_SIZE_SAMPLES ==> r == Some(w.(buffer := buffer)))
      && (TotalLength(buffer) >= SPOOFING_WINDOW_SIZE_SAMPLES ==>
            (r.None? <==> Score(cap, Flatten(buffer)).None?)
            && (r.Some? ==> r.value == Worker([], w.windows + [Flatten(buffer)],
                                               w.scores + [Score(cap, Flatten(buffer)).value])))
  {
    match Resample(cap, chunk)
    case None => None
    case Some(piece) =>
      var buffer := w.buffer + [piece];
      if TotalLength(buffer) < SPOOFING_WINDOW_SIZE_SAMPLES then Some(w.(buffer := buffer))
      else
        var window := Flatten(buffer);
        match Score(cap, window)
        case None => None
        case Some(s) => Some(Worker([], w.windows + [window], w.scores + [s]))
  }

  /** The worker's state after reading `queue`: it stops at the first None, or when a call raises. */
  function WorkerFrom<S, L>(cap: Capabilities<S, L>, w: Worker<S>, queue: seq<Option<seq<byte>>>): Worker<S>
    decreases |queue|
  {
    if queue == [] || queue[0].None? then w
    else match Push(cap, w, queue[0].value)
      case None => w
      case Some(next) => WorkerFrom(cap, next, queue[1..])
  }

  /** The resampled chunks before the first None, or before the first chunk whose resampling raises. */
  function Pieces<S, L>(cap: Capabilities<S, L>, queue: seq<Option<seq<byte>>>): seq<seq<S>>
    decreases |queue|
  {
    if queue == [] || queue[0].None? || Resample(cap, queue[0].value).None? then []
    else [Resample(cap, queue[0].value).value] + Pieces(cap, queue[1..])
  }

  /** `sum(c.size(0) for c in spoofing_buffer)`: the number of samples buffered. */
  method BufferedSize<S>(spoofingBuffer: seq<seq<S>>) returns (size: nat)
    ensures size == TotalLength(spoofingBuffer)
    ensures size == |Flatten(spoofingBuffer)|
  {
    size := 0;
    for j := 0 to |spoofingBuffer|
      invariant size == TotalLength(spoofingBuffer[..j])
    {
      assert spoofingBuffer[..j + 1] == spoofingBuffer[..j] + [spoofingBuffer[j]];
      FlattenAppend(spoofingBuffer[..j], spoofingBuffer[j]);
      size := size + |spoofingBuffer[j]|;
    }
    assert spoofingBuffer[..|spoofingBuffer|] == spoofingBuffer;
    FlattenLength(spoofingBuffer);
  }

  /**
   * The worker loop: `while True`, take a chunk (None stops it), resample and
   * append it, recompute the buffered size, and score, queue and reset at the
   * window size. A raise in resampling, in the model or in the score
   * extraction leaves the loop.
   */
  method AntiSpoofingWorker<S, L>(cap: Capabilities<S, L>, audioQueue: seq<Option<seq<byte>>>)
    returns (windows: seq<seq<S>>, spoofResults: seq<real>)
    ensures windows == WorkerFrom(cap, Worker([], [], []), audioQueue).windows
    ensures spoofResults == WorkerFrom(cap, Worker([], [], []), audioQueue).scores
  {
    var spoofingBuffer: seq<seq<S>> := [];
    windows, spoofResults := [], [];
    var i := 0;
    while i < |audioQueue|
      invariant 0 <= i <= |audioQueue|
      invariant WorkerFrom(cap, Worker([], [], []), audioQueue) == WorkerFrom(cap, Worker(spoofingBuffer, windows, spoofResults), audioQueue[i..])
    {
      var chunk := audioQueue[i];
      ghost var w := Worker(spoofingBuffer, windows, spoofResults);
      assert audioQueue[i..][0] == chunk && audioQueue[i..][1..] == audioQueue[i + 1..];
      if chunk.None? {
        WorkerFromStops(cap, w, audioQueue[i..]);
        break;
      }
      var resampledChunk := Resample(cap, chunk.value);
      if resampledChunk.None? {
        WorkerFromStops(cap, w, audioQueue[i..]);
        break;
      }
      spoofingBuffer := spoofingBuffer + [resampledChunk.value];
      var currentBufferSize := BufferedSize(spoofingBuffer);
      if currentBufferSize >= SPOOFING_WINDOW_SIZE_SAMPLES {
        var audioTensor := Flatten(spoofingBuffer);
        var output := cap.model(audioTensor);
        if output.None? {
          RaiseEndsWorker(cap, w, chunk.value, audioQueue[i + 1..]);
          break;
        }
        var score := ExtractScore(output.value, cap.softmaxClass0);
        if score.None? {
          RaiseEndsWorker(cap, w, chunk.value, audioQueue[i + 1..]);
          break;
        }
        spoofResults := spoofResults + [score.value];
        windows := windows + [audioTensor];
        spoofingBuffer := [];
      }
      assert Push(cap, w, chunk.value) == Some(Worker(spoofingBuffer, windows, spoofResults));
      WorkerFromStep(cap, w, audioQueue[i..]);
      i := i + 1;
    }
  }

  // ---------------------------------------------------------------------
  // Properties

  /** One chunk keeps the invariant and the windows already emitted. */
  lemma PushValid<S, L>(cap: Capabilities<S, L>, w: Worker<S>, chunk: seq<byte>)
    requires Valid(cap, w) && Push(cap, w, chunk).Some?
    ensures Valid(cap, Push(cap, w, chunk).value)
    ensures |w.windows| <= |Push(cap, w, chunk).value.windows|
    ensures Push(cap, w, chunk).value.windows[..|w.windows|] == w.windows
  {
    var next := Push(cap, w, chunk).value;
    var buffer := w.buffer + [Resample(cap, chunk).value];
    if TotalLength(buffer) >= SPOOFING_WINDOW_SIZE_SAMPLES {
      FlattenLength(buffer);
      assert next.windows[|w.windows|] == Flatten(buffer);
      assert TotalLength(next.buffer) == 0;
    }
  }

  /** The worker after one chunk that is resampled and scored without raising. */
  lemma WorkerFromStep<S, L>(cap: Capabilities<S, L>, w: Worker<S>, queue: seq<Option<seq<byte>>>)
    requires queue != [] && queue[0].Some? && Push(cap, w, queue[0].value).Some?
    ensures Resample(cap, queue[0].value).Some?
    ensures WorkerFrom(cap, w, queue) == WorkerFrom(cap, Push(cap, w, queue[0].value).value, queue[1..])
    ensures Pieces(cap, queue) == [Resample(cap, queue[0].value).value] + Pieces(cap, queue[1..])
  {
  }

  /** The worker at None, at the end of the queue, or at a chunk whose resampling raises. */
  lemma WorkerFromStops<S, L>(cap: Capabilities<S, L>, w: Worker<S>, queue: seq<Option<seq<byte>>>)
    requires queue == [] || queue[0].None? || Resample(cap, queue[0].value).None?
    ensures WorkerFrom(cap, w, queue) == w
    ensures Pieces(cap, queue) == []
  {
  }

  /**
   * Over any run the invariant holds: between emissions less than a window
   * is buffered, and exactly one score was queued per emitted window, in
   * window order, each the score of its window.
   */
  lemma {:induction false} WorkerValid<S, L>(cap: Capabilities<S, L>, w: Worker<S>, queue: seq<Option<seq<byte>>>)
    requires Valid(cap, w)
    ensures Valid(cap, WorkerFrom(cap, w, queue))
    ensures |w.windows| <= |WorkerFrom(cap, w, queue).windows|
    ensures WorkerFrom(cap, w, queue).windows[..|w.windows|] == w.windows
    decreases |queue|
  {
    if queue != [] && queue[0].Some? && Push(cap, w, queue[0].value).Some? {
      var next := Push(cap, w, queue[0].value).value;
      WorkerFromStep(cap, w, queue);
      PushValid(cap, w, queue[0].value);
      WorkerValid(cap, next, queue[1..]);
      var res := WorkerFrom(cap, next, queue[1..]);
      assert res.windows[..|w.windows|] == res.windows[..|next.windows|][..|w.windows|];
    } else {
      assert WorkerFrom(cap, w, queue) == w;
    }
  }

  /**
   * A window is the untrimmed concatenation of every chunk since the last
   * reset: at least the window size, and short of it plus the last chunk.
   */
  lemma EmittedWindowSize<S, L>(cap: Capabilities<S, L>, w: Worker<S>, chunk: seq<byte>)
    requires TotalLength(w.buffer) < SPOOFING_WINDOW_SIZE_SAMPLES
    requires Push(cap, w, chunk).Some? && |Push(cap, w, chunk).value.windows| > |w.windows|
    ensures Resample(cap, chunk).Some?
    ensures Push(cap, w, chunk).value.windows[|w.windows|] == Flatten(w.buffer + [Resample(cap, chunk).value])
    ensures SPOOFING_WINDOW_SIZE_SAMPLES <= |Push(cap, w, chunk).value.windows[|w.windows|]|
              < SPOOFING_WINDOW_SIZE_SAMPLES + |Resample(cap, chunk).value|
    ensures Push(cap, w, chunk).value.buffer == []
  {
    var piece := Resample(cap, chunk).value;
    var buffer := w.buffer + [piece];
    FlattenLength(buffer);
    FlattenAppend(w.buffer, piece);
  }

  /** One chunk that is resampled and scored without raising moves its samples onto the windows or the buffer. */
  lemma PushConserves<S, L>(cap: Capabilities<S, L>, w: Worker<S>, chunk: seq<byte>)
    requires Resample(cap, chunk).Some?
    requires Score(cap, Flatten(w.buffer + [Resample(cap, chunk).value])).Some?
    ensures Push(cap, w, chunk).Some?
    ensures Flatten(Push(cap, w, chunk).value.windows) + Flatten(Push(cap, w, chunk).value.buffer)
         == Flatten(w.windows) + Flatten(w.buffer) + Resample(cap, chunk).value
  {
    var piece := Resample(cap, chunk).value;
    var buffer := w.buffer + [piece];
    FlattenAppend(w.buffer, piece);
    if TotalLength(buffer) >= SPOOFING_WINDOW_SIZE_SAMPLES {
      FlattenAppend(w.windows, Flatten(buffer));
      var empty: seq<seq<S>> := [];
      assert Flatten(empty) == [];
    }
  }

  /** One conserving step of the worker, for a chunk that is resampled and scored without raising. */
  lemma WorkerConservesStep<S, L>(cap: Capabilities<S, L>, w: Worker<S>, queue: seq<Option<seq<byte>>>)
    requires queue != [] && queue[0].Some? && Resample(cap, queue[0].value).Some?
    requires Score(cap, Flatten(w.buffer + [Resample(cap, queue[0].value).value])).Some?
    ensures Push(cap, w, queue[0].value).Some?
    ensures WorkerFrom(cap, w, queue) == WorkerFrom(cap, Push(cap, w, queue[0].value).value, queue[1..])
    ensures Flatten(Push(cap, w, queue[0].value).value.windows) + Flatten(Push(cap, w, queue[0].value).value.buffer)
            + Flatten(Pieces(cap, queue[1..]))
         == Flatten(w.windows) + Flatten(w.buffer) + Flatten(Pieces(cap, queue))
  {
    var chunk := queue[0].value;
    var piece := Resample(cap, chunk).value;
    PushConserves(cap, w, chunk);
    var next := Push(cap, w, chunk).value;
    var rest := Pieces(cap, queue[1..]);
    WorkerFromStep(cap, w, queue);
    FlattenCons(piece, rest);
    var head := Flatten(w.windows) + Flatten(w.buffer);
    assert Flatten(next.windows) + Flatten(next.buffer) == head + piece;
    assert Flatten(Pieces(cap, queue)) == piece + Flatten(rest);
    ConcatAssoc(head, piece, Flatten(rest));
  }

  /**
   * With a model that always gives a score, the windows followed by the
   * unscored remainder are every resampled chunk before None (or before a
   * resampling that raises), in order: no window overlaps the next, nothing
   * is skipped, and only the remainder is dropped.
   */
  lemma {:induction false} WorkerConserves<S, L>(cap: Capabilities<S, L>, w: Worker<S>, queue: seq<Option<seq<byte>>>)
    requires forall window :: Score(cap, window).Some?
    ensures Flatten(WorkerFrom(cap, w, queue).windows) + Flatten(WorkerFrom(cap, w, queue).buffer)
         == Flatten(w.windows) + Flatten(w.buffer) + Flatten(Pieces(cap, queue))
    decreases |queue|
  {
    if queue != [] && queue[0].Some? && Resample(cap, queue[0].value).Some? {
      var window := Flatten(w.buffer + [Resample(cap, queue[0].value).value]);
      assert Score(cap, window).Some?;
      WorkerConservesStep(cap, w, queue);
      var next := Push(cap, w, queue[0].value).value;
      WorkerConserves(cap, next, queue[1..]);
    } else {
      WorkerFromStops(cap, w, queue);
      var empty: seq<seq<S>> := [];
      assert Flatten(empty) == [];
    }
  }

  /**
   * A chunk whose resampling or scoring raises ends the worker where it stands:
   * nothing after it is read and its state, partial buffer included, is kept unscored.
   */
  lemma RaiseEndsWorker<S, L>(cap: Capabilities<S, L>, w: Worker<S>, chunk: seq<byte>, after: seq<Option<seq<byte>>>)
    requires Push(cap, w, chunk).None?
    ensures WorkerFrom(cap, w, [Some(chunk)] + after) == w
  {
    assert ([Some(chunk)] + after)[0] == Some(chunk);
  }

  /**
   * None ends the worker where it stands: the state is what the chunks before
   * it left, so the partial buffer at that point is never scored, and nothing
   * after it is read.
   */
  lemma {:induction false} StopsAtNone<S, L>(cap: Capabilities<S, L>, w: Worker<S>, before: seq<Option<seq<byte>>>, after: seq<Option<seq<byte>>>)
    ensures WorkerFrom(cap, w, before + [None] + after) == WorkerFrom(cap, w, before)
    decreases |before|
  {
    if before == [] {
      assert (before + [None] + after)[0] == None;
    } else {
      assert (before + [None] + after)[1..] == before[1..] + [None] + after;
      if before[0].Some? {
        var r := Push(cap, w, before[0].value);
        if r.Some? {
          StopsAtNone(cap, r.value, before[1..], after);
        }
      }
    }
  }

  /** The window is not trimmed: two chunks resampled to 20000 samples each are scored as one 40000-sample window. */
  lemma UntrimmedWindow()
    ensures var cap := Capabilities((s: seq<int>) => Some(seq(20000, _ => 0)), (s: seq<int>) => Some(TensorOutput(1.0)), (l: int) => 0.0);
            var r := WorkerFrom(cap, Worker([], [], []), [Some([128]), Some([128])]);
            |r.windows| == 1 && |r.windows[0]| == 40000 > SPOOFING_WINDOW_SIZE_SAMPLES && r.scores == [1.0]
  {
    var cap: Capabilities<int, int> := Capabilities((s: seq<int>) => Some(seq(20000, _ => 0)), (s: seq<int>) => Some(TensorOutput(1.0)), (l: int) => 0.0);
    var chunk: seq<byte> := [128];
    var piece: seq<int> := seq(20000, _ => 0);
    assert Resample(cap, chunk) == Some(piece);
    var q: seq<Option<seq<byte>>> := [Some(chunk), Some(chunk)];
    assert TotalLength([piece]) == 20000 by { assert [piece][..0] == []; }
    var w1 := Worker([piece], [], []);
    assert Push(cap, Worker([], [], []), chunk) == Some(w1);
    assert TotalLength([piece, piece]) == 40000 by { assert [piece, piece][..1] == [piece]; }
    FlattenLength([piece, piece]);
    var w2 := Worker([], [Flatten([piece, piece])], [1.0]);
    assert w1.buffer + [piece] == [piece, piece];
    assert Score(cap, Flatten([piece, piece])) == Some(1.0);
    assert TotalLength(w1.buffer + [Resample(cap, chunk).value]) >= SPOOFING_WINDOW_SIZE_SAMPLES;
    var r2 := Push(cap, w1, chunk);
    assert r2.Some?;
    assert r2.value.scores == w1.scores + [1.0] == [1.0];
    assert r2.value.windows == w1.windows + [Flatten([piece, piece])] == [Flatten([piece, piece])];
    assert r2 == Some(w2);
    assert q[1..][1..] == [];
    assert WorkerFrom(cap, Worker([], [], []), q) == WorkerFrom(cap, w1, q[1..]) == WorkerFrom(cap, w2, []);
  }
}
