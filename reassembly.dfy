/**
 * The Twilio media-stream receive loop (`twilio_receiver`) of both servers:
 * it reads decoded Twilio events, appends the audio of the inbound track to
 * a byte buffer, cuts that buffer into fixed 3200-byte frames for the speech
 * agent's audio queue, and publishes the stream id on the stream-id queue.
 *
 * The two copies differ, so the model keeps them apart with `Variant`:
 * - `CombinedServer` (twilio-in-browser-calls-main/main.py) reads fields with
 *   `.get`, so a missing `event` or `track` is harmless, and it enqueues an
 *   empty end-of-stream chunk when the loop ends;
 * - `MediaServer` (lib/server.py) indexes with `[...]`, so a missing `event`
 *   or `track` raises inside the `try` and its bare `except: break` ends the
 *   loop, and no end-of-stream chunk is ever sent.
 */
module Reassembly {
  import opened Common

  datatype Variant = CombinedServer | MediaServer

  /** 20 Twilio messages of 160 bytes: 0.4 s of 8 kHz 8-bit audio. */
  const BUFFER_SIZE: nat := 3200

  /** One chunk on the agent's audio queue; the empty chunk is the end-of-stream signal. */
  type Chunk = seq<byte>

  /**
   * One Twilio WebSocket message after `json.loads` and `base64.b64decode`.
   * The absent parts stand for the ways the message can make the decoding raise.
   */
  datatype Event =
    | Start(streamSid: Option<string>)   // None: `start` or `streamSid` is missing
    | Connected
    | Media(track: Option<string>, payload: Option<seq<byte>>)
                                         // payload None: `media`/`payload` missing or not base64
    | Stop
    | OtherEvent                         // an `event` value none of the branches match
    | NoEvent                            // a JSON object without an `event` key
    | Malformed                          // not JSON, or JSON but not an object

  /** The receiver's local buffer and the two queues it fills. */
  datatype Receiver = Receiver(inbuffer: seq<byte>, audio: seq<Chunk>, sids: seq<string>)

  const Initial: Receiver := Receiver([], [], [])

  /** Between events the buffer holds less than a frame and every queued chunk is one frame. */
  ghost predicate Valid(rx: Receiver) {
    && |rx.inbuffer| < BUFFER_SIZE
    && forall i :: 0 <= i < |rx.audio| ==> |rx.audio[i]| == BUFFER_SIZE
  }

  /** The `while len(inbuffer) >= BUFFER_SIZE` loop: queue the first frame, keep the rest. */
  function FlushFrames(rx: Receiver): Receiver
    decreases |rx.inbuffer|
  {
    if |rx.inbuffer| >= BUFFER_SIZE then
      FlushFrames(rx.(audio := rx.audio + [rx.inbuffer[..BUFFER_SIZE]],
                      inbuffer := rx.inbuffer[BUFFER_SIZE..]))
    else rx
  }

  /**
   * The events that end the receive loop: `stop`, or a message whose decoding
   * raises (a missing key, bad JSON, bad base64). Stated on its own so that
   * `Step` can be checked against it.
   */
  predicate EndsLoop(v: Variant, e: Event) {
    || e.Malformed?
    || e.Stop?
    || (e.Start? && e.streamSid.None?)
    || (e.Media? && e.payload.None?)
    || (v == MediaServer && (e.NoEvent? || (e.Media? && e.track.None?)))
  }

  /**
   * One pass of the loop body; None when the loop breaks. Every raise happens
   * before the buffer or a queue is touched, so breaking leaves the state as it was.
   */
  function Step(v: Variant, rx: Receiver, e: Event): (next: Option<Receiver>)
    ensures next.None? <==> EndsLoop(v, e)
  {
    match e
    case Malformed => None
    case NoEvent => if v == MediaServer then None else Some(FlushFrames(rx))
    case Start(sid) =>
      if sid.None? then None else Some(FlushFrames(rx.(sids := rx.sids + [sid.value])))
    case Connected => Some(rx)
    case Media(track, payload) =>
      if payload.None? || (v == MediaServer && track.None?) then None
      else if track == Some("inbound") then Some(FlushFrames(rx.(inbuffer := rx.inbuffer + payload.value)))
      else Some(FlushFrames(rx))
    case Stop => None
    case OtherEvent => Some(FlushFrames(rx))
  }

  /**
   * lib/server.py's loop breaks on everything main.py's breaks on, and also on
   * a message without `event` and a media event without `track`.
   */
  lemma MediaServerExits(rx: Receiver, e: Event)
    ensures Step(MediaServer, rx, e).None? <==>
              Step(CombinedServer, rx, e).None? || e.NoEvent? || (e.Media? && e.track.None?)
  {
  }

  /** The state the loop ends in when it starts in `rx` and reads `evs`. */
  function RunFrom(v: Variant, rx: Receiver, evs: seq<Event>): Receiver
    decreases |evs|
  {
    if evs == [] then rx
    else match Step(v, rx, evs[0])
      case None => rx
      case Some(next) => RunFrom(v, next, evs[1..])
  }

  /** What the receiver leaves on the audio queue for a whole connection. */
  function AudioQueue(v: Variant, evs: seq<Event>): seq<Chunk> {
    RunFrom(v, Initial, evs).audio + (if v == CombinedServer then [[]] else [])
  }

  /** The bytes one event adds to the buffer: the payload of an inbound media event. */
  function Inbound(e: Event): seq<byte> {
    if e.Media? && e.track == Some("inbound") && e.payload.Some? then e.payload.value else []
  }

  /** The stream id one event adds to the id queue: that of a `start` event. */
  function StartedId(e: Event): seq<string> {
    if e.Start? && e.streamSid.Some? then [e.streamSid.value] else []
  }

  /** The payloads of the inbound track up to the event that ends the loop, in arrival order. */
  function Heard(v: Variant, evs: seq<Event>): seq<byte>
    decreases |evs|
  {
    if evs == [] || EndsLoop(v, evs[0]) then [] else Inbound(evs[0]) + Heard(v, evs[1..])
  }

  /** The stream ids of the `start` events up to the event that ends the loop. */
  function StartedIds(v: Variant, evs: seq<Event>): seq<string>
    decreases |evs|
  {
    if evs == [] || EndsLoop(v, evs[0]) then []
    else StartedId(evs[0]) + StartedIds(v, evs[1..])
  }

  /**
   * The receive loop itself, over the messages of one connection. Running
   * out of messages is the socket closing normally, which ends `async for`
   * quietly; an abnormal close raises out of `async for` itself, outside the
   * `try`, and is not modelled.
   */
  method TwilioReceiver(v: Variant, messages: seq<Event>) returns (audioQueue: seq<Chunk>, streamSidQueue: seq<string>)
    ensures audioQueue == AudioQueue(v, messages)
    ensures streamSidQueue == RunFrom(v, Initial, messages).sids
  {
    var inbuffer: seq<byte> := [];
    audioQueue, streamSidQueue := [], [];
    var i := 0;
    while i < |messages|
      invariant 0 <= i <= |messages|
      invariant RunFrom(v, Initial, messages) == RunFrom(v, Receiver(inbuffer, audioQueue, streamSidQueue), messages[i..])
    {
      var data := messages[i];
      ghost var before := Receiver(inbuffer, audioQueue, streamSidQueue);
      assert messages[i..][0] == data && messages[i..][1..] == messages[i + 1..];
      if data.Malformed? || (data.NoEvent? && v == MediaServer) {
        break;
      }
      if data.Start? {
        if data.streamSid.None? {
          break;
        }
        streamSidQueue := streamSidQueue + [data.streamSid.value];
      } else if data.Connected? {
        i := i + 1;
        continue;
      } else if data.Media? {
        if data.payload.None? || (v == MediaServer && data.track.None?) {
          break;
        }
        if data.track == Some("inbound") {
          inbuffer := inbuffer + data.payload.value;
        }
      } else if data.Stop? {
        break;
      }
      ghost var target := FlushFrames(Receiver(inbuffer, audioQueue, streamSidQueue));
      assert Step(v, before, data) == Some(target);
      while |inbuffer| >= BUFFER_SIZE
        invariant FlushFrames(Receiver(inbuffer, audioQueue, streamSidQueue)) == target
        decreases |inbuffer|
      {
        var chunk := inbuffer[..BUFFER_SIZE];
        audioQueue := audioQueue + [chunk];
        inbuffer := inbuffer[BUFFER_SIZE..];
      }
      i := i + 1;
    }
    if v == CombinedServer {
      audioQueue := audioQueue + [[]];
    }
  }

  // ---------------------------------------------------------------------
  // Framing

  /**
   * A flush keeps the chunks already queued and the id queue, queues only
   * whole 3200-byte frames, and leaves less than a frame behind.
   */
  lemma {:induction false} FlushFramesShape(rx: Receiver)
    ensures var r := FlushFrames(rx);
      && |rx.audio| <= |r.audio|
      && r.audio[..|rx.audio|] == rx.audio
      && r.sids == rx.sids
      && |r.inbuffer| < BUFFER_SIZE
      && forall k :: |rx.audio| <= k < |r.audio| ==> |r.audio[k]| == BUFFER_SIZE
    decreases |rx.inbuffer|
  {
    if |rx.inbuffer| >= BUFFER_SIZE {
      var buf := rx.inbuffer;
      var rx' := rx.(audio := rx.audio + [buf[..BUFFER_SIZE]], inbuffer := buf[BUFFER_SIZE..]);
      FlushFramesShape(rx');
      var r := FlushFrames(rx');
      assert r == FlushFrames(rx);
      assert r.audio[..|rx.audio|] == r.audio[..|rx'.audio|][..|rx.audio|];
      assert r.audio[|rx.audio|] == r.audio[..|rx'.audio|][|rx.audio|];
    }
  }

  /** Slicing a suffix is slicing the whole at shifted bounds. */
  lemma SliceOfSuffix(buf: seq<byte>, a: nat, lo: nat, hi: nat)
    requires a <= |buf| && lo <= hi <= |buf| - a
    ensures buf[a..][lo..hi] == buf[a + lo..a + hi]
    ensures buf[a..][lo..] == buf[a + lo..]
  {
  }

  /**
   * A flush queues its j-th new chunk as bytes [3200j, 3200(j+1)) of the
   * buffer, in order, and keeps what follows the last whole frame.
   */
  lemma {:induction false} FlushFramesSlices(rx: Receiver)
    ensures |rx.audio| <= |FlushFrames(rx).audio|
    ensures BUFFER_SIZE * (|FlushFrames(rx).audio| - |rx.audio|) <= |rx.inbuffer|
    ensures FlushFrames(rx).inbuffer == rx.inbuffer[BUFFER_SIZE * (|FlushFrames(rx).audio| - |rx.audio|)..]
    ensures forall k :: |rx.audio| <= k < |FlushFrames(rx).audio| ==>
              FlushFrames(rx).audio[k] == rx.inbuffer[BUFFER_SIZE * (k - |rx.audio|)..BUFFER_SIZE * (k - |rx.audio| + 1)]
    decreases |rx.inbuffer|
  {
    if |rx.inbuffer| >= BUFFER_SIZE {
      var buf := rx.inbuffer;
      var rest := buf[BUFFER_SIZE..];
      var rx' := rx.(audio := rx.audio + [buf[..BUFFER_SIZE]], inbuffer := rest);
      FlushFramesSlices(rx');
      FlushFramesShape(rx');
      var r := FlushFrames(rx');
      assert r == FlushFrames(rx);
      var n := |r.audio| - |rx'.audio|;
      SliceOfSuffix(buf, BUFFER_SIZE, BUFFER_SIZE * n, BUFFER_SIZE * n);
      forall k | |rx.audio| <= k < |r.audio|
        ensures r.audio[k] == buf[BUFFER_SIZE * (k - |rx.audio|)..BUFFER_SIZE * (k - |rx.audio| + 1)]
      {
        var j := k - |rx.audio|;
        if j == 0 {
          assert r.audio[k] == r.audio[..|rx'.audio|][k];
        } else {
          assert r.audio[k] == rest[BUFFER_SIZE * (j - 1)..BUFFER_SIZE * j];
          SliceOfSuffix(buf, BUFFER_SIZE, BUFFER_SIZE * (j - 1), BUFFER_SIZE * j);
        }
      }
    }
  }

  /** A flush moves bytes from the buffer to the queue without losing or reordering any. */
  lemma {:induction false} FlushFramesConserves(rx: Receiver)
    ensures Flatten(FlushFrames(rx).audio) + FlushFrames(rx).inbuffer == Flatten(rx.audio) + rx.inbuffer
    decreases |rx.inbuffer|
  {
    if |rx.inbuffer| >= BUFFER_SIZE {
      var buf := rx.inbuffer;
      var rx' := rx.(audio := rx.audio + [buf[..BUFFER_SIZE]], inbuffer := buf[BUFFER_SIZE..]);
      FlushFramesConserves(rx');
      assert FlushFrames(rx) == FlushFrames(rx');
      FlattenAppend(rx.audio, buf[..BUFFER_SIZE]);
      calc {
        Flatten(rx'.audio) + rx'.inbuffer;
        (Flatten(rx.audio) + buf[..BUFFER_SIZE]) + buf[BUFFER_SIZE..];
        { assert buf[..BUFFER_SIZE] + buf[BUFFER_SIZE..] == buf; }
        Flatten(rx.audio) + buf;
      }
    }
  }

  lemma FlushFramesValid(rx: Receiver)
    requires forall i :: 0 <= i < |rx.audio| ==> |rx.audio[i]| == BUFFER_SIZE
    ensures Valid(FlushFrames(rx))
  {
    FlushFramesShape(rx);
    var r := FlushFrames(rx);
    forall i | 0 <= i < |r.audio| ensures |r.audio[i]| == BUFFER_SIZE {
      if i < |rx.audio| {
        assert r.audio[i] == r.audio[..|rx.audio|][i];
      }
    }
  }

  // ---------------------------------------------------------------------
  // One event

  /**
   * `connected`, `start`, a media event of another track and an unknown event
   * change neither the buffer nor the audio queue; only `start` adds its id.
   */
  lemma QuietEvents(v: Variant, rx: Receiver, e: Event)
    requires Valid(rx)
    requires !EndsLoop(v, e)
    requires !(e.Media? && e.track == Some("inbound"))
    ensures Step(v, rx, e).Some?
    ensures Step(v, rx, e).value.inbuffer == rx.inbuffer
    ensures Step(v, rx, e).value.audio == rx.audio
    ensures Step(v, rx, e).value.sids == rx.sids + StartedId(e)
  {
  }

  /** The event's state before the flush: its payload appended, or its id queued. */
  function Grown(rx: Receiver, e: Event): Receiver {
    rx.(inbuffer := rx.inbuffer + Inbound(e), sids := rx.sids + StartedId(e))
  }

  /** Every event that continues the loop is a flush of the grown state, except `connected`. */
  lemma StepIsFlush(v: Variant, rx: Receiver, e: Event)
    requires !EndsLoop(v, e)
    ensures Step(v, rx, e) == Some(if e.Connected? then rx else FlushFrames(Grown(rx, e)))
  {
    if e.Start? {
      assert Grown(rx, e) == rx.(sids := rx.sids + [e.streamSid.value]);
    } else if e.Media? && e.track == Some("inbound") {
      assert Grown(rx, e) == rx.(inbuffer := rx.inbuffer + e.payload.value);
    } else {
      assert Grown(rx, e) == rx;
    }
  }

  /** An inbound media event appends its payload to what is buffered or queued. */
  lemma StepConserves(v: Variant, rx: Receiver, e: Event)
    requires !EndsLoop(v, e)
    ensures Flatten(Step(v, rx, e).value.audio) + Step(v, rx, e).value.inbuffer
         == Flatten(rx.audio) + rx.inbuffer + Inbound(e)
  {
    StepIsFlush(v, rx, e);
    if !e.Connected? {
      FlushFramesConserves(Grown(rx, e));
    }
  }

  /** An event never withdraws a queued chunk, and queues the id of a `start` event. */
  lemma StepKeeps(v: Variant, rx: Receiver, e: Event)
    requires !EndsLoop(v, e)
    ensures Step(v, rx, e).value.sids == rx.sids + StartedId(e)
    ensures |rx.audio| <= |Step(v, rx, e).value.audio|
    ensures Step(v, rx, e).value.audio[..|rx.audio|] == rx.audio
  {
    StepIsFlush(v, rx, e);
    if !e.Connected? {
      FlushFramesShape(Grown(rx, e));
    }
  }

  lemma StepValid(v: Variant, rx: Receiver, e: Event)
    requires Valid(rx) && !EndsLoop(v, e)
    ensures Valid(Step(v, rx, e).value)
  {
    StepIsFlush(v, rx, e);
    if !e.Connected? {
      FlushFramesValid(Grown(rx, e));
    }
  }

  // ---------------------------------------------------------------------
  // A whole connection

  /** The flush rule holds after every event: the invariant survives the whole loop. */
  lemma {:induction false} RunValid(v: Variant, rx: Receiver, evs: seq<Event>)
    requires Valid(rx)
    ensures Valid(RunFrom(v, rx, evs))
    decreases |evs|
  {
    if evs != [] && !EndsLoop(v, evs[0]) {
      StepValid(v, rx, evs[0]);
      RunValid(v, Step(v, rx, evs[0]).value, evs[1..]);
    }
  }

  /** The loop after one event that does not end it. */
  lemma RunFromStep(v: Variant, rx: Receiver, evs: seq<Event>)
    requires evs != [] && !EndsLoop(v, evs[0])
    ensures RunFrom(v, rx, evs) == RunFrom(v, Step(v, rx, evs[0]).value, evs[1..])
    ensures Heard(v, evs) == Inbound(evs[0]) + Heard(v, evs[1..])
    ensures StartedIds(v, evs) == StartedId(evs[0]) + StartedIds(v, evs[1..])
  {
  }

  /**
   * The queued chunks followed by the remainder are exactly the inbound bytes,
   * in arrival order.
   */
  lemma {:induction false} RunConserves(v: Variant, rx: Receiver, evs: seq<Event>)
    ensures Flatten(RunFrom(v, rx, evs).audio) + RunFrom(v, rx, evs).inbuffer
         == Flatten(rx.audio) + rx.inbuffer + Heard(v, evs)
    decreases |evs|
  {
    if evs != [] && !EndsLoop(v, evs[0]) {
      var next := Step(v, rx, evs[0]).value;
      RunFromStep(v, rx, evs);
      StepConserves(v, rx, evs[0]);
      RunConserves(v, next, evs[1..]);
      var r := RunFrom(v, next, evs[1..]);
      calc {
        Flatten(r.audio) + r.inbuffer;
        Flatten(next.audio) + next.inbuffer + Heard(v, evs[1..]);
        (Flatten(rx.audio) + rx.inbuffer + Inbound(evs[0])) + Heard(v, evs[1..]);
        Flatten(rx.audio) + rx.inbuffer + Heard(v, evs);
      }
    } else {
      assert Heard(v, evs) == [];
    }
  }

  /**
   * Queued chunks are never reordered or withdrawn, and the id queue gains
   * the ids of the `start` events, in order.
   */
  lemma {:induction false} RunKeeps(v: Variant, rx: Receiver, evs: seq<Event>)
    ensures RunFrom(v, rx, evs).sids == rx.sids + StartedIds(v, evs)
    ensures |rx.audio| <= |RunFrom(v, rx, evs).audio|
    ensures RunFrom(v, rx, evs).audio[..|rx.audio|] == rx.audio
    decreases |evs|
  {
    if evs != [] && !EndsLoop(v, evs[0]) {
      var next := Step(v, rx, evs[0]).value;
      RunFromStep(v, rx, evs);
      StepKeeps(v, rx, evs[0]);
      RunKeeps(v, next, evs[1..]);
      var r := RunFrom(v, next, evs[1..]);
      assert r.audio[..|rx.audio|] == r.audio[..|next.audio|][..|rx.audio|];
    } else {
      assert StartedIds(v, evs) == [];
    }
  }

  /**
   * `stop`, or a message that raises, ends the loop where it stands: nothing
   * after it is read and the state it leaves (bytes under a frame included,
   * never queued) is the state before it.
   */
  lemma {:induction false} StopsAtExit(v: Variant, rx: Receiver, before: seq<Event>, e: Event, after: seq<Event>)
    requires EndsLoop(v, e)
    ensures RunFrom(v, rx, before + [e] + after) == RunFrom(v, rx, before + [e]) == RunFrom(v, rx, before)
    decreases |before|
  {
    if before == [] {
      assert (before + [e] + after)[0] == e;
      assert (before + [e])[0] == e;
    } else {
      assert (before + [e] + after)[0] == before[0] && (before + [e] + after)[1..] == before[1..] + [e] + after;
      assert (before + [e])[0] == before[0] && (before + [e])[1..] == before[1..] + [e];
      if !EndsLoop(v, before[0]) {
        StopsAtExit(v, Step(v, rx, before[0]).value, before[1..], e, after);
      }
    }
  }

  /**
   * Over a whole connection: every queued chunk is one 3200-byte frame, fewer
   * than 3200 inbound bytes stay behind, and frames followed by what stays
   * behind are the inbound audio in arrival order.
   */
  lemma ConnectionFrames(v: Variant, evs: seq<Event>)
    ensures var r := RunFrom(v, Initial, evs);
      && (forall i :: 0 <= i < |r.audio| ==> |r.audio[i]| == BUFFER_SIZE)
      && |r.inbuffer| < BUFFER_SIZE
      && Flatten(r.audio) + r.inbuffer == Heard(v, evs)
      && r.sids == StartedIds(v, evs)
  {
    RunValid(v, Initial, evs);
    RunConserves(v, Initial, evs);
    RunKeeps(v, Initial, evs);
  }

  /**
   * When the inbound bytes add up to whole frames, all of them are queued:
   * exactly |heard| / 3200 frames and nothing left behind.
   */
  lemma WholeFramesAllQueued(v: Variant, evs: seq<Event>)
    requires |Heard(v, evs)| % BUFFER_SIZE == 0
    ensures RunFrom(v, Initial, evs).inbuffer == []
    ensures BUFFER_SIZE * |RunFrom(v, Initial, evs).audio| == |Heard(v, evs)|
  {
    var r := RunFrom(v, Initial, evs);
    ConnectionFrames(v, evs);
    FlattenUniform(r.audio, BUFFER_SIZE);
    var n := |r.audio|;
    assert |Heard(v, evs)| == BUFFER_SIZE * n + |r.inbuffer|;
    assert (BUFFER_SIZE * n + |r.inbuffer|) % BUFFER_SIZE == |r.inbuffer|;
  }

  /**
   * main.py's queue ends with exactly one empty chunk, and it is the only
   * empty one: every chunk before it is a full frame.
   */
  lemma CombinedQueueEndsWithSentinel(evs: seq<Event>)
    ensures var q := AudioQueue(CombinedServer, evs);
      && |q| >= 1
      && q[|q| - 1] == []
      && forall i :: 0 <= i < |q| - 1 ==> |q[i]| == BUFFER_SIZE
  {
    ConnectionFrames(CombinedServer, evs);
  }

  /** lib/server.py's queue holds only full frames: no end-of-stream chunk is ever sent. */
  lemma MediaServerQueueHasNoSentinel(evs: seq<Event>)
    ensures forall i :: 0 <= i < |AudioQueue(MediaServer, evs)| ==> |AudioQueue(MediaServer, evs)[i]| == BUFFER_SIZE
  {
    ConnectionFrames(MediaServer, evs);
  }
}
