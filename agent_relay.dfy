/**
 * The two coroutines that face the speech agent: `sts_sender`, which drains
 * the audio queue into the agent's socket, and `sts_receiver`, which waits
 * for the stream id and then turns every agent message into a barge-in
 * `clear`, a media message back to Twilio, a fraud alert (main.py) or a
 * logged analysis (lib/server.py).
 */
module AgentRelay {
  import opened Common
  import opened Reassembly

  // ---------------------------------------------------------------------
  // sts_sender

  /**
   * `sent` is what a sender that stops at the first empty chunk forwards
   * from `queue`: a prefix of it, of non-empty chunks only, followed in the
   * queue by the empty chunk (or by nothing, when the queue ran dry).
   */
  ghost predicate ForwardsUntilSentinel(queue: seq<Chunk>, sent: seq<Chunk>) {
    && |sent| <= |queue|
    && sent == queue[..|sent|]
    && (forall i :: 0 <= i < |sent| ==> sent[i] != [])
    && (|sent| < |queue| ==> queue[|sent|] == [])
  }

  /**
   * main.py's sender: forwards chunks in queue order and stops at the first
   * `b''`, which it does not forward. (A queue without one leaves it waiting
   * after the last chunk; the model then returns what it has forwarded.)
   */
  method StsSender(queue: seq<Chunk>) returns (sent: seq<Chunk>)
    ensures ForwardsUntilSentinel(queue, sent)
  {
    sent := [];
    var i := 0;
    while i < |queue|
      invariant 0 <= i <= |queue|
      invariant sent == queue[..i]
      invariant forall k :: 0 <= k < i ==> queue[k] != []
    {
      var chunk := queue[i];
      if chunk == [] {
        break;
      }
      sent := sent + [chunk];
      i := i + 1;
    }
  }

  /**
   * lib/server.py's sender has no exit: it forwards every chunk, an empty one
   * included, and then waits for ever. The model returns once the queue is drained.
   */
  method StsSenderForever(queue: seq<Chunk>) returns (sent: seq<Chunk>)
    ensures sent == queue
  {
    sent := [];
    var i := 0;
    while i < |queue|
      invariant 0 <= i <= |queue|
      invariant sent == queue[..i]
    {
      sent := sent + [queue[i]];
      i := i + 1;
    }
  }

  /**
   * In main.py the sentinel cannot be mistaken for audio: the sender forwards
   * every frame the receiver queued, in order, and ends; the agent therefore
   * receives all inbound audio except fewer than 3200 trailing bytes.
   */
  lemma CombinedSenderForwardsEveryFrame(evs: seq<Event>, sent: seq<Chunk>)
    requires ForwardsUntilSentinel(AudioQueue(CombinedServer, evs), sent)
    ensures sent == RunFrom(CombinedServer, Initial, evs).audio
    ensures exists rest: seq<byte> :: |rest| < BUFFER_SIZE && Flatten(sent) + rest == Heard(CombinedServer, evs)
  {
    var r := RunFrom(CombinedServer, Initial, evs);
    var q := AudioQueue(CombinedServer, evs);
    CombinedQueueEndsWithSentinel(evs);
    if |sent| < |r.audio| {
      assert false;
    }
    assert sent == q[..|r.audio|] == r.audio;
    ConnectionFrames(CombinedServer, evs);
    assert Flatten(sent) + r.inbuffer == Heard(CombinedServer, evs);
  }

  // ---------------------------------------------------------------------
  // sts_receiver

  /** The fields of an analysis object; None where the key is missing. */
  datatype Analysis = Analysis(
    isFraudulent: Option<bool>,
    fraudType: Option<string>,
    confidence: Option<string>,
    reasoning: Option<string>)

  /** The `prompt_response` field of an `assistant` message. */
  datatype PromptResponse =
    | Absent                     // no such key: `'{}'` is parsed instead
    | Unparsable                 // `json.loads` raises JSONDecodeError
    | NotAnAnalysis              // parses to a non-object, or is not a string: `.get`/`loads` raise
    | Parsed(analysis: Analysis)

  /** A text frame from the agent, after `json.loads`. */
  datatype AgentText =
    | NotJson                    // `json.loads` raises
    | NotAnObject                // parses, but `.get`/`[...]` cannot be applied
    | Object(msgType: Option<string>, promptResponse: PromptResponse)

  datatype AgentMessage =
    | Text(body: AgentText)
    | Binary(audio: seq<byte>)   // text-to-speech audio

  /** The base64 text of some bytes (RFC 4648 section 4); kept abstract, and injective by construction. */
  datatype Base64 = Base64(raw: seq<byte>)

  /** Messages sent back on the Twilio socket. */
  datatype TwilioMessage =
    | Clear(streamSid: string)
    | MediaOut(streamSid: string, payload: Base64)

  /** The `fraud_update` record main.py puts on the alert queue. */
  datatype FraudAlert = FraudAlert(
    isFraudulent: bool,
    fraudType: string,
    confidence: string,
    reasoning: string,
    timestamp: string)

  /** What lib/server.py prints for an analysis: its only effect. */
  datatype LoggedAnalysis = LoggedAnalysis(isFraudulent: bool, fraudType: string, reasoning: string)

  datatype Output =
    | ToTwilio(message: TwilioMessage)
    | ToAlerts(alert: FraudAlert)
    | ToLog(logged: LoggedAnalysis)

  /** The effect of one agent message: one output, none, or an exception that ends the receiver. */
  datatype Reaction = Emit(out: Output) | Skip | Raise

  /** An analysis with every field missing: what `json.loads('{}')` gives. */
  const NoFields: Analysis := Analysis(None, None, None, None)

  /** main.py: the alert for an analysis, each missing field replaced by its default. */
  function AlertOf(a: Analysis, now: string): (alert: FraudAlert)
    ensures alert.isFraudulent == (a.isFraudulent == Some(true))
    ensures a.fraudType.None? ==> alert.fraudType == "none"
    ensures a.confidence.None? ==> alert.confidence == "low"
    ensures a.reasoning.None? ==> alert.reasoning == "No analysis."
    ensures a.fraudType.Some? ==> alert.fraudType == a.fraudType.value
    ensures a.confidence.Some? ==> alert.confidence == a.confidence.value
    ensures a.reasoning.Some? ==> alert.reasoning == a.reasoning.value
    ensures alert.timestamp == now
  {
    FraudAlert(
      a.isFraudulent.GetOr(false),
      a.fraudType.GetOr("none"),
      a.confidence.GetOr("low"),
      a.reasoning.GetOr("No analysis."),
      now)
  }

  /** lib/server.py: what is logged for an analysis, with that file's defaults. */
  function LoggedOf(a: Analysis): (logged: LoggedAnalysis)
    ensures logged.isFraudulent == (a.isFraudulent == Some(true))
    ensures a.fraudType.None? ==> logged.fraudType == "none"
    ensures a.reasoning.None? ==> logged.reasoning == "No analysis provided."
    ensures a.fraudType.Some? ==> logged.fraudType == a.fraudType.value
    ensures a.reasoning.Some? ==> logged.reasoning == a.reasoning.value
  {
    LoggedAnalysis(a.isFraudulent.GetOr(false), a.fraudType.GetOr("none"), a.reasoning.GetOr("No analysis provided."))
  }

  /** What each server does with a parsed analysis: main.py alerts, lib/server.py only logs. */
  function Analysed(v: Variant, a: Analysis, now: string): Reaction
  {
    match v
    case CombinedServer => Emit(ToAlerts(AlertOf(a, now)))
    case MediaServer => Emit(ToLog(LoggedOf(a)))
  }

  /**
   * One iteration of `async for message in sts_ws`. main.py reads the type
   * with `.get` (a missing type is ignored), lib/server.py with `['type']`
   * (a missing type raises, and nothing catches it).
   */
  function Classify(v: Variant, sid: string, msg: AgentMessage, now: string): (r: Reaction)
    ensures msg.Binary? ==> r == Emit(ToTwilio(MediaOut(sid, Base64(msg.audio))))
    ensures msg.Text? && msg.body.Object? && msg.body.msgType == Some("UserStartedSpeaking")
            ==> r == Emit(ToTwilio(Clear(sid)))
    ensures r.Emit? && r.out.ToTwilio? ==> r.out.message.streamSid == sid
    ensures r.Emit? && r.out.ToAlerts? ==> v == CombinedServer && r.out.alert.timestamp == now
    ensures r.Emit? && r.out.ToLog? ==> v == MediaServer
    ensures r.Emit? && !r.out.ToTwilio? <==>
            msg.Text? && msg.body.Object? && msg.body.msgType == Some("assistant")
            && (msg.body.promptResponse.Absent? || msg.body.promptResponse.Parsed?)
    ensures r.Raise? <==>
            msg.Text? && (msg.body.NotJson? || msg.body.NotAnObject?
                          || (v == MediaServer && msg.body.msgType.None?)
                          || (msg.body.msgType == Some("assistant") && msg.body.promptResponse.NotAnAnalysis?))
    ensures r.Skip? <==>
            msg.Text? && msg.body.Object? && !(v == MediaServer && msg.body.msgType.None?)
            && msg.body.msgType != Some("UserStartedSpeaking")
            && (msg.body.msgType != Some("assistant") || msg.body.promptResponse.Unparsable?)
    ensures msg.Text? && msg.body.Object? && msg.body.msgType == Some("assistant") && msg.body.promptResponse.Parsed? ==>
              r == (if v == CombinedServer then Emit(ToAlerts(AlertOf(msg.body.promptResponse.analysis, now)))
                    else Emit(ToLog(LoggedOf(msg.body.promptResponse.analysis))))
    ensures msg.Text? && msg.body.Object? && msg.body.msgType == Some("assistant") && msg.body.promptResponse.Absent? ==>
              r == (if v == CombinedServer then Emit(ToAlerts(AlertOf(NoFields, now)))
                    else Emit(ToLog(LoggedOf(NoFields))))
  {
    match msg
    case Binary(audio) => Emit(ToTwilio(MediaOut(sid, Base64(audio))))
    case Text(body) =>
      match body
      case NotJson => Raise
      case NotAnObject => Raise
      case Object(msgType, promptResponse) =>
        if v == MediaServer && msgType.None? then Raise
        else if msgType == Some("UserStartedSpeaking") then Emit(ToTwilio(Clear(sid)))
        else if msgType == Some("assistant") then
          match promptResponse
          case Unparsable => Skip
          case NotAnAnalysis => Raise
          case Absent => Analysed(v, NoFields, now)
          case Parsed(a) => Analysed(v, a, now)
        else Skip
  }

  /** An `assistant` message without `prompt_response` yields the all-defaults record. */
  lemma AssistantDefaults(sid: string, now: string)
    ensures Classify(CombinedServer, sid, Text(Object(Some("assistant"), Absent)), now)
         == Emit(ToAlerts(FraudAlert(false, "none", "low", "No analysis.", now)))
    ensures Classify(MediaServer, sid, Text(Object(Some("assistant"), Absent)), now)
         == Emit(ToLog(LoggedAnalysis(false, "none", "No analysis provided.")))
  {
  }

  /**
   * The messages the receiver produces, from message `n` on, until one
   * raises: nothing in `sts_receiver` catches an exception, so the first
   * raising message ends the loop.
   */
  function Relay(v: Variant, sid: string, msgs: seq<AgentMessage>, clock: nat -> string, n: nat): (r: seq<Output>)
    ensures |r| <= |msgs|
    ensures msgs != [] && Classify(v, sid, msgs[0], clock(n)).Raise? ==> r == []
    ensures msgs != [] && Classify(v, sid, msgs[0], clock(n)).Emit? ==> r != [] && r[0] == Classify(v, sid, msgs[0], clock(n)).out
    decreases |msgs|
  {
    if msgs == [] then []
    else match Classify(v, sid, msgs[0], clock(n))
      case Raise => []
      case Skip => Relay(v, sid, msgs[1..], clock, n + 1)
      case Emit(out) => [out] + Relay(v, sid, msgs[1..], clock, n + 1)
  }

  /**
   * `sts_receiver`: it first takes a stream id off the id queue (and waits
   * for ever when there is none), then relays with that id.
   */
  function StsReceiver(v: Variant, streamSidQueue: seq<string>, msgs: seq<AgentMessage>, clock: nat -> string): (r: seq<Output>)
    ensures r != [] ==> streamSidQueue != []
    ensures |r| <= |msgs|
    ensures forall i :: 0 <= i < |r| && r[i].ToTwilio? ==> r[i].message.streamSid == streamSidQueue[0]
    ensures v == MediaServer ==> forall i :: 0 <= i < |r| ==> !r[i].ToAlerts?
  {
    if streamSidQueue == [] then []
    else
      RelayOutputs(v, streamSidQueue[0], msgs, clock, 0);
      Relay(v, streamSidQueue[0], msgs, clock, 0)
  }

  /**
   * Every message sent to Twilio carries the stream id taken first, at most
   * one output is produced per agent message, and only main.py produces alerts.
   */
  lemma {:induction false} RelayOutputs(v: Variant, sid: string, msgs: seq<AgentMessage>, clock: nat -> string, n: nat)
    ensures |Relay(v, sid, msgs, clock, n)| <= |msgs|
    ensures forall i :: 0 <= i < |Relay(v, sid, msgs, clock, n)| && Relay(v, sid, msgs, clock, n)[i].ToTwilio? ==>
              Relay(v, sid, msgs, clock, n)[i].message.streamSid == sid
    ensures v == MediaServer ==> forall i :: 0 <= i < |Relay(v, sid, msgs, clock, n)| ==> !Relay(v, sid, msgs, clock, n)[i].ToAlerts?
    decreases |msgs|
  {
    if msgs != [] {
      RelayOutputs(v, sid, msgs[1..], clock, n + 1);
    }
  }

  /**
   * A message that raises ends the receiver: whatever the agent sends after
   * it is never relayed.
   */
  lemma {:induction false} StopsAtRaise(v: Variant, sid: string, before: seq<AgentMessage>, m: AgentMessage,
                                        after: seq<AgentMessage>, clock: nat -> string, n: nat)
    requires Classify(v, sid, m, clock(n + |before|)).Raise?
    ensures Relay(v, sid, before + [m] + after, clock, n) == Relay(v, sid, before + [m], clock, n)
    decreases |before|
  {
    if before == [] {
      assert (before + [m] + after)[0] == m && (before + [m])[0] == m;
    } else {
      assert (before + [m] + after)[0] == before[0] && (before + [m])[0] == before[0];
      assert (before + [m] + after)[1..] == before[1..] + [m] + after;
      assert (before + [m])[1..] == before[1..] + [m];
      StopsAtRaise(v, sid, before[1..], m, after, clock, n + 1);
    }
  }

  /**
   * Each barge-in of the agent reaches Twilio as one `clear` for the stream,
   * in order: over messages that are only speech starts, the relay is one
   * `clear` per message.
   */
  lemma {:induction false} BargeInsClearInOrder(v: Variant, sid: string, msgs: seq<AgentMessage>, clock: nat -> string, n: nat)
    requires forall i :: 0 <= i < |msgs| ==>
               msgs[i].Text? && msgs[i].body.Object? && msgs[i].body.msgType == Some("UserStartedSpeaking")
    ensures Relay(v, sid, msgs, clock, n) == seq(|msgs|, _ => ToTwilio(Clear(sid)))
    decreases |msgs|
  {
    if msgs != [] {
      BargeInsClearInOrder(v, sid, msgs[1..], clock, n + 1);
    }
  }

  /**
   * Nothing reaches Twilio or the alert queue until a `start` event has
   * delivered a stream id; once one has, the receiver relays with the first.
   */
  lemma NothingBeforeStreamId(v: Variant, evs: seq<Event>, msgs: seq<AgentMessage>, clock: nat -> string)
    ensures StartedIds(v, evs) == [] ==> StsReceiver(v, RunFrom(v, Initial, evs).sids, msgs, clock) == []
    ensures StartedIds(v, evs) != [] ==>
              StsReceiver(v, RunFrom(v, Initial, evs).sids, msgs, clock) == Relay(v, StartedIds(v, evs)[0], msgs, clock, 0)
  {
    ConnectionFrames(v, evs);
  }
}
