# Fraud-detecting call relay: audio plumbing

This is a Dafny model of the audio plumbing in a phone-call fraud detector. The rest of the repository is not modelled.

A Twilio media stream delivers 8 kHz audio of a phone call. The server cuts it into 3200-byte frames and forwards them to a speech agent. It then turns the agent's replies into a barge-in `clear`, synthesized speech sent back to the call, or a fraud analysis. The repository holds two copies of this server:

- `twilio-in-browser-calls-main/main.py`, modelled as the `CombinedServer` variant;
- `lib/server.py`, modelled as the `MediaServer` variant.

They differ in which messages end the receive loop, in the end-of-stream chunk and in the sender's termination. In `sts_receiver`, lib/server.py reads an agent message's type with `['type']` where main.py uses `.get('type')`, and it logs an analysis where main.py raises an alert. Only main.py's router handles `/client`. The model keeps both behind one `Variant` flag.

The model also covers two smaller parts:

- An anti-spoofing worker (`lib/anti_spoofing.py`). It collects resampled audio until it has two seconds at 16 kHz, then scores the untrimmed concatenation with a model.
- The browser's `RecorderProcessor` audio worklet (`src/recorder-processor.js`). It batches 20 pieces of 16-bit PCM and posts them as one array.

Modules:

- `Common`: `Option`, the `byte` and `int16` ranges, and concatenation of chunk lists (`Flatten`, `TotalLength`) with its laws.
- `Reassembly`: `twilio_receiver` of both servers.
  - `Step` is one pass of the loop body. `RunFrom` is the whole loop.
  - `TwilioReceiver` is the loop proved against `RunFrom`.
- `AgentRelay`: `sts_sender` of both servers, and `sts_receiver`: `Classify` is one message of its loop, `Relay` the loop and `StsReceiver` the whole coroutine.
- `CallRouting`: the `handle_calls` webhook and both WebSocket routers.
- `AntiSpoofing`: the recentering step of `resample_audio`, score extraction, and `anti_spoofing_worker`.
  - `AntiSpoofingWorker` is proved against the function `WorkerFrom`.
- `Recorder`: the `RecorderProcessor` class:
  - its `buffer` field and posted messages;
  - `process`;
  - the offset-copy loop into a fresh `array<int16>`.

Queues and sockets are sequences:

- Each coroutine reads the sequence it is given and returns what it puts on its output queue or socket.
- JSON and base64 decoding happen before the model starts. Each decoding outcome appears as an explicit constructor (`Malformed`, `Start(None)`, `Media(_, None)`, `NoEvent`, `NotJson`, `Unparsable`, …). Whether the outcome raises, is caught or is ignored is decided by the code that reads it.
- Base64 encoding is the injective wrapper `Base64(raw)`.
- The current time is a `clock` parameter.

The recentering in `lib/anti_spoofing.py` subtracts 128 from unsigned 8-bit values and so wraps around. Both the code as written and the intended signed version are modelled; see "## Findings".

## Model

| member | source | states |
|---|---|---|
| Reassembly.Step | twilio-in-browser-calls-main/main.py:249-272 | One message of main.py's loop. The loop breaks (None) exactly on `stop`, on malformed JSON, on a `start` without `streamSid`, and on a `media` event without a decodable payload. A missing `event` or `track` does not break it, because main.py reads them with `.get`. |
| Reassembly.MediaServerExits | lib/server.py:154-177 | lib/server.py's loop breaks on every message main.py's breaks on, and also on a message without `event` or a media event without `track`: indexing raises and the bare `except` breaks. On no other message. |
| Reassembly.TwilioReceiver | twilio-in-browser-calls-main/main.py:243-275 | The imperative receive loop of either server. Its audio queue is the frames of the run, followed (main.py only) by exactly one `b''`. Its id queue is the run's ids. |
| Reassembly.FlushFramesShape | twilio-in-browser-calls-main/main.py:265-268 | The flush loop keeps every chunk already queued and leaves the id queue alone. It queues only 3200-byte chunks and leaves fewer than 3200 bytes in the buffer. |
| Reassembly.FlushFramesSlices | lib/server.py:172-175 | The j-th chunk the flush queues is bytes [3200j, 3200(j+1)) of the buffer. The buffer keeps exactly the bytes after the last whole frame. |
| Reassembly.FlushFramesConserves | twilio-in-browser-calls-main/main.py:265-268 | The queued chunks followed by the buffer are the same bytes, in the same order, before and after the flush. |
| Reassembly.FlushFramesValid | lib/server.py:172-175 | After a flush the buffer holds less than a frame, and every queued chunk is one frame. |
| Reassembly.QuietEvents | twilio-in-browser-calls-main/main.py:251-259 | `connected`, `start`, an event of an unknown type and a media event of another track change neither the buffer nor the audio queue. Only `start` adds its stream id. |
| Reassembly.StepIsFlush | lib/server.py:156-175 | In both servers, every continuing event except `connected` reaches the flush check, `start` included. lib/server.py's checks are separate `if`s, and main.py's `elif` chain falls through to the flush when no branch continues. |
| Reassembly.StepConserves | twilio-in-browser-calls-main/main.py:256-259 | One event adds to the queued bytes plus the buffer exactly the payload of an inbound media event, at the end, and nothing for any other event. |
| Reassembly.StepKeeps | twilio-in-browser-calls-main/main.py:251-253 | One event never withdraws a queued chunk. It appends the stream id of a `start` event to the id queue. |
| Reassembly.StepValid | lib/server.py:150-175 | Each event keeps the invariant: buffer under 3200 bytes, every queued chunk 3200 bytes. |
| Reassembly.RunValid | lib/server.py:153-177 | The invariant holds after every event of a connection. |
| Reassembly.RunConserves | twilio-in-browser-calls-main/main.py:248-268 | Over any run, the queued chunks followed by the buffer are the state's bytes followed by all inbound payloads, in arrival order. |
| Reassembly.RunKeeps | twilio-in-browser-calls-main/main.py:248-268 | Over any run, queued chunks stay in place. The id queue gains the `start` ids in order. |
| Reassembly.StopsAtExit | lib/server.py:168-177 | In either server, `stop` or a message that raises ends the loop with the state as it was. Nothing after it is read, and the leftover bytes are not queued. |
| Reassembly.ConnectionFrames | twilio-in-browser-calls-main/main.py:243-275 | For a whole connection, every queued chunk is one 3200-byte frame. Fewer than 3200 bytes stay behind. Frames followed by the leftover are the inbound audio, in order. The id queue is the `start` ids. |
| Reassembly.WholeFramesAllQueued | twilio-in-browser-calls-main/main.py:265-268 | When the inbound bytes are a multiple of 3200, all of them are queued, as exactly bytes/3200 frames. |
| Reassembly.CombinedQueueEndsWithSentinel | twilio-in-browser-calls-main/main.py:274-275 | main.py's audio queue ends with one empty chunk. Every chunk before it is a full frame, so the sentinel cannot be confused with audio. |
| Reassembly.MediaServerQueueHasNoSentinel | lib/server.py:179-182 | lib/server.py's audio queue holds only full frames. No end-of-stream chunk is ever queued. |
| AgentRelay.StsSender | twilio-in-browser-calls-main/main.py:179-186 | The sender forwards a prefix of the queue, in order, of non-empty chunks only. It stops at the first `b''` and does not forward it. |
| AgentRelay.StsSenderForever | lib/server.py:84-88 | lib/server.py's sender forwards every chunk in order, empty ones included. It has no exit of its own. |
| AgentRelay.CombinedSenderForwardsEveryFrame | twilio-in-browser-calls-main/main.py:181-186 | Against main.py's receiver, the sender forwards exactly the queued frames. The agent gets all inbound audio except fewer than 3200 trailing bytes. |
| AgentRelay.AlertOf | twilio-in-browser-calls-main/main.py:205-218 | The `fraud_update` alert copies each present field. Missing fields default to `False`, `'none'`, `'low'` and `'No analysis.'`. The timestamp is stamped on. |
| AgentRelay.LoggedOf | lib/server.py:111-123 | lib/server.py's logged analysis copies each present field. Missing fields default to `False`, `'none'` and `'No analysis provided.'`. |
| AgentRelay.Classify | twilio-in-browser-calls-main/main.py:192-241 | For main.py (lib/server.py: the same, except that an analysis is only logged, and a missing `type` raises):<br>- binary audio becomes a media message carrying the stream id and the base64 of the bytes;<br>- `UserStartedSpeaking` becomes a `clear` for the stream id;<br>- an `assistant` message whose `prompt_response` parses gives the alert (or log) of that analysis, stamped with the clock; an absent one gives the all-defaults alert (or log);<br>- the message raises exactly when it is unparsable JSON, not an object, (lib/server.py) an object without `type`, or an `assistant` message whose `prompt_response` is not a string or parses to a non-object;<br>- it produces nothing exactly when it is any other object: another type, or an unparsable `prompt_response`. |
| AgentRelay.AssistantDefaults | twilio-in-browser-calls-main/main.py:205-209 | An `assistant` message without `prompt_response` gives the all-defaults alert in main.py and the all-defaults log in lib/server.py. |
| AgentRelay.Relay | twilio-in-browser-calls-main/main.py:192-241 | The `async for message in sts_ws` loop of either server. At most one output per message. A first message that raises ends it with no output. A first message that emits gives the first output. |
| AgentRelay.StopsAtRaise | lib/server.py:95-144 | A raising message ends the loop. Nothing the agent sends after it is relayed, since neither server catches the exception. |
| AgentRelay.StsReceiver | lib/server.py:93-95 | `sts_receiver` waits for a stream id and then relays. It outputs nothing without an id. Every Twilio message carries the first queued id. There is at most one output per agent message. lib/server.py raises no alert. |
| AgentRelay.RelayOutputs | lib/server.py:95-144 | In either server, every message sent to Twilio carries the stream id taken first, and there is at most one output per agent message. lib/server.py produces no alerts. |
| AgentRelay.BargeInsClearInOrder | lib/server.py:100-105 | A run of barge-ins, each any JSON object of type `UserStartedSpeaking` whatever its other fields, reaches Twilio as one `clear` for the stream per barge-in, in order. |
| AgentRelay.NothingBeforeStreamId | twilio-in-browser-calls-main/main.py:188-192 | The receiver produces nothing until a `start` event has delivered a stream id. After that it relays with the first id. |
| CallRouting.HandleCalls | twilio-in-browser-calls-main/main.py:81-88 | It dials the number `To` exactly when `To` is present and differs from the service number, with the service number as caller id. Otherwise it dials the browser client named by the service number, showing `Caller` or, failing that, the service number. |
| CallRouting.NeverDialsOwnNumber | twilio-in-browser-calls-main/main.py:81-83 | A telephone number is never dialled to the service's own number. |
| CallRouting.CombinedRouter | twilio-in-browser-calls-main/main.py:303-309 | `/twilio` and `/client` go to their handlers. Exactly the other paths are closed. |
| CallRouting.MediaRouter | lib/server.py:195-199 | Only `/twilio` has a handler. Every other path returns without action. |
| AntiSpoofing.WrapRecenterChunk | lib/anti_spoofing.py:20 | As written, each byte b becomes (b + 128) mod 256, which equals (b − 128) mod 256, still in 0..255. The length is kept. |
| AntiSpoofing.Recenter | lib/anti_spoofing.py:20 | As intended, a byte b becomes the signed sample b − 128, in −128..127. |
| AntiSpoofing.RecenterChunk | lib/anti_spoofing.py:20 | As intended, the whole chunk is recentred to signed samples in −128..127, shifted by exactly 128, with the length kept. |
| AntiSpoofing.WrapRecenterAgreesModulo | lib/anti_spoofing.py:20 | The wrapped value agrees with the signed one modulo 256. It equals it exactly when b ≥ 128. Wrapping twice gives back the byte. |
| AntiSpoofing.WrapRecenterAgreesOnUpperHalf | lib/anti_spoofing.py:20 | On a chunk whose bytes are all at least 128, the code as written and the intended recentering give the same samples. |
| AntiSpoofing.WrapRecenterCounterexample | lib/anti_spoofing.py:20 | The byte 0 becomes 128 as written, against −128 as intended. Silence, the byte 128, becomes 0 in both. |
| AntiSpoofing.ResampleAudio | lib/anti_spoofing.py:19-25 | The filter (resampler and peak normalisation) receives the recentred chunk. For a chunk of the upper half of the scale, that is exactly what line 20 as written feeds it. |
| AntiSpoofing.ExtractScore | lib/anti_spoofing.py:65-77 | A tuple output scores the softmax class-0 probability of its element 1, and raises when it has no element 1. Any other output is its own scalar. |
| AntiSpoofing.Push | lib/anti_spoofing.py:37-79 | A chunk whose resampling raises ends the worker. Otherwise, after appending the resampled chunk, a window is emitted exactly when the summed lengths reach 32000 (16000 × 2). The window is the untrimmed concatenation of the buffer; its score is queued and the buffer is emptied. Below 32000 the chunk is only buffered. A raising model or score extraction ends the worker. |
| AntiSpoofing.BufferedSize | lib/anti_spoofing.py:40 | The summing loop returns the total number of buffered samples, which is the length of their concatenation. |
| AntiSpoofing.AntiSpoofingWorker | lib/anti_spoofing.py:27-83 | The imperative `while True` loop, which recomputes the buffered size after every chunk, yields exactly the windows and scores of `WorkerFrom`. It stops at `None` or at the first raising call. |
| AntiSpoofing.PushValid | lib/anti_spoofing.py:38-79 | One chunk keeps the invariant and the windows already emitted. The invariant is: under 32000 samples buffered, every window at least 32000, and the i-th score is the score of the i-th window. |
| AntiSpoofing.WorkerFromStops | lib/anti_spoofing.py:33-39 | The worker ends where it stands, with no further pieces, at the end of the queue, at `None`, or at a chunk whose resampling raises. |
| AntiSpoofing.WorkerValid | lib/anti_spoofing.py:32-79 | Over any run, less than a window is buffered between emissions. One score is queued per window, in window order, each the score of its window. Earlier windows are never changed. |
| AntiSpoofing.EmittedWindowSize | lib/anti_spoofing.py:40-50 | An emitted window is every chunk since the last reset, concatenated. Its length is at least 32000 and short of 32000 plus the last chunk. The buffer is emptied: no overflow is carried. |
| AntiSpoofing.PushConserves | lib/anti_spoofing.py:46-79 | One chunk that is resampled and scored without raising moves its samples onto the end of the windows or of the buffer, without loss or reordering. |
| AntiSpoofing.WorkerConservesStep | lib/anti_spoofing.py:38-79 | One such chunk is one step of the worker, and the samples of the windows, the buffer and the pieces still to come are conserved across it. |
| AntiSpoofing.WorkerConserves | lib/anti_spoofing.py:30-79 | With a model that always scores, the windows followed by the unscored remainder are all resampled chunks before `None` or before a resampling that raises, in order. Windows never overlap and nothing is skipped. |
| AntiSpoofing.RaiseEndsWorker | lib/anti_spoofing.py:38-77 | A chunk whose resampling, model call or score extraction raises ends the worker with its state as it was: nothing after it is read, and the partial buffer is never scored. |
| AntiSpoofing.StopsAtNone | lib/anti_spoofing.py:33-35 | `None` ends the worker with the state the chunks before it left, so the partial buffer at that point is never scored. Nothing after it is read. |
| AntiSpoofing.UntrimmedWindow | lib/anti_spoofing.py:41-50 | Two chunks resampled to 20000 samples each are scored as one 40000-sample window, not trimmed to 32000, with exactly one score. |
| Recorder.ToInt16 | src/recorder-processor.js:13-14 | A sample is clamped to [−1, 1], scaled by 0x8000 below zero and by 0x7FFF otherwise, and truncated. The results:<br>- saturation at −32768 and 32767;<br>- negative exactly when x ≤ −1/32768;<br>- zero exactly on (−1/32768, 1/32767). |
| Recorder.ToInt16Monotone | src/recorder-processor.js:13-14 | The conversion is monotone. |
| Recorder.Quantise | src/recorder-processor.js:10-15 | The converted piece has the channel's length. |
| Recorder.Combine | src/recorder-processor.js:21-27 | The combined array's length is the sum of the piece lengths. Its contents are the pieces one after another. |
| Common.FlattenAt | src/recorder-processor.js:24-27 | Element i of piece k sits in the concatenation at the summed length of pieces 0..k−1, plus i. |
| Recorder.RecorderProcessor.constructor | src/recorder-processor.js:2-5 | The buffer starts empty, and nothing has been posted. |
| Recorder.RecorderProcessor.Process | src/recorder-processor.js:7-33 | Every call returns true and keeps the buffer under 20 pieces:<br>- no input channel: nothing changes;<br>- otherwise exactly one piece, converted from the first channel, is pushed;<br>- on reaching 20 pieces, one message holding their concatenation is posted and the buffer is reset;<br>- a post happens only when the call brings the buffer to exactly 20 pieces, and the posted array's length is the 19 kept lengths plus the new channel's length. |

## Left out

- Concurrency is not modelled: sockets, `asyncio` queues, `asyncio.gather`/`asyncio.wait`, threads and the Flask app. Each coroutine is modelled as a sequential consumer of an input sequence. Interleavings of the three coroutines, and blocking on an empty queue, are not modelled.
- The agent connection (`sts_connect`) and its configuration message are constant I/O, so they are not modelled.
- The `/token` endpoint is a wrapper over the Twilio JWT library, so it is not modelled.
- `client_handler` is not modelled. It forwards alerts to the frontend and has no logic of its own.
- JSON parsing is a library call. It is modelled only by its outcomes: an event or message constructor per outcome, with the failing shapes named in the datatypes.
- Base64 is a library implementation of RFC 4648 section 4. It is modelled as the injective wrapper `Base64`, and decoding errors as the payload `None`.
- The `print` calls and the `p.pprint` of the form are not modelled. The exception is lib/server.py's printed analysis, which is that branch's only effect and is modelled as `ToLog`.
- `datetime.now().isoformat()` is modelled as the `clock` parameter, indexed by message position.
- A missing `TWILIO_NUMBER` environment variable is not modelled; the service number is a parameter.
- Analysis fields are modelled as strings. A non-string `fraud_type` or `confidence` makes `.upper()` raise on the fraud branch, which is not modelled.
- `is_fraudulent` is modelled as a boolean or missing. Python's truthiness of other JSON values is not.
- The resampling filter is floating-point code. It enters, with the peak normalisation and its 1e-9 floor, as the partial function `filter`, which is None where it raises (as on an empty chunk). The model and the softmax enter as `model`, also None where it raises, and `softmaxClass0`.
- Tensor shapes (`unsqueeze`) and the `.item()` failure on a multi-element tensor are not modelled.
- `check_audio_file` and model loading are plotting and file I/O, so they are not modelled.
- Recorder.ToInt16: NaN input is not modelled. Samples are reals, which is exact for the clamp and both scalings.
- Recorder.Combine: the pieces are modelled as values (`seq<int16>`) copied into a fresh `array<int16>`. Aliasing between the kept `Int16Array`s, and posting `combined.buffer` as an `ArrayBuffer`, are not modelled.
- Recorder.RecorderProcessor.Process requires at least one input, as the worklet host always passes. The `AudioWorkletProcessor` base class and `registerProcessor` are not modelled.
- AntiSpoofing.WorkerConserves assumes a model and score extraction that never raise. A raising step ends the worker, since lib/anti_spoofing.py has no `try`. That case is stated by `Push` and `RaiseEndsWorker` instead.
- The overflow past 32000 samples is scored as part of the untrimmed window (lib/anti_spoofing.py:46). It is not carried into the next window, because line 79 empties the buffer.
- AntiSpoofing.ResampleAudio recentres with the intended `RecenterChunk`, not with the wrapping that lib/anti_spoofing.py:20 computes (`WrapRecenterChunk`). So the worker is modelled as intended rather than as written. The two agree only on chunks of the upper half of the scale (`WrapRecenterAgreesOnUpperHalf`); see "## Findings".
- AgentRelay.StsSenderForever: lib/server.py's sender blocks for ever on the empty queue. The model returns what was forwarded once the queue is drained.
- Reassembly.TwilioReceiver models a normal close of the Twilio socket, which ends `async for` quietly. An abnormal close makes `async for` itself raise at main.py:248, outside the `try`. main.py:275 then never queues `b''`, so `sts_sender` blocks on the empty queue. This is not modelled. lib/server.py behaves the same way, but queues no sentinel either way.
- AgentRelay.StsSender on a queue without a sentinel returns what it forwarded. The real sender waits for ever.

## Findings

| source | as written | input that shows it | evidently intended | confidence | as-written member | corrected member |
|---|---|---|---|---|---|---|
| lib/anti_spoofing.py:20 | `np.frombuffer(chunk, dtype=np.uint8) - 128` subtracts in `uint8`, so the result wraps modulo 256 and stays in 0..255 | the byte 0, the bottom of the unsigned scale, gives 128 instead of −128. Every byte below 128 lands in the upper half. Only silence (128 gives 0) and the bytes above it agree with the signed value | signed samples b − 128 in −128..127 centred on zero | high, not executed | AntiSpoofing.WrapRecenterCounterexample | AntiSpoofing.RecenterChunk |

`AntiSpoofing.ResampleAudio`, from which the worker's resampling is built, uses the corrected `RecenterChunk`. `WrapRecenterChunk` keeps the wrapping one.
