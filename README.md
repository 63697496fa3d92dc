# Twilio ↔ OpenAI Realtime bridge: per-call message router

This project models the connection handler of a small Node.js bridge. For each
accepted Twilio media-stream WebSocket, the handler opens one OpenAI Realtime
WebSocket and relays messages between the two:

- a Twilio `start` message latches the call's `streamSid`, and every later
  `start` overwrites it;
- a Twilio `media` message is forwarded to OpenAI as `input_audio_buffer.append`
  with its payload unchanged, but only while the OpenAI socket is open;
- an OpenAI `response.audio.delta` is forwarded to Twilio as a `media` message
  addressed to the latched `streamSid`, but only when both the delta and the id
  are truthy in the JavaScript sense;
- when the OpenAI socket opens, one `session.update` is sent with G.711 µ-law
  audio in both directions, voice `alloy`, modalities `audio` and `text`, and
  `server_vad` turn detection.

The model has three modules:

- `Frames` (frames.dfy) holds the decoded messages of both sockets as datatypes,
  JavaScript truthiness for optional string fields, and the session
  configuration.
- `Routing` (routing.dfy) is the router as pure functions. There is one handler
  per inbound event, mapping the latched id to a new id and a list of sends.
  The replay of an event sequence (`After`, `Outputs`, `Trace`) describes a
  connection's whole history, and the lemmas state what holds over every
  interleaving of events.
- `Bridge` (bridge.dfy) is the handler in its own imperative form. It is a
  class `Connection` with a mutable `streamSid` field and one method per
  socket event. Each method returns the frames it sends. Ghost fields record
  the events handled and the frames sent, and `Valid()` ties them to the
  replay in `Routing`.

The central property is addressing. No frame is ever sent to Twilio without a
non-empty stream id, and each such frame carries the id of the last `start`
message received before it.

## Model

| member | source | states |
|---|---|---|
| `Bridge.Connection.constructor` | index.js:19-22 | a new connection has no stream id latched and has sent nothing |
| `Bridge.Connection.OnTelephonyMessage` | index.js:50-64 | `start` replaces the stream id with the message's id, even when one was already latched; `media` sends exactly one `input_audio_buffer.append` with the payload unchanged when the backend is open, and nothing otherwise; the id changes only on `start`; the trace grows by exactly what was sent and never holds an unaddressed Twilio frame |
| `Bridge.Connection.OnBackendOpen` | index.js:34-48 | sends exactly the one `session.update` frame and leaves the stream id unchanged |
| `Bridge.Connection.OnBackendMessage` | index.js:66-76 | sends a frame exactly when the message is an audio delta, the delta is truthy and the latched id is truthy; that frame is a Twilio `media` frame carrying the current id and the delta; the stream id never changes |
| `Routing.OnTelephony` | index.js:50-64 | only `start` changes the id, and it sets it to the message's id; output is non-empty exactly for `media` while the backend is open, and is then the single append frame carrying the payload |
| `Routing.OnOpen` | index.js:34-47 | exactly one frame is sent: a `session.update` with `g711_ulaw` input and output formats, voice `alloy`, modalities `audio`/`text` and `server_vad` turn detection; the id is unchanged |
| `Routing.OnBackend` | index.js:66-76 | the id is unchanged; a frame is sent if and only if the message is a truthy audio delta and the id is truthy; it is the Twilio media frame addressed to that non-empty id |
| `Routing.ReplayExtend` | index.js:50-76 | handling one more event extends the latched id and the trace by exactly that event's handler step |
| `Routing.OutputAt` | index.js:50-76 | the frames sent for event i are those its handler sends given the id latched by the events before i |
| `Routing.LatchedIsLastStart` | index.js:53-56 | the latched id is the id of the last `start` message: a later `start` overwrites an earlier one, and no other event changes it |
| `Routing.LatchedWithoutStart` | index.js:22 | with no `start` message the id stays at its initial value (`null` on a new connection) |
| `Routing.TelephonyFrameAddressed` | index.js:69-75 | every Twilio frame answers a truthy backend audio delta, carries that delta unchanged, and is addressed to the truthy id latched when it was sent |
| `Routing.FrameCarriesLastStartId` | index.js:53-75 | every Twilio frame carries the non-empty id of the last `start` message received before it |
| `Routing.NothingToTelephonyBeforeStart` | index.js:22-75 | on a new connection nothing is sent to Twilio before the first `start` message |
| `Routing.NoUnaddressedFrame` | index.js:69-75 | no Twilio frame in a connection's whole trace has an empty stream id |
| `Routing.AppendedIsMediaWhileOpen` | index.js:58-63 | the backend receives exactly the media payloads that arrived while it was open, unchanged and in arrival order |
| `Routing.SessionUpdatePerOpen` | index.js:34-47 | the trace holds exactly one `session.update` per opening of the backend socket; no other event sends one |
| `Routing.ConfigurationPrecedesAudio` | index.js:34-63 | when every Twilio message that sees the backend open comes after the backend's `open` event, each audio append is preceded by an event that sent the `session.update` |

## Left out

- HTTP server creation, the health response, `listen` and PORT handling
  (index.js:6-17, 79) are process bootstrap and I/O.
- Construction of the OpenAI WebSocket and its authentication headers
  (index.js:24-32) are left out. The socket's `readyState` is reduced to the
  boolean `backendOpen`, passed with each Twilio message.
- The `backendOpen` flag is not tied to the `open` event. The `ws` library sets
  a socket to OPEN just before it emits `open`, and does so once per socket.
  So the source never appends audio before the `session.update` and never
  sends two of them. The model admits both: an append with no earlier `open`
  event, and several `open` events. `SessionUpdatePerOpen` holds over all of
  these traces. The ordering is proved only under the `OpenedBeforeUse`
  assumption (`ConfigurationPrecedesAudio`).
- JSON parsing and serialisation are left out; frames are datatypes. Malformed
  JSON makes either handler throw (index.js:51, 67), and nothing catches it. A
  `start` message without its `start` object also throws (index.js:54). A
  `media` message without its `media` object is dropped while the backend is
  not open, because the `readyState` test at index.js:58 comes first, and
  throws only when the backend is open. The model takes decoded, well-formed
  messages as given (`WellFormed` in the method preconditions).
- Well-formed `media` messages carry a string payload. In the source, a
  `media` object without `payload` does not throw: index.js:59-62 then sends
  `{type: "input_audio_buffer.append"}` with no `audio` key, because
  `JSON.stringify` drops undefined values. That append without audio is not
  modelled.
- `streamSid` and `delta` are modelled as absent-or-string. JSON values of
  other types (numbers, objects) and their truthiness are not modelled. A
  media payload is an opaque string.
- Console logging is left out.
- Concurrency between the two sockets is left out; events are an arbitrary
  sequential interleaving of method calls, which matches Node's single-threaded
  event loop.
- What the `ws` library does when `twilioWs.send` is called on a closed socket
  is not modelled.
- Barge-in and cancellation, `clear` frames, tool calls, close and teardown,
  and call reporting do not exist in the handler (index.js:19-77). A second
  `start` overwrites the stream id (index.js:54). Media that arrives while the
  backend is not open is dropped (index.js:58).
