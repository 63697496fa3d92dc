/** Decoded frames of the two WebSocket connections that one call bridges:
    the telephony media stream (Twilio) and the realtime voice backend (OpenAI).
    JSON text is not modelled; each frame is the value `JSON.parse` would yield,
    reduced to the fields the router reads or writes. */
module Frames {

  datatype Option<+T> = None | Some(value: T)

  /** JavaScript truthiness of a field that is either absent (`null` or
      `undefined`) or a string: absent values and the empty string are falsy. */
  predicate Truthy(v: Option<string>) {
    v.Some? && v.value != ""
  }

  /** A message received from the telephony side, told apart by its `event` field. */
  datatype TelephonyMsg =
    | Start(streamSid: Option<string>)   // `{event: "start", start: {streamSid}}`
    | Media(payload: string)             // `{event: "media", media: {payload}}`
    | OtherEvent(event: string)          // "connected", "stop", "mark", ...
  {
    /** The decoder maps the event names "start" and "media" to their own constructors. */
    predicate WellFormed() {
      OtherEvent? ==> event != "start" && event != "media"
    }
  }

  /** A message received from the backend, told apart by its `type` field. */
  datatype BackendMsg =
    | AudioDelta(delta: Option<string>)  // `{type: "response.audio.delta", delta}`
    | OtherType(kind: string)            // "session.updated", "response.done", ...
  {
    predicate WellFormed() {
      OtherType? ==> kind != "response.audio.delta"
    }
  }

  /** The `session` object of a `session.update` frame. */
  datatype SessionConfig = SessionConfig(
    modalities: seq<string>,
    voice: string,
    inputAudioFormat: string,
    outputAudioFormat: string,
    instructions: string,
    turnDetection: string)   // the `type` of `turn_detection`

  /** Frames the bridge sends to the backend. */
  datatype BackendFrame =
    | SessionUpdate(session: SessionConfig)   // `{type: "session.update", session}`
    | InputAudioAppend(audio: string)         // `{type: "input_audio_buffer.append", audio}`

  /** Frames the bridge sends to the telephony side:
      `{event: "media", streamSid, media: {payload}}`. */
  datatype TelephonyFrame = MediaOut(streamSid: string, payload: string)

  /** One send, on whichever socket it goes out. */
  datatype Outbound =
    | ToBackend(backend: BackendFrame)
    | ToTelephony(telephony: TelephonyFrame)

  /** The configuration sent once when the backend connection opens. */
  const BridgeSession: SessionConfig := SessionConfig(
    ["audio", "text"],
    "alloy",
    "g711_ulaw",
    "g711_ulaw",
    "Eres Sofía, asistente amable y profesional. Responde breve y claro en español.",
    "server_vad")
}
