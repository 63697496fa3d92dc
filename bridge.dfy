/** The per-connection handler: one object per accepted telephony socket,
    holding the mutable `streamSid` and reacting to the three socket events.
    Sends are returned as out-parameters; the ghost fields record every event
    handled and every frame sent, so that the replay in `Routing` describes
    the object's whole history. */
module Bridge {
  import opened Frames
  import opened Routing

  class Connection {
    var streamSid: Option<string>
    ghost var events: seq<Event>
    ghost var trace: seq<Outbound>

    ghost predicate Valid()
      reads this
    {
      streamSid == After(None, events) && trace == Trace(None, events)
    }

    /** A new telephony connection: no stream id, nothing sent yet. */
    constructor ()
      ensures Valid()
      ensures streamSid == None && events == [] && trace == []
    {
      streamSid := None;
      events := [];
      trace := [];
    }

    /** `twilioWs.on('message')`: a `start` frame latches its stream id,
        overwriting any earlier one; a `media` frame is relayed to the backend
        as an `input_audio_buffer.append` when the backend socket is open. */
    method OnTelephonyMessage(msg: TelephonyMsg, backendOpen: bool) returns (sent: seq<Outbound>)
      requires Valid() && msg.WellFormed()
      modifies this
      ensures Valid()
      ensures events == old(events) + [TelephonyMessage(msg, backendOpen)]
      ensures trace == old(trace) + sent
      ensures streamSid == if msg.Start? then msg.streamSid else old(streamSid)
      ensures sent == if msg.Media? && backendOpen then [ToBackend(InputAudioAppend(msg.payload))] else []
      ensures forall o :: o in trace && o.ToTelephony? ==> o.telephony.streamSid != ""
    {
      sent := [];
      if msg.Start? {
        streamSid := msg.streamSid;
      }
      if msg.Media? && backendOpen {
        sent := [ToBackend(InputAudioAppend(msg.payload))];
      }
      ReplayExtend(None, events, TelephonyMessage(msg, backendOpen));
      events := events + [TelephonyMessage(msg, backendOpen)];
      trace := trace + sent;
      NoUnaddressedFrame(None, events);
    }

    /** `openaiWs.on('open')`: send the session configuration once. */
    method OnBackendOpen() returns (sent: seq<Outbound>)
      requires Valid()
      modifies this
      ensures Valid()
      ensures events == old(events) + [BackendOpened]
      ensures trace == old(trace) + sent
      ensures streamSid == old(streamSid)
      ensures sent == [ToBackend(SessionUpdate(BridgeSession))]
      ensures forall o :: o in trace && o.ToTelephony? ==> o.telephony.streamSid != ""
    {
      sent := [ToBackend(SessionUpdate(BridgeSession))];
      ReplayExtend(None, events, BackendOpened);
      events := events + [BackendOpened];
      trace := trace + sent;
      NoUnaddressedFrame(None, events);
    }

    /** `openaiWs.on('message')`: an audio delta is relayed to the telephony
        side, addressed to the latched stream id, only when both the delta and
        the id are truthy; nothing else is sent and the id never changes. */
    method OnBackendMessage(msg: BackendMsg) returns (sent: seq<Outbound>)
      requires Valid() && msg.WellFormed()
      modifies this
      ensures Valid()
      ensures events == old(events) + [BackendMessage(msg)]
      ensures trace == old(trace) + sent
      ensures streamSid == old(streamSid)
      ensures sent == if msg.AudioDelta? && Truthy(msg.delta) && Truthy(streamSid)
        then [ToTelephony(MediaOut(streamSid.value, msg.delta.value))] else []
      ensures forall o :: o in trace && o.ToTelephony? ==> o.telephony.streamSid != ""
    {
      sent := [];
      if msg.AudioDelta? && msg.delta.Some? && msg.delta.value != ""
        && streamSid.Some? && streamSid.value != ""
      {
        sent := [ToTelephony(MediaOut(streamSid.value, msg.delta.value))];
      }
      ReplayExtend(None, events, BackendMessage(msg));
      events := events + [BackendMessage(msg)];
      trace := trace + sent;
      NoUnaddressedFrame(None, events);
    }
  }
}
