/** The router of one connection as pure functions: the latched stream id is
    the only state, each inbound event maps it to a new id and a list of sends,
    and a connection's whole behaviour is the replay of its events in order. */
module Routing {
  import opened Frames

  /** An inbound event, in the order the two sockets deliver them. `backendOpen`
      is whether the backend socket was open when the telephony message arrived. */
  datatype Event =
    | TelephonyMessage(tmsg: TelephonyMsg, backendOpen: bool)
    | BackendOpened
    | BackendMessage(bmsg: BackendMsg)

  /** The outcome of handling one event: the stream id afterwards and what was sent. */
  datatype Step = Step(streamSid: Option<string>, sent: seq<Outbound>)

  predicate IsStart(e: Event) {
    e.TelephonyMessage? && e.tmsg.Start?
  }

  /** The telephony message handler. */
  function OnTelephony(sid: Option<string>, msg: TelephonyMsg, backendOpen: bool): (r: Step)
    ensures msg.Start? ==> r.streamSid == msg.streamSid
    ensures !msg.Start? ==> r.streamSid == sid
    ensures r.sent != [] <==> msg.Media? && backendOpen
    ensures r.sent != [] ==> r.sent == [ToBackend(InputAudioAppend(msg.payload))]
  {
    match msg
    case Start(s) => Step(s, [])
    case Media(p) => Step(sid, if backendOpen then [ToBackend(InputAudioAppend(p))] else [])
    case OtherEvent(_) => Step(sid, [])
  }

  /** The backend `open` handler. */
  function OnOpen(sid: Option<string>): (r: Step)
    ensures r.streamSid == sid
    ensures |r.sent| == 1 && r.sent[0].ToBackend? && r.sent[0].backend.SessionUpdate?
    ensures r.sent[0].backend.session.inputAudioFormat == "g711_ulaw"
    ensures r.sent[0].backend.session.outputAudioFormat == "g711_ulaw"
    ensures r.sent[0].backend.session.voice == "alloy"
    ensures r.sent[0].backend.session.modalities == ["audio", "text"]
    ensures r.sent[0].backend.session.turnDetection == "server_vad"
  {
    Step(sid, [ToBackend(SessionUpdate(BridgeSession))])
  }

  /** The backend message handler. */
  function OnBackend(sid: Option<string>, msg: BackendMsg): (r: Step)
    ensures r.streamSid == sid
    ensures r.sent != [] <==> msg.AudioDelta? && Truthy(msg.delta) && Truthy(sid)
    ensures r.sent != [] ==>
      r.sent == [ToTelephony(MediaOut(sid.value, msg.delta.value))] && sid.value != ""
  {
    if msg.AudioDelta? && Truthy(msg.delta) && Truthy(sid) then
      Step(sid, [ToTelephony(MediaOut(sid.value, msg.delta.value))])
    else
      Step(sid, [])
  }

  function Next(sid: Option<string>, e: Event): Step {
    match e
    case TelephonyMessage(m, open) => OnTelephony(sid, m, open)
    case BackendOpened => OnOpen(sid)
    case BackendMessage(m) => OnBackend(sid, m)
  }

  /** The stream id latched after `events`, starting from `sid0`. */
  function After(sid0: Option<string>, events: seq<Event>): Option<string> {
    if events == [] then sid0
    else Next(After(sid0, events[..|events| - 1]), events[|events| - 1]).streamSid
  }

  /** What each of `events` sent, index by index. */
  function Outputs(sid0: Option<string>, events: seq<Event>): (r: seq<seq<Outbound>>)
    ensures |r| == |events|
  {
    if events == [] then []
    else
      var init := events[..|events| - 1];
      Outputs(sid0, init) + [Next(After(sid0, init), events[|events| - 1]).sent]
  }

  function Flatten(xs: seq<seq<Outbound>>): seq<Outbound> {
    if xs == [] then [] else Flatten(xs[..|xs| - 1]) + xs[|xs| - 1]
  }

  /** Every frame sent on either socket, in order. */
  function Trace(sid0: Option<string>, events: seq<Event>): seq<Outbound> {
    Flatten(Outputs(sid0, events))
  }

  /** Handling one more event extends the replay by that event's step. */
  lemma {:induction false} ReplayExtend(sid0: Option<string>, events: seq<Event>, e: Event)
    ensures After(sid0, events + [e]) == Next(After(sid0, events), e).streamSid
    ensures Trace(sid0, events + [e]) == Trace(sid0, events) + Next(After(sid0, events), e).sent
  {
    var all := events + [e];
    assert all[..|all| - 1] == events;
    var outs := Outputs(sid0, all);
    assert outs[..|outs| - 1] == Outputs(sid0, events);
  }

  /** The frames sent for event `i` are those its handler sends given the id
      latched by the events before it. */
  lemma {:induction false} OutputAt(sid0: Option<string>, events: seq<Event>, i: nat)
    requires i < |events|
    ensures Outputs(sid0, events)[i] == Next(After(sid0, events[..i]), events[i]).sent
    decreases |events|
  {
    var init := events[..|events| - 1];
    if i == |events| - 1 {
      assert events[..i] == init;
    } else {
      OutputAt(sid0, init, i);
      assert init[..i] == events[..i];
    }
  }

  /** The latched id is that of the last `start` frame, whatever came after it. */
  lemma {:induction false} LatchedIsLastStart(sid0: Option<string>, events: seq<Event>, i: nat)
    requires i < |events| && IsStart(events[i])
    requires forall j :: i < j < |events| ==> !IsStart(events[j])
    ensures After(sid0, events) == events[i].tmsg.streamSid
    decreases |events|
  {
    var init := events[..|events| - 1];
    if i < |events| - 1 {
      LatchedIsLastStart(sid0, init, i);
    }
  }

  /** Without any `start` frame the latched id is the initial one. */
  lemma {:induction false} LatchedWithoutStart(sid0: Option<string>, events: seq<Event>)
    requires forall j :: 0 <= j < |events| ==> !IsStart(events[j])
    ensures After(sid0, events) == sid0
    decreases |events|
  {
    if events != [] {
      LatchedWithoutStart(sid0, events[..|events| - 1]);
    }
  }

  /** A frame to the telephony side answers a non-empty backend audio delta,
      carries that delta unchanged, and is addressed to the non-empty id
      latched when it was sent. */
  lemma {:induction false} TelephonyFrameAddressed(sid0: Option<string>, events: seq<Event>, i: nat, o: Outbound)
    requires i < |events| && o in Outputs(sid0, events)[i] && o.ToTelephony?
    ensures events[i].BackendMessage? && events[i].bmsg.AudioDelta? && Truthy(events[i].bmsg.delta)
    ensures Truthy(After(sid0, events[..i]))
    ensures o.telephony == MediaOut(After(sid0, events[..i]).value, events[i].bmsg.delta.value)
  {
    OutputAt(sid0, events, i);
  }

  /** Every telephony frame carries the id of the last `start` frame before it. */
  lemma {:induction false} FrameCarriesLastStartId(sid0: Option<string>, events: seq<Event>, j: nat, i: nat, o: Outbound)
    requires j < i < |events| && IsStart(events[j])
    requires forall k :: j < k < i ==> !IsStart(events[k])
    requires o in Outputs(sid0, events)[i] && o.ToTelephony?
    ensures events[j].tmsg.streamSid.Some?
    ensures o.telephony.streamSid == events[j].tmsg.streamSid.value != ""
  {
    TelephonyFrameAddressed(sid0, events, i, o);
    LatchedIsLastStart(sid0, events[..i], j);
  }

  /** On a new connection nothing is sent to the telephony side before the first `start`. */
  lemma {:induction false} NothingToTelephonyBeforeStart(events: seq<Event>, i: nat)
    requires i < |events|
    requires forall k :: 0 <= k < i ==> !IsStart(events[k])
    ensures forall o :: o in Outputs(None, events)[i] ==> !o.ToTelephony?
  {
    LatchedWithoutStart(None, events[..i]);
    forall o | o in Outputs(None, events)[i] ensures !o.ToTelephony? {
      if o.ToTelephony? {
        TelephonyFrameAddressed(None, events, i, o);
      }
    }
  }

  /** No frame to the telephony side, in the whole trace, has an empty address. */
  lemma {:induction false} NoUnaddressedFrame(sid0: Option<string>, events: seq<Event>)
    ensures forall o :: o in Trace(sid0, events) && o.ToTelephony? ==> o.telephony.streamSid != ""
    decreases |events|
  {
    if events != [] {
      var init := events[..|events| - 1];
      NoUnaddressedFrame(sid0, init);
      ReplayExtend(sid0, init, events[|events| - 1]);
      assert init + [events[|events| - 1]] == events;
    }
  }

  /** The audio chunk a single frame appends to the backend's input buffer, if any. */
  function AppendedBy(o: Outbound): seq<string> {
    if o.ToBackend? && o.backend.InputAudioAppend? then [o.backend.audio] else []
  }

  /** The audio chunks appended to the backend's input buffer, in order. */
  function Appended(trace: seq<Outbound>): seq<string> {
    if trace == [] then [] else Appended(trace[..|trace| - 1]) + AppendedBy(trace[|trace| - 1])
  }

  /** The media payload an event delivers while the backend socket is open, if any. */
  function MediaOf(e: Event): seq<string> {
    if e.TelephonyMessage? && e.tmsg.Media? && e.backendOpen then [e.tmsg.payload] else []
  }

  /** The media payloads that arrived while the backend socket was open, in order. */
  function MediaWhileOpen(events: seq<Event>): seq<string> {
    if events == [] then [] else MediaWhileOpen(events[..|events| - 1]) + MediaOf(events[|events| - 1])
  }

  function IsSessionUpdate(o: Outbound): nat {
    if o.ToBackend? && o.backend.SessionUpdate? then 1 else 0
  }

  /** Number of `session.update` frames in a trace. */
  function SessionUpdates(trace: seq<Outbound>): nat {
    if trace == [] then 0 else SessionUpdates(trace[..|trace| - 1]) + IsSessionUpdate(trace[|trace| - 1])
  }

  /** Number of times the backend connection opened. */
  function Opens(events: seq<Event>): nat {
    if events == [] then 0
    else Opens(events[..|events| - 1]) + (if events[|events| - 1].BackendOpened? then 1 else 0)
  }

  lemma {:induction false} AppendedConcat(a: seq<Outbound>, b: seq<Outbound>)
    ensures Appended(a + b) == Appended(a) + Appended(b)
    decreases |b|
  {
    if b != [] {
      AppendedConcat(a, b[..|b| - 1]);
      assert (a + b)[..|a + b| - 1] == a + b[..|b| - 1];
    } else {
      assert a + b == a;
    }
  }

  lemma {:induction false} SessionUpdatesConcat(a: seq<Outbound>, b: seq<Outbound>)
    ensures SessionUpdates(a + b) == SessionUpdates(a) + SessionUpdates(b)
    decreases |b|
  {
    if b != [] {
      SessionUpdatesConcat(a, b[..|b| - 1]);
      assert (a + b)[..|a + b| - 1] == a + b[..|b| - 1];
    } else {
      assert a + b == a;
    }
  }

  /** A single handler step appends to the backend exactly the media payload
      the event delivers while the backend is open, and sends a
      `session.update` exactly when the event is the backend opening. */
  lemma {:induction false} StepSends(sid: Option<string>, e: Event)
    ensures Appended(Next(sid, e).sent) == MediaOf(e)
    ensures SessionUpdates(Next(sid, e).sent) == if e.BackendOpened? then 1 else 0
  {
    var sent := Next(sid, e).sent;
    if sent != [] {
      assert |sent| == 1 && sent[..0] == [];
    }
  }

  /** The trace of a non-empty event sequence, split at its last event. */
  lemma {:induction false} TraceLast(sid0: Option<string>, events: seq<Event>)
    requires events != []
    ensures Trace(sid0, events)
      == Trace(sid0, events[..|events| - 1]) + Next(After(sid0, events[..|events| - 1]), events[|events| - 1]).sent
  {
    var init, e := events[..|events| - 1], events[|events| - 1];
    assert init + [e] == events;
    ReplayExtend(sid0, init, e);
  }

  /** The backend receives exactly the media payloads that arrived while it was
      open, unchanged and in arrival order, whatever the stream id. */
  lemma {:induction false} AppendedIsMediaWhileOpen(sid0: Option<string>, events: seq<Event>)
    ensures Appended(Trace(sid0, events)) == MediaWhileOpen(events)
    decreases |events|
  {
    if events != [] {
      var init, e := events[..|events| - 1], events[|events| - 1];
      AppendedIsMediaWhileOpen(sid0, init);
      TraceLast(sid0, events);
      StepSends(After(sid0, init), e);
      AppendedConcat(Trace(sid0, init), Next(After(sid0, init), e).sent);
    }
  }

  /** One `session.update` is sent per opening of the backend connection, and
      no other event sends one. */
  lemma {:induction false} SessionUpdatePerOpen(sid0: Option<string>, events: seq<Event>)
    ensures SessionUpdates(Trace(sid0, events)) == Opens(events)
    decreases |events|
  {
    if events != [] {
      var init, e := events[..|events| - 1], events[|events| - 1];
      SessionUpdatePerOpen(sid0, init);
      TraceLast(sid0, events);
      StepSends(After(sid0, init), e);
      SessionUpdatesConcat(Trace(sid0, init), Next(After(sid0, init), e).sent);
    }
  }

  /** Whether the backend socket had opened before every Twilio message that
      saw it open, as the socket library guarantees. */
  predicate OpenedBeforeUse(events: seq<Event>) {
    forall i :: 0 <= i < |events| && events[i].TelephonyMessage? && events[i].backendOpen ==>
      exists j :: 0 <= j < i && events[j].BackendOpened?
  }

  /** When readiness is reported consistently, every audio append to the
      backend comes after an event that sent the `session.update`. */
  lemma {:induction false} ConfigurationPrecedesAudio(sid0: Option<string>, events: seq<Event>, i: nat)
    requires OpenedBeforeUse(events)
    requires i < |events|
    requires exists o :: o in Outputs(sid0, events)[i] && o.ToBackend? && o.backend.InputAudioAppend?
    ensures exists j :: 0 <= j < i && Outputs(sid0, events)[j] == [ToBackend(SessionUpdate(BridgeSession))]
  {
    OutputAt(sid0, events, i);
    var j :| 0 <= j < i && events[j].BackendOpened?;
    OutputAt(sid0, events, j);
  }
}
