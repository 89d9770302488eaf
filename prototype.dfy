/** The single-file prototype of main_elevenlabs.py: a dictionary of session
    records, a websocket that relays the client's audio to a conversational
    agent service and the agent's events back to the client, and a finish call
    with the same fallback as the main backend. */
module ElevenLabsPrototype {
  import opened Basics
  import opened SessionModel
  import opened AiService

  /** The session record of the prototype: the three profile fields, the
      creation stamp, the transcript and the active flag. */
  class ProtoSession {
    const context: string
    const goal: string
    const userName: string
    const createdAt: string
    var transcript: seq<TranscriptEntry>
    var active: bool

    constructor (context: string, goal: string, userName: string, stamp: string)
      ensures this.context == context && this.goal == goal && this.userName == userName
      ensures createdAt == stamp && transcript == [] && !active
    {
      this.context := context;
      this.goal := goal;
      this.userName := userName;
      createdAt := stamp;
      transcript := [];
      active := false;
    }

    function View(): (v: ProtoView)
      reads this
    {
      ProtoView(transcript, active)
    }

    /** One turn of the receive loop for one agent message. */
    method HandleEvent(r: Received) returns (toClient: seq<ClientMessage>, toAgent: seq<UpstreamMessage>, continues: bool)
      modifies this
      ensures Handled(View(), toClient, toAgent, continues) == HandleStep(old(View()), r)
    {
      if !active {
        return [], [], false;
      }
      var d := Dispatch(r.event, r.entryStamp, r.sendStamp);
      if d.entry.Some? {
        transcript := transcript + [d.entry.value];
      }
      toClient := if r.delivered && d.toClient.Some? then [d.toClient.value] else [];
      toAgent := if r.delivered && d.toAgent.Some? then [d.toAgent.value] else [];
      continues := !Breaks(r);
      if !continues {
        active := false;
      }
    }

    /** One turn of the forwarding loop for the client message it was waiting
        for: the message is handled whatever `active` has become meanwhile,
        and `continues` is the loop condition checked afterwards. */
    method ForwardMessage(msg: Inbound, upstreamOk: bool) returns (toAgent: seq<UpstreamMessage>, continues: bool)
      modifies this
      ensures Forwarded(View(), toAgent, continues) == ForwardStep(old(View()), msg, upstreamOk)
    {
      toAgent, continues := [], false;
      match msg
      case Frame(bytes) =>
        if upstreamOk {
          toAgent, continues := [UserAudioChunk(bytes)], active;
        } else {
          active := false;
        }
      case Control(StopMessage) =>
        active := false;
      case Control(OtherMessage) =>
        continues := active;
      case Control(MalformedMessage) =>
        active := false;
      case Disconnected =>
        active := false;
    }

    /** The whole receive loop (lines 147-224) over the agent messages that
        arrive while no other activity runs; `LoopHandlesUpToFirstFailure`
        says what it does. */
    method ReceiveFromAgent(events: seq<Received>)
      returns (processed: nat, toClient: seq<ClientMessage>, toAgent: seq<UpstreamMessage>)
      modifies this
      ensures LoopResult(View(), processed, toClient, toAgent) == Loop(old(View()), events)
    {
      ghost var goal := Loop(View(), events);
      processed, toClient, toAgent := 0, [], [];
      while processed < |events|
        invariant processed <= |events|
        invariant Resume(processed, toClient, toAgent, Loop(View(), events[processed..])) == goal
        decreases |events| - processed
      {
        if !active {
          break;
        }
        ghost var v := View();
        ghost var rest := events[processed..];
        var r := events[processed];
        assert rest[0] == r && rest[1..] == events[processed + 1..];
        var c, a, continues := HandleEvent(r);
        assert Handled(View(), c, a, continues) == HandleStep(v, rest[0]);
        if continues {
          assert Loop(v, rest) == Resume(1, c, a, Loop(View(), events[processed + 1..]));
          ResumeAssociates(processed, toClient, toAgent, c, a, Loop(View(), events[processed + 1..]));
        } else {
          assert Loop(v, rest) == LoopResult(View(), 1, c, a);
        }
        toClient, toAgent := toClient + c, toAgent + a;
        processed := processed + 1;
        if !continues {
          assert Resume(processed, toClient, toAgent, Loop(View(), events[processed..])) == goal by {
            assert Loop(View(), events[processed..]) == LoopResult(View(), 0, [], []);
          }
          break;
        }
      }
    }
  }

  /** The id-to-record dictionary. */
  class SessionStore {
    var sessions: map<string, ProtoSession>

    constructor ()
      ensures sessions == map[]
    {
      sessions := map[];
    }

    /** Records a new session under `sessionId` (drawn at random by the
        caller): the profile as given, an empty transcript, inactive. */
    method CreateSession(sessionId: string, context: string, goal: string, userName: string, stamp: string)
      returns (id: string)
      modifies this
      ensures id == sessionId && id in sessions && fresh(sessions[id])
      ensures sessions == old(sessions)[id := sessions[id]]
      ensures sessions[id].context == context && sessions[id].goal == goal && sessions[id].userName == userName
      ensures sessions[id].createdAt == stamp && sessions[id].transcript == [] && !sessions[id].active
    {
      var record := new ProtoSession(context, goal, userName, stamp);
      sessions := sessions[sessionId := record];
      id := sessionId;
    }
  }

  // ---------------------------------------------------------------------------
  // Agent events and their dispatch

  /** What one message from the agent service decodes to.  A missing
      `audio_event` or `audio_base_64` field is `None`; a missing transcript or
      response text is the empty string; a missing ping `event_id` is `None`.
      `Undecodable` is text that is not JSON at all, `Unreadable` is JSON whose
      fields cannot be read (not an object, or a nested field that is not one). */
  datatype AgentEvent =
    | AudioEvent(audio: Option<string>)
    | UserTranscript(text: string)
    | AgentResponse(text: string)
    | Ping(eventId: Option<int>)
    | Interruption
    | OtherEvent
    | Undecodable
    | Unreadable

  /** A message sent to the client. */
  datatype ClientMessage =
    | ForwardAudio(data: string)
    | TranscriptMessage(text: string, speaker: string, timestamp: string)
    | SuggestionMessage(text: string, timestamp: string)
    | ErrorMessage(message: string)

  /** A message sent to the agent service. */
  datatype UpstreamMessage = UserAudioChunk(audio: seq<Byte>) | Pong(eventId: int)

  /** An agent message as it arrives: the event, the clock readings (as text)
      taken for the transcript entry and for the message sent on, and whether
      the one send the event causes goes through. */
  datatype Received = Received(event: AgentEvent, entryStamp: string, sendStamp: string, delivered: bool)

  /** What handling one event does: the transcript entry it appends, the
      message it sends to the client or to the agent, and whether its handling
      raises before any of those. */
  datatype Reaction = Reaction(
    entry: Option<TranscriptEntry>,
    toClient: Option<ClientMessage>,
    toAgent: Option<UpstreamMessage>,
    raises: bool)

  const NoReaction: Reaction := Reaction(None, None, None, false)

  /** The event dispatch of lines 152-218; `DispatchReacts` states what it does. */
  function Dispatch(ev: AgentEvent, entryStamp: string, sendStamp: string): Reaction
  {
    match ev
    case AudioEvent(audio) =>
      if audio.Some? && audio.value != "" then NoReaction.(toClient := Some(ForwardAudio(audio.value)))
      else NoReaction
    case UserTranscript(text) =>
      if text == "" then NoReaction
      else NoReaction.(entry := Some(TranscriptEntry("user", text, entryStamp)),
                       toClient := Some(TranscriptMessage(text, "user", sendStamp)))
    case AgentResponse(text) =>
      if text == "" then NoReaction
      else NoReaction.(entry := Some(TranscriptEntry("coach", text, entryStamp)),
                       toClient := Some(SuggestionMessage(text, sendStamp)))
    case Ping(eventId) =>
      NoReaction.(toAgent := Some(Pong(if eventId.Some? then eventId.value else 0)))
    case Interruption => NoReaction
    case OtherEvent => NoReaction
    case Undecodable => NoReaction
    case Unreadable => NoReaction.(raises := true)
  }

  /** What dispatching one event does: only non-empty transcript and response
      texts make an entry, as `user` and `coach` lines, each paired with its
      message to the client; audio is forwarded only when present and
      non-empty; a ping, and only a ping, is answered upstream, with its id or
      0; everything else does nothing, and only an unreadable message raises. */
  lemma DispatchReacts(ev: AgentEvent, entryStamp: string, sendStamp: string)
    ensures var d := Dispatch(ev, entryStamp, sendStamp);
      && (d.raises <==> ev.Unreadable?)
      && (d.entry.Some? <==> (ev.UserTranscript? || ev.AgentResponse?) && ev.text != "")
      && (d.entry.Some? ==> d.entry.value.text == ev.text && d.entry.value.timestamp == entryStamp)
      && (d.entry.Some? ==> d.entry.value.speaker == (if ev.UserTranscript? then "user" else "coach"))
      && (ev.UserTranscript? && ev.text != "" ==> d.toClient == Some(TranscriptMessage(ev.text, "user", sendStamp)))
      && (ev.AgentResponse? && ev.text != "" ==> d.toClient == Some(SuggestionMessage(ev.text, sendStamp)))
      && (ev.AudioEvent? ==> d.toClient == if ev.audio.Some? && ev.audio.value != "" then Some(ForwardAudio(ev.audio.value)) else None)
      && (d.toAgent.Some? <==> ev.Ping?)
      && (ev.Ping? ==> d.toAgent == Some(Pong(if ev.eventId.Some? then ev.eventId.value else 0)))
      && (d.toClient.Some? ==> d.toAgent.None?)
      && (!(ev.UserTranscript? || ev.AgentResponse? || ev.AudioEvent? || ev.Ping?) ==> d.toClient.None? && d.toAgent.None?)
      && ((ev.UserTranscript? || ev.AgentResponse?) && ev.text == "" ==> d == NoReaction)
  {
  }

  /** Whether handling `r` raises: its dispatch fails, or its one send does not
      go through.  Either way the loop ends and the session is deactivated
      (lines 220-224). */
  predicate Breaks(r: Received)
  {
    var d := Dispatch(r.event, r.entryStamp, r.sendStamp);
    d.raises || ((d.toClient.Some? || d.toAgent.Some?) && !r.delivered)
  }

  /** No message of `rs` makes its handling raise. */
  predicate Clean(rs: seq<Received>)
  {
    rs == [] || (!Breaks(rs[0]) && Clean(rs[1..]))
  }

  /** The transcript entry handling `r` appends, as a list of at most one. */
  function EntryOf(r: Received): seq<TranscriptEntry>
  {
    var d := Dispatch(r.event, r.entryStamp, r.sendStamp);
    if d.entry.Some? then [d.entry.value] else []
  }

  /** The message handling `r` delivers to the client, if its send goes through. */
  function SentToClient(r: Received): seq<ClientMessage>
  {
    var d := Dispatch(r.event, r.entryStamp, r.sendStamp);
    if r.delivered && d.toClient.Some? then [d.toClient.value] else []
  }

  /** The message handling `r` delivers to the agent, if its send goes through. */
  function SentToAgent(r: Received): seq<UpstreamMessage>
  {
    var d := Dispatch(r.event, r.entryStamp, r.sendStamp);
    if r.delivered && d.toAgent.Some? then [d.toAgent.value] else []
  }

  /** The transcript entries that handling `rs` in order appends. */
  function EntriesOf(rs: seq<Received>): seq<TranscriptEntry>
  {
    if rs == [] then [] else EntryOf(rs[0]) + EntriesOf(rs[1..])
  }

  /** The messages that handling `rs` in order delivers to the client. */
  function ClientOf(rs: seq<Received>): seq<ClientMessage>
  {
    if rs == [] then [] else SentToClient(rs[0]) + ClientOf(rs[1..])
  }

  /** The messages that handling `rs` in order delivers to the agent. */
  function AgentOf(rs: seq<Received>): seq<UpstreamMessage>
  {
    if rs == [] then [] else SentToAgent(rs[0]) + AgentOf(rs[1..])
  }

  /** What the receive loop leaves behind: the record, how many messages it
      handled, and what it delivered each way. */
  datatype LoopResult = LoopResult(view: ProtoView, processed: nat, toClient: seq<ClientMessage>, toAgent: seq<UpstreamMessage>)

  /** The receive loop over `events`: each turn is a `HandleStep`, and the loop
      ends when a turn does not continue or the stream is exhausted. */
  function Loop(v: ProtoView, events: seq<Received>): LoopResult
    decreases |events|
  {
    if events == [] || !v.active then LoopResult(v, 0, [], [])
    else
      var h := HandleStep(v, events[0]);
      if !h.continues then LoopResult(h.view, 1, h.toClient, h.toAgent)
      else Resume(1, h.toClient, h.toAgent, Loop(h.view, events[1..]))
  }

  /** The rest of a loop run, after `n` messages delivered `toClient` and `toAgent`. */
  function Resume(n: nat, toClient: seq<ClientMessage>, toAgent: seq<UpstreamMessage>, rest: LoopResult): LoopResult
  {
    LoopResult(rest.view, n + rest.processed, toClient + rest.toClient, toAgent + rest.toAgent)
  }

  lemma ResumeAssociates(n: nat, toClient: seq<ClientMessage>, toAgent: seq<UpstreamMessage>,
                     c: seq<ClientMessage>, a: seq<UpstreamMessage>, rest: LoopResult)
    ensures Resume(n, toClient, toAgent, Resume(1, c, a, rest)) == Resume(n + 1, toClient + c, toAgent + a, rest)
  {
  }

  /** The receive loop handles its messages in order: the transcript grows by
      exactly the entries of the messages it handled, and what is delivered
      each way is what those messages sent successfully. */
  lemma {:induction false} LoopLogs(v: ProtoView, events: seq<Received>)
    ensures var r := Loop(v, events);
      && r.processed <= |events|
      && r.view.transcript == v.transcript + EntriesOf(events[..r.processed])
      && r.toClient == ClientOf(events[..r.processed])
      && r.toAgent == AgentOf(events[..r.processed])
    decreases |events|
  {
    if events != [] && v.active {
      var e := events[0];
      var h := HandleStep(v, e);
      if h.continues {
        var rest := Loop(h.view, events[1..]);
        LoopLogs(h.view, events[1..]);
        var n := 1 + rest.processed;
        assert events[..n][0] == e && events[..n][1..] == events[1..][..n - 1];
      } else {
        assert events[..1][0] == e && events[..1][1..] == [];
      }
    }
  }

  /** The receive loop stops at the first message whose handling raises: an
      inactive record handles nothing; a record that stays active has handled
      the whole stream and none of it raised; a record the loop deactivated
      was stopped by its last handled message, after a clean prefix. */
  lemma LoopHandlesUpToFirstFailure(v: ProtoView, events: seq<Received>)
    ensures var r := Loop(v, events);
      && (!v.active ==> r == LoopResult(v, 0, [], []))
      && (r.view.active ==> r.processed == |events| && Clean(events))
      && (v.active && !r.view.active ==>
            && 0 < r.processed <= |events| && Clean(events[..r.processed - 1]) && Breaks(events[r.processed - 1]))
  {
    LoopCompletes(v, events);
    LoopStopsAtFailure(v, events);
  }

  /** A record the receive loop leaves active has handled every message, and none raised. */
  lemma {:induction false} LoopCompletes(v: ProtoView, events: seq<Received>)
    ensures var r := Loop(v, events);
      r.view.active ==> r.processed == |events| && Clean(events)
    decreases |events|
  {
    if events != [] && v.active && HandleStep(v, events[0]).continues {
      LoopCompletes(HandleStep(v, events[0]).view, events[1..]);
    }
  }

  /** A record the receive loop deactivated was stopped by the last message it
      handled, and none of the messages before that one raised. */
  lemma {:induction false} LoopStopsAtFailure(v: ProtoView, events: seq<Received>)
    ensures var r := Loop(v, events);
      v.active && !r.view.active ==>
        && 0 < r.processed <= |events| && Clean(events[..r.processed - 1]) && Breaks(events[r.processed - 1])
    decreases |events|
  {
    if events != [] && v.active {
      var e := events[0];
      var h := HandleStep(v, e);
      if h.continues {
        var rest := Loop(h.view, events[1..]);
        LoopStopsAtFailure(h.view, events[1..]);
        if !rest.view.active {
          var n := 1 + rest.processed;
          assert events[..n - 1][0] == e && events[..n - 1][1..] == events[1..][..n - 2];
          assert events[n - 1] == events[1..][n - 2];
        }
      } else {
        assert events[..0] == [];
      }
    }
  }

  /** Every entry the receive loop appends is a non-empty user or coach line
      taken from a transcript or response event, and there is at most one per
      message. */
  lemma {:induction false} EntriesOfAreSpeech(rs: seq<Received>)
    ensures |EntriesOf(rs)| <= |rs|
    ensures forall e :: e in EntriesOf(rs) ==> (e.speaker == "user" || e.speaker == "coach") && e.text != ""
    decreases |rs|
  {
    if rs != [] {
      var r := rs[0];
      EntriesOfAreSpeech(rs[1..]);
      DispatchReacts(r.event, r.entryStamp, r.sendStamp);
    }
  }

  /** Audio, ping, interruption and unknown events never touch the transcript. */
  lemma {:induction false} NoSpeechNoEntries(rs: seq<Received>)
    requires forall i :: 0 <= i < |rs| ==> !rs[i].event.UserTranscript? && !rs[i].event.AgentResponse?
    ensures EntriesOf(rs) == []
    decreases |rs|
  {
    if rs != [] {
      var r := rs[0];
      NoSpeechNoEntries(rs[1..]);
      DispatchReacts(r.event, r.entryStamp, r.sendStamp);
    }
  }

  /** Every pong the loop sends answers a ping of the same id (0 when the ping
      carried none), in order: there are exactly as many pongs as delivered pings. */
  lemma {:induction false} PongsAnswerPings(rs: seq<Received>)
    ensures |AgentOf(rs)| == |PingsDelivered(rs)|
    ensures forall i :: 0 <= i < |AgentOf(rs)| ==> AgentOf(rs)[i] == Pong(PingsDelivered(rs)[i])
    decreases |rs|
  {
    if rs != [] {
      var r := rs[0];
      PongsAnswerPings(rs[1..]);
      DispatchReacts(r.event, r.entryStamp, r.sendStamp);
      var head := if r.event.Ping? && r.delivered then [if r.event.eventId.Some? then r.event.eventId.value else 0] else [];
      assert PingsDelivered(rs) == head + PingsDelivered(rs[1..]);
      assert SentToAgent(r) == if head == [] then [] else [Pong(head[0])];
      forall i | 0 <= i < |AgentOf(rs)|
        ensures AgentOf(rs)[i] == Pong(PingsDelivered(rs)[i])
      {
        if i >= |head| {
          assert AgentOf(rs)[i] == AgentOf(rs[1..])[i - |head|];
          assert PingsDelivered(rs)[i] == PingsDelivered(rs[1..])[i - |head|];
        }
      }
    }
  }

  /** The ids of the delivered pings in `rs`, in order, with 0 for a missing id. */
  function PingsDelivered(rs: seq<Received>): seq<int>
  {
    if rs == [] then []
    else
      var r := rs[0];
      (if r.event.Ping? && r.delivered then [if r.event.eventId.Some? then r.event.eventId.value else 0] else [])
        + PingsDelivered(rs[1..])
  }

  // ---------------------------------------------------------------------------
  // The two relaying activities as atomic steps

  /** The part of a record the websocket changes. */
  datatype ProtoView = ProtoView(transcript: seq<TranscriptEntry>, active: bool)

  /** The effect of one receive-loop turn: the new record, what was delivered,
      and whether the loop goes on. */
  datatype Handled = Handled(view: ProtoView, toClient: seq<ClientMessage>, toAgent: seq<UpstreamMessage>, continues: bool)

  /** One turn of the receive loop (lines 147-224): an inactive session ends the
      loop before the message is looked at; otherwise the message is
      dispatched, its entry appended before its send is tried, and a failure
      ends the loop and deactivates the session. */
  function HandleStep(v: ProtoView, r: Received): (h: Handled)
    ensures !v.active ==> h == Handled(v, [], [], false)
    ensures v.active ==> h.view.transcript == v.transcript + EntryOf(r)
    ensures h.continues <==> v.active && !Breaks(r)
    ensures h.view.active == h.continues
  {
    if !v.active then Handled(v, [], [], false)
    else
      var f := Breaks(r);
      Handled(ProtoView(v.transcript + EntryOf(r), !f), SentToClient(r), SentToAgent(r), !f)
  }

  /** The effect of one forwarding-loop turn. */
  datatype Forwarded = Forwarded(view: ProtoView, toAgent: seq<UpstreamMessage>, continues: bool)

  /** One turn of the forwarding loop (lines 114-142), from the client message
      it was waiting for: the loop's condition was checked before the wait, so
      the message is handled even if the session was deactivated meanwhile.
      Audio is passed on to the agent; a stop, a disconnect, an unreadable
      control message or a failed forward ends the loop and deactivates the
      session; any other control message is ignored.  The loop then goes on
      exactly when the session is still active.  The transcript is never
      touched. */
  function ForwardStep(v: ProtoView, msg: Inbound, upstreamOk: bool): (f: Forwarded)
    ensures f.view.transcript == v.transcript
    ensures f.toAgent == if msg.Frame? && upstreamOk then [UserAudioChunk(msg.bytes)] else []
    ensures f.continues <==> v.active && ((msg.Frame? && upstreamOk) || msg == Control(OtherMessage))
    ensures f.view.active == f.continues
  {
    match msg
    case Frame(bytes) =>
      if upstreamOk then Forwarded(v, [UserAudioChunk(bytes)], v.active) else Forwarded(v.(active := false), [], false)
    case Control(StopMessage) => Forwarded(v.(active := false), [], false)
    case Control(OtherMessage) => Forwarded(v, [], v.active)
    case Control(MalformedMessage) => Forwarded(v.(active := false), [], false)
    case Disconnected => Forwarded(v.(active := false), [], false)
  }

  /** The websocket's state while both loops run: the record, and whether the
      forwarding loop is still waiting for a client message (it has not yet
      seen its condition fail, a stop, or an error). */
  datatype RelayState = RelayState(record: ProtoView, forwarding: bool)

  /** A turn of either loop, or the finish call deactivating the record from outside. */
  datatype ProtoEvent = FromClient(msg: Inbound, upstreamOk: bool) | FromAgent(r: Received) | Finish

  /** The outcome of a run: the final state and what was delivered each way. */
  datatype Relay = Relay(final: RelayState, toClient: seq<ClientMessage>, toAgent: seq<UpstreamMessage>)

  /** One event: a client message reaches the forwarding loop only while it is
      waiting; an agent message is a receive-loop turn; the finish call
      deactivates the record. */
  function ProtoStep(s: RelayState, e: ProtoEvent): Relay
  {
    match e
    case FromClient(msg, ok) =>
      if !s.forwarding then Relay(s, [], [])
      else var f := ForwardStep(s.record, msg, ok); Relay(RelayState(f.view, f.continues), [], f.toAgent)
    case FromAgent(r) => var h := HandleStep(s.record, r); Relay(s.(record := h.view), h.toClient, h.toAgent)
    case Finish => Relay(s.(record := s.record.(active := false)), [], [])
  }

  /** The events performed one after another, in the order given. */
  function ProtoRun(s: RelayState, events: seq<ProtoEvent>): Relay
    decreases |events|
  {
    if events == [] then Relay(s, [], [])
    else
      var first := ProtoStep(s, events[0]);
      var rest := ProtoRun(first.final, events[1..]);
      Relay(rest.final, first.toClient + rest.toClient, first.toAgent + rest.toAgent)
  }

  /** In every interleaving of the two loops and the finish call, the
      transcript only grows, at the end, by non-empty user and coach lines. */
  lemma {:induction false} RunOnlyAppendsSpeech(s: RelayState, events: seq<ProtoEvent>)
    ensures var r := ProtoRun(s, events);
      && s.record.transcript <= r.final.record.transcript
      && forall i :: |s.record.transcript| <= i < |r.final.record.transcript| ==>
           (r.final.record.transcript[i].speaker == "user" || r.final.record.transcript[i].speaker == "coach")
           && r.final.record.transcript[i].text != ""
    decreases |events|
  {
    if events != [] {
      var first := ProtoStep(s, events[0]);
      RunOnlyAppendsSpeech(first.final, events[1..]);
      if events[0].FromAgent? && s.record.active {
        EntriesOfAreSpeech([events[0].r]);
        assert EntriesOf([events[0].r]) == EntryOf(events[0].r);
      }
    }
  }

  /** Once the record is inactive, the transcript stays as it is, nothing more
      reaches the client, and the session stays inactive.  The agent can still
      get one audio chunk: the client frame the forwarding loop was already
      waiting for, after which the forwarding loop ends. */
  lemma {:induction false} InactiveRelayIsQuiet(s: RelayState, events: seq<ProtoEvent>)
    requires !s.record.active
    ensures var r := ProtoRun(s, events);
      && r.final.record == s.record
      && r.toClient == []
      && |r.toAgent| <= (if s.forwarding then 1 else 0)
      && (forall k :: 0 <= k < |r.toAgent| ==> r.toAgent[k].UserAudioChunk?)
      && (r.final.forwarding ==> s.forwarding)
      && (!s.forwarding ==> r == Relay(s, [], []))
    decreases |events|
  {
    if events != [] {
      var first := ProtoStep(s, events[0]);
      InactiveRelayIsQuiet(first.final, events[1..]);
      if events[0].FromClient? && s.forwarding {
        assert first.final == RelayState(s.record, false);
      } else {
        assert first == Relay(s, [], []);
      }
    }
  }

  /** The frame the forwarding loop was waiting for when the session was
      finished is still passed on to the agent, and only then does the
      forwarding loop end. */
  lemma FrameAfterFinishIsForwarded(s: RelayState, bytes: seq<Byte>)
    requires s.forwarding
    ensures var r := ProtoRun(s, [Finish, FromClient(Frame(bytes), true)]);
      && r.toAgent == [UserAudioChunk(bytes)]
      && !r.final.record.active && !r.final.forwarding
  {
    var events := [Finish, FromClient(Frame(bytes), true)];
    var after := ProtoStep(s, Finish).final;
    var last := ProtoStep(after, events[1]);
    assert events[1..] == [events[1]] && events[1..][1..] == [];
    assert last == Relay(RelayState(after.record, false), [], [UserAudioChunk(bytes)]);
    assert ProtoRun(after, events[1..]) == last;
  }

  /** A client stop while the record is active silences both sides for good:
      the forwarding loop ends, and no later event reaches the transcript, the
      client or the agent. */
  lemma StopSilencesAgent(s: RelayState, ok: bool, after: seq<ProtoEvent>)
    requires s.record.active && s.forwarding
    ensures var stopped := ProtoStep(s, FromClient(Control(StopMessage), ok)).final;
      && !stopped.record.active && !stopped.forwarding
      && stopped.record.transcript == s.record.transcript
      && ProtoRun(stopped, after) == Relay(stopped, [], [])
  {
    var stopped := ProtoStep(s, FromClient(Control(StopMessage), ok)).final;
    InactiveRelayIsQuiet(stopped, after);
  }

  // ---------------------------------------------------------------------------
  // Opening the websocket and the finish call

  /** What opening the websocket does: an unknown id is closed with 4004; a
      failed connection to the agent service is reported to the client; a
      connected run's session was activated. */
  datatype ProtoAdmission = Refused(closeCode: nat) | ConnectFailed(report: ClientMessage) | Connected(record: ProtoSession)

  /** Opening the websocket (lines 89-106, 232-245): an unknown id is refused
      with close code 4004 and nothing changes; otherwise the record is
      activated, and if the agent service cannot be reached the error text is
      sent to the client and the final cleanup deactivates the record again. */
  method Open(store: SessionStore, id: string, connectOk: bool, errorText: string) returns (r: ProtoAdmission)
    modifies if id in store.sessions then {store.sessions[id]} else {}
    ensures id !in store.sessions ==> r == Refused(SessionNotFoundClose)
    ensures id in store.sessions && !connectOk ==>
      && r == ConnectFailed(ErrorMessage(errorText))
      && !store.sessions[id].active
    ensures id in store.sessions && connectOk ==> r == Connected(store.sessions[id]) && store.sessions[id].active
    ensures id in store.sessions ==> store.sessions[id].transcript == old(store.sessions[id].transcript)
  {
    if id !in store.sessions {
      return Refused(SessionNotFoundClose);
    }
    var record := store.sessions[id];
    record.active := true;
    if !connectOk {
      r := ConnectFailed(ErrorMessage(errorText));
      record.active := false;
      return;
    }
    r := Connected(record);
  }

  /** The cleanup that ends every accepted websocket (line 245). */
  method Close(record: ProtoSession)
    modifies record
    ensures !record.active && record.transcript == old(record.transcript)
  {
    record.active := false;
  }

  /** The finish call (lines 250-332): 404 for an unknown id; otherwise the
      record is deactivated, an empty transcript gets the fixed default
      without asking the analysis service, and a non-empty one gets the
      service's fields or, if the service failed or its reply lacked a field,
      a server error; the transcript is returned unchanged. */
  method FinishSession(store: SessionStore, id: string, reply: Fallible<AnalysisResult>) returns (r: FinishOutcome)
    modifies if id in store.sessions then {store.sessions[id]} else {}
    ensures id !in store.sessions ==> r == HttpError(NotFoundStatus)
    ensures id in store.sessions ==>
      && !store.sessions[id].active
      && store.sessions[id].transcript == old(store.sessions[id].transcript)
      && r == Respond(AnalyzeSession(store.sessions[id].transcript, reply), store.sessions[id].transcript)
  {
    if id !in store.sessions {
      return HttpError(NotFoundStatus);
    }
    var record := store.sessions[id];
    record.active := false;
    var text := SerialiseTranscript(record.transcript);
    SerialisedBlankIffEmpty(record.transcript);
    if Strip(text) == "" {
      return Finished(FinishResponse(DefaultSummary().stars, DefaultSummary().wish, DefaultSummary().fillerPercentage,
                                     DefaultSummary().takeaways, DefaultSummary().summaryBullets, record.transcript));
    }
    match reply
    case Fails =>
      r := HttpError(ServerErrorStatus);
    case Ok(result) =>
      r := Finished(FinishResponse(result.stars, result.wish, result.fillerPercentage,
                                   result.takeaways, result.summaryBullets, record.transcript));
  }
}
