/** The orchestration of app/api/routes.py: the websocket admission check, the
    ingestion loop, one wake of the background analysis task, and the finish
    call.  The two asyncio tasks are modelled as atomic steps that may be
    scheduled in any order (Run), and a Connection object performs the same
    steps in place on a Session. */
module Routes {
  import opened Basics
  import opened SessionModel
  import opened AiService
  import opened Registry

  /** Audio is transcribed only once the buffer holds MORE than this many
      bytes (one second of 16 kHz, 16-bit mono audio). */
  const MinBufferBytes: nat := 16000 * 2
  /** Seconds that must pass between two coaching suggestions. */
  const SuggestionInterval: nat := 8
  /** History entries needed before a suggestion is asked for. */
  const MinHistoryForSuggestion: nat := 2
  const SecondsPerDay: nat := 86400

  /** A message sent to the client.  Audio data is carried before its base64 encoding. */
  datatype Outbound =
    | TranscriptEvent(text: string, speaker: string, timestamp: string)
    | SuggestionEvent(text: string, timestamp: string)
    | AudioEvent(data: seq<Byte>, format: string)

  /** Everything from outside that one wake of the analysis task depends on:
      the clock (seconds, and as ISO text), the three service replies, and
      whether each websocket send goes through. */
  datatype TickInputs = TickInputs(
    now: nat,
    stamp: string,
    transcription: Fallible<string>,
    transcriptSent: bool,
    suggestion: Fallible<string>,
    suggestionSent: bool,
    speech: Fallible<seq<seq<Byte>>>,
    audioSent: bool)

  /** What one wake did outwardly: the request handed to transcription, the
      request handed to the suggestion model, and the messages the client received. */
  datatype TickReport = TickReport(
    transcribed: Option<TranscriptionRequest>,
    asked: Option<SuggestionRequest>,
    sent: seq<Outbound>)

  datatype Tick = Tick(state: SessionState, report: TickReport)

  // ---------------------------------------------------------------------------
  // Suggestion cadence

  /** `timedelta.seconds` of `now - last` for a whole-second clock: the seconds
      COMPONENT of the difference, which Python keeps in [0, 86400). */
  function SecondsField(now: nat, last: nat): (r: int)
    ensures 0 <= r < SecondsPerDay
    ensures last <= now < last + SecondsPerDay ==> r == now - last
  {
    (now - last) % SecondsPerDay
  }

  /** The suggestion gate as routes.py writes it, on `.seconds`. */
  predicate SuggestionGateAsWritten(now: nat, last: nat, historyLength: nat)
  {
    SecondsField(now, last) >= SuggestionInterval && historyLength >= MinHistoryForSuggestion
  }

  /** The suggestion gate as intended: at least eight seconds have passed and
      the history has at least two entries.  The rest of the model uses this one. */
  predicate SuggestionGate(now: nat, last: nat, historyLength: nat)
  {
    now >= last + SuggestionInterval && historyLength >= MinHistoryForSuggestion
  }

  /** After a silence of a day and three seconds the written gate stays shut. */
  lemma GateAsWrittenMissesLongSilence()
    ensures SuggestionGate(86403, 0, 2)
    ensures !SuggestionGateAsWritten(86403, 0, 2)
  {
  }

  /** When the clock steps back five seconds the written gate opens. */
  lemma GateAsWrittenOpensOnClockStepBack()
    ensures !SuggestionGate(0, 5, 2)
    ensures SuggestionGateAsWritten(0, 5, 2)
  {
  }

  /** Within a day of the last suggestion, on a clock that does not go back, the two gates agree. */
  lemma GatesAgreeWithinADay(now: nat, last: nat, historyLength: nat)
    requires last <= now < last + SecondsPerDay
    ensures SuggestionGate(now, last, historyLength) == SuggestionGateAsWritten(now, last, historyLength)
  {
  }

  // ---------------------------------------------------------------------------
  // One wake of the analysis task (lines 42-113, after the sleep)

  /** The text transcription produced, when the buffer was above the threshold,
      the call succeeded and the stripped text is not empty. */
  function HeardText(st: SessionState, inputs: TickInputs): (r: Option<string>)
    ensures r.Some? <==>
      |st.audioBuffer| > MinBufferBytes && inputs.transcription.Ok? && Strip(inputs.transcription.value) != ""
    ensures r.Some? ==> r.value == Strip(inputs.transcription.value)
  {
    if |st.audioBuffer| <= MinBufferBytes then None
    else match StrippedReply(inputs.transcription)
      case Fails => None
      case Ok(text) => if text == "" then None else Some(text)
  }

  /** One processing tick.  Below the threshold nothing happens.  Above it the
      whole buffer is detached and handed to transcription, which routes.py
      calls without prompt, context or goal.  A non-empty transcription is
      recorded in the transcript; once its transcript message has been sent it
      also enters the history and the suggestion gate is consulted.  A
      suggestion that comes back is recorded in the transcript only; once it
      has been sent, speech synthesis is attempted (its failure is swallowed)
      and the suggestion time is advanced.  Every failure ends the tick where
      it happens, with what was already done kept. */
  function ProcessTick(p: Profile, st: SessionState, inputs: TickInputs): (r: Tick)
    ensures |st.audioBuffer| <= MinBufferBytes ==> r == Tick(st, TickReport(None, None, []))
    ensures |st.audioBuffer| > MinBufferBytes ==>
      && r.report.transcribed == Some(TranscriptionRequest(st.audioBuffer, None))
      && r.state.audioBuffer == []
    ensures r.state.active == st.active
  {
    if |st.audioBuffer| <= MinBufferBytes then Tick(st, TickReport(None, None, []))
    else
      var request := TranscriptionRequestFor(st.audioBuffer, "", "", "");
      var drained := st.(audioBuffer := []);
      match HeardText(st, inputs)
      case None => Tick(drained, TickReport(Some(request), None, []))
      case Some(text) => RecordSpeech(p, drained, text, inputs, request)
  }

  /** The part of a tick after `text` was heard (lines 52-108). */
  function RecordSpeech(p: Profile, st: SessionState, text: string, inputs: TickInputs,
                        request: TranscriptionRequest): (r: Tick)
    ensures r.state.audioBuffer == st.audioBuffer && r.state.active == st.active
    ensures r.report.transcribed == Some(request)
  {
    var noted := st.(transcript := st.transcript + [TranscriptEntry("user", text, inputs.stamp)]);
    if !inputs.transcriptSent then Tick(noted, TickReport(Some(request), None, []))
    else
      var heard := noted.(history := noted.history + [HistoryEntry("user", text)]);
      var shown := [TranscriptEvent(text, "user", inputs.stamp)];
      if !SuggestionGate(inputs.now, heard.lastSuggestionTime, |heard.history|) then
        Tick(heard, TickReport(Some(request), None, shown))
      else
        Coach(p, heard, inputs, request, shown)
  }

  /** The part of a tick after the gate opened (lines 78-108). */
  function Coach(p: Profile, st: SessionState, inputs: TickInputs, request: TranscriptionRequest,
                 shown: seq<Outbound>): (r: Tick)
    ensures r.state.audioBuffer == st.audioBuffer && r.state.active == st.active
    ensures r.state.history == st.history
    ensures r.report.transcribed == Some(request)
    ensures r.report.asked == Some(SuggestionRequestFor(p.userName, p.context, p.goal, st.history))
  {
    var ask := SuggestionRequestFor(p.userName, p.context, p.goal, st.history);
    match StrippedReply(inputs.suggestion)
    case Fails => Tick(st, TickReport(Some(request), Some(ask), shown))
    case Ok(tip) =>
      var coached := st.(transcript := st.transcript + [TranscriptEntry("coach", tip, inputs.stamp)]);
      if !inputs.suggestionSent then Tick(coached, TickReport(Some(request), Some(ask), shown))
      else
        var told := shown + [SuggestionEvent(tip, inputs.stamp)];
        var spoken :=
          if inputs.speech.Ok? && inputs.audioSent
          then told + [AudioEvent(Flatten(inputs.speech.value), "mp3")]
          else told;
        Tick(coached.(lastSuggestionTime := inputs.now), TickReport(Some(request), Some(ask), spoken))
  }

  /** The bytes a tick hands to transcription, as a list of at most one chunk. */
  function Detached(report: TickReport): (chunks: seq<seq<Byte>>)
    ensures |chunks| <= 1
  {
    if report.transcribed.Some? then [report.transcribed.value.audio] else []
  }

  /** No byte is lost or duplicated by a tick: what it hands over, followed by
      what it leaves in the buffer, is the buffer it found. */
  lemma TickConservesBytes(p: Profile, st: SessionState, inputs: TickInputs)
    ensures var r := ProcessTick(p, st, inputs);
      Flatten(Detached(r.report)) + r.state.audioBuffer == st.audioBuffer
  {
    var r := ProcessTick(p, st, inputs);
    if r.report.transcribed.Some? {
      assert Flatten(Detached(r.report)) == Flatten([] + [st.audioBuffer]);
      FlattenSnoc([], st.audioBuffer);
    }
  }

  /** A tick that hears nothing (buffer at or below the threshold, failed or
      empty transcription) changes nothing but the buffer and sends nothing. */
  lemma TickWithoutSpeech(p: Profile, st: SessionState, inputs: TickInputs)
    requires HeardText(st, inputs).None?
    ensures var r := ProcessTick(p, st, inputs);
      && r.state == st.(audioBuffer := r.state.audioBuffer)
      && r.report.asked.None? && r.report.sent == []
  {
  }

  /** A tick that hears `text` records exactly one `user` transcript entry for
      it first, and (once its message is sent) exactly one `{user, text}`
      history entry and one transcript message.  A second transcript entry
      follows exactly when the suggestion model was asked and answered: the
      coach's stripped tip, which never enters the history. */
  lemma TickRecordsSpeech(p: Profile, st: SessionState, inputs: TickInputs)
    requires HeardText(st, inputs).Some?
    ensures var text := HeardText(st, inputs).value;
      var r := ProcessTick(p, st, inputs);
      && r.state.transcript == st.transcript + [TranscriptEntry("user", text, inputs.stamp)]
           + (if r.report.asked.Some? && inputs.suggestion.Ok?
              then [TranscriptEntry("coach", Strip(inputs.suggestion.value), inputs.stamp)] else [])
      && r.state.history == st.history + (if inputs.transcriptSent then [HistoryEntry("user", text)] else [])
      && (inputs.transcriptSent <==> r.report.sent != [])
      && (inputs.transcriptSent ==> r.report.sent[0] == TranscriptEvent(text, "user", inputs.stamp))
  {
    var text := HeardText(st, inputs).value;
    var r := ProcessTick(p, st, inputs);
    var request := TranscriptionRequestFor(st.audioBuffer, "", "", "");
    var drained := st.(audioBuffer := []);
    assert r == RecordSpeech(p, drained, text, inputs, request);
    if inputs.transcriptSent {
      var heard := drained.(transcript := drained.transcript + [TranscriptEntry("user", text, inputs.stamp)],
                            history := drained.history + [HistoryEntry("user", text)]);
      var shown := [TranscriptEvent(text, "user", inputs.stamp)];
      if SuggestionGate(inputs.now, heard.lastSuggestionTime, |heard.history|) {
        assert r == Coach(p, heard, inputs, request, shown);
        CoachOutcome(p, heard, inputs, request, shown);
      }
    }
  }

  /** The suggestion model is asked exactly when speech was heard and shown,
      at least eight seconds have passed since the last suggestion, and the
      history (with the new entry) has at least two entries; it is asked about
      the profile and the last six history entries. */
  lemma TickSuggestionGate(p: Profile, st: SessionState, inputs: TickInputs)
    ensures var r := ProcessTick(p, st, inputs);
      && (r.report.asked.Some? <==>
            && HeardText(st, inputs).Some? && inputs.transcriptSent
            && inputs.now >= st.lastSuggestionTime + SuggestionInterval
            && |st.history| + 1 >= MinHistoryForSuggestion)
      && (r.report.asked.Some? ==>
            r.report.asked.value == SuggestionRequestFor(p.userName, p.context, p.goal, r.state.history))
  {
    var r := ProcessTick(p, st, inputs);
    if |st.audioBuffer| > MinBufferBytes && HeardText(st, inputs).Some? {
      var text := HeardText(st, inputs).value;
      var request := TranscriptionRequestFor(st.audioBuffer, "", "", "");
      var drained := st.(audioBuffer := []);
      assert r == RecordSpeech(p, drained, text, inputs, request);
      if inputs.transcriptSent {
        var heard := drained.(transcript := drained.transcript + [TranscriptEntry("user", text, inputs.stamp)],
                              history := drained.history + [HistoryEntry("user", text)]);
        var shown := [TranscriptEvent(text, "user", inputs.stamp)];
        if SuggestionGate(inputs.now, heard.lastSuggestionTime, |heard.history|) {
          assert r == Coach(p, heard, inputs, request, shown);
        }
      }
    }
  }

  /** The suggestion time advances, to `now`, exactly when a suggestion was
      produced and sent, whatever speech synthesis and the audio send do. */
  lemma TickAdvancesSuggestionTime(p: Profile, st: SessionState, inputs: TickInputs)
    ensures var r := ProcessTick(p, st, inputs);
      var delivered := r.report.asked.Some? && inputs.suggestion.Ok? && inputs.suggestionSent;
      && r.state.lastSuggestionTime == (if delivered then inputs.now else st.lastSuggestionTime)
      && (delivered ==> r.report.sent[1] == SuggestionEvent(Strip(inputs.suggestion.value), inputs.stamp))
      && (delivered ==> (|r.report.sent| == 3 <==> inputs.speech.Ok? && inputs.audioSent))
  {
    var r := ProcessTick(p, st, inputs);
    if |st.audioBuffer| > MinBufferBytes && HeardText(st, inputs).Some? {
      var text := HeardText(st, inputs).value;
      var request := TranscriptionRequestFor(st.audioBuffer, "", "", "");
      var drained := st.(audioBuffer := []);
      assert r == RecordSpeech(p, drained, text, inputs, request);
      if inputs.transcriptSent {
        var heard := drained.(transcript := drained.transcript + [TranscriptEntry("user", text, inputs.stamp)],
                              history := drained.history + [HistoryEntry("user", text)]);
        var shown := [TranscriptEvent(text, "user", inputs.stamp)];
        if SuggestionGate(inputs.now, heard.lastSuggestionTime, |heard.history|) {
          assert r == Coach(p, heard, inputs, request, shown);
          CoachOutcome(p, heard, inputs, request, shown);
        }
      }
    }
  }

  /** The messages a tick that hears `text` sends, in order: the transcript
      message once it was sent, then, when a suggestion was asked, returned
      and sent, the stripped tip's message, followed by the audio message
      exactly when synthesis and its send both succeed.  Nothing else. */
  lemma TickSends(p: Profile, st: SessionState, inputs: TickInputs)
    requires HeardText(st, inputs).Some?
    ensures var text := HeardText(st, inputs).value;
      var r := ProcessTick(p, st, inputs);
      var delivered := r.report.asked.Some? && inputs.suggestion.Ok? && inputs.suggestionSent;
      r.report.sent
        == (if inputs.transcriptSent then [TranscriptEvent(text, "user", inputs.stamp)] else [])
           + (if delivered
              then [SuggestionEvent(Strip(inputs.suggestion.value), inputs.stamp)]
                   + (if inputs.speech.Ok? && inputs.audioSent then [AudioEvent(Flatten(inputs.speech.value), "mp3")] else [])
              else [])
  {
    var text := HeardText(st, inputs).value;
    var request := TranscriptionRequestFor(st.audioBuffer, "", "", "");
    var drained := st.(audioBuffer := []);
    assert ProcessTick(p, st, inputs) == RecordSpeech(p, drained, text, inputs, request);
    RecordSpeechSends(p, drained, text, inputs, request);
  }

  /** `TickSends` for the part of the tick after `text` was heard. */
  lemma RecordSpeechSends(p: Profile, st: SessionState, text: string, inputs: TickInputs,
                          request: TranscriptionRequest)
    ensures var r := RecordSpeech(p, st, text, inputs, request);
      var delivered := r.report.asked.Some? && inputs.suggestion.Ok? && inputs.suggestionSent;
      r.report.sent
        == (if inputs.transcriptSent then [TranscriptEvent(text, "user", inputs.stamp)] else [])
           + (if delivered
              then [SuggestionEvent(Strip(inputs.suggestion.value), inputs.stamp)]
                   + (if inputs.speech.Ok? && inputs.audioSent then [AudioEvent(Flatten(inputs.speech.value), "mp3")] else [])
              else [])
  {
    var r := RecordSpeech(p, st, text, inputs, request);
    var shown := if inputs.transcriptSent then [TranscriptEvent(text, "user", inputs.stamp)] else [];
    var heard := st.(transcript := st.transcript + [TranscriptEntry("user", text, inputs.stamp)],
                     history := st.history + [HistoryEntry("user", text)]);
    if inputs.transcriptSent && SuggestionGate(inputs.now, heard.lastSuggestionTime, |heard.history|) {
      CoachedSends(p, st, text, inputs, request);
    } else {
      UncoachedSends(p, st, text, inputs, request);
      assert r.report.sent == shown + [];
    }
  }

  /** Without a gate opened after the transcript message, the tick sends that
      message at most and asks nothing. */
  lemma UncoachedSends(p: Profile, st: SessionState, text: string, inputs: TickInputs,
                       request: TranscriptionRequest)
    requires !inputs.transcriptSent
             || !SuggestionGate(inputs.now, st.lastSuggestionTime, |st.history| + 1)
    ensures var r := RecordSpeech(p, st, text, inputs, request);
      && r.report.asked.None?
      && r.report.sent == (if inputs.transcriptSent then [TranscriptEvent(text, "user", inputs.stamp)] else [])
  {
  }

  /** With the gate open after the transcript message, the tick sends that
      message followed by what the coaching step sends. */
  lemma CoachedSends(p: Profile, st: SessionState, text: string, inputs: TickInputs,
                     request: TranscriptionRequest)
    requires inputs.transcriptSent
    requires SuggestionGate(inputs.now, st.lastSuggestionTime, |st.history| + 1)
    ensures var r := RecordSpeech(p, st, text, inputs, request);
      && r.report.asked.Some?
      && r.report.sent
         == [TranscriptEvent(text, "user", inputs.stamp)]
            + (if inputs.suggestion.Ok? && inputs.suggestionSent
               then [SuggestionEvent(Strip(inputs.suggestion.value), inputs.stamp)]
                    + (if inputs.speech.Ok? && inputs.audioSent then [AudioEvent(Flatten(inputs.speech.value), "mp3")] else [])
               else [])
  {
    var heard := st.(transcript := st.transcript + [TranscriptEntry("user", text, inputs.stamp)],
                     history := st.history + [HistoryEntry("user", text)]);
    var shown := [TranscriptEvent(text, "user", inputs.stamp)];
    var r := RecordSpeech(p, st, text, inputs, request);
    assert r == Coach(p, heard, inputs, request, shown);
    CoachOutcome(p, heard, inputs, request, shown);
    if inputs.suggestion.Ok? && inputs.suggestionSent {
      var audio := if inputs.speech.Ok? && inputs.audioSent then [AudioEvent(Flatten(inputs.speech.value), "mp3")] else [];
      assert r.report.sent == shown + [SuggestionEvent(Strip(inputs.suggestion.value), inputs.stamp)] + audio;
      ConcatAssociates(shown, [SuggestionEvent(Strip(inputs.suggestion.value), inputs.stamp)], audio);
    } else {
      assert r.report.sent == shown + [];
    }
  }

  /** Once the gate is open: a tip that came back is recorded as one coach
      entry; the suggestion time advances exactly when that tip was also sent;
      the tip's message follows the messages already sent, and the audio
      message follows it only when synthesis and its send succeed. */
  lemma CoachOutcome(p: Profile, st: SessionState, inputs: TickInputs,
                     request: TranscriptionRequest, shown: seq<Outbound>)
    ensures Coach(p, st, inputs, request, shown).state.transcript == st.transcript
              + (if inputs.suggestion.Ok? then [TranscriptEntry("coach", Strip(inputs.suggestion.value), inputs.stamp)] else [])
    ensures Coach(p, st, inputs, request, shown).state.lastSuggestionTime
              == (if inputs.suggestion.Ok? && inputs.suggestionSent then inputs.now else st.lastSuggestionTime)
    ensures !(inputs.suggestion.Ok? && inputs.suggestionSent) ==> Coach(p, st, inputs, request, shown).report.sent == shown
    ensures inputs.suggestion.Ok? && inputs.suggestionSent ==>
              Coach(p, st, inputs, request, shown).report.sent
              == shown + [SuggestionEvent(Strip(inputs.suggestion.value), inputs.stamp)]
                 + (if inputs.speech.Ok? && inputs.audioSent then [AudioEvent(Flatten(inputs.speech.value), "mp3")] else [])
  {
    if inputs.suggestion.Ok? {
      CoachTip(p, st, inputs, request, shown);
    } else {
      CoachNoTip(p, st, inputs, request, shown);
    }
  }

  /** The gate opened but the suggestion call failed. */
  lemma CoachNoTip(p: Profile, st: SessionState, inputs: TickInputs, request: TranscriptionRequest, shown: seq<Outbound>)
    requires inputs.suggestion.Fails?
    ensures Coach(p, st, inputs, request, shown).state == st
    ensures Coach(p, st, inputs, request, shown).report.sent == shown
  {
  }

  /** The gate opened and the suggestion call returned a tip. */
  lemma CoachTip(p: Profile, st: SessionState, inputs: TickInputs, request: TranscriptionRequest, shown: seq<Outbound>)
    requires inputs.suggestion.Ok?
    ensures Coach(p, st, inputs, request, shown).state.transcript == st.transcript + [TranscriptEntry("coach", Strip(inputs.suggestion.value), inputs.stamp)]
    ensures Coach(p, st, inputs, request, shown).state.lastSuggestionTime == (if inputs.suggestionSent then inputs.now else st.lastSuggestionTime)
    ensures !inputs.suggestionSent ==> Coach(p, st, inputs, request, shown).report.sent == shown
    ensures inputs.suggestionSent ==>
              Coach(p, st, inputs, request, shown).report.sent
              == shown + [SuggestionEvent(Strip(inputs.suggestion.value), inputs.stamp)]
                 + (if inputs.speech.Ok? && inputs.audioSent then [AudioEvent(Flatten(inputs.speech.value), "mp3")] else [])
  {
  }

  /** Speech synthesis and the audio send affect only whether the audio
      message goes out: the session state is the same either way. */
  lemma TickStateIgnoresSpeech(p: Profile, st: SessionState, inputs: TickInputs,
                               speech: Fallible<seq<seq<Byte>>>, audioSent: bool)
    ensures ProcessTick(p, st, inputs.(speech := speech, audioSent := audioSent)).state
         == ProcessTick(p, st, inputs).state
  {
  }

  // ---------------------------------------------------------------------------
  // The two activities as atomic steps

  /** A connection's state: the session, and whether the ingestion loop and
      the analysis task are still running. */
  datatype ConnView = ConnView(session: SessionState, ingesting: bool, analysing: bool)

  /** Ends the ingestion loop after deactivating the session; `cancelled` says
      whether the analysis task is cancelled too (the normal exit at line 145)
      or left to run (the exception path, which reaches only the finally). */
  function EndIngestion(c: ConnView, cancelled: bool): (r: ConnView)
  {
    c.(session := c.session.(active := false), ingesting := false,
       analysing := if cancelled then false else c.analysing)
  }

  /** The ingestion loop's condition, checked after a message was handled: an
      inactive session ends the loop normally and the analysis task is cancelled
      (line 145). */
  function LoopAgain(c: ConnView): (r: ConnView)
    ensures r.session == c.session
    ensures r.ingesting == (c.ingesting && c.session.active)
    ensures r.analysing == (c.analysing && c.session.active)
  {
    if c.session.active then c else c.(ingesting := false, analysing := false)
  }

  /** One turn of the ingestion loop, from the moment `receive()` returns: the
      message's handling and then the loop condition (lines 120-145).  The loop
      waits for a message only after its condition held, so a message that
      arrives after the session was deactivated during the wait is still
      handled. */
  function Ingest(c: ConnView, msg: Inbound): (r: ConnView)
    requires c.ingesting
    ensures r.session.transcript == c.session.transcript && r.session.history == c.session.history
    ensures r.session.lastSuggestionTime == c.session.lastSuggestionTime
    ensures msg.Frame? ==>
      r.session == c.session.(audioBuffer := c.session.audioBuffer + msg.bytes)
    ensures !msg.Frame? ==> r.session.audioBuffer == c.session.audioBuffer
    ensures r.ingesting <==> c.session.active && (msg.Frame? || msg == Control(OtherMessage))
    ensures !r.ingesting ==> !r.session.active
    ensures r.session.active ==> r.ingesting && r.analysing == c.analysing
    ensures r.analysing ==> c.analysing
  {
    match msg
    case Frame(bytes) => LoopAgain(c.(session := c.session.(audioBuffer := c.session.audioBuffer + bytes)))
    case Control(StopMessage) => EndIngestion(c, true)
    case Control(OtherMessage) => LoopAgain(c)
    case Control(MalformedMessage) => EndIngestion(c, false)
    case Disconnected => EndIngestion(c, true)
  }

  /** One wake of the analysis task: the tick body (which runs even if the
      session was deactivated during the sleep), then the loop condition. */
  function WakeStep(p: Profile, c: ConnView, inputs: TickInputs): (r: (ConnView, TickReport))
    requires c.analysing
    ensures r.0.ingesting == c.ingesting && r.0.analysing == c.session.active
  {
    var t := ProcessTick(p, c.session, inputs);
    (c.(session := t.state, analysing := t.state.active), t.report)
  }

  /** A step of either activity, or the finish call deactivating the session from outside. */
  datatype Event = Receive(msg: Inbound) | Wake(inputs: TickInputs) | Deactivate

  /** The outcome of a step or a run: the final state, the frames appended to
      the buffer, the chunks handed to transcription, and the messages sent. */
  datatype Trace = Trace(final: ConnView, frames: seq<seq<Byte>>, chunks: seq<seq<Byte>>, sent: seq<Outbound>)

  /** A step scheduled for an activity that has already ended does nothing. */
  function Step(p: Profile, c: ConnView, e: Event): (r: Trace)
  {
    match e
    case Receive(msg) =>
      if !c.ingesting then Trace(c, [], [], [])
      else Trace(Ingest(c, msg), if msg.Frame? then [msg.bytes] else [], [], [])
    case Wake(inputs) =>
      if !c.analysing then Trace(c, [], [], [])
      else
        var (c', report) := WakeStep(p, c, inputs);
        Trace(c', [], Detached(report), report.sent)
    case Deactivate =>
      Trace(c.(session := c.session.(active := false)), [], [], [])
  }

  /** The events performed one after another, in the order given. */
  function Run(p: Profile, c: ConnView, events: seq<Event>): (r: Trace)
    decreases |events|
  {
    if events == [] then Trace(c, [], [], [])
    else
      var first := Step(p, c, events[0]);
      var rest := Run(p, first.final, events[1..]);
      Trace(rest.final, first.frames + rest.frames, first.chunks + rest.chunks, first.sent + rest.sent)
  }

  lemma StepConservesBytes(p: Profile, c: ConnView, e: Event)
    ensures var r := Step(p, c, e);
      Flatten(r.chunks) + r.final.session.audioBuffer == c.session.audioBuffer + Flatten(r.frames)
  {
    match e
    case Receive(msg) =>
      if c.ingesting && msg.Frame? {
        FlattenSnoc([], msg.bytes);
      }
    case Wake(inputs) =>
      if c.analysing {
        TickConservesBytes(p, c.session, inputs);
      }
    case Deactivate =>
  }

  /** Byte conservation, for every interleaving of the two activities and the
      finish call: the chunks handed to transcription, in order, followed by
      the buffer left at the end, are the starting buffer followed by every
      frame appended, in order. */
  lemma {:induction false} RunConservesBytes(p: Profile, c: ConnView, events: seq<Event>)
    ensures var r := Run(p, c, events);
      Flatten(r.chunks) + r.final.session.audioBuffer == c.session.audioBuffer + Flatten(r.frames)
    decreases |events|
  {
    if events != [] {
      var first := Step(p, c, events[0]);
      var rest := Run(p, first.final, events[1..]);
      StepConservesBytes(p, c, events[0]);
      RunConservesBytes(p, first.final, events[1..]);
      FlattenConcat(first.chunks, rest.chunks);
      FlattenConcat(first.frames, rest.frames);
      SpliceConserved(c.session.audioBuffer, Flatten(first.frames), Flatten(first.chunks), first.final.session.audioBuffer,
                      Flatten(rest.frames), Flatten(rest.chunks), rest.final.session.audioBuffer);
    }
  }

  /** Appending a received frame to the buffer keeps the bytes conserved. */
  lemma FrameConserves(initial: seq<Byte>, received: seq<seq<Byte>>, detached: seq<seq<Byte>>,
                       buffer: seq<Byte>, bytes: seq<Byte>)
    requires Flatten(detached) + buffer == initial + Flatten(received)
    ensures Flatten(detached) + (buffer + bytes) == initial + Flatten(received + [bytes])
  {
    FlattenSnoc(received, bytes);
    calc {
      Flatten(detached) + (buffer + bytes);
      (Flatten(detached) + buffer) + bytes;
      (initial + Flatten(received)) + bytes;
      initial + (Flatten(received) + bytes);
    }
  }

  /** Detaching chunks that, followed by what is left, make up the buffer keeps
      the bytes conserved. */
  lemma WakeConserves(initial: seq<Byte>, received: seq<seq<Byte>>, detached: seq<seq<Byte>>,
                      buffer: seq<Byte>, chunks: seq<seq<Byte>>, rest: seq<Byte>)
    requires Flatten(detached) + buffer == initial + Flatten(received)
    requires Flatten(chunks) + rest == buffer
    ensures Flatten(detached + chunks) + rest == initial + Flatten(received)
  {
    FlattenConcat(detached, chunks);
    ConcatAssociates(Flatten(detached), Flatten(chunks), rest);
  }

  /** Two conserving stretches of a run make a conserving run. */
  lemma SpliceConserved(start: seq<Byte>, frames1: seq<Byte>, chunks1: seq<Byte>, mid: seq<Byte>,
                        frames2: seq<Byte>, chunks2: seq<Byte>, end: seq<Byte>)
    requires chunks1 + mid == start + frames1
    requires chunks2 + end == mid + frames2
    ensures (chunks1 + chunks2) + end == start + (frames1 + frames2)
  {
    calc {
      (chunks1 + chunks2) + end;
      chunks1 + (mid + frames2);
      (start + frames1) + frames2;
    }
  }

  /** Once the session is inactive, whatever is scheduled next: the session
      stays inactive, at most one more frame is appended (the one the ingestion
      loop was already waiting for) and at most one more tick body runs (the
      one already sleeping); an activity that had already ended does neither,
      and an ended analysis task sends nothing. */
  lemma {:induction false} InactiveRunIsQuiet(p: Profile, c: ConnView, events: seq<Event>)
    requires !c.session.active
    ensures var r := Run(p, c, events);
      && !r.final.session.active
      && |r.frames| <= (if c.ingesting then 1 else 0)
      && |r.chunks| <= (if c.analysing then 1 else 0)
      && (!c.analysing ==> r.sent == [])
    decreases |events|
  {
    if events != [] {
      var first := Step(p, c, events[0]);
      InactiveRunIsQuiet(p, first.final, events[1..]);
      assert first.final.ingesting ==> c.ingesting && first.frames == [];
      assert first.final.analysing ==> c.analysing && first.chunks == [];
    }
  }

  /** A scheduled stop (or disconnect) while the session is active ends both
      activities for good: nothing is appended or transcribed afterwards. */
  lemma StopEndsEverything(p: Profile, c: ConnView, after: seq<Event>)
    requires c.ingesting && c.session.active
    ensures var stopped := Step(p, c, Receive(Control(StopMessage))).final;
      var r := Run(p, stopped, after);
      r.frames == [] && r.chunks == [] && r.sent == [] && !r.final.session.active
  {
    var stopped := Step(p, c, Receive(Control(StopMessage))).final;
    assert !stopped.analysing && !stopped.session.active;
    InactiveRunIsQuiet(p, stopped, after);
  }

  // ---------------------------------------------------------------------------
  // The same steps, in place

  datatype Admission = Rejected(closeCode: nat) | Accepted(conn: Connection)

  /** The state of one accepted websocket: its session, the two running
      activities, and (ghost) the frames received and the chunks detached so far. */
  class Connection {
    const session: Session
    var ingesting: bool
    var analysing: bool
    ghost const initialBuffer: seq<Byte>
    ghost var received: seq<seq<Byte>>
    ghost var detached: seq<seq<Byte>>

    /** Byte conservation as an object invariant. */
    ghost predicate Valid()
      reads this, session
    {
      Flatten(detached) + session.audioBuffer == initialBuffer + Flatten(received)
    }

    function View(): (v: ConnView)
      reads this, session
    {
      ConnView(session.State(), ingesting, analysing)
    }

    constructor (s: Session)
      ensures session == s && ingesting && analysing
      ensures initialBuffer == s.audioBuffer && received == [] && detached == []
      ensures Valid()
    {
      session := s;
      ingesting := true;
      analysing := true;
      initialBuffer := s.audioBuffer;
      received := [];
      detached := [];
    }

    /** One turn of the ingestion loop. */
    method Receive(msg: Inbound)
      requires Valid() && ingesting
      modifies this, session
      ensures Valid()
      ensures View() == Ingest(old(View()), msg)
      ensures received == old(received) + (if msg.Frame? then [msg.bytes] else [])
      ensures detached == old(detached)
    {
      match msg
      case Frame(bytes) =>
        var buffer := session.audioBuffer;
        FrameConserves(initialBuffer, received, detached, buffer, bytes);
        session.audioBuffer := buffer + bytes;
        received := received + [bytes];
        if !session.active {
          ingesting, analysing := false, false;
        }
      case Control(StopMessage) =>
        session.active := false;
        ingesting, analysing := false, false;
      case Control(OtherMessage) =>
        if !session.active {
          ingesting, analysing := false, false;
        }
      case Control(MalformedMessage) =>
        session.active := false;
        ingesting := false;
      case Disconnected =>
        session.active := false;
        ingesting, analysing := false, false;
    }

    /** One wake of the analysis task: the tick body on the session, then the loop condition. */
    method Wake(inputs: TickInputs) returns (report: TickReport)
      requires Valid() && analysing
      modifies this, session
      ensures Valid()
      ensures (View(), report) == WakeStep(session.profile, old(View()), inputs)
      ensures received == old(received)
      ensures detached == old(detached) + Detached(report)
    {
      ghost var before := old(View());
      report := RunTick(session, inputs);
      ghost var t := ProcessTick(session.profile, before.session, inputs);
      assert session.State() == t.state && report == t.report;
      assert WakeStep(session.profile, before, inputs) == (before.(session := t.state, analysing := t.state.active), t.report);
      TickConservesBytes(session.profile, before.session, inputs);
      WakeConserves(initialBuffer, received, detached, before.session.audioBuffer, Detached(report), session.audioBuffer);
      detached := detached + Detached(report);
      analysing := session.active;
    }
  }

  /** The tick body (lines 42-113) performed in place on a session. */
  method RunTick(session: Session, inputs: TickInputs) returns (report: TickReport)
    modifies session
    ensures Tick(session.State(), report) == ProcessTick(session.profile, old(session.State()), inputs)
  {
    ghost var before := session.State();
    if |session.audioBuffer| <= MinBufferBytes {
      return TickReport(None, None, []);
    }
    var audio := session.audioBuffer;
    session.audioBuffer := [];
    var request := TranscriptionRequestFor(audio, "", "", "");
    ghost var drained := before.(audioBuffer := []);
    assert session.State() == drained;
    var heard := StrippedReply(inputs.transcription);
    if heard.Ok? && heard.value != "" {
      assert HeardText(before, inputs) == Some(heard.value);
      assert ProcessTick(session.profile, before, inputs) == RecordSpeech(session.profile, drained, heard.value, inputs, request);
      report := HearSpeech(session, heard.value, inputs, request);
    } else {
      assert HeardText(before, inputs) == None;
      assert ProcessTick(session.profile, before, inputs) == Tick(drained, TickReport(Some(request), None, []));
      report := TickReport(Some(request), None, []);
    }
  }

  /** Lines 52-108 in place. */
  method HearSpeech(session: Session, text: string, inputs: TickInputs, request: TranscriptionRequest)
    returns (report: TickReport)
    modifies session
    ensures Tick(session.State(), report) == RecordSpeech(session.profile, old(session.State()), text, inputs, request)
  {
    var _ := session.AddTranscriptEntry("user", text, inputs.stamp);
    if !inputs.transcriptSent {
      return TickReport(Some(request), None, []);
    }
    var shown := [TranscriptEvent(text, "user", inputs.stamp)];
    session.conversationHistory := session.conversationHistory + [HistoryEntry("user", text)];
    if SuggestionGate(inputs.now, session.lastSuggestionTime, |session.conversationHistory|) {
      report := GiveSuggestion(session, inputs, request, shown);
    } else {
      report := TickReport(Some(request), None, shown);
    }
  }

  /** Lines 78-108 in place. */
  method GiveSuggestion(session: Session, inputs: TickInputs, request: TranscriptionRequest, shown: seq<Outbound>)
    returns (report: TickReport)
    modifies session
    ensures Tick(session.State(), report) == Coach(session.profile, old(session.State()), inputs, request, shown)
  {
    var p := session.profile;
    var ask := SuggestionRequestFor(p.userName, p.context, p.goal, session.conversationHistory);
    report := TickReport(Some(request), Some(ask), shown);
    var tip := StrippedReply(inputs.suggestion);
    if tip.Fails? {
      return;
    }
    var _ := session.AddTranscriptEntry("coach", tip.value, inputs.stamp);
    if !inputs.suggestionSent {
      return;
    }
    report := report.(sent := shown + [SuggestionEvent(tip.value, inputs.stamp)]);
    if inputs.speech.Ok? {
      var speech := GenerateTtsAudio(inputs.speech.value);
      if inputs.audioSent {
        report := report.(sent := report.sent + [AudioEvent(speech, "mp3")]);
      }
    }
    session.lastSuggestionTime := inputs.now;
  }

  /** Opening the websocket: an unknown id is closed with 4004; a known one is
      accepted, its session activated and both activities started. */
  method Open(manager: SessionManager, id: string) returns (r: Admission)
    modifies if id in manager.sessions then {manager.sessions[id]} else {}
    ensures id !in manager.sessions ==> r == Rejected(SessionNotFoundClose)
    ensures id in manager.sessions ==>
      && r.Accepted? && fresh(r.conn) && r.conn.session == manager.sessions[id]
      && r.conn.Valid() && r.conn.ingesting && r.conn.analysing
      && r.conn.session.State() == old(manager.sessions[id].State()).(active := true)
  {
    if !manager.SessionExists(id) {
      return Rejected(SessionNotFoundClose);
    }
    var session := manager.sessions[id];
    session.active := true;
    var conn := new Connection(session);
    r := Accepted(conn);
  }

  /** The finish call: 404 for an unknown id; otherwise the session is
      deactivated (whether or not it was active) and the analysis result is
      returned with the session's transcript, which is left as it was. */
  method FinishSession(manager: SessionManager, id: string, reply: Fallible<AnalysisResult>)
    returns (r: FinishOutcome)
    modifies if id in manager.sessions then {manager.sessions[id]} else {}
    ensures id !in manager.sessions ==> r == HttpError(NotFoundStatus)
    ensures id in manager.sessions ==>
      && manager.sessions[id].State() == old(manager.sessions[id].State()).(active := false)
      && r == Respond(AnalyzeSession(manager.sessions[id].transcript, reply), manager.sessions[id].transcript)
  {
    if !manager.SessionExists(id) {
      return HttpError(NotFoundStatus);
    }
    var session := manager.sessions[id];
    session.active := false;
    r := Respond(AnalyzeSession(session.transcript, reply), session.transcript);
  }

  /** What a finish call answers, for every transcript and every analysis
      reply: an empty transcript gets the fixed default without regard to the
      service; otherwise the service's fields, or a server error if it failed;
      a successful answer always carries the transcript unchanged. */
  lemma FinishAnswer(t: seq<TranscriptEntry>, reply: Fallible<AnalysisResult>)
    ensures var r := Respond(AnalyzeSession(t, reply), t);
      && (t == [] ==> r == Finished(FinishResponse(
            DefaultSummary().stars, DefaultSummary().wish, 0.0,
            DefaultSummary().takeaways, DefaultSummary().summaryBullets, [])))
      && (t != [] && reply.Fails? ==> r == HttpError(ServerErrorStatus))
      && (r.Finished? ==> r.response.transcript == t)
  {
  }
}
