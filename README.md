# Conversation coach backend — a Dafny model

The coaching backend keeps one in-memory record per practice session. A
client streams microphone audio to it over a websocket. The backend:

- buffers the audio;
- every few seconds hands the buffer to a transcription service;
- records what the user said;
- now and then asks a language model for a short coaching tip, which it
  records, sends to the client and has spoken by a speech-synthesis service.

A finish call deactivates the session and answers with an analysis of the
transcript. A session with no transcript gets a fixed default analysis.

A second entry point, `main_elevenlabs.py`, is a single-file prototype with a
different design. It relays the client's audio to a hosted conversational
agent. It relays the agent's transcript, response and audio events back to
the client, and answers the agent's pings upstream with pongs.

The model has one module per source file:

| module | file | form |
|---|---|---|
| `Basics` | — | bytes, `Option`, `Fallible` (a call that returns or raises), in-order concatenation, `str.join`, the client's websocket messages |
| `SessionModel` | `app/models/session.py` | the `Session` class, with its fields updated in place; finish-response records |
| `Registry` | `app/services/session_manager.py` | the `SessionManager` class over a `map` |
| `AiService` | `app/services/ai_service.py` | pure functions for stripping, serialising, the default summary, the history window and the transcription prompt; a loop method for collecting the synthesis stream |
| `Routes` | `app/api/routes.py` | see below |
| `ElevenLabsPrototype` | `main_elevenlabs.py` | the same split: classes and methods that change the records in place, and pure step functions with lemmas over every interleaving |

`Routes` has three parts:

- **One tick of the analysis task.** The tick is a function of the session
  state and the replies of the outside services. Those replies are inputs:
  transcription, suggestion and speech synthesis, plus whether each websocket
  send goes through.
- **The two concurrent loops.** The ingestion loop and the analysis task are
  atomic steps. The finish call is a third step that deactivates the session.
  `Run` performs any schedule of these steps, and lemmas hold over every
  schedule.
- **An in-place `Connection` class.** Its methods change the `Session` object's
  fields. It keeps ghost logs of the frames received and the chunks detached,
  and its `Valid()` invariant is byte conservation.

Time is a natural-number clock in seconds. Each tick or event also carries the
text rendering of the clock, which becomes the timestamp of entries and
messages.

## Model

| member | source | states |
|---|---|---|
| `SessionModel.Session.constructor` | app/models/session.py:40-52 | the profile fields are stored as given; transcript, buffer and history are empty, the session is inactive, and the suggestion clock starts at creation time |
| `SessionModel.Session.AddTranscriptEntry` | app/models/session.py:54-62 | the entry has the given speaker, text and timestamp; it is appended at the end, the earlier entries are unchanged, it is returned as the new last element, and no other field changes |
| `SessionModel.Respond` | app/api/routes.py:172-179 | the response exists exactly when the analysis succeeded; it copies all five analysis fields and carries the transcript unchanged; a failed analysis is a 500 |
| `Registry.SessionManager.constructor` | app/services/session_manager.py:9-10 | the registry starts empty |
| `Registry.SessionManager.CreateSession` | app/services/session_manager.py:12-17 | the new id is registered to a fresh session with the given profile and the initial state; every other id's entry is unchanged; afterwards the id exists and a lookup finds that session |
| `Registry.SessionManager.GetSession` | app/services/session_manager.py:19-21 | None exactly when the id is not registered, and otherwise the registered session |
| `Registry.SessionManager.DeleteSession` | app/services/session_manager.py:23-26 | the id is removed and no longer exists, every other entry is kept, and an unknown id changes nothing |
| `Registry.SessionManager.SessionExists` | app/services/session_manager.py:28-30 | true exactly when a lookup finds a session |
| `AiService.Strip` | app/services/ai_service.py:68 | Python's `str.strip`: the result is empty exactly when the input is all whitespace; otherwise its ends are not whitespace, and input that is not bordered by whitespace is returned as it is |
| `AiService.StripCutsBorders` | app/services/ai_service.py:68 | the stripped text is a slice of the input with only whitespace before and after it, so with `Strip`'s contract it is the input without its leading and trailing whitespace |
| `AiService.FormatEntries` | app/services/ai_service.py:136-139 | one `[timestamp] speaker: text` line per entry, in transcript order |
| `AiService.SerialiseSnoc` | app/services/ai_service.py:135-139 | recording one more entry extends the serialised transcript by a newline and that entry's line, or by the line alone when it is the first |
| `AiService.SerialisedBlankIffEmpty` | app/services/ai_service.py:135-141 | the serialised transcript strips to empty exactly when the transcript is empty |
| `AiService.DefaultSummary` | app/services/ai_service.py:141-152 | the fallback has two stars, three takeaways, one summary bullet and a filler percentage of 0.0 |
| `AiService.AnalysisRequest` | app/services/ai_service.py:135-141 | the analysis service is not called exactly when the transcript is empty; otherwise it is given the serialised transcript |
| `AiService.AnalyzeSession` | app/services/ai_service.py:125-198 | an empty transcript gets the default whatever the service would reply; a non-empty one gets the service's reply or its failure |
| `AiService.RecentHistory` | app/services/ai_service.py:92 | `history[-6:]`: the last min(6, n) entries, as a suffix, in order |
| `AiService.FormatMessages` | app/services/ai_service.py:92 | one `role: content` line per history entry, in order |
| `AiService.SuggestionContextIgnoresOlder` | app/services/ai_service.py:92 | once the last six entries are fixed, nothing said before them changes the suggestion request |
| `AiService.TranscriptionPrompt` | app/services/ai_service.py:50-57 | a caller's prompt takes precedence; with no prompt, context or goal there is none; otherwise the request carries `Context: …` then `Goal: …`, joined by the fixed separator only when both are present, and ending in `.`; a prompt is never empty |
| `AiService.StrippedReply` | app/services/ai_service.py:68-108 | a successful transcription or suggestion reply gives the stripped text, and a failed call stays a failure |
| `AiService.GenerateTtsAudio` | app/services/ai_service.py:118-121 | the synthesised audio is the stream's chunks concatenated in arrival order; it is empty exactly when every chunk is |
| `Routes.SecondsField` | app/api/routes.py:73 | `timedelta.seconds` always lies in [0, 86400) and, within a day on a clock that does not step back, equals the true elapsed time |
| `Routes.GateAsWrittenMissesLongSilence` | app/api/routes.py:73-74 | after 86403 seconds without a suggestion, and with two history entries, the gate as written stays shut although the intended one opens |
| `Routes.GateAsWrittenOpensOnClockStepBack` | app/api/routes.py:73-74 | when the clock steps back five seconds, the gate as written opens although the intended one does not |
| `Routes.GatesAgreeWithinADay` | app/api/routes.py:73-74 | within a day of the last suggestion, on a clock that does not step back, the gate as written and the corrected gate agree |
| `Routes.HeardText` | app/api/routes.py:42-52 | speech was heard exactly when the buffer was above the threshold, transcription succeeded and its stripped text is non-empty; the text is that stripped text |
| `Routes.ProcessTick` | app/api/routes.py:42-113 | with at most 32000 bytes buffered, nothing changes and nothing is called; above that, exactly the old buffer goes to transcription, without a prompt, and the buffer is left empty whatever fails afterwards; the tick never changes `active` |
| `Routes.RecordSpeech` | app/api/routes.py:52-108 | after speech is heard, the buffer, the active flag and the transcription request are unchanged |
| `Routes.Coach` | app/api/routes.py:78-108 | once the gate is open, the model is asked about the profile and the current history, and the history is not extended by the coach's tip |
| `Routes.Detached` | app/api/routes.py:46-47 | a tick detaches at most one chunk |
| `Routes.TickConservesBytes` | app/api/routes.py:46-47 | the bytes a tick hands over, followed by what it leaves in the buffer, are exactly the buffer it found |
| `Routes.TickWithoutSpeech` | app/api/routes.py:42-113 | a tick that hears nothing, because of the threshold, a failure or empty text, changes nothing except the buffer, asks for no suggestion and sends nothing |
| `Routes.TickRecordsSpeech` | app/api/routes.py:52-88 | heard text first appends exactly one `user` transcript entry; once its message is sent, it also appends one `{user, text}` history entry and sends that transcript message first; a second transcript entry follows exactly when the suggestion model was asked and answered, and it is the coach's stripped tip; nothing else enters the history |
| `Routes.TickSuggestionGate` | app/api/routes.py:73-83 | a suggestion is asked for exactly when speech was heard and shown, at least 8 seconds have passed since the last suggestion, and the history then holds at least 2 entries; the request carries the profile and the history |
| `Routes.TickAdvancesSuggestionTime` | app/api/routes.py:88-108 | the suggestion time moves to now exactly when a suggestion was produced and sent, whatever speech synthesis does; the second message then is the stripped tip's, and a third follows exactly when synthesis and its send succeed (its content is stated by `Routes.TickSends`) |
| `Routes.TickSends` | app/api/routes.py:52-108 | once text is heard, the tick sends exactly: the transcript message if it was sent, then, if a suggestion was asked, returned and sent, the stripped tip's message followed by the `mp3` audio message of the synthesised bytes exactly when synthesis and its send succeed; nothing else |
| `Routes.RecordSpeechSends` | app/api/routes.py:52-108 | the same message list for the part of the tick after the text was heard |
| `Routes.UncoachedSends` | app/api/routes.py:58-74 | when the transcript message was not sent or the gate stays shut, nothing is asked and at most the transcript message is sent |
| `Routes.CoachedSends` | app/api/routes.py:58-108 | when the transcript message was sent and the gate opens, the model is asked and the messages are the transcript message followed by the tip's and the audio message as above |
| `Routes.TickStateIgnoresSpeech` | app/api/routes.py:97-106 | the outcome of speech synthesis and of the audio send never affects the session state |
| `Routes.LoopAgain` | app/api/routes.py:120-145 | the ingestion loop goes on only while the session is active; when it leaves, the analysis task is cancelled |
| `Routes.Ingest` | app/api/routes.py:120-145 | a frame is appended to the buffer, and the transcript, history and suggestion time stay untouched; the loop continues exactly when the session is still active and the message was a frame or a readable control message other than a stop; a stop, a disconnect or an unreadable control message ends it; any exit leaves the session inactive |
| `Routes.WakeStep` | app/api/routes.py:39-42 | after a tick, the analysis task goes on exactly when the session is still active, and ingestion is unaffected |
| `Routes.StepConservesBytes` | app/api/routes.py:46-126 | any single step of either loop, or the finish call, conserves bytes |
| `Routes.RunConservesBytes` | app/api/routes.py:46-126 | in every interleaving of ingestion, analysis and finish, the chunks handed to transcription, in order, followed by the final buffer, are the initial buffer followed by every appended frame, in order |
| `Routes.InactiveRunIsQuiet` | app/api/routes.py:39-145 | once the session is inactive it stays so; at most one more frame is appended and at most one more tick body runs; an analysis task that has ended sends nothing |
| `Routes.StopEndsEverything` | app/api/routes.py:134-145 | a stop while the session is active ends both loops: nothing is appended, transcribed or sent afterwards |
| `Routes.Connection.constructor` | app/api/routes.py:116-120 | both loops run, the logs are empty, and conservation holds |
| `Routes.Connection.Receive` | app/api/routes.py:120-145 | the in-place ingestion turn does what `Ingest` describes, logs the frame and preserves conservation |
| `Routes.Connection.Wake` | app/api/routes.py:39-113 | the in-place tick does what `WakeStep` describes, logs the detached chunk and preserves conservation |
| `Routes.RunTick` | app/api/routes.py:42-113 | the in-place tick leaves the session in the state `ProcessTick` describes |
| `Routes.HearSpeech` | app/api/routes.py:52-108 | the in-place handling of heard text leaves the session in the state `RecordSpeech` describes |
| `Routes.GiveSuggestion` | app/api/routes.py:78-108 | the in-place suggestion leaves the session in the state `Coach` describes |
| `Routes.CoachOutcome` | app/api/routes.py:78-108 | a tip that came back is recorded as one stripped coach entry; the suggestion time moves to now exactly when the tip was also sent; the tip's message follows the messages already sent, and the audio message follows it only when synthesis and its send both succeed |
| `Routes.Open` | app/api/routes.py:24-32 | an unknown id is refused with close code 4004; otherwise the session is activated, nothing else changes, and both loops start with conservation holding |
| `Routes.FinishSession` | app/api/routes.py:156-179 | an unknown id gives 404; otherwise the session is deactivated, whatever its state, and nothing else changes; the answer carries the analysis of the transcript |
| `Routes.FinishAnswer` | app/api/routes.py:156-179 | an empty transcript gets the fixed default; a failed analysis of a non-empty transcript is a 500; every answer carries the transcript |
| `ElevenLabsPrototype.ProtoSession.constructor` | main_elevenlabs.py:70-77 | the record has the given context, goal and user name, an empty transcript, and is inactive |
| `ElevenLabsPrototype.SessionStore.constructor` | main_elevenlabs.py:37 | the store starts empty |
| `ElevenLabsPrototype.SessionStore.CreateSession` | main_elevenlabs.py:66-77 | the id is registered to a fresh record holding the given profile, an empty transcript and `active` false; every other entry is unchanged |
| `ElevenLabsPrototype.DispatchReacts` | main_elevenlabs.py:152-218 | only non-empty `user_transcript` and `agent_response` texts make a transcript entry, as `user` and `coach` lines, each paired with a `transcript` or `suggestion` message; audio is forwarded only when `audio_base_64` is present and non-empty; a ping is answered with a pong carrying its `event_id`, or 0 when it has none; an empty transcript or response text, interruption, unknown and non-JSON messages do nothing at all; only an unreadable message raises |
| `ElevenLabsPrototype.EntriesOfAreSpeech` | main_elevenlabs.py:168-198 | the receive loop appends at most one entry per message, and each is a non-empty user or coach line |
| `ElevenLabsPrototype.NoSpeechNoEntries` | main_elevenlabs.py:159-214 | audio, ping, interruption and unknown events never touch the transcript |
| `ElevenLabsPrototype.PongsAnswerPings` | main_elevenlabs.py:201-206 | the pongs delivered are the delivered pings' ids, in order and one for one |
| `ElevenLabsPrototype.HandleStep` | main_elevenlabs.py:147-224 | an inactive record ends the receive loop with nothing done; otherwise the message's entry is appended; the loop goes on, and the record stays active, exactly when neither the dispatch nor its send raised |
| `ElevenLabsPrototype.ForwardStep` | main_elevenlabs.py:114-142 | the forwarding loop never touches the transcript; the frame it was waiting for is passed on whenever the upstream send works, even if the record was deactivated during the wait; the loop goes on exactly when the record is still active after a forwarded frame or a readable non-stop control message; every exit leaves the record inactive |
| `ElevenLabsPrototype.RunOnlyAppendsSpeech` | main_elevenlabs.py:111-224 | in every interleaving of the two relaying loops and the finish call, the transcript only grows at its end, and only by non-empty user and coach lines |
| `ElevenLabsPrototype.InactiveRelayIsQuiet` | main_elevenlabs.py:114-149 | once the record is inactive it stays so with its transcript unchanged, nothing more reaches the client, and the agent gets at most one more audio chunk, and only if the forwarding loop was still waiting |
| `ElevenLabsPrototype.FrameAfterFinishIsForwarded` | main_elevenlabs.py:114-123 | a frame the forwarding loop was waiting for when the session was finished still reaches the agent, and only then does the forwarding loop end |
| `ElevenLabsPrototype.StopSilencesAgent` | main_elevenlabs.py:131-149 | a client stop while active deactivates the record and ends the forwarding loop; no later event reaches the transcript, the client or the agent |
| `ElevenLabsPrototype.ProtoSession.HandleEvent` | main_elevenlabs.py:147-224 | the in-place receive turn does what `HandleStep` describes |
| `ElevenLabsPrototype.ProtoSession.ForwardMessage` | main_elevenlabs.py:114-142 | the in-place forwarding turn, from the message it waited for to the next loop check, does what `ForwardStep` describes |
| `ElevenLabsPrototype.ProtoSession.ReceiveFromAgent` | main_elevenlabs.py:145-224 | the in-place receive loop leaves the record, the count of handled messages and what was delivered each way as `Loop` describes |
| `ElevenLabsPrototype.LoopLogs` | main_elevenlabs.py:147-224 | the receive loop handles messages in order: the transcript grows by exactly the handled messages' entries, and what is delivered each way is what those messages sent successfully |
| `ElevenLabsPrototype.LoopHandlesUpToFirstFailure` | main_elevenlabs.py:147-224 | an inactive record handles nothing; a record that stays active has handled the whole stream with no failure; a record the loop deactivated was stopped by its last handled message, after a clean prefix |
| `ElevenLabsPrototype.LoopCompletes` | main_elevenlabs.py:147-224 | a record the receive loop leaves active has handled every message of the stream and none of them raised |
| `ElevenLabsPrototype.LoopStopsAtFailure` | main_elevenlabs.py:147-224 | a record the receive loop deactivated was stopped by the last message it handled, and every message before that one was handled without failure |
| `ElevenLabsPrototype.Open` | main_elevenlabs.py:89-245 | an unknown id is refused with 4004; a failed connection to the agent sends the error text to the client and leaves the record inactive; otherwise the record is active; the transcript is untouched |
| `ElevenLabsPrototype.Close` | main_elevenlabs.py:244-245 | the websocket's final cleanup deactivates the record and leaves the transcript as it is |
| `ElevenLabsPrototype.FinishSession` | main_elevenlabs.py:250-332 | an unknown id gives 404; otherwise the record is deactivated and its transcript kept; an empty transcript gets the fixed default without calling the service; a non-empty one gets the service's fields or a 500; this is the same answer the main backend gives |

## Left out

- Concurrency. The asyncio tasks are not modelled; their steps are atomic between awaits. A loop turn runs from the message its `receive` returned to its next wait, so a loop condition checked before the wait is seen only after the message is handled.
  - Steps may interleave in any order, and the finish call is one more step.
  - A tick body is atomic, although the source can suspend during its websocket sends.
  - Cancellation of the analysis task takes effect at its next wake, not during a tick already under way.
  - `asyncio.sleep(3)` is not modelled; wakes happen whenever the schedule says.
- Outside services are inputs. The transcription, suggestion, analysis and speech-synthesis services, the hosted agent and every websocket send are not modelled. Their replies or failures, and whether each send goes through, are parameters.
- Encodings are not modelled: the WAV container of the transcription request, base64 and JSON.
  - Audio is carried as bytes.
  - The prototype's agent messages are already decoded into `AgentEvent`.
  - A JSON field of an unexpected type is not modelled beyond the `Unreadable` case.
- The wall clock.
  - The clock is a natural number of seconds, and each tick or event supplies its reading.
  - The timestamps, two `utcnow()` calls in the source, are one supplied string per tick. The prototype keeps separate strings for entries and messages.
  - `last_suggestion_time` is set to the same reading as the gate used.
  - The session's creation time is a parameter.
- The filler percentage is an opaque real. The model never computes it, and the source's float is not modelled.
- Prompt texts are not modelled beyond their structure.
  - The suggestion and analysis prompts depend on the recent conversation and the transcript text.
  - The profile, participants and tone lines of those prompts are not modelled.
  - The prompt of the transcription request is modelled in full.
- Python's `None` as the prompt argument of `transcribe_audio` is represented by the empty string. The source treats the two alike.
- Logging, `print` and tracebacks are not modelled.
- FastAPI routing, CORS, settings (`app/config.py`) and the entry points (`main.py`, `app/main.py`) are not modelled. The greeting text that `create_session` returns is not modelled either.
  - Creating a session through the routes is `Registry.SessionManager.CreateSession`.
  - The random session id is a parameter.
- `websocket.receive()`'s own disconnect handling is not modelled. A disconnect is a separate `Disconnected` message, taking the source's `except WebSocketDisconnect` branches.
  - The framework may instead hand back a disconnect message, in which case the next receive raises another exception.
  - The session still ends inactive.
  - In `app/api/routes.py` that path skips the cancel at line 145, as `Control(MalformedMessage)` does, so the model's schedules include it in that form.
- `Routes.ProcessTick`, `Routes.RecordSpeech`, `Routes.RunTick`, `Routes.HearSpeech`, `Routes.Connection.Wake`, `Routes.WakeStep` and `Routes.Run` use the corrected gate `Routes.SuggestionGate` (at least 8 seconds elapsed), not the `.seconds` comparison of app/api/routes.py:73-74 described under Findings. `Routes.GatesAgreeWithinADay` shows the two gates agree within a day of the last suggestion on a clock that does not step back.
- The prototype's forwarding loop is modelled one turn at a time (`ElevenLabsPrototype.ProtoSession.ForwardMessage`, `ElevenLabsPrototype.ForwardStep`), not as a loop method of its own; its interleaving with the receive loop is `ElevenLabsPrototype.ProtoRun`.
- The session registry is never truncated or expired, and no session is reactivated after its websocket has ended. Reopening a websocket is a new `Open`.
- The suggestion history is never truncated in the session. Only the request sent to the model uses the last six entries.
- The number of stars, takeaways and bullets the analysis service returns is not checked by the source, and so not by the model.

## Findings

| source | as written | input that shows it | evidently intended | confidence | as-written member | corrected member |
|---|---|---|---|---|---|---|
| app/api/routes.py:73-74 | `(utcnow() - last_suggestion_time).seconds >= 8` reads timedelta's seconds component, which wraps at each day and is positive when the clock steps back | 86403 s since the last suggestion gives `.seconds == 3`, so the gate stays shut; a clock 5 s behind gives `.seconds == 86395`, so the gate opens | at least 8 s of elapsed time (`total_seconds()`) | medium, not executed | `Routes.SuggestionGateAsWritten`, `Routes.GateAsWrittenMissesLongSilence`, `Routes.GateAsWrittenOpensOnClockStepBack` | `Routes.SuggestionGate`, `Routes.TickSuggestionGate` |
