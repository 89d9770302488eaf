/** The pure parts of app/services/ai_service.py: stripping service replies,
    serialising a transcript for analysis, the empty-transcript default, the
    recent-history window handed to the suggestion model, the transcription
    prompt, and collecting the speech-synthesis stream.  The services
    themselves are not modelled: their replies are parameters. */
module AiService {
  import opened Basics
  import opened SessionModel

  // ---------------------------------------------------------------------------
  // Python's str.strip()

  /** The characters Python's `str.isspace` accepts, which `str.strip()` removes. */
  predicate IsSpace(c: char)
  {
    || ('\t' <= c <= '\r')
    || ('\U{1C}' <= c <= '\U{1F}')
    || c == ' ' || c == '\U{85}' || c == '\U{A0}' || c == '\U{1680}'
    || ('\U{2000}' <= c <= '\U{200A}')
    || c == '\U{2028}' || c == '\U{2029}' || c == '\U{202F}' || c == '\U{205F}' || c == '\U{3000}'
  }

  predicate AllSpace(s: string)
  {
    forall k :: 0 <= k < |s| ==> IsSpace(s[k])
  }

  /** `s` without its leading whitespace. */
  function TrimStart(s: string): (r: string)
    ensures |r| <= |s| && r == s[|s| - |r|..]
    ensures r == [] || !IsSpace(r[0])
    ensures forall k :: 0 <= k < |s| - |r| ==> IsSpace(s[k])
  {
    if s == [] || !IsSpace(s[0]) then s else TrimStart(s[1..])
  }

  /** `s` without its trailing whitespace. */
  function TrimEnd(s: string): (r: string)
    ensures |r| <= |s| && r == s[..|r|]
    ensures r == [] || !IsSpace(r[|r| - 1])
    ensures forall k :: |r| <= k < |s| ==> IsSpace(s[k])
  {
    if s == [] || !IsSpace(s[|s| - 1]) then s else TrimEnd(s[..|s| - 1])
  }

  /** Python's `s.strip()`: empty exactly when `s` is all whitespace; otherwise
      it neither starts nor ends with whitespace, and a string that already
      does not is returned as it is.  `StripCutsBorders` says which slice of
      `s` it is. */
  function Strip(s: string): (r: string)
    ensures r == "" <==> AllSpace(s)
    ensures r != "" ==> !IsSpace(r[0]) && !IsSpace(r[|r| - 1])
    ensures s != "" && !IsSpace(s[0]) && !IsSpace(s[|s| - 1]) ==> r == s
  {
    var front := TrimStart(s);
    var r := TrimEnd(front);
    StripEmptyIffAllSpace(s, front, r);
    r
  }

  lemma StripEmptyIffAllSpace(s: string, front: string, r: string)
    requires front == TrimStart(s) && r == TrimEnd(front)
    ensures r == "" <==> AllSpace(s)
  {
    if r != "" {
      assert s[|s| - |front|] == front[0] == r[0];
    }
  }

  /** `Strip(s)` is a slice of `s` with nothing but whitespace on either side
      of it: together with `Strip`'s own contract, exactly the input without
      its leading and trailing whitespace. */
  lemma StripCutsBorders(s: string)
    ensures exists i, j :: BorderCut(s, Strip(s), i, j)
  {
    var front := TrimStart(s);
    assert Strip(s) == TrimEnd(front);
    CutPrefixIsSpace(s, front);
    CutBetweenSpaces(s, front, Strip(s), |s| - |front|);
  }

  /** What `TrimStart` cuts off is whitespace. */
  lemma CutPrefixIsSpace(s: string, front: string)
    requires front == TrimStart(s)
    ensures AllSpace(s[..|s| - |front|])
  {
    var i := |s| - |front|;
    forall k | 0 <= k < i ensures IsSpace(s[..i][k]) {
      assert s[..i][k] == s[k];
    }
  }

  /** A prefix `r` of a suffix `front` of `s`, with only whitespace around it. */
  lemma CutBetweenSpaces(s: string, front: string, r: string, i: nat)
    requires i <= |s| && front == s[i..] && |r| <= |front| && r == front[..|r|]
    requires AllSpace(s[..i])
    requires forall k :: |r| <= k < |front| ==> IsSpace(front[k])
    ensures exists m, n :: BorderCut(s, r, m, n)
  {
    var j := i + |r|;
    assert r == s[i..j];
    forall k | 0 <= k < |s| - j ensures IsSpace(s[j..][k]) {
      assert s[j..][k] == front[|r| + k];
    }
    assert BorderCut(s, r, i, j);
  }

  /** `r` is `s[i..j]`, and everything outside that slice is whitespace. */
  predicate BorderCut(s: string, r: string, i: int, j: int)
  {
    0 <= i <= j <= |s| && r == s[i..j] && AllSpace(s[..i]) && AllSpace(s[j..])
  }

  // ---------------------------------------------------------------------------
  // Serialising the transcript for the analysis request

  /** One transcript line: `[timestamp] speaker: text`. */
  function FormatEntry(e: TranscriptEntry): (line: string)
  {
    "[" + e.timestamp + "] " + e.speaker + ": " + e.text
  }

  function FormatEntries(t: seq<TranscriptEntry>): (lines: seq<string>)
    ensures |lines| == |t|
    ensures forall k :: 0 <= k < |t| ==> lines[k] == FormatEntry(t[k])
  {
    if t == [] then [] else FormatEntries(t[..|t| - 1]) + [FormatEntry(t[|t| - 1])]
  }

  /** The whole transcript as text, one line per entry, in transcript order, joined by newlines. */
  function SerialiseTranscript(t: seq<TranscriptEntry>): string
  {
    Join(FormatEntries(t), "\n")
  }

  /** Recording one more entry appends exactly its line (after a newline
      unless it is the first). */
  lemma SerialiseSnoc(t: seq<TranscriptEntry>, e: TranscriptEntry)
    ensures SerialiseTranscript(t + [e]) ==
      if t == [] then FormatEntry(e) else SerialiseTranscript(t) + "\n" + FormatEntry(e)
  {
    assert FormatEntries(t + [e]) == FormatEntries(t) + [FormatEntry(e)];
    JoinSnoc(FormatEntries(t), FormatEntry(e), "\n");
  }

  /** The serialised transcript is blank exactly when the transcript is empty,
      because every line begins with `[`. */
  lemma SerialisedBlankIffEmpty(t: seq<TranscriptEntry>)
    ensures Strip(SerialiseTranscript(t)) == "" <==> t == []
  {
    if t != [] {
      var lines := FormatEntries(t);
      JoinStartsWithFirst(lines, "\n");
      assert SerialiseTranscript(t)[0] == '[';
      assert !IsSpace('[');
    }
  }

  // ---------------------------------------------------------------------------
  // analyze_session

  /** The summary returned, without calling the analysis service, when nothing was said. */
  function DefaultSummary(): (a: AnalysisResult)
    ensures |a.stars| == 2 && |a.takeaways| == 3 && |a.summaryBullets| == 1
    ensures a.fillerPercentage == 0.0
  {
    AnalysisResult(
      ["Started the session", "Ready to practice"],
      "Have a longer conversation to get more feedback",
      0.0,
      ["Practice makes perfect", "Try again with a real conversation", "Focus on your goals"],
      ["Session started but no conversation recorded"])
  }

  /** The transcript text sent to the analysis service, or None when the
      service is not called at all. */
  function AnalysisRequest(t: seq<TranscriptEntry>): (r: Option<string>)
    ensures r.None? <==> t == []
    ensures r.Some? ==> r.value == SerialiseTranscript(t)
  {
    SerialisedBlankIffEmpty(t);
    var text := SerialiseTranscript(t);
    if Strip(text) == "" then None else Some(text)
  }

  /** The analysis of a finished session, given what the analysis service
      would reply: the fixed default for an empty transcript whatever the
      service would say, and otherwise the service's reply (or its failure). */
  function AnalyzeSession(t: seq<TranscriptEntry>, reply: Fallible<AnalysisResult>): (r: Fallible<AnalysisResult>)
    ensures t == [] ==> r == Ok(DefaultSummary())
    ensures t != [] ==> r == reply
  {
    match AnalysisRequest(t)
    case None => Ok(DefaultSummary())
    case Some(_) => reply
  }

  // ---------------------------------------------------------------------------
  // generate_coaching_suggestion

  const HistoryWindow: nat := 6

  /** `history[-6:]`: the most recent min(6, |history|) entries, in order. */
  function RecentHistory(history: seq<HistoryEntry>): (r: seq<HistoryEntry>)
    ensures |r| == if |history| < HistoryWindow then |history| else HistoryWindow
    ensures r == history[|history| - |r|..]
  {
    if |history| <= HistoryWindow then history else history[|history| - HistoryWindow..]
  }

  /** One history line: `role: content`. */
  function FormatMessage(m: HistoryEntry): string
  {
    m.role + ": " + m.content
  }

  function FormatMessages(h: seq<HistoryEntry>): (lines: seq<string>)
    ensures |lines| == |h|
    ensures forall k :: 0 <= k < |h| ==> lines[k] == FormatMessage(h[k])
  {
    if h == [] then [] else FormatMessages(h[..|h| - 1]) + [FormatMessage(h[|h| - 1])]
  }

  /** The "recent conversation" text of the suggestion request. */
  function SuggestionContext(history: seq<HistoryEntry>): string
  {
    Join(FormatMessages(RecentHistory(history)), "\n")
  }

  /** Older context is dropped: once the last six entries are fixed, nothing
      said before them changes the suggestion request. */
  lemma SuggestionContextIgnoresOlder(older: seq<HistoryEntry>, recent: seq<HistoryEntry>)
    requires |recent| >= HistoryWindow
    ensures SuggestionContext(older + recent) == SuggestionContext(recent)
  {
    var all := older + recent;
    assert all[|all| - HistoryWindow..] == recent[|recent| - HistoryWindow..];
  }

  /** What the suggestion model is asked: the profile fields and the recent-conversation text. */
  datatype SuggestionRequest = SuggestionRequest(userName: string, context: string, goal: string, recent: string)

  function SuggestionRequestFor(userName: string, context: string, goal: string, history: seq<HistoryEntry>): SuggestionRequest
  {
    SuggestionRequest(userName, context, goal, SuggestionContext(history))
  }

  // ---------------------------------------------------------------------------
  // transcribe_audio

  const PromptSeparator: string :=
    "Okay, here's what I'm, like, thinking.. You're going to transcribe this conversation. Here's some context on the conversation "

  /** The parts of a built prompt: `Context: …` then `Goal: …`, each only when non-empty. */
  function PromptParts(context: string, goal: string): (parts: seq<string>)
  {
    (if context != "" then ["Context: " + context] else [])
    + (if goal != "" then ["Goal: " + goal] else [])
  }

  /** The prompt passed to the transcription service.  An empty string stands
      for Python's None, which the source treats the same way. */
  function TranscriptionPrompt(prompt: string, context: string, goal: string): (r: Option<string>)
    ensures prompt != "" ==> r == Some(prompt)
    ensures prompt == "" && context == "" && goal == "" ==> r == None
    ensures prompt == "" && context != "" && goal != "" ==>
      r == Some("Context: " + context + PromptSeparator + "Goal: " + goal + ".")
    ensures prompt == "" && context != "" && goal == "" ==> r == Some("Context: " + context + ".")
    ensures prompt == "" && context == "" && goal != "" ==> r == Some("Goal: " + goal + ".")
    ensures r.Some? ==> r.value != ""
  {
    if prompt != "" then Some(prompt)
    else if context != "" || goal != "" then
      PromptPartsJoined(context, goal);
      Some(Join(PromptParts(context, goal), PromptSeparator) + ".")
    else None
  }

  lemma PromptPartsJoined(context: string, goal: string)
    ensures context != "" && goal != "" ==>
      Join(PromptParts(context, goal), PromptSeparator) == "Context: " + context + PromptSeparator + "Goal: " + goal
    ensures context != "" && goal == "" ==> Join(PromptParts(context, goal), PromptSeparator) == "Context: " + context
    ensures context == "" && goal != "" ==> Join(PromptParts(context, goal), PromptSeparator) == "Goal: " + goal
  {
    var parts := PromptParts(context, goal);
    if context != "" && goal != "" {
      assert parts == ["Context: " + context] + ["Goal: " + goal];
      JoinSnoc(["Context: " + context], "Goal: " + goal, PromptSeparator);
    }
  }

  /** What the transcription service is given: the raw audio and the prompt. */
  datatype TranscriptionRequest = TranscriptionRequest(audio: seq<Byte>, prompt: Option<string>)

  function TranscriptionRequestFor(audio: seq<Byte>, prompt: string, context: string, goal: string): TranscriptionRequest
  {
    TranscriptionRequest(audio, TranscriptionPrompt(prompt, context, goal))
  }

  /** A service reply as both callers return it (lines 68 and 108): the text
      stripped, or the failure of the call. */
  function StrippedReply(reply: Fallible<string>): (r: Fallible<string>)
    ensures r.Ok? <==> reply.Ok?
    ensures r.Ok? ==> r.value == Strip(reply.value)
  {
    match reply
    case Fails => Fails
    case Ok(s) => Ok(Strip(s))
  }

  // ---------------------------------------------------------------------------
  // generate_tts_audio

  /** Collects the synthesis stream: the result is the chunks concatenated in
      the order they arrive. */
  method GenerateTtsAudio(chunks: seq<seq<Byte>>) returns (audio: seq<Byte>)
    ensures audio == Flatten(chunks)
    ensures |audio| == 0 <==> forall k :: 0 <= k < |chunks| ==> chunks[k] == []
  {
    audio := [];
    var i := 0;
    while i < |chunks|
      invariant 0 <= i <= |chunks|
      invariant audio == Flatten(chunks[..i])
      invariant |audio| == 0 <==> forall k :: 0 <= k < i ==> chunks[k] == []
    {
      FlattenSnoc(chunks[..i], chunks[i]);
      assert chunks[..i + 1] == chunks[..i] + [chunks[i]];
      audio := audio + chunks[i];
      i := i + 1;
    }
    assert chunks[..i] == chunks;
  }
}
