/** The in-memory session record of app/models/session.py and the response
    records the finish call returns. */
module SessionModel {
  import opened Basics

  /** The immutable profile a session is created with. */
  datatype Profile = Profile(
    sessionId: string,
    context: string,
    goal: string,
    userName: string,
    participants: string,
    tone: string)

  /** One line of the durable transcript; `timestamp` is the ISO rendering of
      the clock reading at which the entry was made. */
  datatype TranscriptEntry = TranscriptEntry(speaker: string, text: string, timestamp: string)

  /** One `{role, content}` element of the rolling conversation history. */
  datatype HistoryEntry = HistoryEntry(role: string, content: string)

  /** A snapshot of the mutable part of a session. */
  datatype SessionState = SessionState(
    transcript: seq<TranscriptEntry>,
    audioBuffer: seq<Byte>,
    lastSuggestionTime: nat,
    history: seq<HistoryEntry>,
    active: bool)

  /** The structured result of the session-analysis service.  The filler
      percentage is carried as an uninterpreted number. */
  datatype AnalysisResult = AnalysisResult(
    stars: seq<string>,
    wish: string,
    fillerPercentage: real,
    takeaways: seq<string>,
    summaryBullets: seq<string>)

  /** The body of a successful finish call. */
  datatype FinishResponse = FinishResponse(
    stars: seq<string>,
    wish: string,
    fillerPercentage: real,
    takeaways: seq<string>,
    summaryBullets: seq<string>,
    transcript: seq<TranscriptEntry>)

  /** What a finish call answers: the response, or an HTTP error status. */
  datatype FinishOutcome = Finished(response: FinishResponse) | HttpError(status: nat)

  const NotFoundStatus: nat := 404
  /** The websocket close code both entry points use for an unknown session. */
  const SessionNotFoundClose: nat := 4004
  const ServerErrorStatus: nat := 500

  /** Builds the finish response from an analysis outcome: the five analysis
      fields are copied and the session's transcript is returned alongside; an
      analysis that failed (raised, or lacked a field) becomes a server error. */
  function Respond(analysis: Fallible<AnalysisResult>, transcript: seq<TranscriptEntry>): (r: FinishOutcome)
    ensures r.Finished? <==> analysis.Ok?
    ensures r.HttpError? ==> r.status == ServerErrorStatus
    ensures r.Finished? ==>
      && r.response.transcript == transcript
      && r.response.stars == analysis.value.stars
      && r.response.wish == analysis.value.wish
      && r.response.fillerPercentage == analysis.value.fillerPercentage
      && r.response.takeaways == analysis.value.takeaways
      && r.response.summaryBullets == analysis.value.summaryBullets
  {
    match analysis
    case Fails => HttpError(ServerErrorStatus)
    case Ok(a) => Finished(FinishResponse(a.stars, a.wish, a.fillerPercentage, a.takeaways, a.summaryBullets, transcript))
  }

  class Session {
    const profile: Profile
    /** ISO rendering of the creation time. */
    const createdAt: string
    var transcript: seq<TranscriptEntry>
    var audioBuffer: seq<Byte>
    /** Clock reading, in seconds, of the last coaching suggestion (initially the creation time). */
    var lastSuggestionTime: nat
    var conversationHistory: seq<HistoryEntry>
    var active: bool

    /** A new session: the profile as given, everything else empty and inactive.
        `now` and `stamp` are the creation time as a clock reading and as text. */
    constructor (sessionId: string, context: string, goal: string, userName: string,
                 participants: string, tone: string, now: nat, stamp: string)
      ensures profile == Profile(sessionId, context, goal, userName, participants, tone)
      ensures transcript == [] && audioBuffer == [] && conversationHistory == []
      ensures !active
      ensures lastSuggestionTime == now && createdAt == stamp
    {
      profile := Profile(sessionId, context, goal, userName, participants, tone);
      transcript := [];
      audioBuffer := [];
      lastSuggestionTime := now;
      conversationHistory := [];
      createdAt := stamp;
      active := false;
    }

    /** The mutable fields as one value. */
    function State(): (st: SessionState)
      reads this
    {
      SessionState(transcript, audioBuffer, lastSuggestionTime, conversationHistory, active)
    }

    /** Appends one entry, stamped `stamp`, to the end of the transcript and
        returns it; no other field changes. */
    method AddTranscriptEntry(speaker: string, text: string, stamp: string) returns (entry: TranscriptEntry)
      modifies this
      ensures entry == TranscriptEntry(speaker, text, stamp)
      ensures transcript == old(transcript) + [entry]
      ensures entry == transcript[|transcript| - 1]
      ensures audioBuffer == old(audioBuffer) && conversationHistory == old(conversationHistory)
      ensures active == old(active) && lastSuggestionTime == old(lastSuggestionTime)
    {
      entry := TranscriptEntry(speaker, text, stamp);
      transcript := transcript + [entry];
    }
  }
}
