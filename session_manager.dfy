/** The id-to-session registry of app/services/session_manager.py. */
module Registry {
  import opened Basics
  import opened SessionModel

  class SessionManager {
    var sessions: map<string, Session>

    constructor ()
      ensures sessions == map[]
    {
      sessions := map[];
    }

    /** Registers a new session under `sessionId` (the identifier the caller
        drew at random) and returns that identifier.  Every other entry is unchanged. */
    method CreateSession(sessionId: string, context: string, goal: string, userName: string,
                         participants: string, tone: string, now: nat, stamp: string)
      returns (id: string)
      modifies this
      ensures id == sessionId && id in sessions && fresh(sessions[id])
      ensures sessions == old(sessions)[id := sessions[id]]
      ensures sessions[id].profile == Profile(sessionId, context, goal, userName, participants, tone)
      ensures sessions[id].State() == SessionState([], [], now, [], false)
      ensures SessionExists(id) && GetSession(id) == Some(sessions[id])
    {
      var session := new Session(sessionId, context, goal, userName, participants, tone, now, stamp);
      sessions := sessions[sessionId := session];
      id := sessionId;
    }

    /** The session registered under `id`, if any. */
    function GetSession(id: string): (r: Option<Session>)
      reads this
      ensures r.None? <==> id !in sessions
      ensures r.Some? ==> id in sessions && r.value == sessions[id]
    {
      if id in sessions then Some(sessions[id]) else None
    }

    /** Forgets the session registered under `id`; an unknown id is a no-op. */
    method DeleteSession(id: string)
      modifies this
      ensures sessions == old(sessions) - {id}
      ensures !SessionExists(id)
      ensures id !in old(sessions) ==> sessions == old(sessions)
    {
      if id in sessions {
        sessions := sessions - {id};
      }
    }

    /** Whether `id` is registered: exactly when a lookup finds a session. */
    function SessionExists(id: string): (b: bool)
      reads this
      ensures b <==> GetSession(id).Some?
    {
      id in sessions
    }
  }
}
