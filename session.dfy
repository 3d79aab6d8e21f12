/** The session table of the server: one entry per live connection, holding
    the ordered history of the prompts received on it. */
module Sessions {
  import opened Wrappers

  datatype Session = Session(id: string, messages: seq<string>)

  /** The text of the `ValueError` raised for an unknown session id. */
  function NotFound(id: string): (text: string)
    ensures StartsWithSession(text) && |text| == |id| + 19
    ensures text[8..8 + |id|] == id && text[8 + |id|..] == " not found."
  {
    "Session " + id + " not found."
  }

  predicate StartsWithSession(text: string) {
    |text| >= 8 && text[..8] == "Session "
  }

  class SessionManager {
    /** Session id to session; the id stored in each session is its key. */
    var sessions: map<string, Session>

    ghost predicate Valid()
      reads this
    {
      forall id | id in sessions :: sessions[id].id == id
    }

    constructor ()
      ensures Valid() && sessions == map[]
    {
      sessions := map[];
    }

    /** Stores a new session with an empty history under `uuid`, the value
        `uuid4()` produced; uuid4 never repeats an id already in use. */
    method CreateSession(uuid: string) returns (id: string)
      requires Valid()
      requires uuid !in sessions
      modifies this
      ensures Valid()
      ensures id == uuid && id !in old(sessions)
      ensures sessions == old(sessions)[id := Session(id, [])]
    {
      id := uuid;
      sessions := sessions[id := Session(id, [])];
    }

    /** The stored session, or None; nothing changes. */
    function GetSession(id: string): (r: Option<Session>)
      reads this
      ensures r.Some? <==> id in sessions
      ensures r.Some? ==> r.value == sessions[id]
    {
      if id in sessions then Some(sessions[id]) else None
    }

    /** Appends `message` at the end of the session's history; an unknown id
        raises and changes nothing. No length cap is applied. */
    method SaveMessage(id: string, message: string) returns (r: Outcome<string>)
      requires Valid()
      modifies this
      ensures Valid()
      ensures r.Fail? <==> id !in old(sessions)
      ensures r.Fail? ==> r.error == NotFound(id) && sessions == old(sessions)
      ensures r.Pass? ==> sessions == old(sessions)[id := Session(id, old(sessions)[id].messages + [message])]
    {
      var session := GetSession(id);
      if session.None? {
        return Fail(NotFound(id));
      }
      sessions := sessions[id := session.value.(messages := session.value.messages + [message])];
      r := Pass;
    }

    /** Removes exactly that id; an unknown id raises and changes nothing. */
    method CloseSession(id: string) returns (r: Outcome<string>)
      requires Valid()
      modifies this
      ensures Valid()
      ensures r.Fail? <==> id !in old(sessions)
      ensures r.Fail? ==> r.error == NotFound(id)
      ensures sessions == old(sessions) - {id}
    {
      if id in sessions {
        sessions := sessions - {id};
        r := Pass;
      } else {
        r := Fail(NotFound(id));
      }
    }
  }

  /** What a caller sees after closing a session: the id is gone for `get`,
      `save_message` raises, and a second close raises too. */
  method CloseIsFinal(manager: SessionManager, id: string, message: string)
    returns (closed: Outcome<string>, got: Option<Session>, saved: Outcome<string>, again: Outcome<string>)
    requires manager.Valid() && id in manager.sessions
    modifies manager
    ensures closed == Pass && got == None
    ensures saved == Fail(NotFound(id)) && again == Fail(NotFound(id))
    ensures manager.sessions == old(manager.sessions) - {id}
  {
    closed := manager.CloseSession(id);
    got := manager.GetSession(id);
    saved := manager.SaveMessage(id, message);
    again := manager.CloseSession(id);
  }
}
