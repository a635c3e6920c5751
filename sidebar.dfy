/** The session list of the side panel: loading it, and renaming one
    session in place through an inline editor. The list and rename calls
    are replaced by their outcomes. */
module Sidebar {
  import opened Common
  import opened ChatApi

  const EnterKey := "Enter"
  const EscapeKey := "Escape"

  /** The list after a rename: the sessions with id `id` carry `title`,
      every other session and every other field is as it was. */
  function Renamed(sessions: seq<ChatSession>, id: string, title: string): (r: seq<ChatSession>)
    ensures |r| == |sessions|
    ensures forall i :: 0 <= i < |r| ==> r[i].id == sessions[i].id
    ensures forall i :: 0 <= i < |r| && sessions[i].id == id ==> r[i] == sessions[i].(title := title)
    ensures forall i :: 0 <= i < |r| && sessions[i].id != id ==> r[i] == sessions[i]
  {
    seq(|sessions|, i requires 0 <= i < |sessions| =>
      if sessions[i].id == id then sessions[i].(title := title) else sessions[i])
  }

  /** Renaming twice to the same title is renaming once, and a later
      rename of the same session wins. */
  lemma RenameLastWins(sessions: seq<ChatSession>, id: string, first: string, second: string)
    ensures Renamed(Renamed(sessions, id, first), id, second) == Renamed(sessions, id, second)
  {
  }

  /** Renames of two different sessions do not interfere. */
  lemma RenamesCommute(sessions: seq<ChatSession>, a: string, b: string, ta: string, tb: string)
    requires a != b
    ensures Renamed(Renamed(sessions, a, ta), b, tb) == Renamed(Renamed(sessions, b, tb), a, ta)
  {
  }

  /** The listSessions call: the server's list, or an exception. */
  datatype ListOutcome = Listed(sessions: seq<ChatSession>) | ListThrew

  class SessionList {
    var sessions: seq<ChatSession>
    var isLoading: bool
    var editingSessionId: Option<string>
    var editTitle: string

    constructor ()
      ensures sessions == [] && isLoading && editingSessionId == None && editTitle == ""
    {
      sessions := [];
      isLoading := true;
      editingSessionId := None;
      editTitle := "";
    }

    /** The mount effect: a listed result replaces the (empty) list, a
      failure keeps it; loading ends either way. */
    method LoadSessions(outcome: ListOutcome)
      modifies this
      ensures outcome.Listed? ==> sessions == outcome.sessions
      ensures outcome.ListThrew? ==> sessions == old(sessions)
      ensures !isLoading && editingSessionId == old(editingSessionId) && editTitle == old(editTitle)
    {
      if outcome.Listed? {
        sessions := outcome.sessions;
      }
      isLoading := false;
    }

    /** The pencil button: edit this session, seeded with its title. */
    method StartEditing(session: ChatSession)
      modifies this
      ensures editingSessionId == Some(session.id) && editTitle == session.title
      ensures sessions == old(sessions) && isLoading == old(isLoading)
    {
      editingSessionId := Some(session.id);
      editTitle := session.title;
    }

    method HandleTitleChange(text: string)
      modifies this
      ensures editTitle == text
      ensures sessions == old(sessions) && isLoading == old(isLoading) && editingSessionId == old(editingSessionId)
    {
      editTitle := text;
    }

    /** handleRename(sessionId): a blank title requests nothing; a
      confirmed rename stores the title as typed (untrimmed) on that
      session and closes the editor; a failed one changes nothing. */
    method HandleRename(sessionId: string, succeeded: bool) returns (requested: bool)
      modifies this
      ensures requested <==> Trim(old(editTitle)) != []
      ensures requested && succeeded ==>
                sessions == Renamed(old(sessions), sessionId, old(editTitle))
                && editingSessionId == None && editTitle == ""
      ensures !(requested && succeeded) ==>
                sessions == old(sessions) && editingSessionId == old(editingSessionId) && editTitle == old(editTitle)
      ensures isLoading == old(isLoading)
    {
      if Trim(editTitle) == [] {
        return false;
      }
      requested := true;
      if succeeded {
        sessions := Renamed(sessions, sessionId, editTitle);
        editingSessionId := None;
        editTitle := "";
      }
    }

    /** A key in the editor: Enter attempts the rename, Escape closes the
      editor without renaming (the typed title is kept), any other key
      does nothing here. */
    method HandleEditKey(key: string, sessionId: string, succeeded: bool) returns (requested: bool)
      modifies this
      ensures key == EnterKey ==> (requested <==> Trim(old(editTitle)) != [])
      ensures key == EnterKey && requested && succeeded ==>
                sessions == Renamed(old(sessions), sessionId, old(editTitle))
                && editingSessionId == None && editTitle == ""
      ensures key == EnterKey && !(requested && succeeded) ==>
                sessions == old(sessions) && editingSessionId == old(editingSessionId) && editTitle == old(editTitle)
      ensures key == EscapeKey ==>
                !requested && sessions == old(sessions) && editingSessionId == None && editTitle == old(editTitle)
      ensures key != EnterKey && key != EscapeKey ==>
                !requested && sessions == old(sessions) && editingSessionId == old(editingSessionId)
                && editTitle == old(editTitle)
      ensures isLoading == old(isLoading)
    {
      requested := false;
      if key == EnterKey {
        requested := HandleRename(sessionId, succeeded);
      }
      if key == EscapeKey {
        editingSessionId := None;
      }
    }

    /** Leaving the editor attempts the rename, as Enter does. */
    method HandleBlur(sessionId: string, succeeded: bool) returns (requested: bool)
      modifies this
      ensures requested <==> Trim(old(editTitle)) != []
      ensures requested && succeeded ==>
                sessions == Renamed(old(sessions), sessionId, old(editTitle))
                && editingSessionId == None && editTitle == ""
      ensures !(requested && succeeded) ==>
                sessions == old(sessions) && editingSessionId == old(editingSessionId) && editTitle == old(editTitle)
      ensures isLoading == old(isLoading)
    {
      requested := HandleRename(sessionId, succeeded);
    }
  }
}
