/** The dashboard page: which of the intake wizard and the chat is shown,
    the chat's session and the suggestions handed to it. */
module Dashboard {
  import opened Common

  datatype DashboardView = IntakeView | ChatView

  class Page {
    var currentView: DashboardView
    var currentSessionId: Option<string>
    var suggestedQuestions: seq<string>

    constructor ()
      ensures currentView == IntakeView && currentSessionId == None && suggestedQuestions == []
    {
      currentView := IntakeView;
      currentSessionId := None;
      suggestedQuestions := [];
    }

    /** The wizard finished: its session and suggestions go to the chat. */
    method HandleIntakeComplete(sessionId: string, questions: seq<string>)
      modifies this
      ensures currentView == ChatView && currentSessionId == Some(sessionId) && suggestedQuestions == questions
    {
      currentSessionId := Some(sessionId);
      suggestedQuestions := questions;
      currentView := ChatView;
    }

    /** The chat created a session: only the id changes. */
    method HandleSessionCreated(sessionId: string)
      modifies this
      ensures currentSessionId == Some(sessionId)
      ensures currentView == old(currentView) && suggestedQuestions == old(suggestedQuestions)
    {
      currentSessionId := Some(sessionId);
    }

    /** A session picked in the side panel. When the chat is already shown
      it stays mounted and only its `sessionId` prop changes. */
    method HandleSessionSelect(sessionId: string)
      modifies this
      ensures currentView == ChatView && currentSessionId == Some(sessionId) && suggestedQuestions == []
    {
      currentSessionId := Some(sessionId);
      suggestedQuestions := [];
      currentView := ChatView;
    }

    method HandleGoToIntake()
      modifies this
      ensures currentView == IntakeView
      ensures currentSessionId == old(currentSessionId) && suggestedQuestions == old(suggestedQuestions)
    {
      currentView := IntakeView;
    }

    method HandleGoToChats()
      modifies this
      ensures currentView == ChatView
      ensures currentSessionId == old(currentSessionId) && suggestedQuestions == old(suggestedQuestions)
    {
      currentView := ChatView;
    }

    /** New chat: no session, no suggestions, the chat shown. */
    method HandleNewChat()
      modifies this
      ensures currentView == ChatView && currentSessionId == None && suggestedQuestions == []
    {
      currentSessionId := None;
      suggestedQuestions := [];
      currentView := ChatView;
    }
  }

  /** After the wizard has handed over a session and the user has gone
      back to it, New chat still shows an empty chat with no suggestions. */
  method NewChatAfterIntake(sessionId: string, questions: seq<string>)
    returns (view: DashboardView, session: Option<string>, suggestions: seq<string>)
    ensures view == ChatView && session == None && suggestions == []
  {
    var page := new Page();
    page.HandleIntakeComplete(sessionId, questions);
    page.HandleGoToIntake();
    page.HandleNewChat();
    view, session, suggestions := page.currentView, page.currentSessionId, page.suggestedQuestions;
  }
}
