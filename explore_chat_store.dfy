/** The chat UI store of the explore page (src/store/explore-chat-store.ts). */
module ExploreChatStore {
  import opened Wrappers

  class ExploreChatStore {
    var activeSessionId: Option<string>
    var currentSessionName: Option<string>
    var currentThoughtId: Option<string>
    var isSidebarOpen: bool

    constructor()
      ensures activeSessionId == None && currentSessionName == None
      ensures currentThoughtId == None && !isSidebarOpen
    {
      activeSessionId := None;
      currentSessionName := None;
      currentThoughtId := None;
      isSidebarOpen := false;
    }

    method SetActiveSessionId(sessionId: Option<string>)
      modifies this
      ensures activeSessionId == sessionId
      ensures currentSessionName == old(currentSessionName)
      ensures currentThoughtId == old(currentThoughtId) && isSidebarOpen == old(isSidebarOpen)
    {
      activeSessionId := sessionId;
    }

    /** `setNewSession`: no active session; the shown name is not reset, so repeating it changes nothing more. */
    method SetNewSession()
      modifies this
      ensures activeSessionId == None
      ensures currentSessionName == old(currentSessionName)
      ensures currentThoughtId == old(currentThoughtId) && isSidebarOpen == old(isSidebarOpen)
      ensures old(activeSessionId) == None ==> unchanged(this)
    {
      activeSessionId := None;
    }

    method SetCurrentSessionName(sessionName: Option<string>)
      modifies this
      ensures currentSessionName == sessionName
      ensures activeSessionId == old(activeSessionId)
      ensures currentThoughtId == old(currentThoughtId) && isSidebarOpen == old(isSidebarOpen)
    {
      currentSessionName := sessionName;
    }

    method SetCurrentThoughtId(thoughtId: Option<string>)
      modifies this
      ensures currentThoughtId == thoughtId
      ensures activeSessionId == old(activeSessionId) && currentSessionName == old(currentSessionName)
      ensures isSidebarOpen == old(isSidebarOpen)
    {
      currentThoughtId := thoughtId;
    }

    method SetIsSidebarOpen(isOpen: bool)
      modifies this
      ensures isSidebarOpen == isOpen
      ensures activeSessionId == old(activeSessionId) && currentSessionName == old(currentSessionName)
      ensures currentThoughtId == old(currentThoughtId)
    {
      isSidebarOpen := isOpen;
    }
  }
}
