/**
 * The chat session sidebar (src/components/chat/session-sidebar.tsx): most recently updated
 * session first, shortened titles, and what selecting or deleting a session does to the store.
 */
module SessionSidebar {
  import opened Wrappers
  import opened Types
  import opened Seqs
  import opened Text
  import opened Sorting
  import opened ExploreChatStore

  /** Longest title shown in full. */
  const TitleLimit: nat := 25

  function UpdatedAt(s: ChatSession): int {
    s.updatedAt
  }

  /** The fetched session list is sorted in place, most recently updated first. */
  method SortSessions(sessions: array<ChatSession>)
    modifies sessions
    ensures SortedDesc(sessions[..], UpdatedAt)
    ensures multiset(sessions[..]) == old(multiset(sessions[..]))
  {
    SortDescending(sessions, UpdatedAt);
  }

  /** A row's title: up to 25 characters as is, a longer one cut to 25 and followed by "...". */
  function SessionTitle(title: string): (r: string)
    ensures |title| <= TitleLimit ==> r == title
    ensures |title| > TitleLimit ==> r == title[..TitleLimit] + "..."
  {
    Truncate(title, TitleLimit)
  }

  /** A row is highlighted exactly when it is the active session. */
  predicate IsHighlighted(activeSessionId: Option<string>, session: ChatSession) {
    activeSessionId == Some(session.id)
  }

  /** The name shown for a selected session: the first match's title, none when absent or empty. */
  function SelectedSessionName(sessions: Option<seq<ChatSession>>, sessionId: string): (r: Option<string>)
    ensures r.Some? ==> r.value != ""
    ensures r.Some? ==> sessions.Some?
    ensures r.Some? ==> exists i :: 0 <= i < |sessions.value| && sessions.value[i].id == sessionId && sessions.value[i].title == r.value
                                   && forall j :: 0 <= j < i ==> sessions.value[j].id != sessionId
    ensures sessions.Some? ==>
              forall i :: (0 <= i < |sessions.value| && sessions.value[i].id == sessionId && sessions.value[i].title == ""
                           && forall j :: 0 <= j < i ==> sessions.value[j].id != sessionId) ==> r.None?
    ensures sessions.None? ==> r.None?
    ensures sessions.Some? && (forall i :: 0 <= i < |sessions.value| ==> sessions.value[i].id != sessionId)
            ==> r.None?
  {
    match sessions
    case None => None
    case Some(list) =>
      match FindFirst(list, (s: ChatSession) => s.id == sessionId)
      case None => None
      case Some(i) => if list[i].title == "" then None else Some(list[i].title)
  }

  /** When two sessions share the id, the earlier one names the selection. */
  lemma FirstMatchNamesSelection(list: seq<ChatSession>, sessionId: string, i: nat)
    requires i < |list| && list[i].id == sessionId && list[i].title != ""
    requires forall j :: 0 <= j < i ==> list[j].id != sessionId
    ensures SelectedSessionName(Some(list), sessionId) == Some(list[i].title)
  {
    var f := FindFirst(list, (s: ChatSession) => s.id == sessionId);
    assert f.Some?;
  }

  /** `handleSessionSelect`: activate the session, show its name, close the sidebar. */
  method HandleSessionSelect(store: ExploreChatStore, sessions: Option<seq<ChatSession>>, sessionId: string)
    modifies store
    ensures store.activeSessionId == Some(sessionId)
    ensures store.currentSessionName == SelectedSessionName(sessions, sessionId)
    ensures !store.isSidebarOpen
    ensures store.currentThoughtId == old(store.currentThoughtId)
  {
    store.SetActiveSessionId(Some(sessionId));
    store.SetCurrentSessionName(SelectedSessionName(sessions, sessionId));
    store.SetIsSidebarOpen(false);
  }

  /**
   * `handleDeleteSession` after the DELETE request: once the response body parses, no session is
   * active any more, whichever one was deleted. A body that does not parse throws first.
   */
  method HandleDeleteSession(store: ExploreChatStore, deletedId: string, bodyParsed: bool)
    modifies store
    ensures bodyParsed ==> store.activeSessionId == None
    ensures !bodyParsed ==> unchanged(store)
    ensures store.currentSessionName == old(store.currentSessionName)
    ensures store.currentThoughtId == old(store.currentThoughtId)
    ensures store.isSidebarOpen == old(store.isSidebarOpen)
  {
    if bodyParsed {
      store.SetActiveSessionId(None);
    }
  }
}
