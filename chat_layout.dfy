/** The chat page frame (src/components/chat/chat-layout.tsx): header title and sidebar toggle. */
module ChatLayout {
  import opened Wrappers
  import opened Text
  import opened ExploreChatStore

  /** Longest session name shown in full in the header. */
  const HeaderLimit: nat := 30

  /** The header: the session name, cut to 30 characters plus "..." when longer, else "Chat". */
  function HeaderTitle(currentSessionName: Option<string>): (r: string)
    ensures currentSessionName.None? || currentSessionName.value == "" ==> r == "Chat"
    ensures currentSessionName.Some? && 0 < |currentSessionName.value| <= HeaderLimit
            ==> r == currentSessionName.value
    ensures currentSessionName.Some? && |currentSessionName.value| > HeaderLimit
            ==> r == currentSessionName.value[..HeaderLimit] + "..."
    ensures |r| <= HeaderLimit + 3
  {
    match currentSessionName
    case None => "Chat"
    case Some(name) => if name == "" then "Chat" else Truncate(name, HeaderLimit)
  }

  /** The dimming overlay exists exactly while the sidebar is open. */
  predicate OverlayVisible(store: ExploreChatStore)
    reads store
  {
    store.isSidebarOpen
  }

  /** The menu button flips the sidebar. */
  method ToggleSidebar(store: ExploreChatStore)
    modifies store
    ensures store.isSidebarOpen == !old(store.isSidebarOpen)
    ensures store.activeSessionId == old(store.activeSessionId)
    ensures store.currentSessionName == old(store.currentSessionName)
    ensures store.currentThoughtId == old(store.currentThoughtId)
  {
    store.SetIsSidebarOpen(!store.isSidebarOpen);
  }

  /** A click on the overlay (which only exists while the sidebar is open) closes the sidebar. */
  method OverlayClick(store: ExploreChatStore)
    requires OverlayVisible(store)
    modifies store
    ensures !store.isSidebarOpen && !OverlayVisible(store)
    ensures store.activeSessionId == old(store.activeSessionId)
    ensures store.currentSessionName == old(store.currentSessionName)
    ensures store.currentThoughtId == old(store.currentThoughtId)
  {
    store.SetIsSidebarOpen(false);
  }
}
