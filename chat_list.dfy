/**
 * The thread list of the inbox: the search filter over the threads and the
 * set of users currently online, kept up to date from online-status events.
 */
module ChatList {
  import opened Common
  import opened ChatModels

  /** Whether a thread's other user's name, lower-cased, contains the lower-cased query. */
  function NameMatches(lowerQuery: string): ChatThread -> bool
  {
    (t: ChatThread) => t.otherUserName.Some? && Contains(ToLowerAscii(t.otherUserName.value), lowerQuery)
  }

  /**
   * `filterChats`: a blank query (nothing but white space) keeps every
   * thread; otherwise the threads whose name matches the untrimmed query,
   * in their order.
   */
  function ChatFilter(threads: seq<ChatThread>, query: string): (r: seq<ChatThread>)
    ensures Trim(query) == "" ==> r == threads
    ensures |r| <= |threads|
  {
    if Trim(query) == "" then threads else Filter(threads, NameMatches(ToLowerAscii(query)))
  }

  /** The filtered list keeps the threads' relative order. */
  lemma ChatFilterIsSubsequence(threads: seq<ChatThread>, query: string)
    ensures IsSubsequence(ChatFilter(threads, query), threads)
  {
    if Trim(query) == "" {
      FilterAll(threads, (t: ChatThread) => true);
      FilterIsSubsequence(threads, (t: ChatThread) => true);
    } else {
      FilterIsSubsequence(threads, NameMatches(ToLowerAscii(query)));
    }
  }

  /** Under a real query a thread is listed exactly when it is one of the threads and its name matches; a nameless one never is. */
  lemma ChatFilterMembers(threads: seq<ChatThread>, query: string, t: ChatThread)
    requires Trim(query) != ""
    ensures t in ChatFilter(threads, query) <==>
      t in threads && t.otherUserName.Some? && Contains(ToLowerAscii(t.otherUserName.value), ToLowerAscii(query))
  {
  }

  class ChatListState {
    var threads: seq<ChatThread>
    var searchQuery: string
    var filteredChats: seq<ChatThread>
    var onlineUsers: set<string>

    constructor (initial: seq<ChatThread>)
      ensures threads == initial && searchQuery == "" && filteredChats == [] && onlineUsers == {}
    {
      threads := initial;
      searchQuery := "";
      filteredChats := [];
      onlineUsers := {};
    }

    method FilterChats()
      modifies this`filteredChats
      ensures filteredChats == ChatFilter(threads, searchQuery)
    {
      if Trim(searchQuery) == "" {
        filteredChats := threads;
      } else {
        filteredChats := Filter(threads, NameMatches(ToLowerAscii(searchQuery)));
      }
    }

    /** `ngOnChanges` with new threads: the list is filtered again under the current query. */
    method OnThreadsChanged(newThreads: seq<ChatThread>)
      modifies this`threads, this`filteredChats
      ensures threads == newThreads
      ensures filteredChats == ChatFilter(newThreads, searchQuery)
    {
      threads := newThreads;
      FilterChats();
    }

    /** An online event adds the user, an offline one removes it; nobody else changes. */
    method OnOnlineStatus(e: OnlineStatusEvent)
      modifies this`onlineUsers
      ensures e.isOnline ==> onlineUsers == old(onlineUsers) + {e.userId}
      ensures !e.isOnline ==> onlineUsers == old(onlineUsers) - {e.userId}
      ensures forall u :: u != e.userId ==> (u in onlineUsers <==> u in old(onlineUsers))
      ensures e.userId in onlineUsers <==> e.isOnline
    {
      if e.isOnline {
        onlineUsers := onlineUsers + {e.userId};
      } else {
        onlineUsers := onlineUsers - {e.userId};
      }
    }

    /** `isUserOnline`: false for a missing or empty id. */
    predicate IsUserOnline(userId: Option<string>)
      reads this
      ensures userId.None? || userId == Some("") ==> !IsUserOnline(userId)
      ensures userId.Some? && userId.value != "" ==> (IsUserOnline(userId) <==> userId.value in onlineUsers)
    {
      PresentText(userId) && userId.value in onlineUsers
    }
  }
}
