/**
 * The open conversation: sending a message, whose messages are one's own,
 * which message types show media, and the typing and online indicators
 * driven by push events. Timers are flags: the typing throttle is
 * `typingTimerActive`, the three-second typing indicator is
 * `typingIndicatorPending`, and the expiry of a timer is a method of its own.
 * Typing notifications to the server are returned as the thread id they
 * name.
 */
module ChatDetail {
  import opened Common
  import opened ChatModels

  /** `isImageType`: Video and FormCheck show media, the two highest codes. */
  predicate IsImageType(t: MessageType)
    ensures IsImageType(t) <==> Code(t) >= 3
  {
    t == FormCheck || t == Video
  }

  class ChatDetailState {
    var thread: Option<ChatThread>
    var currentUserId: Option<string>
    var messageContent: string
    var otherUserTyping: bool
    var isOtherUserOnline: bool
    var typingTimerActive: bool
    var typingIndicatorPending: bool

    constructor (t: Option<ChatThread>, me: Option<string>)
      ensures thread == t && currentUserId == me && messageContent == ""
      ensures !otherUserTyping && !isOtherUserOnline && !typingTimerActive && !typingIndicatorPending
    {
      thread := t;
      currentUserId := me;
      messageContent := "";
      otherUserTyping := false;
      isOtherUserOnline := false;
      typingTimerActive := false;
      typingIndicatorPending := false;
    }

    /** `isOwnMessage`: the sender is the current user (never, without one). */
    predicate IsOwnMessage(m: ChatMessage)
      reads this
      ensures IsOwnMessage(m) <==> currentUserId == Some(m.senderId)
    {
      currentUserId.Some? && m.senderId == currentUserId.value
    }

    /** `notifyStoppedTyping`: tells the server for a thread with an id, and stops the throttle. */
    method NotifyStoppedTyping() returns (stopped: Option<int>)
      modifies this`typingTimerActive
      ensures !typingTimerActive
      ensures stopped == if thread.Some? && thread.value.id != 0 then Some(thread.value.id) else None
    {
      stopped := if thread.Some? && thread.value.id != 0 then Some(thread.value.id) else None;
      typingTimerActive := false;
    }

    /**
     * `sendMessage`: nothing for blank content or without a thread;
     * otherwise one text request with the trimmed content and no media,
     * the box cleared and typing stopped.
     */
    method SendMessage() returns (sent: Option<SendMessageRequest>, stopped: Option<int>)
      modifies this`messageContent, this`typingTimerActive
      ensures (Trim(old(messageContent)) == "" || thread.None?) ==>
        sent.None? && stopped.None? && messageContent == old(messageContent) &&
        typingTimerActive == old(typingTimerActive)
      ensures Trim(old(messageContent)) != "" && thread.Some? ==>
        sent == Some(SendMessageRequest(Trim(old(messageContent)), None, Text)) &&
        messageContent == "" && !typingTimerActive &&
        stopped == (if thread.value.id != 0 then Some(thread.value.id) else None)
    {
      if Trim(messageContent) == "" || thread.None? {
        return None, None;
      }
      sent := Some(SendMessageRequest(Trim(messageContent), None, Text));
      messageContent := "";
      stopped := NotifyStoppedTyping();
    }

    /** `onTyping`: notifies only for a thread with an id and while no throttle runs, then starts it. */
    method OnTyping() returns (notify: Option<int>)
      modifies this`typingTimerActive
      ensures thread.Some? && thread.value.id != 0 && !old(typingTimerActive) ==>
        notify == Some(thread.value.id) && typingTimerActive
      ensures !(thread.Some? && thread.value.id != 0 && !old(typingTimerActive)) ==>
        notify.None? && typingTimerActive == old(typingTimerActive)
    {
      if thread.Some? && thread.value.id != 0 && !typingTimerActive {
        typingTimerActive := true;
        return Some(thread.value.id);
      }
      return None;
    }

    /** The one-second throttle ran out. */
    method OnTypingTimerElapsed()
      modifies this`typingTimerActive
      ensures !typingTimerActive
    {
      typingTimerActive := false;
    }

    /**
     * A typing event counts only from another user in this thread; it shows
     * the indicator and restarts its timer (the old one is cleared, so at
     * most one is pending).
     */
    method OnTypingEvent(e: TypingEvent)
      modifies this`otherUserTyping, this`typingIndicatorPending
      ensures currentUserId != Some(e.userId) && thread.Some? && e.threadId == thread.value.id ==>
        otherUserTyping && typingIndicatorPending
      ensures !(currentUserId != Some(e.userId) && thread.Some? && e.threadId == thread.value.id) ==>
        otherUserTyping == old(otherUserTyping) && typingIndicatorPending == old(typingIndicatorPending)
    {
      if currentUserId != Some(e.userId) && thread.Some? && e.threadId == thread.value.id {
        otherUserTyping := true;
        typingIndicatorPending := true;
      }
    }

    /**
     * The three seconds after the last typing event ran out. Only a pending
     * timer fires; with none pending nothing happens.
     */
    method OnTypingIndicatorElapsed()
      modifies this`otherUserTyping, this`typingIndicatorPending
      ensures old(typingIndicatorPending) ==> !otherUserTyping && !typingIndicatorPending
      ensures !old(typingIndicatorPending) ==>
        otherUserTyping == old(otherUserTyping) && !typingIndicatorPending
    {
      if typingIndicatorPending {
        otherUserTyping := false;
        typingIndicatorPending := false;
      }
    }

    /** Only the thread's other user's status is shown. */
    method OnOnlineStatus(e: OnlineStatusEvent)
      modifies this`isOtherUserOnline
      ensures thread.Some? && thread.value.otherUserId == Some(e.userId) ==> isOtherUserOnline == e.isOnline
      ensures !(thread.Some? && thread.value.otherUserId == Some(e.userId)) ==>
        isOtherUserOnline == old(isOtherUserOnline)
    {
      if thread.Some? && thread.value.otherUserId == Some(e.userId) {
        isOtherUserOnline := e.isOnline;
      }
    }
  }
}
