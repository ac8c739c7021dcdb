/** The message list of the selected channel: initial load, backward pagination, the poll
    tick, optimistic sends, the pinned list and its reload after pin/unpin, and clearing
    when the selection or the session goes away. Every server reply is an input. */
module MessagesContext {
  import opened Wrappers
  import opened Domain
  import opened Seqs
  import opened Text
  import Storage

  /** Every history request asks for this many messages. */
  const PageSize := 50
  /** Milliseconds between two poll ticks. */
  const PollIntervalMs := 3000

  const NoRoomText := "No room selected"
  const LoadFailedText := "Failed to load messages"
  const SendFailedText := "Failed to send message"
  const DirectFailedText := "Failed to get direct messages"
  const PinFailedText := "Failed to pin message"
  const UnpinFailedText := "Failed to unpin message"

  /** The server's answer to a message-list request (newest first), a `success: false`
      reply, or an exception from the request. */
  datatype PageReply = Page(messages: seq<Message>) | Rejected(error: string) | Threw

  /** The server's answer to a send request. */
  datatype SendReply = Sent(message: Message) | SendRejected(error: string) | SendThrew

  /** The server's answer to a pin or unpin request. */
  datatype ActionReply = Done | ActionRejected(error: string) | ActionThrew

  /** The `error` field a failed request leaves: the server's text, or `threwText` for an exception. */
  function FailureText(reply: PageReply, threwText: string): (e: Option<string>)
    ensures reply.Page? <==> e.None?
    ensures reply.Rejected? ==> e == Some(reply.error)
    ensures reply.Threw? ==> e == Some(threwText)
  {
    match reply
    case Page(_) => None
    case Rejected(err) => Some(err)
    case Threw => Some(threwText)
  }

  /** The list after a successful history load at `offset`: the first page replaces the
      list, an older page goes in front of it. Pages arrive newest first. */
  function AfterLoad(current: seq<Message>, offset: nat, page: seq<Message>): (list: seq<Message>)
    ensures offset == 0 ==> |list| == |page|
    ensures offset != 0 ==> |list| == |page| + |current| && list[|page|..] == current
  {
    if offset == 0 then Reversed(page) else Reversed(page) + current
  }

  /** The list after a poll tick fetched `page`: replaced only when the message count differs. */
  function AfterPoll(current: seq<Message>, page: seq<Message>): (list: seq<Message>)
    ensures |page| == |current| ==> list == current
    ensures |page| != |current| ==> |list| == |page|
  {
    var latest := Reversed(page);
    if |latest| != |current| then latest else current
  }

  /** The `u` field of an optimistic message, read from the browser store. */
  function StoredSender(store: Storage.LocalStore): Sender
    reads store
  {
    Sender(FromStore(store.userId), store.username, if store.user.Some? then store.user.value.name else None)
  }

  /** The temporary message a successful send appends: id and timestamp from the clock
      reading `now`, the sent text, and the thread parent only when a truthy `tmid` was given. */
  function Optimistic(now: nat, text: string, sender: Sender, tmid: Option<string>): (m: Message)
    ensures m.msg == text && m.u == Some(sender) && m.ts == now && m.tcount.None?
    ensures m.tmid.Some? <==> Truthy(tmid)
    ensures m.tmid.Some? ==> m.tmid == tmid
  {
    Message(Decimal(now), None, text, now, Some(sender), if Truthy(tmid) then tmid else None, None)
  }

  /** A first page becomes the list in chronological order: element `i` is the page's
      element counted from its end. */
  lemma FirstLoadReplaces(current: seq<Message>, page: seq<Message>)
    ensures |AfterLoad(current, 0, page)| == |page|
    ensures forall i :: 0 <= i < |page| ==> AfterLoad(current, 0, page)[i] == page[|page| - 1 - i]
  {
    forall i | 0 <= i < |page| ensures Reversed(page)[i] == page[|page| - 1 - i] {
      ReversedAt(page, i);
    }
  }

  /** An older page goes in front: the new length is the sum, the loaded messages keep
      their order and sit after the reversed page. */
  lemma OlderPagePrepends(current: seq<Message>, offset: nat, page: seq<Message>)
    requires offset > 0
    ensures |AfterLoad(current, offset, page)| == |page| + |current|
    ensures AfterLoad(current, offset, page)[|page|..] == current
    ensures forall i :: 0 <= i < |page| ==> AfterLoad(current, offset, page)[i] == page[|page| - 1 - i]
  {
    var r := AfterLoad(current, offset, page);
    assert r == Reversed(page) + current;
    forall i | 0 <= i < |page| ensures r[i] == page[|page| - 1 - i] {
      ReversedAt(page, i);
    }
  }

  /** A poll tick keeps the list when the counts agree, even if the contents differ, and
      otherwise installs the latest page in chronological order. */
  lemma PollTickOutcome(current: seq<Message>, page: seq<Message>)
    ensures |page| == |current| ==> AfterPoll(current, page) == current
    ensures |page| != |current| ==> |AfterPoll(current, page)| == |page|
    ensures |page| != |current| ==>
      forall i :: 0 <= i < |page| ==> AfterPoll(current, page)[i] == page[|page| - 1 - i]
  {
    if |page| != |current| {
      forall i | 0 <= i < |page| ensures Reversed(page)[i] == page[|page| - 1 - i] {
        ReversedAt(page, i);
      }
    }
  }

  /** When a tick replaces the list, only server messages remain: an optimistic message the
      page does not contain is gone. */
  lemma PollReplacementDropsLocal(current: seq<Message>, page: seq<Message>)
    requires |page| != |current|
    ensures multiset(AfterPoll(current, page)) == multiset(page)
    ensures forall m :: m in current && m !in page ==> m !in AfterPoll(current, page)
  {
    ReversedSameElements(page);
    forall m | m in current && m !in page ensures m !in AfterPoll(current, page) {
      assert multiset(page)[m] == 0;
    }
  }

  /** Messages in chronological order. */
  predicate Chronological(s: seq<Message>) {
    forall i, j :: 0 <= i < j < |s| ==> s[i].ts <= s[j].ts
  }

  /** A page as the server sends it: newest first. */
  predicate NewestFirst(s: seq<Message>) {
    forall i, j :: 0 <= i < j < |s| ==> s[i].ts >= s[j].ts
  }

  lemma ReversedNewestFirst(page: seq<Message>)
    requires NewestFirst(page)
    ensures Chronological(Reversed(page))
  {
    var r := Reversed(page);
    forall i, j | 0 <= i < j < |r| ensures r[i].ts <= r[j].ts {
      ReversedAt(page, i);
      ReversedAt(page, j);
    }
  }

  /** Loads keep the list chronological when the server's pages are newest first and an
      older page is no newer than the oldest loaded message. */
  lemma LoadKeepsChronological(current: seq<Message>, offset: nat, page: seq<Message>)
    requires Chronological(current) && NewestFirst(page)
    requires offset > 0 && page != [] && current != [] ==> page[0].ts <= current[0].ts
    ensures Chronological(AfterLoad(current, offset, page))
  {
    ReversedNewestFirst(page);
    if offset > 0 {
      var latest := Reversed(page);
      var r := latest + current;
      forall i, j | 0 <= i < j < |r| ensures r[i].ts <= r[j].ts {
        if j >= |latest| && i < |latest| {
          ReversedAt(page, i);
          assert r[i] == page[|page| - 1 - i];
          assert r[j] == current[j - |latest|];
          assert current[0].ts <= current[j - |latest|].ts;
        }
      }
    }
  }

  /** The state the messages provider keeps for the selected channel. */
  class MessageStore {
    var messages: seq<Message>
    var pinnedMessages: seq<Message>
    var isLoading: bool
    var error: Option<string>
    var isPolling: bool
    /** Whether a poll interval is installed and running. */
    var timerRunning: bool
    var roomExplicitlySelected: bool

    constructor ()
      ensures messages == [] && pinnedMessages == [] && !isLoading && error == None
      ensures !isPolling && !timerRunning && !roomExplicitlySelected
    {
      messages, pinnedMessages, isLoading, error := [], [], false, None;
      isPolling, timerRunning, roomExplicitlySelected := false, false, false;
    }

    /** `loadMessages(offset)` for the selected `room` with the server's `reply`. */
    method LoadMessages(room: Option<Room>, offset: nat, reply: PageReply)
      modifies this`messages, this`isLoading, this`error
      ensures room.None? ==> messages == old(messages) && isLoading == old(isLoading) && error == old(error)
      ensures room.Some? ==> !isLoading && error == FailureText(reply, LoadFailedText)
      ensures room.Some? ==>
        messages == if reply.Page? then AfterLoad(old(messages), offset, reply.messages) else old(messages)
    {
      if room.None? {
        return;
      }
      isLoading := true;
      error := None;
      match reply {
        case Page(page) =>
          messages := if offset == 0 then Reversed(page) else Reversed(page) + messages;
        case Rejected(err) =>
          error := Some(err);
        case Threw =>
          error := Some(LoadFailedText);
      }
      isLoading := false;
    }

    /** `loadMoreMessages`: a no-op without a room or while a load is in flight; otherwise a
        load at the current message count. */
    method LoadMoreMessages(room: Option<Room>, reply: PageReply)
      modifies this`messages, this`isLoading, this`error
      ensures room.None? || old(isLoading) ==>
        messages == old(messages) && isLoading == old(isLoading) && error == old(error)
      ensures room.Some? && !old(isLoading) ==> !isLoading && error == FailureText(reply, LoadFailedText)
      ensures room.Some? && !old(isLoading) ==>
        messages == if reply.Page? then AfterLoad(old(messages), |old(messages)|, reply.messages) else old(messages)
    {
      if room.None? || isLoading {
        return;
      }
      LoadMessages(room, |messages|, reply);
    }

    /** The body of one poll tick: a successful fetch of the newest page replaces the list
        only when its length differs; a failure is only logged. */
    method PollTick(reply: PageReply)
      modifies this`messages
      ensures messages == if reply.Page? then AfterPoll(old(messages), reply.messages) else old(messages)
    {
      if reply.Page? {
        var latest := Reversed(reply.messages);
        if |latest| != |messages| {
          messages := latest;
        }
      }
    }

    /** `startPolling`: clears any running interval, then installs one only when a room is
        selected and the user is authenticated. */
    method StartPolling(room: Option<Room>, authenticated: bool)
      modifies this`isPolling, this`timerRunning
      ensures timerRunning == (room.Some? && authenticated)
      ensures isPolling == if room.Some? && authenticated then true else old(isPolling)
    {
      timerRunning := false;
      if room.Some? && authenticated {
        isPolling := true;
        timerRunning := true;
      }
    }

    /** `stopPolling` */
    method StopPolling()
      modifies this`isPolling, this`timerRunning
      ensures !isPolling && !timerRunning
    {
      timerRunning := false;
      isPolling := false;
    }

    /** `sendMessage(text, tmid)`: on success one temporary message is appended at the tail;
        every failure leaves the list alone and records the error. */
    method SendMessage(room: Option<Room>, text: string, tmid: Option<string>, reply: SendReply,
                       store: Storage.LocalStore, now: nat)
      returns (r: Result<Message>)
      modifies this`messages, this`isLoading, this`error
      ensures room.None? ==> r == Err(NoRoomText) && error == Some(NoRoomText)
      ensures room.None? ==> messages == old(messages) && isLoading == old(isLoading)
      ensures room.Some? ==> !isLoading
      ensures room.Some? && reply.Sent? ==> r == Ok(reply.message) && error == old(error)
      ensures room.Some? && reply.Sent? ==>
        messages == old(messages) + [Optimistic(now, text, StoredSender(store), tmid)]
      ensures room.Some? && reply.SendRejected? ==>
        r == Err(reply.error) && error == Some(reply.error) && messages == old(messages)
      ensures room.Some? && reply.SendThrew? ==>
        r == Err(SendFailedText) && error == Some(SendFailedText) && messages == old(messages)
    {
      if room.None? {
        error := Some(NoRoomText);
        return Err(NoRoomText);
      }
      isLoading := true;
      match reply {
        case Sent(m) =>
          messages := messages + [Optimistic(now, text, StoredSender(store), tmid)];
          r := Ok(m);
        case SendRejected(err) =>
          error := Some(err);
          r := Err(err);
        case SendThrew =>
          error := Some(SendFailedText);
          r := Err(SendFailedText);
      }
      isLoading := false;
    }

    /** `getDirectMessages`: the reply is reversed in place, so both the list and the
        returned messages are in chronological order. */
    method GetDirectMessages(reply: PageReply) returns (r: Result<seq<Message>>)
      modifies this`messages, this`isLoading, this`error
      ensures !isLoading
      ensures reply.Page? ==> messages == Reversed(reply.messages) && r == Ok(messages) && error == old(error)
      ensures !reply.Page? ==> messages == old(messages) && error == FailureText(reply, DirectFailedText)
      ensures !reply.Page? ==> r == Err(error.value)
    {
      isLoading := true;
      match reply {
        case Page(page) =>
          messages := Reversed(page);
          r := Ok(messages);
        case Rejected(err) =>
          error := Some(err);
          r := Err(err);
        case Threw =>
          error := Some(DirectFailedText);
          r := Err(DirectFailedText);
      }
      isLoading := false;
    }

    /** `loadPinnedMessages`: a successful reply replaces the pinned list; a failure is only logged. */
    method LoadPinnedMessages(room: Option<Room>, reply: PageReply)
      modifies this`pinnedMessages
      ensures pinnedMessages == if room.Some? && reply.Page? then reply.messages else old(pinnedMessages)
    {
      if room.Some? && reply.Page? {
        pinnedMessages := reply.messages;
      }
    }

    method PinAction(room: Option<Room>, reply: ActionReply, reload: PageReply, threwText: string)
      returns (r: Outcome)
      modifies this`pinnedMessages, this`error
      ensures reply.Done? ==> r == Pass && error == old(error)
      ensures reply.Done? ==>
        pinnedMessages == if room.Some? && reload.Page? then reload.messages else old(pinnedMessages)
      ensures reply.ActionRejected? ==> r == Fail(reply.error) && error == Some(reply.error)
      ensures reply.ActionThrew? ==> r == Fail(threwText) && error == Some(threwText)
      ensures !reply.Done? ==> pinnedMessages == old(pinnedMessages)
    {
      match reply {
        case Done =>
          LoadPinnedMessages(room, reload);
          r := Pass;
        case ActionRejected(err) =>
          error := Some(err);
          r := Fail(err);
        case ActionThrew =>
          error := Some(threwText);
          r := Fail(threwText);
      }
    }

    /** `pinMessage`: success reloads the pinned list with the `reload` reply. */
    method PinMessage(room: Option<Room>, reply: ActionReply, reload: PageReply) returns (r: Outcome)
      modifies this`pinnedMessages, this`error
      ensures reply.Done? ==> r == Pass && error == old(error)
      ensures reply.Done? ==>
        pinnedMessages == if room.Some? && reload.Page? then reload.messages else old(pinnedMessages)
      ensures reply.ActionRejected? ==> r == Fail(reply.error) && error == Some(reply.error)
      ensures reply.ActionThrew? ==> r == Fail(PinFailedText) && error == Some(PinFailedText)
      ensures !reply.Done? ==> pinnedMessages == old(pinnedMessages)
    {
      r := PinAction(room, reply, reload, PinFailedText);
    }

    /** `unpinMessage`: success reloads the pinned list with the `reload` reply. */
    method UnpinMessage(room: Option<Room>, reply: ActionReply, reload: PageReply) returns (r: Outcome)
      modifies this`pinnedMessages, this`error
      ensures reply.Done? ==> r == Pass && error == old(error)
      ensures reply.Done? ==>
        pinnedMessages == if room.Some? && reload.Page? then reload.messages else old(pinnedMessages)
      ensures reply.ActionRejected? ==> r == Fail(reply.error) && error == Some(reply.error)
      ensures reply.ActionThrew? ==> r == Fail(UnpinFailedText) && error == Some(UnpinFailedText)
      ensures !reply.Done? ==> pinnedMessages == old(pinnedMessages)
    {
      r := PinAction(room, reply, reload, UnpinFailedText);
    }

    /** `clearMessages` */
    method ClearMessages()
      modifies this`messages, this`error
      ensures messages == [] && error == None
    {
      messages := [];
      error := None;
    }

    /** `clearError` */
    method ClearError()
      modifies this`error
      ensures error == None
    {
      error := None;
    }

    /** `selectRoomForMessages` */
    method SelectRoomForMessages()
      modifies this`roomExplicitlySelected
      ensures roomExplicitlySelected
    {
      roomExplicitlySelected := true;
    }

    /** The effect that runs when the room, the session or the explicit selection changes:
        the previous run's cleanup stops polling; then either the first page and the pinned
        list are loaded and polling starts, or both lists are emptied and polling stays off. */
    method OnSelectionChange(authenticated: bool, room: Option<Room>, page: PageReply, pinned: PageReply)
      modifies this`messages, this`pinnedMessages, this`isLoading, this`error, this`isPolling, this`timerRunning
      ensures authenticated && room.Some? && roomExplicitlySelected ==>
        && messages == (if page.Page? then Reversed(page.messages) else old(messages))
        && error == FailureText(page, LoadFailedText) && !isLoading
        && pinnedMessages == (if pinned.Page? then pinned.messages else old(pinnedMessages))
        && isPolling && timerRunning
      ensures !(authenticated && room.Some? && roomExplicitlySelected) ==>
        && messages == [] && pinnedMessages == [] && !isPolling && !timerRunning
        && error == old(error) && isLoading == old(isLoading)
    {
      StopPolling();
      if authenticated && room.Some? && roomExplicitlySelected {
        LoadMessages(room, 0, page);
        LoadPinnedMessages(room, pinned);
        StartPolling(room, authenticated);
      } else {
        messages := [];
        pinnedMessages := [];
        StopPolling();
      }
    }
  }
}
