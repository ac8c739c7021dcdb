/** The channel view: its composer (send guard, trimming, clearing the input), the
    current-user test used for message alignment, and date grouping of the list. */
module ChannelView {
  import opened Wrappers
  import opened Domain
  import opened Text
  import opened MessagesContext
  import Storage

  /** `message.u?._id === localStorage.getItem('userId')`: a missing sender or `_id` is
      `undefined` and never matches; a `null` id matches a store without a user id (`null ===
      null`), and a string id matches the same stored string. */
  function IsCurrentUser(m: Message, storedUserId: Option<string>): (mine: bool)
    ensures m.u.None? || m.u.value.id.NoId? ==> !mine
    ensures m.u.Some? && m.u.value.id.Id? ==> (mine <==> storedUserId == Some(m.u.value.id.value))
    ensures m.u.Some? && m.u.value.id.NullId? ==> (mine <==> storedUserId.None?)
  {
    m.u.Some? && m.u.value.id == FromStore(storedUserId)
  }

  /** A message this browser appended optimistically is shown as the current user's exactly
      while the store holds the user id it was built with, including none at all. */
  lemma OwnOptimisticMessage(store: Storage.LocalStore, now: nat, text: string, tmid: Option<string>,
                             storedLater: Option<string>)
    ensures IsCurrentUser(Optimistic(now, text, StoredSender(store), tmid), storedLater) <==> storedLater == store.userId
    ensures IsCurrentUser(Optimistic(now, text, StoredSender(store), tmid), store.userId)
  {
  }

  /** The composer's state. */
  class Composer {
    var newMessage: string
    var isSending: bool

    constructor ()
      ensures newMessage == "" && !isSending
    {
      newMessage, isSending := "", false;
    }

    /** `handleSendMessage`: nothing happens for blank text or while a send is in flight;
        otherwise the trimmed text goes to the message store and the input is cleared once
        the store's `sendMessage` returns (it never throws). `sent` is the text handed over. */
    method HandleSendMessage(store: MessageStore, room: Option<Room>, reply: SendReply,
                             local: Storage.LocalStore, now: nat)
      returns (sent: Option<string>)
      modifies this, store`messages, store`isLoading, store`error
      ensures Trim(old(newMessage)) == [] || old(isSending) ==>
        && sent == None && newMessage == old(newMessage) && isSending == old(isSending)
        && store.messages == old(store.messages) && store.isLoading == old(store.isLoading)
        && store.error == old(store.error)
      ensures Trim(old(newMessage)) != [] && !old(isSending) ==>
        && sent == Some(Trim(old(newMessage))) && newMessage == [] && !isSending
        && store.messages == (if room.Some? && reply.Sent?
                              then old(store.messages) + [Optimistic(now, Trim(old(newMessage)), StoredSender(local), None)]
                              else old(store.messages))
        && (room.None? ==> store.error == Some(NoRoomText) && store.isLoading == old(store.isLoading))
        && (room.Some? ==> !store.isLoading)
        && (room.Some? && reply.Sent? ==> store.error == old(store.error))
        && (room.Some? && reply.SendRejected? ==> store.error == Some(reply.error))
        && (room.Some? && reply.SendThrew? ==> store.error == Some(SendFailedText))
    {
      var text := Trim(newMessage);
      if text == [] || isSending {
        return None;
      }
      isSending := true;
      var _ := store.SendMessage(room, text, None, reply, local, now);
      newMessage := [];
      isSending := false;
      sent := Some(text);
    }
  }
}
