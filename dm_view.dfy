/** The direct-message view: finding the selected conversation by its display name, the
    send and upload guards, the thread panel's reply window, reply prefill and grouping
    that leaves thread replies out. The conversation list, the current user and every
    collaborator's result are inputs. */
module DMView {
  import opened Wrappers
  import opened Domain
  import opened Text
  import opened Seqs
  import opened MessagesContext
  import Storage
  import Grouping

  const UnknownUserName := "Unknown User"
  const ThreadSendFailedText := "Failed to send thread message"

  /** A direct-message conversation: its id and its participants' usernames. */
  datatype DM = DM(id: string, usernames: Option<seq<string>>)

  /** A file chosen for upload. */
  datatype FileRef = FileRef(name: string)

  /** What a collaborator call that sends or uploads returned, or that it threw. */
  datatype CallResult = CallOk | CallFailed(error: string) | CallThrew

  function NotMe(me: Option<string>): string -> bool
  {
    (u: string) => Some(u) != me
  }

  /** The participants other than the current user, in the conversation's order. */
  function OtherUsernames(d: DM, me: Option<string>): (others: seq<string>)
    ensures forall u :: u in others <==> d.usernames.Some? && u in d.usernames.value && Some(u) != me
  {
    if d.usernames.None? then [] else Keep(d.usernames.value, NotMe(me))
  }

  /** The name a conversation is listed under: the other participants joined with ", ",
      or "Unknown User" when nobody else is listed. */
  function DisplayName(d: DM, me: Option<string>): (name: string)
    ensures |OtherUsernames(d, me)| == 0 ==> name == UnknownUserName
    ensures |OtherUsernames(d, me)| == 1 ==> name == OtherUsernames(d, me)[0]
    ensures |OtherUsernames(d, me)| >= 2 ==> StartsWith(name, OtherUsernames(d, me)[0] + ", ")
  {
    var others := OtherUsernames(d, me);
    if |others| > 0 then Join(others, ", ") else UnknownUserName
  }

  /** A conversation with other participants is listed under their usernames joined with ", ",
      so a group conversation's name holds every other participant, in order. */
  lemma DisplayNameJoins(d: DM, me: Option<string>)
    requires |OtherUsernames(d, me)| > 0
    ensures DisplayName(d, me) == Join(OtherUsernames(d, me), ", ")
  {
  }

  /** A one-to-one conversation is listed under the other participant's username. */
  lemma {:induction false} TwoPartyName(id: string, mine: string, other: string)
    requires mine != other
    ensures DisplayName(DM(id, Some([mine, other])), Some(mine)) == other
    ensures DisplayName(DM(id, Some([other, mine])), Some(mine)) == other
  {
    assert Keep([mine, other], NotMe(Some(mine))) == [other] by {
      assert [mine, other][1..] == [other];
    }
    assert Keep([other, mine], NotMe(Some(mine))) == [other] by {
      assert [other, mine][1..] == [mine];
    }
  }

  /** `dms.find(d => displayName(d) === selected)`: the first conversation listed under `selected`. */
  function FindDM(dms: seq<DM>, me: Option<string>, selected: string): (r: Option<DM>)
    ensures r.Some? ==> r.value in dms && DisplayName(r.value, me) == selected
    ensures r.None? <==> forall d :: d in dms ==> DisplayName(d, me) != selected
  {
    if dms == [] then None
    else if DisplayName(dms[0], me) == selected then Some(dms[0])
    else FindDM(dms[1..], me, selected)
  }

  /** The conversation found is the first match: no earlier entry is listed under `selected`. */
  lemma {:induction false} FindDMIsFirstMatch(dms: seq<DM>, me: Option<string>, selected: string)
    requires FindDM(dms, me, selected).Some?
    ensures exists i :: 0 <= i < |dms| && dms[i] == FindDM(dms, me, selected).value
                        && forall j :: 0 <= j < i ==> DisplayName(dms[j], me) != selected
  {
    if DisplayName(dms[0], me) != selected {
      FindDMIsFirstMatch(dms[1..], me, selected);
      var i :| 0 <= i < |dms[1..]| && dms[1..][i] == FindDM(dms[1..], me, selected).value
               && forall j :: 0 <= j < i ==> DisplayName(dms[1..][j], me) != selected;
      assert dms[i + 1] == FindDM(dms, me, selected).value;
      forall j | 0 <= j < i + 1 ensures DisplayName(dms[j], me) != selected {
        if j > 0 {
          assert dms[j] == dms[1..][j - 1];
        }
      }
    } else {
      assert dms[0] == FindDM(dms, me, selected).value;
    }
  }

  /** The conversation the view works on: none while no DM is selected. */
  function SelectedConversation(dms: seq<DM>, me: Option<string>, selectedDM: Option<string>): (r: Option<DM>)
    ensures r.Some? ==> selectedDM.Some? && r.value in dms && DisplayName(r.value, me) == selectedDM.value
    ensures selectedDM.Some? && r.None? ==> forall d :: d in dms ==> DisplayName(d, me) != selectedDM.value
  {
    if selectedDM.None? then None else FindDM(dms, me, selectedDM.value)
  }

  /** `hasThreadReplies`: a reply count is present and positive. */
  function HasThreadReplies(m: Message): (has: bool)
    ensures m.tcount.None? ==> !has
    ensures m.tcount.Some? ==> (has <==> m.tcount.value >= 1)
  {
    m.tcount.Some? && m.tcount.value > 0
  }

  /** The mention `handleReply` puts in the input: `@` + the sender's username, else name,
      else "Unknown", then a space. */
  function ReplyPrefill(m: Message): (text: string)
    ensures StartsWith(text, "@") && text[|text| - 1] == ' '
    ensures m.u.Some? && Truthy(m.u.value.username) ==> text == "@" + m.u.value.username.value + " "
    ensures m.u.Some? && !Truthy(m.u.value.username) && Truthy(m.u.value.name) ==> text == "@" + m.u.value.name.value + " "
    ensures m.u.None? || (!Truthy(m.u.value.username) && !Truthy(m.u.value.name)) ==> text == "@Unknown "
  {
    var who := if m.u.Some? then Either(m.u.value.username, m.u.value.name) else None;
    "@" + OrElse(who, "Unknown") + " "
  }

  /** The optimistic thread reply `handleSendThreadMessage` appends. */
  function ThreadReply(now: nat, dmId: string, text: string, store: Storage.LocalStore, parentId: string): (m: Message)
    reads store
    ensures m.tmid == Some(parentId) && m.msg == text && m.rid == Some(dmId) && m.ts == now
  {
    Message("temp-" + Decimal(now), Some(dmId), text, now, Some(Sender(FromStore(store.userId), store.username, None)),
            Some(parentId), None)
  }

  function IsMain(): Message -> bool
  {
    (m: Message) => !Truthy(m.tmid)
  }

  /** The messages shown in the main timeline: those that are not thread replies. */
  function MainMessages(ms: seq<Message>): (main: seq<Message>)
    ensures forall m :: m in main <==> m in ms && !Truthy(m.tmid)
  {
    Keep(ms, IsMain())
  }

  /** `groupMessagesByDate` of the DM view: thread replies are dropped, then the remaining
      messages are grouped by date label, each in exactly one group and in list order. */
  method GroupMainMessagesByDate(messages: seq<Message>, dayOf: int -> string)
    returns (days: seq<string>, groups: map<string, seq<Message>>)
    ensures days == Grouping.Days(MainMessages(messages), dayOf)
    ensures forall d :: d in groups <==> d in days
    ensures forall d :: d in groups ==> groups[d] == Grouping.OnDay(MainMessages(messages), dayOf, d)
    ensures forall d, m :: d in groups && m in groups[d] ==> !Truthy(m.tmid) && m in messages
  {
    days, groups := Grouping.GroupByDate(MainMessages(messages), dayOf);
    forall d, m | d in groups && m in groups[d] ensures !Truthy(m.tmid) && m in messages {
      assert m in Grouping.OnDay(MainMessages(messages), dayOf, d);
    }
  }

  /** The view's own state. */
  class Panel {
    var newMessage: string
    var isSending: bool
    var showThread: bool
    var selectedThread: Option<Message>
    var threadMessages: seq<Message>
    var currentDMId: Option<string>
    var selectedFile: Option<FileRef>
    var isUploading: bool

    constructor ()
      ensures newMessage == "" && !isSending && !showThread && selectedThread == None
      ensures threadMessages == [] && currentDMId == None && selectedFile == None && !isUploading
    {
      newMessage, isSending, showThread, selectedThread := "", false, false, None;
      threadMessages, currentDMId, selectedFile, isUploading := [], None, None, false;
    }

    /** The effect that follows the selected DM: a matching conversation becomes current
        (its loads and polling belong to the collaborators); a selection with no match
        changes nothing; no selection or an empty list clears the current id. */
    method SyncSelection(selectedDM: Option<string>, dms: seq<DM>, me: Option<string>)
      modifies this`currentDMId
      ensures Truthy(selectedDM) && dms != [] && FindDM(dms, me, selectedDM.value).Some? ==>
        currentDMId == Some(FindDM(dms, me, selectedDM.value).value.id)
      ensures Truthy(selectedDM) && dms != [] && FindDM(dms, me, selectedDM.value).None? ==>
        currentDMId == old(currentDMId)
      ensures !Truthy(selectedDM) || dms == [] ==> currentDMId == None
    {
      if Truthy(selectedDM) && dms != [] {
        var dm := FindDM(dms, me, selectedDM.value);
        if dm.Some? {
          currentDMId := Some(dm.value.id);
        }
      } else {
        currentDMId := None;
      }
    }

    /** `handleSendMessage`: a no-op for blank text, while a send is in flight, or when no
        conversation matches; otherwise the trimmed text is sent to the matching conversation
        (`sent`) and the input is cleared unless the send threw. */
    method HandleSendMessage(selectedDM: Option<string>, dms: seq<DM>, me: Option<string>, reply: CallResult)
      returns (sent: Option<(string, string)>)
      modifies this`newMessage, this`isSending
      ensures Trim(old(newMessage)) == [] || old(isSending) || SelectedConversation(dms, me, selectedDM).None? ==>
        sent == None && newMessage == old(newMessage) && isSending == old(isSending)
      ensures Trim(old(newMessage)) != [] && !old(isSending) && SelectedConversation(dms, me, selectedDM).Some? ==>
        && sent == Some((SelectedConversation(dms, me, selectedDM).value.id, Trim(old(newMessage))))
        && !isSending
        && newMessage == if reply.CallThrew? then old(newMessage) else []
    {
      var text := Trim(newMessage);
      if text == [] || isSending {
        return None;
      }
      var dm := SelectedConversation(dms, me, selectedDM);
      if dm.None? {
        return None;
      }
      isSending := true;
      sent := Some((dm.value.id, text));
      if !reply.CallThrew? {
        newMessage := [];
      }
      isSending := false;
    }

    /** `handleFileUpload`: needs a chosen file, a current conversation and no upload in
        flight; `uploaded` is what goes to the upload call. Success clears the file and the input. */
    method HandleFileUpload(reply: CallResult) returns (uploaded: Option<(string, FileRef, string)>)
      modifies this`selectedFile, this`newMessage, this`isUploading
      ensures old(selectedFile).None? || !Truthy(currentDMId) || old(isUploading) ==>
        && uploaded == None && selectedFile == old(selectedFile) && newMessage == old(newMessage)
        && isUploading == old(isUploading)
      ensures old(selectedFile).Some? && Truthy(currentDMId) && !old(isUploading) ==>
        && uploaded == Some((currentDMId.value, old(selectedFile).value, Trim(old(newMessage))))
        && !isUploading
        && selectedFile == (if reply.CallOk? then None else old(selectedFile))
        && newMessage == (if reply.CallOk? then [] else old(newMessage))
    {
      if selectedFile.None? || !Truthy(currentDMId) || isUploading {
        return None;
      }
      isUploading := true;
      uploaded := Some((currentDMId.value, selectedFile.value, Trim(newMessage)));
      if reply.CallOk? {
        selectedFile := None;
        newMessage := [];
      }
      isUploading := false;
    }

    /** `loadThreadMessages`: the server's replies, or an empty window on any failure. */
    method LoadThreadMessages(reply: PageReply)
      modifies this`threadMessages
      ensures threadMessages == if reply.Page? then reply.messages else []
    {
      if reply.Page? {
        threadMessages := reply.messages;
      } else {
        threadMessages := [];
      }
    }

    /** `handleStartThread`: records the parent, empties the previous window, shows the
        panel and loads the replies. Nothing of an earlier thread survives. */
    method StartThread(parent: Message, reply: PageReply)
      modifies this`selectedThread, this`threadMessages, this`showThread
      ensures selectedThread == Some(parent) && showThread
      ensures threadMessages == if reply.Page? then reply.messages else []
    {
      selectedThread := Some(parent);
      threadMessages := [];
      showThread := true;
      LoadThreadMessages(reply);
    }

    /** `handleCloseThread` */
    method CloseThread()
      modifies this`selectedThread, this`threadMessages, this`showThread
      ensures !showThread && selectedThread == None && threadMessages == []
    {
      showThread := false;
      selectedThread := None;
      threadMessages := [];
    }

    /** `handleSendThreadMessage`: a no-op (`None`) without a parent, for blank text or when no
        conversation matches; on success one reply is appended to the window, on failure the
        window is unchanged and the failure is returned. */
    method HandleSendThreadMessage(text: string, selectedDM: Option<string>, dms: seq<DM>, me: Option<string>,
                                   reply: CallResult, store: Storage.LocalStore, now: nat)
      returns (r: Option<Outcome>)
      modifies this`threadMessages
      ensures selectedThread.None? || Trim(text) == [] || SelectedConversation(dms, me, selectedDM).None? ==>
        r == None && threadMessages == old(threadMessages)
      ensures selectedThread.Some? && Trim(text) != [] && SelectedConversation(dms, me, selectedDM).Some? ==>
        && r == Some(match reply
                     case CallOk => Pass
                     case CallFailed(e) => Fail(e)
                     case CallThrew => Fail(ThreadSendFailedText))
        && threadMessages == if reply.CallOk?
             then old(threadMessages) + [ThreadReply(now, SelectedConversation(dms, me, selectedDM).value.id,
                                                     Trim(text), store, selectedThread.value.id)]
             else old(threadMessages)
    {
      if selectedThread.None? || Trim(text) == [] {
        return None;
      }
      var dm := SelectedConversation(dms, me, selectedDM);
      if dm.None? {
        return None;
      }
      match reply {
        case CallOk =>
          threadMessages := threadMessages + [ThreadReply(now, dm.value.id, Trim(text), store, selectedThread.value.id)];
          r := Some(Pass);
        case CallFailed(e) =>
          r := Some(Fail(e));
        case CallThrew =>
          r := Some(Fail(ThreadSendFailedText));
      }
    }

    /** `handleReply` */
    method HandleReply(m: Message)
      modifies this`newMessage
      ensures newMessage == ReplyPrefill(m)
    {
      newMessage := ReplyPrefill(m);
    }

    /** `handleFileSelect` */
    method HandleFileSelect(f: FileRef)
      modifies this`selectedFile
      ensures selectedFile == Some(f)
    {
      selectedFile := Some(f);
    }

    /** `handleFileRemove` */
    method HandleFileRemove()
      modifies this`selectedFile
      ensures selectedFile == None
    {
      selectedFile := None;
    }
  }
}
