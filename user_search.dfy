/** The user picker used when creating a channel: a query box whose results leave out the
    users already chosen, and the chosen list kept by the parent (`selectedUsers` in,
    `onUsersChange` out). */
module UserSearch {
  import opened Wrappers
  import opened Domain
  import opened Seqs
  import opened Text

  const SearchFailedText := "Failed to search users"

  function IdsOf(users: seq<UserRef>): set<string>
  {
    set u | u in users :: u.id
  }

  function NotIn(ids: set<string>): UserRef -> bool
  {
    (u: UserRef) => u.id !in ids
  }

  /** The results `searchUsers` keeps: those whose id is not among the chosen users' ids,
      in the server's order. */
  function Unselected(found: seq<UserRef>, selected: seq<UserRef>): (shown: seq<UserRef>)
    ensures |shown| <= |found|
    ensures forall u :: u in shown ==> u in found && u.id !in IdsOf(selected)
  {
    Keep(found, NotIn(IdsOf(selected)))
  }

  /** The results shown are exactly the found users that share no id with a chosen user. */
  lemma UnselectedExact(found: seq<UserRef>, selected: seq<UserRef>)
    ensures forall u :: u in Unselected(found, selected) <==>
                        u in found && forall s :: s in selected ==> s.id != u.id
  {
  }

  function IdIsNot(userId: string): UserRef -> bool
  {
    (u: UserRef) => u.id != userId
  }

  /** `handleUserSelect`'s new selection: the user appended at the end. */
  function WithUser(selected: seq<UserRef>, user: UserRef): (r: seq<UserRef>)
    ensures |r| == |selected| + 1 && r[..|selected|] == selected && r[|selected|] == user
  {
    selected + [user]
  }

  /** `handleUserRemove`'s new selection. */
  function WithoutUser(selected: seq<UserRef>, userId: string): (r: seq<UserRef>)
    ensures forall u :: u in r <==> u in selected && u.id != userId
  {
    Keep(selected, IdIsNot(userId))
  }

  /** Removing an id keeps every other chosen user, as often as before and in order. */
  lemma RemoveKeepsOthers(before: seq<UserRef>, after: seq<UserRef>, userId: string, u: UserRef)
    ensures multiset(WithoutUser(before, userId))[u] == if u.id == userId then 0 else multiset(before)[u]
    ensures WithoutUser(before + after, userId) == WithoutUser(before, userId) + WithoutUser(after, userId)
  {
    KeepCount(before, IdIsNot(userId), u);
    KeepConcat(before, after, IdIsNot(userId));
  }

  /** A user just chosen no longer shows up in the next search. */
  lemma ChosenUserNotOffered(found: seq<UserRef>, selected: seq<UserRef>, user: UserRef)
    ensures user !in Unselected(found, WithUser(selected, user))
  {
    UnselectedExact(found, WithUser(selected, user));
    assert WithUser(selected, user)[|selected|] == user;
  }

  class Picker {
    var isOpen: bool
    var searchQuery: string
    var users: seq<UserRef>
    var isLoading: bool
    var error: Option<string>

    constructor ()
      ensures !isOpen && searchQuery == "" && users == [] && !isLoading && error == None
    {
      isOpen, searchQuery, users, isLoading, error := false, "", [], false, None;
    }

    /** `searchUsers`: results without the chosen users; a failure keeps the old results and
        records the error; loading ends. */
    method SearchUsers(selected: seq<UserRef>, reply: Reply<seq<UserRef>>)
      modifies this`users, this`isLoading, this`error
      ensures users == if reply.Succeeded? then Unselected(reply.value, selected) else old(users)
      ensures error == ErrorOf(reply, SearchFailedText)
      ensures !isLoading
    {
      isLoading := true;
      error := None;
      match reply {
        case Succeeded(found) => users := Unselected(found, selected);
        case Refused(e) => error := Some(e);
        case Raised => error := Some(SearchFailedText);
      }
      isLoading := false;
    }

    /** The query effect: a query that `trim` empties (a blank one, see `Text.TrimEmptyIffBlank`)
        clears the results without asking the server; any other query is searched. */
    method QueryChanged(selected: seq<UserRef>, reply: Reply<seq<UserRef>>) returns (searched: bool)
      modifies this`users, this`isLoading, this`error
      ensures searched <==> !IsBlank(searchQuery)
      ensures !searched ==> users == [] && isLoading == old(isLoading) && error == old(error)
      ensures searched ==>
        users == (if reply.Succeeded? then Unselected(reply.value, selected) else old(users))
        && error == ErrorOf(reply, SearchFailedText) && !isLoading
    {
      searched := !IsBlank(searchQuery);
      if searched {
        SearchUsers(selected, reply);
      } else {
        users := [];
      }
    }

    /** `handleUserSelect`: the user joins the selection, the query and results are cleared
        and the dropdown closes. */
    method HandleUserSelect(selected: seq<UserRef>, user: UserRef) returns (newSelected: seq<UserRef>)
      modifies this`searchQuery, this`users, this`isOpen
      ensures newSelected == WithUser(selected, user)
      ensures searchQuery == "" && users == [] && !isOpen
    {
      newSelected := WithUser(selected, user);
      searchQuery := "";
      users := [];
      isOpen := false;
    }

    /** `handleInputFocus`: opens the dropdown, and searches only when the trimmed query is not empty. */
    method HandleInputFocus(selected: seq<UserRef>, reply: Reply<seq<UserRef>>) returns (searched: bool)
      modifies this`isOpen, this`users, this`isLoading, this`error
      ensures isOpen
      ensures searched <==> !IsBlank(searchQuery)
      ensures !searched ==> users == old(users) && isLoading == old(isLoading) && error == old(error)
      ensures searched ==>
        users == (if reply.Succeeded? then Unselected(reply.value, selected) else old(users))
        && error == ErrorOf(reply, SearchFailedText) && !isLoading
    {
      isOpen := true;
      searched := !IsBlank(searchQuery);
      if searched {
        SearchUsers(selected, reply);
      }
    }
  }
}
