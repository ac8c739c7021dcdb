/** The status context: the user's presence status, cached from the stored profile and
    written back to it after the server accepts a change. */
module StatusContext {
  import opened Wrappers
  import opened Domain
  import Storage

  const Online := "online"
  const Offline := "offline"

  /** The status the start-up effect reads from the stored profile. */
  function InitialStatus(stored: Option<UserData>): (s: string)
    ensures stored.Some? && Truthy(stored.value.status) ==> s == stored.value.status.value
    ensures stored.None? || !Truthy(stored.value.status) ==> s == Offline
  {
    if stored.Some? then OrElse(stored.value.status, Offline) else Offline
  }

  /** The stored profile after a status change: the profile (or an empty record when none is
      stored) with `status` set. */
  function WithStatus(stored: Option<UserData>, status: string): (u: UserData)
    ensures u.status == Some(status)
    ensures stored.Some? ==> u == stored.value.(status := Some(status))
    ensures stored.None? ==> u == NoFields.(status := Some(status))
  {
    (if stored.Some? then stored.value else NoFields).(status := Some(status))
  }

  /** Once a change is written back, the start-up effect would read the same status again. */
  lemma WrittenStatusIsRead(stored: Option<UserData>, status: string)
    requires status != ""
    ensures InitialStatus(Some(WithStatus(stored, status))) == status
  {
  }

  class StatusStore {
    var userStatus: string
    var isUpdatingStatus: bool

    constructor ()
      ensures userStatus == Offline && !isUpdatingStatus
    {
      userStatus, isUpdatingStatus := Offline, false;
    }

    /** The start-up effect: a stored profile sets the status (`'offline'` when it has none);
        without one the status stays as it is. */
    method Init(store: Storage.LocalStore)
      modifies this`userStatus
      ensures userStatus == if store.user.Some? then InitialStatus(store.user) else old(userStatus)
    {
      if store.user.Some? {
        userStatus := InitialStatus(store.user);
      }
    }

    /** `updateUserStatus`: when the server accepts, the stored profile gets the new status and
        the state follows; a failure is rethrown (`r`) and nothing else changes. */
    method UpdateUserStatus(status: string, store: Storage.LocalStore, reply: Outcome) returns (r: Outcome)
      modifies this`userStatus, this`isUpdatingStatus, store`user
      ensures r == reply && !isUpdatingStatus
      ensures reply.Pass? ==> userStatus == status && store.user == Some(WithStatus(old(store.user), status))
      ensures reply.Fail? ==> userStatus == old(userStatus) && store.user == old(store.user)
    {
      isUpdatingStatus := true;
      if reply.Pass? {
        store.user := Some(WithStatus(store.user, status));
        userStatus := status;
      }
      r := reply;
      isUpdatingStatus := false;
    }

    /** `setOnline` */
    method SetOnline(store: Storage.LocalStore, reply: Outcome) returns (r: Outcome)
      modifies this`userStatus, this`isUpdatingStatus, store`user
      ensures r == reply && !isUpdatingStatus
      ensures reply.Pass? ==> userStatus == Online && store.user == Some(WithStatus(old(store.user), Online))
      ensures reply.Fail? ==> userStatus == old(userStatus) && store.user == old(store.user)
    {
      r := UpdateUserStatus(Online, store, reply);
    }

    /** `setOffline` */
    method SetOffline(store: Storage.LocalStore, reply: Outcome) returns (r: Outcome)
      modifies this`userStatus, this`isUpdatingStatus, store`user
      ensures r == reply && !isUpdatingStatus
      ensures reply.Pass? ==> userStatus == Offline && store.user == Some(WithStatus(old(store.user), Offline))
      ensures reply.Fail? ==> userStatus == old(userStatus) && store.user == old(store.user)
    {
      r := UpdateUserStatus(Offline, store, reply);
    }

    /** `setCustomStatus`: any status, through `updateUserStatus`. */
    method SetCustomStatus(status: string, store: Storage.LocalStore, reply: Outcome) returns (r: Outcome)
      modifies this`userStatus, this`isUpdatingStatus, store`user
      ensures r == reply && !isUpdatingStatus
      ensures reply.Pass? ==> userStatus == status && store.user == Some(WithStatus(old(store.user), status))
      ensures reply.Fail? ==> userStatus == old(userStatus) && store.user == old(store.user)
    {
      r := UpdateUserStatus(status, store, reply);
    }

    /** `getCurrentStatus` */
    function CurrentStatus(): (s: string)
      reads this
      ensures s == userStatus
    {
      userStatus
    }
  }
}
