/** The browser's `localStorage` as the client uses it: four keys. The `'user'` key
    holds a serialized profile; serializing and parsing it are taken to be inverse, so the
    entry is kept as the profile itself. */
module Storage {
  import opened Wrappers
  import opened Domain

  class LocalStore {
    var authToken: Option<string>
    var userId: Option<string>
    var username: Option<string>
    var user: Option<UserData>

    constructor ()
      ensures authToken == None && userId == None && username == None && user == None
    {
      authToken, userId, username, user := None, None, None, None;
    }

    /** The three keys that make up a session: `authToken`, `userId` and `user`. */
    predicate SessionCleared()
      reads this
    {
      authToken == None && userId == None && user == None
    }

    /** `removeItem` on `authToken`, `userId` and `user`; the `username` key is not touched. */
    method ClearSession()
      modifies this
      ensures SessionCleared() && username == old(username)
    {
      authToken, userId, user := None, None, None;
    }
  }
}
