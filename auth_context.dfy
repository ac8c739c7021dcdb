/** The auth context: the signed-in user, the authenticated flag and the loading flag, kept
    in step with the session keys of the browser store. The server's answers are inputs. */
module AuthContext {
  import opened Wrappers
  import opened Domain
  import Storage

  const LoginFailedText := "Login failed"
  const SuccessStatus := "success"

  /** `extractUserInfo`: the ten fields the client keeps, copied; everything else dropped. */
  function ExtractUserInfo(u: UserData): (info: UserData)
    ensures info.extra == map[]
    ensures info == u.(extra := map[])
  {
    UserData(u.id, u.name, u.emails, u.status, u.statusConnection, u.username, u.active, u.roles,
             u.avatarUrl, u.utcOffset, map[])
  }

  /** Projecting twice is projecting once, and a record with nothing but the ten fields is
      its own projection. */
  lemma ExtractIdempotent(u: UserData)
    ensures ExtractUserInfo(ExtractUserInfo(u)) == ExtractUserInfo(u)
    ensures ExtractUserInfo(u) == u <==> u.extra == map[]
  {
  }

  /** What the auth service's `login` produced: the response body, or what it threw — the
      server's error body (of which only `message` is read) or the request error's text. */
  datatype LoginReply =
    | Answered(status: string, authToken: string, userId: string, me: UserData)
    | RaisedBody(message: Option<string>)
    | RaisedText(text: string)

  /** How `login` ends: it returns, or it throws a value. It rethrows `error.message` of what
      it caught, which is a string or `undefined` (`None`). */
  datatype LoginEnd = LoggedIn | LoginThrew(thrown: Option<string>)

  /** The value `login` throws for a reply that is not a success. */
  function LoginThrown(reply: LoginReply): (thrown: Option<string>)
    requires !(reply.Answered? && reply.status == SuccessStatus)
    ensures reply.Answered? ==> thrown == Some(LoginFailedText)
    ensures reply.RaisedBody? ==> thrown == reply.message
    ensures reply.RaisedText? ==> thrown == None
  {
    match reply
    case Answered(_, _, _, _) => Some(LoginFailedText)
    case RaisedBody(m) => m
    case RaisedText(_) => None
  }

  class Session {
    var user: Option<UserData>
    var isAuthenticated: bool
    var isLoading: bool

    constructor ()
      ensures user == None && !isAuthenticated && isLoading
    {
      user, isAuthenticated, isLoading := None, false, true;
    }

    /** The three session keys removed and the state signed out. */
    method SignOut(store: Storage.LocalStore)
      modifies this`user, this`isAuthenticated, store`authToken, store`userId, store`user
      ensures store.SessionCleared() && user == None && !isAuthenticated
    {
      store.authToken, store.userId, store.user := None, None, None;
      user := None;
      isAuthenticated := false;
    }

    /** `checkAuth` at start-up. With a token and a user id, a fresh profile (`Some`) signs in
        and refreshes the stored user; when the fetch throws (`None`), the stored user signs in
        if there is one and the session is cleared otherwise. Without both keys the session is
        cleared. Loading always ends. */
    method CheckAuth(store: Storage.LocalStore, profile: Option<UserData>)
      modifies this`user, this`isAuthenticated, this`isLoading, store`authToken, store`userId, store`user
      ensures !isLoading
      ensures store.username == old(store.username)
      ensures !(Truthy(old(store.authToken)) && Truthy(old(store.userId))) ==>
        store.SessionCleared() && user == None && !isAuthenticated
      ensures Truthy(old(store.authToken)) && Truthy(old(store.userId)) && profile.Some? ==>
        && user == Some(ExtractUserInfo(profile.value)) && isAuthenticated
        && store.user == user && store.authToken == old(store.authToken) && store.userId == old(store.userId)
      ensures Truthy(old(store.authToken)) && Truthy(old(store.userId)) && profile.None? && old(store.user).Some? ==>
        && user == old(store.user) && isAuthenticated
        && store.user == old(store.user) && store.authToken == old(store.authToken) && store.userId == old(store.userId)
      ensures Truthy(old(store.authToken)) && Truthy(old(store.userId)) && profile.None? && old(store.user).None? ==>
        store.SessionCleared() && user == None && !isAuthenticated
    {
      if Truthy(store.authToken) && Truthy(store.userId) {
        if profile.Some? {
          var info := ExtractUserInfo(profile.value);
          user := Some(info);
          isAuthenticated := true;
          store.user := Some(info);
        } else if store.user.Some? {
          user := store.user;
          isAuthenticated := true;
        } else {
          SignOut(store);
        }
      } else {
        SignOut(store);
      }
      isLoading := false;
    }

    /** `login`: a `'success'` response stores token, user id and the projected user and signs
        in; anything else throws, touching neither the store nor the state. */
    method Login(store: Storage.LocalStore, reply: LoginReply) returns (end: LoginEnd)
      modifies this`user, this`isAuthenticated, this`isLoading, store`authToken, store`userId, store`user
      ensures !isLoading
      ensures reply.Answered? && reply.status == SuccessStatus ==>
        && end == LoggedIn
        && store.authToken == Some(reply.authToken) && store.userId == Some(reply.userId)
        && store.user == Some(ExtractUserInfo(reply.me)) && user == store.user && isAuthenticated
      ensures !(reply.Answered? && reply.status == SuccessStatus) ==>
        && end == LoginThrew(LoginThrown(reply))
        && store.authToken == old(store.authToken) && store.userId == old(store.userId)
        && store.user == old(store.user) && user == old(user) && isAuthenticated == old(isAuthenticated)
    {
      isLoading := true;
      if reply.Answered? && reply.status == SuccessStatus {
        var info := ExtractUserInfo(reply.me);
        store.authToken := Some(reply.authToken);
        store.userId := Some(reply.userId);
        store.user := Some(info);
        user := Some(info);
        isAuthenticated := true;
        end := LoggedIn;
      } else {
        end := LoginThrew(LoginThrown(reply));
      }
      isLoading := false;
    }

    /** `logout`: whatever the server says, the session keys go and the state signs out. */
    method Logout(store: Storage.LocalStore)
      modifies this`user, this`isAuthenticated, store`authToken, store`userId, store`user
      ensures store.SessionCleared() && user == None && !isAuthenticated
    {
      SignOut(store);
    }

    /** `updateUser`: state and stored user become the same projected record. */
    method UpdateUser(store: Storage.LocalStore, data: UserData)
      modifies this`user, store`user
      ensures user == Some(ExtractUserInfo(data)) && store.user == user
    {
      var info := ExtractUserInfo(data);
      user := Some(info);
      store.user := Some(info);
    }
  }
}
