/** The records the client exchanges with the chat server: messages, their senders,
    rooms and user profiles. JavaScript's `undefined`/`null` become `None`; a field that
    may hold something other than an array becomes a `ListField`. */
module Domain {
  import opened Wrappers

  /** The `_id` of a sender: a missing field (`undefined`), the `null` that an optimistic
      message copies from a browser store holding no user id, or a string. */
  datatype SenderId = NoId | NullId | Id(value: string)

  /** `localStorage.getItem(key)` copied into a record: the stored string, or `null`. */
  function FromStore(stored: Option<string>): SenderId
  {
    if stored.Some? then Id(stored.value) else NullId
  }

  /** The `u` field of a message. */
  datatype Sender = Sender(id: SenderId, username: Option<string>, name: Option<string>)

  /** A chat message. `ts` is the instant in milliseconds; `tmid` names the thread parent
      of a reply; `tcount` is the server's count of thread replies. */
  datatype Message = Message(
    id: string,
    rid: Option<string>,
    msg: string,
    ts: int,
    u: Option<Sender>,
    tmid: Option<string>,
    tcount: Option<int>)

  /** A channel as the rooms list holds it. */
  datatype Room = Room(id: string, name: string)

  /** A user entry of a search result or a channel member selection. */
  datatype UserRef = UserRef(id: string, username: Option<string>, name: Option<string>)

  datatype Email = Email(address: Option<string>)

  /** A field the server sends as an array, that may be missing or hold a non-array value. */
  datatype ListField<T> = Absent | NotAList | Items(elems: seq<T>)

  /** A user profile. The ten named fields are the ones the client keeps; `extra` holds
      whatever else the server sent. */
  datatype UserData = UserData(
    id: Option<string>,
    name: Option<string>,
    emails: ListField<Email>,
    status: Option<string>,
    statusConnection: Option<string>,
    username: Option<string>,
    active: Option<bool>,
    roles: ListField<string>,
    avatarUrl: Option<string>,
    utcOffset: Option<int>,
    extra: map<string, string>)

  /** The profile `JSON.parse('{}')` yields: no field at all. */
  const NoFields := UserData(None, None, Absent, None, None, None, None, Absent, None, None, map[])

  /** JavaScript truthiness of an optional string: present and not empty. */
  predicate Truthy(s: Option<string>) {
    s.Some? && s.value != ""
  }

  /** `s || fallback` for an optional string. */
  function OrElse(s: Option<string>, fallback: string): (r: string)
    ensures Truthy(s) ==> r == s.value
    ensures !Truthy(s) ==> r == fallback
  {
    if Truthy(s) then s.value else fallback
  }

  /** `a || b` for two optional strings. */
  function Either(a: Option<string>, b: Option<string>): (r: Option<string>)
    ensures Truthy(r) <==> Truthy(a) || Truthy(b)
    ensures Truthy(a) ==> r == a
    ensures !Truthy(a) ==> r == b
  {
    if Truthy(a) then a else b
  }
}
