/** The profile dropdown: the colour and label of a presence status, the statuses offered, and
    the header drawn from the signed-in user. */
module UserProfileDropdown {
  import opened Wrappers
  import opened Domain

  const Online := "online"
  const Away := "away"
  const Busy := "busy"
  const DoNotDisturb := "dnd"
  const OtherColor := "bg-gray-400"
  const OtherText := "Offline"

  /** The statuses the dropdown offers, in its order. */
  const Selectable: seq<string> := [Online, Away, Busy, DoNotDisturb]

  /** `getStatusColor`; a missing status is `None`. */
  function StatusColor(status: Option<string>): (color: string)
    ensures status == Some(Online) ==> color == "bg-green-500"
    ensures status == Some(Away) ==> color == "bg-yellow-500"
    ensures status == Some(Busy) ==> color == "bg-red-500"
    ensures status == Some(DoNotDisturb) ==> color == "bg-red-600"
    ensures (status.None? || status.value !in Selectable) <==> color == OtherColor
  {
    if status == Some(Online) then "bg-green-500"
    else if status == Some(Away) then "bg-yellow-500"
    else if status == Some(Busy) then "bg-red-500"
    else if status == Some(DoNotDisturb) then "bg-red-600"
    else OtherColor
  }

  /** `getStatusText` */
  function StatusText(status: Option<string>): (text: string)
    ensures status == Some(Online) ==> text == "Online"
    ensures status == Some(Away) ==> text == "Away"
    ensures status == Some(Busy) ==> text == "Busy"
    ensures status == Some(DoNotDisturb) ==> text == "Do Not Disturb"
    ensures (status.None? || status.value !in Selectable) <==> text == OtherText
  {
    if status == Some(Online) then "Online"
    else if status == Some(Away) then "Away"
    else if status == Some(Busy) then "Busy"
    else if status == Some(DoNotDisturb) then "Do Not Disturb"
    else OtherText
  }

  /** The offered statuses have distinct colours and labels, none of them the fallback ones, so
      colour and label each identify the status. */
  lemma SelectableDistinct(i: nat, j: nat)
    requires i < |Selectable| && j < |Selectable|
    ensures StatusColor(Some(Selectable[i])) == StatusColor(Some(Selectable[j])) ==> i == j
    ensures StatusText(Some(Selectable[i])) == StatusText(Some(Selectable[j])) ==> i == j
    ensures StatusColor(Some(Selectable[i])) != OtherColor && StatusText(Some(Selectable[i])) != OtherText
  {
  }

  /** The header: the first letter of the name, else of the username, else "U", and the name,
      else the username, as the title. */
  datatype Header = Header(initial: string, title: Option<string>, handle: Option<string>)

  /** What the dropdown draws: nothing without a user. */
  function Render(user: Option<UserData>): (header: Option<Header>)
    ensures header.Some? <==> user.Some?
    ensures header.Some? && Truthy(user.value.name) ==>
      header.value.initial == user.value.name.value[..1] && header.value.title == user.value.name
    ensures header.Some? && !Truthy(user.value.name) && Truthy(user.value.username) ==>
      header.value.initial == user.value.username.value[..1]
    ensures header.Some? && !Truthy(user.value.name) && !Truthy(user.value.username) ==> header.value.initial == "U"
    ensures header.Some? ==> |header.value.initial| == 1 && header.value.handle == user.value.username
    ensures header.Some? && !Truthy(user.value.name) ==> header.value.title == user.value.username
    ensures header.Some? ==> header.value.title == Either(user.value.name, user.value.username)
  {
    if user.None? then None
    else
      var u := user.value;
      var initial :=
        if Truthy(u.name) then u.name.value[..1]
        else if Truthy(u.username) then u.username.value[..1]
        else "U";
      Some(Header(initial, Either(u.name, u.username), u.username))
  }
}
