/** The global keyboard shortcuts: cycling through the rooms or DMs list, and the
    dispatch from a key event to the actions it fires. Actions are returned as effects;
    the router, the contexts they reach and the DOM event are outside the model. */
module KeyboardShortcuts {
  import opened Wrappers

  const HomePath := "/home"
  const DmsPath := "/dms"
  const PinnedPath := "/pinned"
  const SearchPath := "/search"

  /** `findIndex` on ids: the first position holding `id`, or -1. */
  function FindIndex(ids: seq<string>, id: string): (i: int)
    ensures -1 <= i < |ids|
    ensures i == -1 <==> id !in ids
    ensures i >= 0 ==> ids[i] == id && forall j :: 0 <= j < i ==> ids[j] != id
  {
    if ids == [] then -1
    else if ids[0] == id then 0
    else
      var k := FindIndex(ids[1..], id);
      if k == -1 then -1 else k + 1
  }

  /** The index of the current entry: -1 with no current entry or one not in the list. */
  function CurrentIndex(ids: seq<string>, current: Option<string>): (i: int)
    ensures -1 <= i < |ids|
    ensures i == -1 <==> current.None? || current.value !in ids
  {
    if current.Some? then FindIndex(ids, current.value) else -1
  }

  /** `prevIndex`: one back, wrapping from the first entry, or from none, to the last. */
  function PrevIndex(n: nat, i: int): (p: nat)
    requires n > 0 && -1 <= i < n
    ensures p < n
    ensures i > 0 ==> p == i - 1
    ensures i <= 0 ==> p == n - 1
  {
    if i > 0 then i - 1 else n - 1
  }

  /** `nextIndex`: one forward, wrapping from the last entry to the first; none found gives the first. */
  function NextIndex(n: nat, i: int): (q: nat)
    requires n > 0 && -1 <= i < n
    ensures q < n
    ensures i < n - 1 ==> q == i + 1
    ensures i == n - 1 ==> q == 0
  {
    if i < n - 1 then i + 1 else 0
  }

  /** From a found entry, previous undoes next and next undoes previous. */
  lemma PrevNextInverse(n: nat, i: nat)
    requires i < n
    ensures PrevIndex(n, NextIndex(n, i)) == i
    ensures NextIndex(n, PrevIndex(n, i)) == i
  {
  }

  /** The lists the shortcuts cycle through, as ids, with the current path and selections. */
  datatype Lists = Lists(path: string, rooms: seq<string>, currentRoom: Option<string>,
                         dms: seq<string>, currentDM: Option<string>)

  /** Which entry becomes current. */
  datatype Target = RoomAt(index: nat) | DMAt(index: nat)

  /** The entry `navigateToPreviousRoom` picks, if any. */
  function PreviousTarget(ls: Lists): (t: Option<Target>)
    ensures t.None? <==> !(ls.path == HomePath && |ls.rooms| > 0) && !(ls.path == DmsPath && |ls.dms| > 0)
    ensures t.Some? && t.value.RoomAt? ==> ls.path == HomePath && t.value.index < |ls.rooms|
    ensures t.Some? && t.value.DMAt? ==> ls.path == DmsPath && t.value.index < |ls.dms|
  {
    if ls.path == HomePath && |ls.rooms| > 0 then
      Some(RoomAt(PrevIndex(|ls.rooms|, CurrentIndex(ls.rooms, ls.currentRoom))))
    else if ls.path == DmsPath && |ls.dms| > 0 then
      Some(DMAt(PrevIndex(|ls.dms|, CurrentIndex(ls.dms, ls.currentDM))))
    else None
  }

  /** The entry `navigateToNextRoom` picks, if any. */
  function NextTarget(ls: Lists): (t: Option<Target>)
    ensures t.None? <==> !(ls.path == HomePath && |ls.rooms| > 0) && !(ls.path == DmsPath && |ls.dms| > 0)
    ensures t.Some? && t.value.RoomAt? ==> ls.path == HomePath && t.value.index < |ls.rooms|
    ensures t.Some? && t.value.DMAt? ==> ls.path == DmsPath && t.value.index < |ls.dms|
  {
    if ls.path == HomePath && |ls.rooms| > 0 then
      Some(RoomAt(NextIndex(|ls.rooms|, CurrentIndex(ls.rooms, ls.currentRoom))))
    else if ls.path == DmsPath && |ls.dms| > 0 then
      Some(DMAt(NextIndex(|ls.dms|, CurrentIndex(ls.dms, ls.currentDM))))
    else None
  }

  /** With no current room, next starts at the first room and previous at the last. */
  lemma StartsAtTheEnds(ls: Lists)
    requires ls.path == HomePath && |ls.rooms| > 0 && ls.currentRoom.None?
    ensures NextTarget(ls) == Some(RoomAt(0))
    ensures PreviousTarget(ls) == Some(RoomAt(|ls.rooms| - 1))
  {
  }

  /** Room ids are unique in the list the server sends. */
  predicate DistinctIds(ids: seq<string>) {
    forall a, b :: 0 <= a < b < |ids| ==> ids[a] != ids[b]
  }

  /** In a list of distinct ids, an entry is found at its own position. */
  lemma FoundAtOwnPosition(ids: seq<string>, q: nat)
    requires DistinctIds(ids) && q < |ids|
    ensures FindIndex(ids, ids[q]) == q
  {
  }

  /** Moving to the next room and then back lands on the room that was current. */
  lemma NextThenPrevious(ls: Lists)
    requires ls.path == HomePath && DistinctIds(ls.rooms)
    requires ls.currentRoom.Some? && ls.currentRoom.value in ls.rooms
    ensures NextTarget(ls).Some? && NextTarget(ls).value.RoomAt?
    ensures PreviousTarget(ls.(currentRoom := Some(ls.rooms[NextTarget(ls).value.index]))) ==
            Some(RoomAt(FindIndex(ls.rooms, ls.currentRoom.value)))
  {
    var i := FindIndex(ls.rooms, ls.currentRoom.value);
    var q := NextIndex(|ls.rooms|, i);
    PrevNextInverse(|ls.rooms|, i);
    FoundAtOwnPosition(ls.rooms, q);
  }

  /** The key event, as far as the dispatch reads it. */
  datatype KeyEvent = KeyEvent(tagName: string, contentEditable: string, key: string,
                               ctrlKey: bool, metaKey: bool, shiftKey: bool, altKey: bool)

  /** What a key press fires. */
  datatype Effect =
    | Navigate(path: string)
    | History(delta: int)
    | ShowAddMenu
    | HideAddMenu
    | Logout
    | ToggleHelp
    | Select(target: Target)

  /** Typing in a field: no shortcut applies. */
  predicate Typing(e: KeyEvent) {
    e.tagName == "INPUT" || e.tagName == "TEXTAREA" || e.contentEditable == "true"
  }

  predicate IsCtrl(e: KeyEvent) {
    e.ctrlKey || e.metaKey
  }

  function Picked(t: Option<Target>): seq<Effect>
  {
    if t.Some? then [Select(t.value)] else []
  }

  /** The Ctrl/Cmd switch. */
  function CtrlEffects(e: KeyEvent, ls: Lists): seq<Effect>
  {
    if !IsCtrl(e) then []
    else match e.key
      case "1" => [Navigate(HomePath)]
      case "2" => [Navigate(DmsPath)]
      case "3" => [Navigate(PinnedPath)]
      case "4" => [Navigate(SearchPath)]
      case "k" => [Navigate(SearchPath)]
      case "n" => [ShowAddMenu]
      case "l" => [Logout]
      case "?" => [ToggleHelp]
      case "ArrowUp" => Picked(PreviousTarget(ls))
      case "ArrowDown" => Picked(NextTarget(ls))
      case _ => []
  }

  /** The Alt switch: history back and forward. */
  function AltEffects(e: KeyEvent): seq<Effect>
  {
    if !e.altKey then []
    else if e.key == "ArrowLeft" then [History(-1)]
    else if e.key == "ArrowRight" then [History(1)]
    else []
  }

  /** The space bar with no modifier: re-navigate to the current section when it has a selection. */
  function SpaceEffects(e: KeyEvent, ls: Lists): seq<Effect>
  {
    if e.key == " " && !IsCtrl(e) && !e.shiftKey && !e.altKey then
      if ls.path == HomePath && ls.currentRoom.Some? then [Navigate(HomePath)]
      else if ls.path == DmsPath && ls.currentDM.Some? then [Navigate(DmsPath)]
      else []
    else []
  }

  /** `handleKeyDown`: the four checks run in turn and their effects are fired in that order. */
  function HandleKeyDown(e: KeyEvent, ls: Lists): (effects: seq<Effect>)
    ensures Typing(e) ==> effects == []
    ensures !Typing(e) && e.key == "Escape" ==> effects == [HideAddMenu]
    ensures !Typing(e) && e.altKey && e.key == "ArrowLeft" ==> effects == [History(-1)]
    ensures !Typing(e) && e.altKey && e.key == "ArrowRight" ==> effects == [History(1)]
    ensures !Typing(e) && IsCtrl(e) && e.key == "n" ==> effects == [ShowAddMenu]
    ensures !Typing(e) && IsCtrl(e) && e.key == "l" ==> effects == [Logout]
    ensures !Typing(e) && IsCtrl(e) && e.key == "?" ==> effects == [ToggleHelp]
    ensures !Typing(e) && IsCtrl(e) && e.key == "ArrowUp" ==> effects == Picked(PreviousTarget(ls))
    ensures !Typing(e) && IsCtrl(e) && e.key == "ArrowDown" ==> effects == Picked(NextTarget(ls))
    ensures |effects| <= 1
  {
    if Typing(e) then []
    else
      var ctrl := CtrlEffects(e, ls);
      var alt := AltEffects(e);
      var escape := if e.key == "Escape" then [HideAddMenu] else [];
      var space := SpaceEffects(e, ls);
      ctrl + alt + escape + space
  }

  /** Ctrl/Cmd with 1, 2, 3, 4 and k navigate to home, DMs, pinned, search and search. */
  lemma CtrlNavigation(e: KeyEvent, ls: Lists)
    requires !Typing(e) && IsCtrl(e)
    ensures e.key == "1" ==> HandleKeyDown(e, ls) == [Navigate(HomePath)]
    ensures e.key == "2" ==> HandleKeyDown(e, ls) == [Navigate(DmsPath)]
    ensures e.key == "3" ==> HandleKeyDown(e, ls) == [Navigate(PinnedPath)]
    ensures e.key == "4" ==> HandleKeyDown(e, ls) == [Navigate(SearchPath)]
    ensures e.key == "k" ==> HandleKeyDown(e, ls) == [Navigate(SearchPath)]
  {
  }
}
