/** The navigation context: the active primary navigation entry and the item selected under it. */
module NavigationContext {
  import opened Wrappers

  datatype NavState = NavState(activeNav: string, selectedItem: Option<string>)

  /** `setActiveNav` (`handleNavChange`) and `setSelectedItem` (`handleItemSelect`). */
  datatype NavOp = ChangeNav(navId: string) | SelectItem(item: Option<string>)

  const Home := "home"
  const Initial := NavState(Home, None)

  function Step(s: NavState, op: NavOp): NavState
  {
    match op
    case ChangeNav(navId) => NavState(navId, None)
    case SelectItem(item) => s.(selectedItem := item)
  }

  /** The effect of a sequence of operations, first to last. */
  function Run(s: NavState, ops: seq<NavOp>): NavState
    decreases |ops|
  {
    if ops == [] then s else Run(Step(s, ops[0]), ops[1..])
  }

  /** Running `ops` then one more operation is that operation applied to the run's result. */
  lemma {:induction false} RunSnoc(s: NavState, ops: seq<NavOp>, op: NavOp)
    decreases |ops|
    ensures Run(s, ops + [op]) == Step(Run(s, ops), op)
  {
    if ops == [] {
      assert ops + [op] == [op];
    } else {
      assert (ops + [op])[1..] == ops[1..] + [op];
      RunSnoc(Step(s, ops[0]), ops[1..], op);
    }
  }

  /** Whatever was selected before, a navigation change ends with nothing selected. */
  lemma NavChangeClearsSelection(s: NavState, ops: seq<NavOp>, navId: string)
    ensures Run(s, ops + [ChangeNav(navId)]) == NavState(navId, None)
  {
    RunSnoc(s, ops, ChangeNav(navId));
  }

  /** Selections alone never move the active navigation entry. */
  lemma {:induction false} SelectionsKeepNav(s: NavState, ops: seq<NavOp>)
    decreases |ops|
    requires forall i :: 0 <= i < |ops| ==> ops[i].SelectItem?
    ensures Run(s, ops).activeNav == s.activeNav
    ensures ops != [] ==> Run(s, ops).selectedItem == ops[|ops| - 1].item
  {
    if ops != [] {
      SelectionsKeepNav(Step(s, ops[0]), ops[1..]);
      if |ops| > 1 {
        assert ops[1..][|ops[1..]| - 1] == ops[|ops| - 1];
      }
    }
  }

  class Navigation {
    var activeNav: string
    var selectedItem: Option<string>

    function State(): NavState
      reads this
    {
      NavState(activeNav, selectedItem)
    }

    constructor ()
      ensures State() == Initial
    {
      activeNav, selectedItem := Home, None;
    }

    /** `handleNavChange` */
    method HandleNavChange(navId: string)
      modifies this
      ensures State() == Step(old(State()), ChangeNav(navId))
      ensures activeNav == navId && selectedItem == None
    {
      activeNav := navId;
      selectedItem := None;
    }

    /** `handleItemSelect`: only the selected item changes. */
    method HandleItemSelect(item: Option<string>)
      modifies this`selectedItem
      ensures State() == Step(old(State()), SelectItem(item))
      ensures selectedItem == item
    {
      selectedItem := item;
    }
  }
}
