/** The add context: three flags that drive the sidebar's add menu and the creation form. */
module AddContext {
  import opened Wrappers

  /** The context's state: options shown, the chosen option, form shown. */
  datatype AddState = AddState(showAddOptions: bool, selectedAddOption: Option<string>, showForm: bool)

  /** The context's four operations. */
  datatype AddOp = ShowAddMenu | HideAddMenu | SelectAddOption(option: string) | CloseForm

  const Initial := AddState(false, None, false)

  /** One operation's effect: each assigns all three fields. */
  function Step(s: AddState, op: AddOp): AddState
  {
    match op
    case ShowAddMenu => AddState(true, None, false)
    case HideAddMenu => AddState(false, None, false)
    case SelectAddOption(o) => AddState(false, Some(o), true)
    case CloseForm => AddState(false, None, false)
  }

  /** The effect of a sequence of operations, first to last. */
  function Run(s: AddState, ops: seq<AddOp>): AddState
    decreases |ops|
  {
    if ops == [] then s else Run(Step(s, ops[0]), ops[1..])
  }

  /** The menu and the form are never shown together, and without a form no option is chosen. */
  predicate Coherent(s: AddState) {
    !(s.showAddOptions && s.showForm) && (!s.showForm ==> s.selectedAddOption.None?)
  }

  /** `closeForm` and `hideAddMenu` have the same effect from every state. */
  lemma CloseFormIsHide(s: AddState)
    ensures Step(s, CloseForm) == Step(s, HideAddMenu) == Initial
  {
  }

  /** Every single operation lands in a coherent state, whatever the state before. */
  lemma StepCoherent(s: AddState, op: AddOp)
    ensures Coherent(Step(s, op))
  {
  }

  /** From the initial state no sequence of operations breaks coherence. */
  lemma {:induction false} RunCoherent(s: AddState, ops: seq<AddOp>)
    decreases |ops|
    requires Coherent(s)
    ensures Coherent(Run(s, ops))
  {
    if ops != [] {
      StepCoherent(s, ops[0]);
      RunCoherent(Step(s, ops[0]), ops[1..]);
    }
  }

  class AddMenu {
    var showAddOptions: bool
    var selectedAddOption: Option<string>
    var showForm: bool

    function State(): AddState
      reads this
    {
      AddState(showAddOptions, selectedAddOption, showForm)
    }

    constructor ()
      ensures State() == Initial
    {
      showAddOptions, selectedAddOption, showForm := false, None, false;
    }

    /** `showAddMenu` */
    method ShowMenu()
      modifies this
      ensures State() == Step(old(State()), ShowAddMenu)
      ensures showAddOptions && selectedAddOption == None && !showForm
    {
      showAddOptions, selectedAddOption, showForm := true, None, false;
    }

    /** `hideAddMenu` */
    method HideMenu()
      modifies this
      ensures State() == Step(old(State()), HideAddMenu)
      ensures !showAddOptions && selectedAddOption == None && !showForm
    {
      showAddOptions, selectedAddOption, showForm := false, None, false;
    }

    /** `selectAddOption` */
    method SelectOption(option: string)
      modifies this
      ensures State() == Step(old(State()), SelectAddOption(option))
      ensures !showAddOptions && selectedAddOption == Some(option) && showForm
    {
      selectedAddOption, showForm, showAddOptions := Some(option), true, false;
    }

    /** `closeForm` */
    method Close()
      modifies this
      ensures State() == Step(old(State()), CloseForm)
      ensures !showAddOptions && selectedAddOption == None && !showForm
    {
      showForm, selectedAddOption, showAddOptions := false, None, false;
    }
  }
}
