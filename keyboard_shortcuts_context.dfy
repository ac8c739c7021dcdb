/** The keyboard-shortcuts context: whether the shortcut help is shown. */
module KeyboardShortcutsContext {

  datatype HelpOp = ToggleHelp | HideHelp

  function Step(showHelp: bool, op: HelpOp): bool
  {
    match op
    case ToggleHelp => !showHelp
    case HideHelp => false
  }

  /** The effect of a sequence of operations, first to last. */
  function Run(showHelp: bool, ops: seq<HelpOp>): bool
    decreases |ops|
  {
    if ops == [] then showHelp else Run(Step(showHelp, ops[0]), ops[1..])
  }

  /** Two toggles restore the flag; hiding twice is hiding once. */
  lemma ToggleTwiceRestores(showHelp: bool)
    ensures Run(showHelp, [ToggleHelp, ToggleHelp]) == showHelp
    ensures Run(showHelp, [HideHelp, HideHelp]) == Run(showHelp, [HideHelp]) == false
  {
  }

  /** A run of toggles flips the flag once per toggle: an even count restores it. */
  lemma {:induction false} RunIsParity(showHelp: bool, ops: seq<HelpOp>)
    decreases |ops|
    requires forall i :: 0 <= i < |ops| ==> ops[i] == ToggleHelp
    ensures Run(showHelp, ops) == (if |ops| % 2 == 0 then showHelp else !showHelp)
  {
    if ops != [] {
      RunIsParity(!showHelp, ops[1..]);
    }
  }

  class Help {
    var showHelp: bool

    constructor ()
      ensures !showHelp
    {
      showHelp := false;
    }

    /** `toggleHelp` */
    method Toggle()
      modifies this
      ensures showHelp == Step(old(showHelp), ToggleHelp) == !old(showHelp)
    {
      showHelp := !showHelp;
    }

    /** `hideHelp` */
    method Hide()
      modifies this
      ensures showHelp == Step(old(showHelp), HideHelp) == false
    {
      showHelp := false;
    }
  }
}
