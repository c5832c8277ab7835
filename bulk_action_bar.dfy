/**
 * The bulk action bar shown under the table while SLOs are selected: an
 * action chooser, an Execute button that dispatches the chosen action once,
 * and quick Export/Duplicate buttons.
 */
module BulkActionBar {
  import opened Optional
  import opened Text

  /** The chooser's values; the empty value is the "Choose action..." placeholder. */
  const ActionOptions: seq<string> := ["", "export", "duplicate", "enable", "disable", "delete"]

  /** What the quick Export and Duplicate buttons hand to the page; the chooser is left alone. */
  const QuickExportValue: string := "export"
  const QuickDuplicateValue: string := "duplicate"

  /** The bar renders only while something is selected. */
  predicate Visible(selectedCount: nat) {
    selectedCount != 0
  }

  /** Execute is enabled only once an action is chosen. */
  predicate ExecuteEnabled(selectedAction: string) {
    selectedAction != ""
  }

  /** `"{n} SLO{s} selected"`. */
  function SelectionLabel(selectedCount: nat): (r: string)
    ensures var d := NatToString(selectedCount);
      && |r| > |d| + 4 && r[..|d|] == d && r[|d|..|d| + 4] == " SLO"
      && (selectedCount != 1 <==> r[|d| + 4] == 's')
  {
    var d := NatToString(selectedCount);
    var tail := PluralS(selectedCount) + " selected";
    var r := d + (" SLO" + tail);
    assert r[..|d|] == d && r[|d|..] == " SLO" + tail;
    assert r[|d| + 4] == tail[0];
    r
  }

  /**
   * `handleActionExecute` on the chosen action: what it hands to the page
   * (nothing when no action is chosen) and the chooser's value afterwards.
   */
  function ExecuteStep(selectedAction: string): (r: (Option<string>, string))
    ensures r.0 == None <==> !ExecuteEnabled(selectedAction)
    ensures r.0.Some? ==> r.0.value == selectedAction && r.1 == ""
    ensures r.0 == None ==> r.1 == selectedAction
  {
    if selectedAction != "" then (Some(selectedAction), "") else (None, selectedAction)
  }

  /** Whatever Execute hands over, the chooser afterwards shows the placeholder, so a second Execute does nothing. */
  lemma ExecuteOnce(selectedAction: string)
    ensures ExecuteStep(ExecuteStep(selectedAction).1).0 == None
  {
  }

  /** The bar's own state: the chosen action. */
  class Bar {
    var selectedAction: string

    ghost predicate Valid()
      reads this
    {
      selectedAction in ActionOptions
    }

    constructor ()
      ensures Valid() && selectedAction == ""
    {
      selectedAction := "";
    }

    /** The chooser's `onChange`; it offers only the listed values. */
    method Choose(action: string)
      requires action in ActionOptions
      modifies this
      ensures Valid() && selectedAction == action
    {
      selectedAction := action;
    }

    /**
     * The Execute button: with an action chosen, hands it to the page exactly
     * once and resets the chooser; with none, does nothing.
     */
    method Execute() returns (dispatched: Option<string>)
      requires Valid()
      modifies this
      ensures Valid()
      ensures (dispatched, selectedAction) == ExecuteStep(old(selectedAction))
      ensures dispatched.Some? ==> dispatched.value in ActionOptions[1..]
    {
      dispatched := None;
      if selectedAction != "" {
        dispatched := Some(selectedAction);
        selectedAction := "";
      }
    }
  }
}
