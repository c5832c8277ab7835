/**
 * The edit page's version history: the first three versions or all of them,
 * the show-more toggle and its caption, the connectors and the count.
 */
module VersionHistory {
  import opened Text

  /** A version entry as the panel reads it. `timestamp` is kept as its text. */
  datatype Version = Version(id: string, version: string, timestamp: string, user: string,
                             changeType: string, status: string)

  /** The five versions the panel lists, newest first. */
  const MockHistory: seq<Version> := [
    Version("v1.4", "1.4", "2024-10-29T10:30:00", "Sarah Chen", "major", "current"),
    Version("v1.3", "1.3", "2024-10-28T14:15:00", "Mike Johnson", "minor", "archived"),
    Version("v1.2", "1.2", "2024-10-25T09:45:00", "Alex Rodriguez", "major", "archived"),
    Version("v1.1", "1.1", "2024-10-20T16:20:00", "Emily Davis", "minor", "archived"),
    Version("v1.0", "1.0", "2024-10-15T11:00:00", "David Kim", "initial", "archived")]

  /** How many entries the collapsed panel shows. */
  const Collapsed: nat := 3

  /** `isExpanded ? history : history.slice(0, 3)`; a shorter list is sliced whole. */
  function Visible(history: seq<Version>, isExpanded: bool): (r: seq<Version>)
    ensures isExpanded ==> r == history
    ensures !isExpanded ==> |r| == (if |history| < Collapsed then |history| else Collapsed)
    ensures r == history[..|r|]
  {
    if isExpanded || |history| <= Collapsed then history else history[..Collapsed]
  }

  /** The toggle button is rendered only for more than three versions. */
  predicate ToggleShown(history: seq<Version>) {
    |history| > Collapsed
  }

  /** Without the toggle the panel shows every version, open or not. */
  lemma NoToggleShowsAll(history: seq<Version>, isExpanded: bool)
    requires !ToggleShown(history)
    ensures Visible(history, isExpanded) == history
  {
  }

  /** With the toggle, closing hides exactly the versions after the third. */
  lemma ToggleHides(history: seq<Version>)
    requires ToggleShown(history)
    ensures Visible(history, false) + history[Collapsed..] == history
    ensures |Visible(history, false)| < |Visible(history, true)|
  {
  }

  /** The toggle's caption; it is only rendered when more than three versions exist. */
  function ToggleLabel(n: nat, isExpanded: bool): string
    requires n > Collapsed
  {
    if isExpanded then "Show Less" else "Show " + NatToString(n - Collapsed) + " More Versions"
  }

  /** The header count: every version, whether the panel is open or not. */
  function CountCaption(history: seq<Version>): string {
    NatToString(|history|) + " versions"
  }

  /** The line after visible entry `index` of `n`: every one but the last. */
  predicate HasConnector(index: nat, n: nat) {
    index < n - 1
  }

  /** A current version is highlighted and badged "Current". */
  predicate IsCurrent(v: Version) {
    v.status == "current"
  }

  /** The mock list: five versions, the toggle reading "Show 2 More Versions" while closed, the newest highlighted. */
  lemma MockPanel()
    ensures |MockHistory| == 5 && ToggleShown(MockHistory)
    ensures ToggleLabel(|MockHistory|, false) == "Show 2 More Versions"
    ensures ToggleLabel(|MockHistory|, true) == "Show Less"
    ensures CountCaption(MockHistory) == "5 versions"
    ensures Visible(MockHistory, false) == MockHistory[..3] && IsCurrent(Visible(MockHistory, false)[0])
  {
  }

  /** The panel's state: whether it is open. */
  class Panel {
    var isExpanded: bool

    /** Mounting: closed. */
    constructor ()
      ensures !isExpanded
    {
      isExpanded := false;
    }

    /** The toggle button. */
    method Toggle()
      modifies this
      ensures isExpanded == !old(isExpanded)
    {
      isExpanded := !isExpanded;
    }
  }
}
