/**
 * The details page's activity timeline: the category tabs that filter the
 * activities, the per-type icon and colour, and the list's connectors and
 * empty state.
 */
module ActivityTimeline {
  import opened Seqs

  /** An activity as the timeline reads it: its key and its `type`. */
  datatype Activity = Activity(id: string, kind: string)

  /** The tab values. */
  const FilterValues: seq<string> := ["all", "changes", "alerts", "violations"]

  /** The test the `filter` callback applies to `type` under tab `f`; an unknown tab keeps everything. */
  predicate Keeps(f: string, kind: string) {
    if f == "changes" then kind in ["change", "creation", "deletion"]
    else if f == "alerts" then kind == "alert"
    else if f == "violations" then kind in ["violation", "recovery"]
    else true
  }

  function KeepsOf(f: string): Activity -> bool {
    (a: Activity) => Keeps(f, a.kind)
  }

  /** `filteredActivities`. */
  function Filtered(f: string, activities: seq<Activity>): (r: seq<Activity>)
    ensures forall i :: 0 <= i < |r| ==> r[i] in activities && Keeps(f, r[i].kind)
    ensures forall i :: 0 <= i < |activities| && Keeps(f, activities[i].kind) ==> activities[i] in r
  {
    if f == "all" then activities else Filter(activities, KeepsOf(f))
  }

  /** The "all" tab and any unknown tab show the activities unchanged. */
  lemma KeepAllTabs(f: string, activities: seq<Activity>)
    requires f !in ["changes", "alerts", "violations"]
    ensures Filtered(f, activities) == activities
  {
    if f != "all" {
      FilterAll(activities, KeepsOf(f));
    }
  }

  /** Every tab shows the activities in their own order, dropping some and adding none. */
  lemma FilteredInOrder(f: string, activities: seq<Activity>)
    ensures IsSubseq(Filtered(f, activities), activities)
  {
    if f == "all" {
      SubseqRefl(activities);
    } else {
      FilterIsSubseq(activities, KeepsOf(f));
    }
  }

  lemma {:induction false} SubseqRefl<T>(s: seq<T>)
    ensures IsSubseq(s, s)
  {
    if s != [] {
      SubseqRefl(s[1..]);
    }
  }

  /** Choosing the same tab a second time changes nothing. */
  lemma FilteredIdempotent(f: string, activities: seq<Activity>)
    ensures Filtered(f, Filtered(f, activities)) == Filtered(f, activities)
  {
    if f != "all" {
      FilterIdempotent(activities, KeepsOf(f));
    }
  }

  /** The three category tabs never show the same activity. */
  lemma CategoriesDisjoint(activities: seq<Activity>, a: Activity)
    ensures !(a in Filtered("changes", activities) && a in Filtered("alerts", activities))
    ensures !(a in Filtered("changes", activities) && a in Filtered("violations", activities))
    ensures !(a in Filtered("alerts", activities) && a in Filtered("violations", activities))
  {
    ShownKept("changes", activities, a);
    ShownKept("alerts", activities, a);
    ShownKept("violations", activities, a);
    KindsExclusive(a.kind);
  }

  /** Whatever a tab shows passes that tab's test. */
  lemma ShownKept(f: string, activities: seq<Activity>, a: Activity)
    ensures a in Filtered(f, activities) ==> Keeps(f, a.kind)
  {
    if a in Filtered(f, activities) {
      var r := Filtered(f, activities);
      var i :| 0 <= i < |r| && r[i] == a;
    }
  }

  /** No type passes two category tests. */
  lemma KindsExclusive(kind: string)
    ensures !(Keeps("changes", kind) && Keeps("alerts", kind))
    ensures !(Keeps("changes", kind) && Keeps("violations", kind))
    ensures !(Keeps("alerts", kind) && Keeps("violations", kind))
  {
  }

  /** The six known types. */
  const KnownKinds: seq<string> := ["change", "alert", "violation", "recovery", "creation", "deletion"]

  /** `getActivityIcon`. */
  function ActivityIcon(kind: string): string {
    match kind
    case "change" => "Edit"
    case "alert" => "Bell"
    case "violation" => "AlertTriangle"
    case "recovery" => "CheckCircle"
    case "creation" => "Plus"
    case "deletion" => "Trash2"
    case _ => "Clock"
  }

  /** `getActivityColor`. */
  function ActivityColor(kind: string): string {
    match kind
    case "change" => "text-accent bg-accent/10"
    case "alert" => "text-warning bg-warning/10"
    case "violation" => "text-error bg-error/10"
    case "recovery" => "text-success bg-success/10"
    case "creation" => "text-success bg-success/10"
    case "deletion" => "text-error bg-error/10"
    case _ => "text-muted-foreground bg-muted/50"
  }

  /** A type outside the six gets the clock and the muted colour; the six never do. */
  lemma UnknownKindFallback(kind: string)
    ensures kind !in KnownKinds <==> ActivityIcon(kind) == "Clock"
    ensures kind !in KnownKinds <==> ActivityColor(kind) == "text-muted-foreground bg-muted/50"
  {
  }

  /** The line under item `index` of `n` shown items: every one but the last. */
  predicate HasConnector(index: nat, n: nat) {
    index < n - 1
  }

  /** "No Activities Found" replaces the list, and "Load More" disappears, exactly when the tab shows nothing. */
  predicate EmptyState(shown: seq<Activity>) {
    !(|shown| > 0)
  }

  /** Of `n > 0` shown items exactly `n - 1` carry a connector: all but the last. */
  lemma ConnectorsBetween(n: nat)
    requires n > 0
    ensures forall i: nat :: i < n ==> (HasConnector(i, n) <==> i != n - 1)
  {
  }

  /** A tab over some activity of its category is never empty. */
  lemma CategoryShown(f: string, activities: seq<Activity>, i: nat)
    requires i < |activities| && Keeps(f, activities[i].kind)
    ensures !EmptyState(Filtered(f, activities))
  {
  }

  /** The component's state: the chosen tab and whether the body is open. */
  class Timeline {
    var filter: string
    var isExpanded: bool

    /** Mounting: all activities, open. */
    constructor ()
      ensures filter == "all" && isExpanded
    {
      filter := "all";
      isExpanded := true;
    }

    /** A tab click. */
    method SetFilter(value: string)
      requires value in FilterValues
      modifies this
      ensures filter == value && isExpanded == old(isExpanded)
    {
      filter := value;
    }

    /** The chevron: opens or closes the body and keeps the tab. */
    method Toggle()
      modifies this
      ensures isExpanded == !old(isExpanded) && filter == old(filter)
    {
      isExpanded := !isExpanded;
    }
  }
}
