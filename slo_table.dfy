/**
 * The SLO table: the sort configuration its column headers toggle, the sort
 * of a copy of the displayed records, the row and select-all checkboxes, and
 * the status badge lookup.
 */
module SloTable {
  import opened Optional
  import opened Text
  import opened Runtime
  import opened Seqs
  import opened SloRecords

  // ---------------------------------------------------------------- sorting

  /** The sortable columns: `'name'`, `'service'`, `'target'`, `'status'`, `'lastModified'`. */
  datatype SortKey = ByName | ByService | ByTarget | ByStatus | ByLastModified

  datatype Direction = Asc | Desc

  /** `sortConfig`; no key means the records keep their order. */
  datatype SortConfig = SortConfig(key: Option<SortKey>, direction: Direction)

  const InitialSort: SortConfig := SortConfig(None, Asc)

  /** The configuration after clicking the header of `k`. */
  function NextSort(c: SortConfig, k: SortKey): SortConfig {
    SortConfig(Some(k), if c.key == Some(k) && c.direction == Asc then Desc else Asc)
  }

  /**
   * A click always selects the clicked key; it sorts descending exactly when
   * that key was already sorted ascending, and ascending otherwise.
   */
  lemma NextSortRule(c: SortConfig, k: SortKey)
    ensures NextSort(c, k).key == Some(k)
    ensures NextSort(c, k).direction == Desc <==> c.key == Some(k) && c.direction == Asc
  {
  }

  /** Clicking the same header again reverses the direction, so repeated clicks alternate. */
  lemma NextSortAlternates(c: SortConfig, k: SortKey)
    ensures NextSort(NextSort(c, k), k).direction != NextSort(c, k).direction
    ensures NextSort(NextSort(NextSort(c, k), k), k) == NextSort(c, k)
  {
  }

  /** `a[key] < b[key]`: lexicographic on the string columns, numeric on the target. */
  predicate KeyLess(k: SortKey, a: Slo, b: Slo) {
    match k
    case ByName => StrLess(a.name, b.name)
    case ByService => StrLess(a.service, b.service)
    case ByTarget => a.target < b.target
    case ByStatus => StrLess(a.status, b.status)
    case ByLastModified => StrLess(a.lastModified, b.lastModified)
  }

  /** The comparator's "a goes first": smaller key ascending, larger key descending. */
  predicate Before(k: SortKey, d: Direction, a: Slo, b: Slo) {
    if d == Asc then KeyLess(k, a, b) else KeyLess(k, b, a)
  }

  /** No record comes after one it should precede: non-decreasing ascending, non-increasing descending. */
  predicate Sorted(k: SortKey, d: Direction, s: seq<Slo>) {
    forall i, j :: 0 <= i < j < |s| ==> !Before(k, d, s[j], s[i])
  }

  predicate AdjacentSorted(k: SortKey, d: Direction, s: seq<Slo>, lo: int, hi: int)
    requires 0 <= lo <= hi <= |s|
  {
    forall p :: lo < p < hi ==> !Before(k, d, s[p], s[p - 1])
  }

  lemma KeyLessAsymmetric(k: SortKey, a: Slo, b: Slo)
    requires KeyLess(k, a, b)
    ensures !KeyLess(k, b, a)
  {
    match k
    case ByName => StrLessAsymmetric(a.name, b.name);
    case ByService => StrLessAsymmetric(a.service, b.service);
    case ByTarget =>
    case ByStatus => StrLessAsymmetric(a.status, b.status);
    case ByLastModified => StrLessAsymmetric(a.lastModified, b.lastModified);
  }

  lemma StrLessSplit(x: string, y: string, z: string)
    requires StrLess(x, z)
    ensures StrLess(x, y) || StrLess(y, z)
  {
    if !StrLess(x, y) && !StrLess(y, z) {
      if x == y {
      } else if y == z {
      } else {
        StrLessTotal(x, y);
        StrLessTotal(y, z);
        StrLessTransitive(z, y, x);
        StrLessAsymmetric(x, z);
      }
    }
  }

  /** "Not before" chains: the comparator is a strict weak order. */
  lemma NotBeforeTransitive(k: SortKey, d: Direction, a: Slo, b: Slo, c: Slo)
    requires !Before(k, d, b, a) && !Before(k, d, c, b)
    ensures !Before(k, d, c, a)
  {
    var (x, y, z) := if d == Asc then (c, b, a) else (a, b, c);
    // Before(c, a) is KeyLess(x, z); it would force KeyLess(x, y) or KeyLess(y, z).
    if KeyLess(k, x, z) {
      match k
      case ByName => StrLessSplit(x.name, y.name, z.name);
      case ByService => StrLessSplit(x.service, y.service, z.service);
      case ByTarget =>
      case ByStatus => StrLessSplit(x.status, y.status, z.status);
      case ByLastModified => StrLessSplit(x.lastModified, y.lastModified, z.lastModified);
    }
  }

  lemma {:induction false} AdjacentToSorted(k: SortKey, d: Direction, s: seq<Slo>)
    requires AdjacentSorted(k, d, s, 0, |s|)
    ensures Sorted(k, d, s)
  {
    if |s| > 1 {
      var t := s[..|s| - 1];
      assert AdjacentSorted(k, d, t, 0, |t|) by {
        assert forall p :: 0 <= p < |t| ==> t[p] == s[p];
      }
      AdjacentToSorted(k, d, t);
      var last := |s| - 1;
      forall i | 0 <= i < last
        ensures !Before(k, d, s[last], s[i])
      {
        LastNotBefore(k, d, s, i);
      }
      forall i, j | 0 <= i < j < |s|
        ensures !Before(k, d, s[j], s[i])
      {
        if j < last {
          assert s[i] == t[i] && s[j] == t[j];
        }
      }
    }
  }

  lemma {:induction false} LastNotBefore(k: SortKey, d: Direction, s: seq<Slo>, i: int)
    requires AdjacentSorted(k, d, s, 0, |s|) && 0 <= i < |s|
    ensures !Before(k, d, s[|s| - 1], s[i])
    decreases |s| - i
  {
    var last := |s| - 1;
    if i == last {
      if Before(k, d, s[i], s[i]) {
        KeyLessAsymmetric(k, s[i], s[i]);
      }
    } else if i == last - 1 {
    } else {
      LastNotBefore(k, d, s, i + 1);
      NotBeforeTransitive(k, d, s[i], s[i + 1], s[last]);
    }
  }

  /** While an element sinks to position `j`: both sides in order, and its neighbours fit each other. */
  predicate Sinking(k: SortKey, d: Direction, s: seq<Slo>, j: int, i: int)
    requires 0 <= j <= i < |s|
  {
    && AdjacentSorted(k, d, s, 0, j)
    && AdjacentSorted(k, d, s, j, i + 1)
    && (0 < j < i ==> !Before(k, d, s[j + 1], s[j - 1]))
  }

  /** Swapping the sinking element with a left neighbour it should precede keeps the state one place further left. */
  lemma SinkStep(k: SortKey, d: Direction, s: seq<Slo>, j: int, i: int)
    requires 0 < j <= i < |s| && Sinking(k, d, s, j, i) && Before(k, d, s[j], s[j - 1])
    ensures Sinking(k, d, s[j - 1 := s[j]][j := s[j - 1]], j - 1, i)
  {
    var t := s[j - 1 := s[j]][j := s[j - 1]];
    if d == Asc { KeyLessAsymmetric(k, s[j], s[j - 1]); } else { KeyLessAsymmetric(k, s[j - 1], s[j]); }
    assert !Before(k, d, t[j], t[j - 1]);
    forall p | j - 1 < p < i + 1
      ensures !Before(k, d, t[p], t[p - 1])
    {
      if p == j + 1 {
        assert t[p] == s[j + 1] && t[p - 1] == s[j - 1];
      } else if p > j + 1 {
        assert t[p] == s[p] && t[p - 1] == s[p - 1];
      }
    }
    forall p | 0 < p < j - 1
      ensures !Before(k, d, t[p], t[p - 1])
    {
      assert t[p] == s[p] && t[p - 1] == s[p - 1];
    }
    if 0 < j - 1 {
      assert t[j] == s[j - 1] && t[j - 2] == s[j - 2];
    }
  }

  /** Once the element stops sinking, the first `i + 1` elements are in order. */
  lemma SinkDone(k: SortKey, d: Direction, s: seq<Slo>, j: int, i: int)
    requires 0 <= j <= i < |s| && Sinking(k, d, s, j, i)
    requires j == 0 || !Before(k, d, s[j], s[j - 1])
    ensures AdjacentSorted(k, d, s, 0, i + 1)
  {
  }

  /** Swapping two neighbours keeps the same elements. */
  lemma SwapKeepsElements(s: seq<Slo>, j: int)
    requires 0 < j < |s|
    ensures multiset(s[j - 1 := s[j]][j := s[j - 1]]) == multiset(s)
  {
  }

  /** Sinks `a[i]` into the ordered prefix `a[..i]` by swapping it with larger left neighbours. */
  method Insert(a: array<Slo>, i: int, k: SortKey, d: Direction)
    requires 0 <= i < a.Length && AdjacentSorted(k, d, a[..], 0, i)
    modifies a
    ensures AdjacentSorted(k, d, a[..], 0, i + 1)
    ensures multiset(a[..]) == multiset(old(a[..]))
  {
    var j := i;
    while j > 0 && Before(k, d, a[j], a[j - 1])
      invariant 0 <= j <= i
      invariant Sinking(k, d, a[..], j, i)
      invariant multiset(a[..]) == multiset(old(a[..]))
    {
      ghost var s := a[..];
      SinkStep(k, d, s, j, i);
      SwapKeepsElements(s, j);
      a[j - 1], a[j] := a[j], a[j - 1];
      assert a[..] == s[j - 1 := s[j]][j := s[j - 1]];
      j := j - 1;
    }
    SinkDone(k, d, a[..], j, i);
  }

  /** Sorts `a` in place by insertion; the elements are only rearranged. */
  method InsertionSort(a: array<Slo>, k: SortKey, d: Direction)
    modifies a
    ensures Sorted(k, d, a[..])
    ensures multiset(a[..]) == multiset(old(a[..]))
  {
    var i := 0;
    while i < a.Length
      invariant 0 <= i <= a.Length
      invariant AdjacentSorted(k, d, a[..], 0, i)
      invariant multiset(a[..]) == multiset(old(a[..]))
    {
      Insert(a, i, k, d);
      i := i + 1;
    }
    AdjacentToSorted(k, d, a[..]);
  }

  /**
   * `getSortedSLOs`: a copy of the displayed records, sorted by the configured
   * key and direction, or in their own order when no key is set.
   */
  method SortedSlos(slos: seq<Slo>, c: SortConfig) returns (r: seq<Slo>)
    ensures multiset(r) == multiset(slos) && |r| == |slos|
    ensures c.key == None ==> r == slos
    ensures c.key.Some? ==> Sorted(c.key.value, c.direction, r)
  {
    var copy := new Slo[|slos|](i requires 0 <= i < |slos| => slos[i]);
    assert copy[..] == slos;
    if c.key.Some? {
      InsertionSort(copy, c.key.value, c.direction);
    }
    r := copy[..];
    assert |r| == |multiset(r)| == |multiset(slos)| == |slos|;
  }

  // -------------------------------------------------------------- selection

  /** The select-all checkbox: every displayed id, in display order, or none. */
  function SelectAll(displayed: seq<Slo>, checked: bool): (r: seq<string>)
    ensures checked ==> r == Ids(displayed)
    ensures !checked ==> r == []
  {
    if checked then Ids(displayed) else []
  }

  /** A row checkbox: checking appends the id; unchecking drops every occurrence of it. */
  function SelectOne(selected: seq<string>, id: string, checked: bool): seq<string> {
    if checked then selected + [id] else Filter(selected, (x: string) => x != id)
  }

  /** Checking appends exactly one id at the end. */
  lemma SelectOneChecked(selected: seq<string>, id: string)
    ensures SelectOne(selected, id, true)[..|selected|] == selected
    ensures |SelectOne(selected, id, true)| == |selected| + 1
    ensures SelectOne(selected, id, true)[|selected|] == id
  {
  }

  /** Unchecking removes the id and keeps every other id, in order. */
  lemma SelectOneUnchecked(selected: seq<string>, id: string)
    ensures id !in SelectOne(selected, id, false)
    ensures forall i :: 0 <= i < |selected| && selected[i] != id ==> selected[i] in SelectOne(selected, id, false)
    ensures IsSubseq(SelectOne(selected, id, false), selected)
  {
    FilterIsSubseq(selected, (x: string) => x != id);
  }

  /** The select-all box shows checked: something is displayed and the selection is as long. */
  predicate AllSelected(displayed: nat, selected: nat) {
    displayed > 0 && selected == displayed
  }

  /** The select-all box shows a dash: some but fewer than displayed are selected. */
  predicate Indeterminate(displayed: nat, selected: nat) {
    selected > 0 && selected < displayed
  }

  /** The two states of the select-all box exclude each other. */
  lemma NeverBoth(displayed: nat, selected: nat)
    ensures !(AllSelected(displayed, selected) && Indeterminate(displayed, selected))
  {
  }

  /** After select-all on a non-empty list the box is checked; after select-all off it is clear. */
  lemma SelectAllShows(displayed: seq<Slo>)
    ensures |displayed| > 0 ==> AllSelected(|displayed|, |SelectAll(displayed, true)|)
    ensures !AllSelected(|displayed|, |SelectAll(displayed, false)|)
    ensures !Indeterminate(|displayed|, |SelectAll(displayed, false)|)
  {
  }

  // ------------------------------------------------------------ status badge

  datatype Badge = Badge(bg: string, textClass: string, caption: string)

  /**
   * The badge of a status, looked up as a property of the configuration
   * object. A status without an entry takes the Unknown badge, but an
   * inherited `Object.prototype` name finds a truthy value with no `bg`,
   * `text` or `label`: its classes print as "undefined" and its caption is
   * empty.
   */
  function BadgeFor(status: string): (b: Badge)
    ensures status !in {"healthy", "warning", "critical"} && status !in ObjectPrototypeNames ==>
      b == Badge("bg-muted", "text-muted-foreground", "Unknown")
    ensures status in ObjectPrototypeNames ==> b == Badge("undefined", "undefined", "")
    ensures b.caption in {"Healthy", "Warning", "Critical", "Unknown", ""}
  {
    if status in ObjectPrototypeNames then Badge("undefined", "undefined", "")
    else match status
      case "healthy" => Badge("bg-success", "text-success-foreground", "Healthy")
      case "warning" => Badge("bg-warning", "text-warning-foreground", "Warning")
      case "critical" => Badge("bg-error", "text-error-foreground", "Critical")
      case _ => Badge("bg-muted", "text-muted-foreground", "Unknown")
  }

  // ------------------------------------------------------------- component

  /** The table's own state: the sort configuration. */
  class Table {
    var sortConfig: SortConfig

    constructor ()
      ensures sortConfig == InitialSort
    {
      sortConfig := InitialSort;
    }

    /** `handleSort(key)`. */
    method HandleSort(k: SortKey)
      modifies this
      ensures sortConfig == NextSort(old(sortConfig), k)
    {
      var direction := Asc;
      if sortConfig.key == Some(k) && sortConfig.direction == Asc {
        direction := Desc;
      }
      sortConfig := SortConfig(Some(k), direction);
    }

    /** The rows in display order for the records the page passes in. */
    method Rows(displayed: seq<Slo>) returns (r: seq<Slo>)
      ensures multiset(r) == multiset(displayed)
      ensures sortConfig.key == None ==> r == displayed
      ensures sortConfig.key.Some? ==> Sorted(sortConfig.key.value, sortConfig.direction, r)
    {
      r := SortedSlos(displayed, sortConfig);
    }
  }
}
