/** The three impact levels the edit page assigns to changes and dependencies, and their maximum. */
module Impact {

  /** `'low'`, `'medium'`, `'high'`. */
  datatype Level = Low | Medium | High

  function Rank(l: Level): nat {
    match l
    case Low => 0
    case Medium => 1
    case High => 2
  }

  /** The string the source stores for a level. */
  function Name(l: Level): string {
    match l
    case Low => "low"
    case Medium => "medium"
    case High => "high"
  }

  /** The greatest level among `levels`; `Low` when there are none. */
  function Max(levels: seq<Level>): (m: Level)
    ensures forall i :: 0 <= i < |levels| ==> Rank(levels[i]) <= Rank(m)
    ensures levels == [] ==> m == Low
    ensures levels != [] ==> m in levels
  {
    if levels == [] then Low
    else
      var r := Max(levels[1..]);
      if Rank(levels[0]) >= Rank(r) then levels[0] else r
  }

  /**
   * The "includes" rule both edit-page components use: high if any level is
   * high, else medium if any is medium, else low.
   */
  function Dominant(levels: seq<Level>): Level {
    if High in levels then High else if Medium in levels then Medium else Low
  }

  /** The includes rule is the maximum under the order low < medium < high. */
  lemma DominantIsMax(levels: seq<Level>)
    ensures Dominant(levels) == Max(levels)
  {
    var m := Max(levels);
    if m == Low && levels != [] {
      assert forall i :: 0 <= i < |levels| ==> levels[i] == Low;
    }
    if m == Medium {
      assert forall i :: 0 <= i < |levels| ==> levels[i] != High;
    }
  }

  /** The badge colour both panels use for a level. */
  function ImpactColor(l: Level): string {
    match l
    case High => "text-error bg-error/10 border-error/20"
    case Medium => "text-warning bg-warning/10 border-warning/20"
    case Low => "text-success bg-success/10 border-success/20"
  }

  /** The badge caption: the level's name with a capital, then "Impact". */
  function BadgeCaption(l: Level): string {
    match l
    case High => "High Impact"
    case Medium => "Medium Impact"
    case Low => "Low Impact"
  }
}
