/**
 * The edit page's change-impact panel: the list of changes between the
 * original and the current record over five watched properties, each with
 * its impact, and the overall impact the panel's badge and summary show.
 */
module ChangeImpact {
  import opened Optional
  import opened Text
  import opened Seqs
  import opened Runtime
  import opened Impact
  import opened Docs

  /** The watched properties, in the order the panel lists them. */
  datatype Watched = WName | WTarget | WWindow | WSource | WAlerting

  const AllWatched: seq<Watched> := [WName, WTarget, WWindow, WSource, WAlerting]

  /** The record property each watched entry compares. */
  function KeyOf(w: Watched): DocKey {
    match w
    case WName => Name
    case WTarget => TargetThreshold
    case WWindow => EvaluationWindow
    case WSource => MetricSource
    case WAlerting => AlertingEnabled
  }

  /** The entry's `field` caption. */
  function Label(w: Watched): string {
    match w
    case WName => "Name"
    case WTarget => "Target Threshold"
    case WWindow => "Evaluation Window"
    case WSource => "Metric Source"
    case WAlerting => "Alerting"
  }

  /** An entry's `type`. */
  datatype Kind = Modified | Enabled | Disabled

  /** One entry of `getChanges`: which property, how, the two values shown, and its impact. */
  datatype Change = Change(field: Watched, kind: Kind, from: Option<JsonValue>, to: Option<JsonValue>, impact: Level)

  /** Template-literal interpolation `${v}` of a property value. */
  function Interp(v: Option<JsonValue>): string {
    match v
    case None => "undefined"
    case Some(JStr(s)) => s
    case Some(JBool(b)) => if b then "true" else "false"
    case Some(JList(xs)) => JoinComma(xs)
    case Some(JDate(stamp)) => stamp
  }

  /** `parseFloat(v)`, which reads the value's string form; `undefined` is `NaN`. */
  function ParseValue(js: Js, v: Option<JsonValue>): Option<real> {
    if v.None? then None else js.parseFloat(Interp(v))
  }

  /** `Math.abs(x)`. */
  function Abs(x: real): real {
    if x < 0.0 then -x else x
  }

  /**
   * The target's impact: a move of more than one point is high, of more
   * than half a point medium, anything else low; a side that is not a
   * number makes the difference `NaN`, and every comparison with `NaN` fails.
   */
  function TargetImpact(old_: Option<real>, new_: Option<real>): (l: Level)
    ensures old_.None? || new_.None? ==> l == Low
    ensures old_.Some? && new_.Some? ==>
      (l == High <==> Abs(new_.value - old_.value) > 1.0)
      && (l == Medium <==> 0.5 < Abs(new_.value - old_.value) <= 1.0)
      && (l == Low <==> Abs(new_.value - old_.value) <= 0.5)
  {
    if old_.None? || new_.None? then Low
    else
      var diff := Abs(new_.value - old_.value);
      if diff > 1.0 then High else if diff > 0.5 then Medium else Low
  }

  /** The text `'Enabled'` or `'Disabled'` for an alerting value. */
  function OnOff(v: Option<JsonValue>): Option<JsonValue> {
    Some(JStr(if Truthy(v) then "Enabled" else "Disabled"))
  }

  /** The entry for `w`, built as though the two records differ there. */
  function EntryFor(w: Watched, o: Doc, c: Doc, js: Js): Change {
    var before := Get(o, KeyOf(w));
    var after := Get(c, KeyOf(w));
    match w
    case WName => Change(w, Modified, before, after, Low)
    case WTarget =>
      Change(w, Modified, Some(JStr(Interp(before) + "%")), Some(JStr(Interp(after) + "%")),
             TargetImpact(ParseValue(js, before), ParseValue(js, after)))
    case WWindow => Change(w, Modified, before, after, Medium)
    case WSource => Change(w, Modified, before, after, High)
    case WAlerting => Change(w, if Truthy(after) then Enabled else Disabled, OnOff(before), OnOff(after), Medium)
  }

  /** `original?.k !== current?.k`; the five watched values are strings or booleans, compared by value. */
  predicate Differs(w: Watched, o: Doc, c: Doc) {
    Get(o, KeyOf(w)) != Get(c, KeyOf(w))
  }

  /** The entry for `w` if the records differ there, nothing otherwise. */
  function Part(w: Watched, o: Doc, c: Doc, js: Js): seq<Change> {
    if Differs(w, o, c) then [EntryFor(w, o, c, js)] else []
  }

  /** The reference list: one entry per watched property, in order, where the records differ. */
  function ChangesOver(ws: seq<Watched>, o: Doc, c: Doc, js: Js): seq<Change> {
    if ws == [] then [] else Part(ws[0], o, c, js) + ChangesOver(ws[1..], o, c, js)
  }

  function Changes(o: Doc, c: Doc, js: Js): seq<Change> {
    ChangesOver(AllWatched, o, c, js)
  }

  /** The reference list over the five, written out. */
  lemma {:induction false} ChangesFive(o: Doc, c: Doc, js: Js)
    ensures Changes(o, c, js) ==
      Part(WName, o, c, js) + Part(WTarget, o, c, js) + Part(WWindow, o, c, js)
      + Part(WSource, o, c, js) + Part(WAlerting, o, c, js)
  {
    var s4 := [WAlerting];
    var s3 := [WSource, WAlerting];
    var s2 := [WWindow, WSource, WAlerting];
    var s1 := [WTarget, WWindow, WSource, WAlerting];
    assert s4[1..] == [] && s3[1..] == s4 && s2[1..] == s3 && s1[1..] == s2 && AllWatched[1..] == s1;
    assert ChangesOver(s4, o, c, js) == Part(WAlerting, o, c, js) + [];
    assert ChangesOver(s3, o, c, js) == Part(WSource, o, c, js) + ChangesOver(s4, o, c, js);
    assert ChangesOver(s2, o, c, js) == Part(WWindow, o, c, js) + ChangesOver(s3, o, c, js);
    assert ChangesOver(s1, o, c, js) == Part(WTarget, o, c, js) + ChangesOver(s2, o, c, js);
    assert ChangesOver(AllWatched, o, c, js) == Part(WName, o, c, js) + ChangesOver(s1, o, c, js);
    var p1, p2, p3, p4, p5 :=
      Part(WName, o, c, js), Part(WTarget, o, c, js), Part(WWindow, o, c, js),
      Part(WSource, o, c, js), Part(WAlerting, o, c, js);
    Regroup(p1, p2, p3, p4, p5);
  }

  /** Five pieces joined from the right are the same pieces joined from the left. */
  lemma Regroup<T>(a: seq<T>, b: seq<T>, c: seq<T>, d: seq<T>, e: seq<T>)
    ensures a + (b + (c + (d + (e + [])))) == a + b + c + d + e
  {
    assert e + [] == e;
    assert c + (d + e) == c + d + e;
    assert b + (c + d + e) == b + c + d + e;
    assert a + (b + c + d + e) == a + b + c + d + e;
  }

  /** Every property the panel watches is in the list of five. */
  lemma AllWatchedComplete(w: Watched)
    ensures w in AllWatched
  {
    match w
    case WName => assert AllWatched[0] == w;
    case WTarget => assert AllWatched[1] == w;
    case WWindow => assert AllWatched[2] == w;
    case WSource => assert AllWatched[3] == w;
    case WAlerting => assert AllWatched[4] == w;
  }

  /** `getChanges`: one `push` per watched property that differs. */
  method GetChanges(o: Doc, c: Doc, js: Js) returns (changes: seq<Change>)
    ensures changes == Changes(o, c, js)
  {
    ghost var p1, p2, p3, p4, p5 :=
      Part(WName, o, c, js), Part(WTarget, o, c, js), Part(WWindow, o, c, js),
      Part(WSource, o, c, js), Part(WAlerting, o, c, js);
    changes := [];
    if Get(o, Name) != Get(c, Name) {
      var entry := Change(WName, Modified, Get(o, Name), Get(c, Name), Low);
      assert [entry] == p1;
      changes := changes + [entry];
    }
    assert changes == p1;
    if Get(o, TargetThreshold) != Get(c, TargetThreshold) {
      var oldThreshold := ParseValue(js, Get(o, TargetThreshold));
      var newThreshold := ParseValue(js, Get(c, TargetThreshold));
      var impact := TargetImpact(oldThreshold, newThreshold);
      var entry := Change(WTarget, Modified,
        Some(JStr(Interp(Get(o, TargetThreshold)) + "%")), Some(JStr(Interp(Get(c, TargetThreshold)) + "%")), impact);
      assert [entry] == p2;
      changes := changes + [entry];
    }
    assert changes == p1 + p2;
    if Get(o, EvaluationWindow) != Get(c, EvaluationWindow) {
      var entry := Change(WWindow, Modified, Get(o, EvaluationWindow), Get(c, EvaluationWindow), Medium);
      assert [entry] == p3;
      changes := changes + [entry];
    }
    assert changes == p1 + p2 + p3;
    if Get(o, MetricSource) != Get(c, MetricSource) {
      var entry := Change(WSource, Modified, Get(o, MetricSource), Get(c, MetricSource), High);
      assert [entry] == p4;
      changes := changes + [entry];
    }
    assert changes == p1 + p2 + p3 + p4;
    if Get(o, AlertingEnabled) != Get(c, AlertingEnabled) {
      var after := Get(c, AlertingEnabled);
      var entry := Change(WAlerting, if Truthy(after) then Enabled else Disabled,
        OnOff(Get(o, AlertingEnabled)), OnOff(after), Medium);
      assert [entry] == p5;
      changes := changes + [entry];
    }
    assert changes == p1 + p2 + p3 + p4 + p5;
    ChangesFive(o, c, js);
  }

  // ------------------------------------------------------------ properties

  /** An entry is listed exactly for each watched property that differs, and carries its own property. */
  lemma {:induction false} ChangesOverSpec(ws: seq<Watched>, o: Doc, c: Doc, js: Js)
    ensures |ChangesOver(ws, o, c, js)| <= |ws|
    ensures forall i :: 0 <= i < |ChangesOver(ws, o, c, js)| ==>
      ChangesOver(ws, o, c, js)[i] == EntryFor(ChangesOver(ws, o, c, js)[i].field, o, c, js)
      && ChangesOver(ws, o, c, js)[i].field in ws && Differs(ChangesOver(ws, o, c, js)[i].field, o, c)
    ensures forall w :: w in ws && Differs(w, o, c) ==> exists i :: 0 <= i < |ChangesOver(ws, o, c, js)| && ChangesOver(ws, o, c, js)[i].field == w
    ensures ChangesOver(ws, o, c, js) == [] <==> forall w :: w in ws ==> !Differs(w, o, c)
  {
    if ws != [] {
      ChangesOverSpec(ws[1..], o, c, js);
      var head: seq<Change> := Part(ws[0], o, c, js);
      var rest: seq<Change> := ChangesOver(ws[1..], o, c, js);
      var all: seq<Change> := head + rest;
      assert ChangesOver(ws, o, c, js) == all;
      forall w | w in ws && Differs(w, o, c)
        ensures exists i :: 0 <= i < |all| && all[i].field == w
      {
        if w == ws[0] {
          assert all[0].field == w;
        } else {
          assert w in ws[1..];
          var j :| 0 <= j < |rest| && rest[j].field == w;
          assert all[|head| + j] == rest[j];
        }
      }
    }
  }

  /** At most one entry per watched property, and none at all exactly when the five agree. */
  lemma ChangesBounds(o: Doc, c: Doc, js: Js)
    ensures |Changes(o, c, js)| <= 5
    ensures Changes(o, c, js) == [] <==>
      Get(o, Name) == Get(c, Name) && Get(o, TargetThreshold) == Get(c, TargetThreshold)
      && Get(o, EvaluationWindow) == Get(c, EvaluationWindow) && Get(o, MetricSource) == Get(c, MetricSource)
      && Get(o, AlertingEnabled) == Get(c, AlertingEnabled)
  {
    ChangesOverSpec(AllWatched, o, c, js);
    forall w: Watched
      ensures w in AllWatched
    {
      AllWatchedComplete(w);
    }
    assert Differs(WName, o, c) <==> Get(o, Name) != Get(c, Name);
    assert Differs(WTarget, o, c) <==> Get(o, TargetThreshold) != Get(c, TargetThreshold);
    assert Differs(WWindow, o, c) <==> Get(o, EvaluationWindow) != Get(c, EvaluationWindow);
    assert Differs(WSource, o, c) <==> Get(o, MetricSource) != Get(c, MetricSource);
    assert Differs(WAlerting, o, c) <==> Get(o, AlertingEnabled) != Get(c, AlertingEnabled);
  }

  /** The panel hides itself when nothing changed; comparing a record with itself lists nothing. */
  lemma NoChangesSelf(d: Doc, js: Js)
    ensures Changes(d, d, js) == []
  {
    ChangesBounds(d, d, js);
  }

  /** The entries keep the watched order: their fields form a subsequence of the five. */
  lemma {:induction false} ChangesInOrder(ws: seq<Watched>, o: Doc, c: Doc, js: Js)
    ensures IsSubseq(Fields(ChangesOver(ws, o, c, js)), ws)
  {
    if ws != [] {
      ChangesInOrder(ws[1..], o, c, js);
      var rest := ChangesOver(ws[1..], o, c, js);
      if Differs(ws[0], o, c) {
        assert ChangesOver(ws, o, c, js) == [EntryFor(ws[0], o, c, js)] + rest;
        assert Fields(ChangesOver(ws, o, c, js)) == [ws[0]] + Fields(rest);
        assert (Fields(ChangesOver(ws, o, c, js)))[1..] == Fields(rest);
      } else {
        assert ChangesOver(ws, o, c, js) == rest;
        if Fields(rest) != [] {
          assert IsSubseq(Fields(rest), ws[1..]);
        }
      }
    }
  }

  function Fields(cs: seq<Change>): (r: seq<Watched>)
    ensures |r| == |cs| && forall i :: 0 <= i < |cs| ==> r[i] == cs[i].field
  {
    if cs == [] then [] else [cs[0].field] + Fields(cs[1..])
  }

  /** Fixed impacts: a name change is low, a window change medium, a source change high, alerting medium. */
  lemma FixedImpacts(o: Doc, c: Doc, js: Js)
    ensures EntryFor(WName, o, c, js).impact == Low
    ensures EntryFor(WWindow, o, c, js).impact == Medium
    ensures EntryFor(WSource, o, c, js).impact == High
    ensures EntryFor(WAlerting, o, c, js).impact == Medium
    ensures EntryFor(WAlerting, o, c, js).kind == (if Truthy(Get(c, AlertingEnabled)) then Enabled else Disabled)
    ensures forall w :: w != WAlerting ==> EntryFor(w, o, c, js).kind == Modified
  {
  }

  /** Two thresholds that parse to the same number, however written, are a low-impact change. */
  lemma SameNumberLow(o: Doc, c: Doc, js: Js)
    requires ParseValue(js, Get(o, TargetThreshold)) == ParseValue(js, Get(c, TargetThreshold))
    ensures EntryFor(WTarget, o, c, js).impact == Low
  {
  }

  // ------------------------------------------------------- overall impact

  function Impacts(cs: seq<Change>): (r: seq<Level>)
    ensures |r| == |cs| && forall i :: 0 <= i < |cs| ==> r[i] == cs[i].impact
  {
    if cs == [] then [] else [cs[0].impact] + Impacts(cs[1..])
  }

  /** `getOverallImpact`: the includes rule over the entries' impacts. */
  function OverallImpact(cs: seq<Change>): (l: Level)
    ensures forall i :: 0 <= i < |cs| ==> Rank(cs[i].impact) <= Rank(l)
    ensures cs != [] ==> exists i :: 0 <= i < |cs| && cs[i].impact == l
    ensures cs == [] ==> l == Low
  {
    DominantIsMax(Impacts(cs));
    Dominant(Impacts(cs))
  }

  /** A metric-source change always makes the overall impact high. */
  lemma SourceChangeIsHigh(o: Doc, c: Doc, js: Js)
    requires Differs(WSource, o, c)
    ensures OverallImpact(Changes(o, c, js)) == High
  {
    ChangesOverSpec(AllWatched, o, c, js);
    var cs := Changes(o, c, js);
    var i :| 0 <= i < |cs| && cs[i].field == WSource;
    assert cs[i].impact == High;
  }

  /** The entry icon by kind. */
  function ChangeIcon(k: Kind): string {
    match k
    case Enabled => "Plus"
    case Disabled => "Minus"
    case Modified => "Edit"
  }
}
