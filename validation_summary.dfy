/**
 * The validation summary panel beside the create form: how many of the nine
 * required fields are completed, the progress bar, the status line, and one
 * row per error.
 */
module ValidationSummary {
  import opened Text
  import opened Seqs
  import opened CreateForm
  import opened Runtime

  /** The nine required fields, name through metric query. */
  const RequiredFields: seq<Field> :=
    [Name, Description, Service, Component, MetricSource, MetricType, TargetValue, EvaluationWindow, MetricQuery]

  /**
   * A value is truthy and its string form is not blank once trimmed, that
   * is, not only white space (`Text.BlankIffAllSpace`).
   */
  predicate ValueCompleted(v: Value) {
    match v
    case Text(s) => s != "" && !AllSpace(s)
    case Flag(b) => b
    case Items(xs) => !AllSpace(JoinComma(xs))
  }

  /** Field `f` counts as completed. A missing value is `undefined`, which is falsy. */
  predicate Completed(form: Form, f: Field) {
    f in form && ValueCompleted(form[f])
  }

  function CompletedOf(form: Form): Field -> bool {
    f => Completed(form, f)
  }

  /** The required fields that are completed, in list order. */
  function CompletedFields(form: Form): (r: seq<Field>)
    ensures |r| <= |RequiredFields|
    ensures forall i :: 0 <= i < |r| ==> r[i] in RequiredFields && Completed(form, r[i])
    ensures forall i :: 0 <= i < |RequiredFields| && Completed(form, RequiredFields[i]) ==> RequiredFields[i] in r
  {
    Filter(RequiredFields, CompletedOf(form))
  }

  /** What `getValidationStatus` returns. */
  datatype Status = Status(completedFields: nat, totalFields: nat, hasErrors: bool, isComplete: bool, progress: real)

  /** `getValidationStatus`. */
  function GetValidationStatus(form: Form, errors: map<Field, Problem>): (st: Status)
    ensures st.totalFields == 9 && st.completedFields <= 9
    ensures st.hasErrors <==> errors != map[]
    ensures st.isComplete <==> st.completedFields == 9 && errors == map[]
  {
    var completed := |CompletedFields(form)|;
    Status(completed, |RequiredFields|, |errors| > 0, completed == |RequiredFields| && !(|errors| > 0),
           completed as real / |RequiredFields| as real * 100.0)
  }

  /** All nine are counted exactly when each required field is completed; a text field counts exactly when it is not blank. */
  lemma CompletedCountIff(form: Form)
    ensures |CompletedFields(form)| == 9 <==> forall i :: 0 <= i < 9 ==> Completed(form, RequiredFields[i])
    ensures forall f :: f in form && form[f].Text? ==> (Completed(form, f) <==> !IsBlank(form[f].text))
  {
    var p := CompletedOf(form);
    if forall i :: 0 <= i < 9 ==> Completed(form, RequiredFields[i]) {
      FilterAll(RequiredFields, p);
    }
    if |CompletedFields(form)| == 9 {
      FilterIsSubseq(RequiredFields, p);
      FullSubseq(CompletedFields(form), RequiredFields);
    }
    TextCompleted(form);
  }

  /** A text field counts exactly when it is not blank. */
  lemma TextCompleted(form: Form)
    ensures forall f :: f in form && form[f].Text? ==> (Completed(form, f) <==> !IsBlank(form[f].text))
  {
    forall f | f in form && form[f].Text?
      ensures Completed(form, f) <==> !IsBlank(form[f].text)
    {
      BlankIffAllSpace(form[f].text);
    }
  }

  /** A subsequence as long as the whole is the whole. */
  lemma {:induction false} FullSubseq<T>(a: seq<T>, b: seq<T>)
    requires IsSubseq(a, b) && |a| == |b|
    ensures a == b
  {
    if a != [] {
      if IsSubseq(a, b[1..]) {
        SubseqShorter(a, b[1..]);
        assert false;
      } else {
        FullSubseq(a[1..], b[1..]);
        assert a == [a[0]] + a[1..] && b == [b[0]] + b[1..];
      }
    }
  }

  /** A subsequence is no longer than the whole. */
  lemma {:induction false} SubseqShorter<T>(a: seq<T>, b: seq<T>)
    requires IsSubseq(a, b)
    ensures |a| <= |b|
  {
    if a != [] {
      if IsSubseq(a, b[1..]) {
        SubseqShorter(a, b[1..]);
      } else {
        SubseqShorter(a[1..], b[1..]);
      }
    }
  }

  /** The progress bar lies in [0, 100] and is full exactly when all nine are completed. */
  lemma ProgressBounds(form: Form, errors: map<Field, Problem>)
    ensures var st := GetValidationStatus(form, errors);
      && 0.0 <= st.progress <= 100.0
      && (st.progress == 100.0 <==> st.completedFields == 9)
  {
    ProgressValue(form, errors);
    PercentOfNine(GetValidationStatus(form, errors).completedFields);
  }

  /** The progress is the completed count as a percentage of nine. */
  lemma ProgressValue(form: Form, errors: map<Field, Problem>)
    ensures GetValidationStatus(form, errors).progress == GetValidationStatus(form, errors).completedFields as real / 9.0 * 100.0
  {
    assert |RequiredFields| == 9;
  }

  /** The percentage of `c` out of nine. */
  lemma PercentOfNine(c: nat)
    requires c <= 9
    ensures 0.0 <= c as real / 9.0 * 100.0 <= 100.0
    ensures c as real / 9.0 * 100.0 == 100.0 <==> c == 9
  {
  }

  /** The untouched form has no required field completed, so its summary reads "0/9". */
  lemma DefaultFormIncomplete()
    ensures |CompletedFields(DefaultForm)| == 0
  {
    forall i | 0 <= i < |RequiredFields|
      ensures !CompletedOf(DefaultForm)(RequiredFields[i])
    {
      assert DefaultForm[RequiredFields[i]] == Text("");
    }
    FilterNone(RequiredFields, CompletedOf(DefaultForm));
  }

  // ---------------------------------------------------------- status line

  datatype Tone = Error | Success | Warning

  /** Errors first, then completeness, then the warning: colour, icon and message follow the same priority. */
  function StatusTone(st: Status): (t: Tone)
    ensures t == Error <==> st.hasErrors
    ensures t == Success <==> !st.hasErrors && st.isComplete
  {
    if st.hasErrors then Error else if st.isComplete then Success else Warning
  }

  function StatusColor(st: Status): string {
    match StatusTone(st)
    case Error => "text-error"
    case Success => "text-success"
    case Warning => "text-warning"
  }

  function StatusIcon(st: Status): string {
    match StatusTone(st)
    case Error => "XCircle"
    case Success => "CheckCircle"
    case Warning => "AlertCircle"
  }

  function StatusMessage(st: Status): string {
    match StatusTone(st)
    case Error => "Please fix validation errors"
    case Success => "Ready to create SLO"
    case Warning => CountLine(st.completedFields, st.totalFields)
  }

  /** `"{completed}/{total} required fields completed"`. */
  function CountLine(completed: nat, total: nat): string {
    NatToString(completed) + "/" + NatToString(total) + " required fields completed"
  }

  /** Any error wins: the red cross and "Please fix validation errors". */
  lemma StatusOnErrors(form: Form, errors: map<Field, Problem>)
    requires errors != map[]
    ensures var st := GetValidationStatus(form, errors);
      StatusIcon(st) == "XCircle" && StatusColor(st) == "text-error"
      && StatusMessage(st) == "Please fix validation errors"
  {
  }

  /** Without errors, all nine completed reads "Ready to create SLO". */
  lemma StatusReady(form: Form, errors: map<Field, Problem>)
    requires errors == map[] && |CompletedFields(form)| == 9
    ensures var st := GetValidationStatus(form, errors);
      StatusIcon(st) == "CheckCircle" && StatusColor(st) == "text-success"
      && StatusMessage(st) == "Ready to create SLO"
  {
  }

  /** Without errors and with some required field open, the line counts the completed fields out of nine. */
  lemma StatusCounting(form: Form, errors: map<Field, Problem>)
    requires errors == map[] && |CompletedFields(form)| < 9
    ensures var st := GetValidationStatus(form, errors);
      StatusIcon(st) == "AlertCircle" && StatusColor(st) == "text-warning"
      && StatusMessage(st) == CountLine(|CompletedFields(form)|, 9)
  {
  }

  // ----------------------------------------------------------- error rows

  predicate IsUpper(c: char) {
    'A' <= c <= 'Z'
  }

  /** `key.replace(/([A-Z])/g, ' $1')`: a space before every capital. */
  function Humanize(s: string): string {
    if s == [] then [] else (if IsUpper(s[0]) then [' ', s[0]] else [s[0]]) + Humanize(s[1..])
  }

  /** Drops a space that stands before a capital. */
  function Dehumanize(r: string): string
    decreases |r|
  {
    if r == [] then []
    else if |r| >= 2 && r[0] == ' ' && IsUpper(r[1]) then [r[1]] + Dehumanize(r[2..])
    else [r[0]] + Dehumanize(r[1..])
  }

  /** The row caption loses nothing: dropping the inserted spaces gives the key back. */
  lemma {:induction false} HumanizeLossless(s: string)
    ensures Dehumanize(Humanize(s)) == s
    ensures s != [] ==> Humanize(s) != [] && (Humanize(s)[0] == ' ' <==> s[0] == ' ' || IsUpper(s[0]))
  {
    if s != [] {
      HumanizeLossless(s[1..]);
      var rest := Humanize(s[1..]);
      if IsUpper(s[0]) {
        assert Humanize(s) == [' ', s[0]] + rest;
        assert Humanize(s)[2..] == rest;
      } else {
        assert Humanize(s) == [s[0]] + rest;
        assert Humanize(s)[1..] == rest;
        if s[0] == ' ' && |Humanize(s)| >= 2 {
          assert Humanize(s)[1] == rest[0];
          assert !IsUpper(rest[0]);
        }
      }
    }
  }

  /** One entry of `Object.entries(errors)`: the field and its problem. */
  datatype ErrorRow = ErrorRow(field: Field, problem: Problem)

  /** The text a row shows: the spaced key, a colon, and its message. */
  function RowText(row: ErrorRow): string {
    Humanize(Key(row.field)) + ": " + Message(row.problem)
  }

  /**
   * The keys of `errors` in the order the object holds them. `validateForm`
   * writes them in check order and a field change only deletes one, so
   * insertion order is the order of `Rank`.
   */
  function KeyOrder(errors: map<Field, Problem>): seq<Field> {
    KeysFrom(errors, 0)
  }

  /** The keys of rank `r` and above, by rank. */
  function KeysFrom(errors: map<Field, Problem>, r: nat): seq<Field>
    decreases 27 - r
  {
    if r >= 27 then []
    else (if FieldOfRank(r) in errors then [FieldOfRank(r)] else []) + KeysFrom(errors, r + 1)
  }

  /** `Object.entries(errors).map(...)`: the rows of the keys in insertion order. */
  function ErrorRows(errors: map<Field, Problem>): seq<ErrorRow> {
    var keys := KeyOrder(errors);
    seq(|keys|, i requires 0 <= i < |keys| =>
      ErrorRow(keys[i], if keys[i] in errors then errors[keys[i]] else NameRequired))
  }

  /** Row `i` is the `i`-th key in insertion order, with its problem. */
  lemma ErrorRowsFollowKeys(errors: map<Field, Problem>)
    ensures |ErrorRows(errors)| == |KeyOrder(errors)|
    ensures forall i :: 0 <= i < |ErrorRows(errors)| ==> ErrorRows(errors)[i].field == KeyOrder(errors)[i]
    ensures forall i :: 0 <= i < |ErrorRows(errors)| && ErrorRows(errors)[i].field in errors ==>
      ErrorRows(errors)[i].problem == errors[ErrorRows(errors)[i].field]
  {
  }

  /** Each row holds a key and that key's problem (shown by `RowText`), and every key has a row. */
  lemma ErrorRowsKeys(errors: map<Field, Problem>)
    ensures forall i :: 0 <= i < |ErrorRows(errors)| ==>
      ErrorRows(errors)[i].field in errors && ErrorRows(errors)[i].problem == errors[ErrorRows(errors)[i].field]
    ensures forall f :: f in errors ==> exists i :: 0 <= i < |ErrorRows(errors)| && ErrorRows(errors)[i].field == f
  {
    var keys := KeyOrder(errors);
    var rows := ErrorRows(errors);
    KeyOrderFacts(errors);
    ErrorRowsFollowKeys(errors);
    forall f | f in errors
      ensures exists i :: 0 <= i < |rows| && rows[i].field == f
    {
      assert f in keys;
      var i :| 0 <= i < |keys| && keys[i] == f;
      assert rows[i].field == f;
    }
  }

  /** The rows come in insertion order: by increasing rank, so no key is listed twice. */
  lemma ErrorRowsOrdered(errors: map<Field, Problem>)
    ensures forall i, j :: 0 <= i < j < |ErrorRows(errors)| ==>
      Rank(ErrorRows(errors)[i].field) < Rank(ErrorRows(errors)[j].field)
  {
    var keys := KeyOrder(errors);
    var rows := ErrorRows(errors);
    KeyOrderRanked(errors);
    ErrorRowsFollowKeys(errors);
    forall i, j | 0 <= i < j < |rows|
      ensures Rank(rows[i].field) < Rank(rows[j].field)
    {
      assert rows[i].field == keys[i] && rows[j].field == keys[j];
    }
  }

  /** The key order runs by strictly increasing rank. */
  lemma KeyOrderRanked(errors: map<Field, Problem>)
    ensures InRankOrder(KeyOrder(errors))
  {
    KeysFromFacts(errors, 0);
  }

  /** `s` with every occurrence of `g` dropped, the rest in order. */
  function Without(s: seq<Field>, g: Field): seq<Field> {
    if s == [] then [] else (if s[0] == g then [] else [s[0]]) + Without(s[1..], g)
  }

  /**
   * Clearing one field's error, as a field change does, drops that field's key
   * and keeps every other key where it was.
   */
  lemma KeyOrderDelete(errors: map<Field, Problem>, g: Field)
    ensures KeyOrder(errors - {g}) == Without(KeyOrder(errors), g)
  {
    KeysFromDelete(errors, g, 0);
  }

  lemma {:induction false} KeysFromDelete(errors: map<Field, Problem>, g: Field, r: nat)
    ensures KeysFrom(errors - {g}, r) == Without(KeysFrom(errors, r), g)
    decreases 27 - r
  {
    if r < 27 {
      KeysFromDelete(errors, g, r + 1);
      if FieldOfRank(r) in errors {
        DeleteStepPresent(errors, g, r);
      } else {
        DeleteStepAbsent(errors, g, r);
      }
    }
  }

  /** One step of `KeysFromDelete` where the field of rank `r` is a key. */
  lemma DeleteStepPresent(errors: map<Field, Problem>, g: Field, r: nat)
    requires r < 27 && FieldOfRank(r) in errors
    requires KeysFrom(errors - {g}, r + 1) == Without(KeysFrom(errors, r + 1), g)
    ensures KeysFrom(errors - {g}, r) == Without(KeysFrom(errors, r), g)
  {
    var f := FieldOfRank(r);
    var tail := KeysFrom(errors, r + 1);
    WithoutCons(f, tail, g);
    assert KeysFrom(errors, r) == [f] + tail;
  }

  /** One step of `KeysFromDelete` where the field of rank `r` is not a key. */
  lemma DeleteStepAbsent(errors: map<Field, Problem>, g: Field, r: nat)
    requires r < 27 && FieldOfRank(r) !in errors
    requires KeysFrom(errors - {g}, r + 1) == Without(KeysFrom(errors, r + 1), g)
    ensures KeysFrom(errors - {g}, r) == Without(KeysFrom(errors, r), g)
  {
    assert KeysFrom(errors, r) == KeysFrom(errors, r + 1);
    assert KeysFrom(errors - {g}, r) == KeysFrom(errors - {g}, r + 1);
  }

  lemma WithoutCons(f: Field, tail: seq<Field>, g: Field)
    ensures Without([f] + tail, g) == (if f == g then [] else [f]) + Without(tail, g)
  {
    var s := [f] + tail;
    assert s[1..] == tail;
  }

  /** The validator's list holds checked fields only, so its rows come in check order (ranks 0 to 14). */
  lemma ValidatorRowsChecked(form: Form, js: Js)
    ensures forall i :: 0 <= i < |ErrorRows(Errors(form, js))| ==>
      ErrorRows(Errors(form, js))[i].field in Checked && Rank(ErrorRows(Errors(form, js))[i].field) < 15
  {
    var rows := ErrorRows(Errors(form, js));
    ErrorRowsKeys(Errors(form, js));
    forall i | 0 <= i < |rows|
      ensures rows[i].field in Checked && Rank(rows[i].field) < 15
    {
      var f := rows[i].field;
      assert f in Errors(form, js);
      CheckedRanks(f);
    }
  }

  /**
   * The untouched form's list reads name, description, service, component,
   * metric source, metric type, target value, evaluation window and metric
   * query, in that order.
   */
  lemma DefaultFormRows(js: Js)
    ensures |ErrorRows(Errors(DefaultForm, js))| == 9
    ensures forall i :: 0 <= i < 9 ==> ErrorRows(Errors(DefaultForm, js))[i].field == FieldOfRank(i)
  {
    DefaultFormErrors(js);
    RequiredRows(Errors(DefaultForm, js));
  }

  /** A map whose keys are the nine required fields is listed in their check order. */
  lemma RequiredRows(errors: map<Field, Problem>)
    requires errors.Keys == RequiredKeys
    ensures |ErrorRows(errors)| == 9
    ensures forall i :: 0 <= i < 9 ==> ErrorRows(errors)[i].field == FieldOfRank(i)
  {
    ErrorRowsFollowKeys(errors);
    RequiredKeyRanks(errors);
    var keys := KeyOrder(errors);
    RanksAreIndices(keys);
    forall i | 0 <= i < 9
      ensures ErrorRows(errors)[i].field == FieldOfRank(i)
    {
      RankInverse(keys[i]);
    }
  }

  /** The order of the nine required keys has nine entries, all ranked below nine. */
  lemma RequiredKeyRanks(errors: map<Field, Problem>)
    requires errors.Keys == RequiredKeys
    ensures |KeyOrder(errors)| == 9 && InRankOrder(KeyOrder(errors))
    ensures forall i :: 0 <= i < 9 ==> Rank(KeyOrder(errors)[i]) < 9
  {
    assert |errors| == |errors.Keys| == 9;
    KeyOrderFacts(errors);
    var keys := KeyOrder(errors);
    forall i | 0 <= i < 9
      ensures Rank(keys[i]) < 9
    {
      assert keys[i] in errors;
      RequiredRanks(keys[i]);
    }
  }

  /** Nine fields in rank order, all ranked below nine, are ranked 0 to 8 in turn. */
  lemma RanksAreIndices(s: seq<Field>)
    requires InRankOrder(s) && forall i :: 0 <= i < |s| ==> Rank(s[i]) < |s|
    ensures forall i :: 0 <= i < |s| ==> Rank(s[i]) == i
  {
    forall i | 0 <= i < |s|
      ensures Rank(s[i]) == i
    {
      RankAtLeast(s, i);
      RankAtMost(s, i);
    }
  }

  lemma {:induction false} RankAtLeast(s: seq<Field>, i: nat)
    requires InRankOrder(s) && i < |s|
    ensures Rank(s[i]) >= i
  {
    if i > 0 {
      RankAtLeast(s, i - 1);
    }
  }

  lemma {:induction false} RankAtMost(s: seq<Field>, i: nat)
    requires InRankOrder(s) && i < |s| && forall k :: 0 <= k < |s| ==> Rank(s[k]) < |s|
    ensures Rank(s[i]) <= i
    decreases |s| - i
  {
    if i < |s| - 1 {
      RankAtMost(s, i + 1);
    }
  }

  /** The key order holds exactly the keys, each once, by increasing rank. */
  lemma KeyOrderFacts(errors: map<Field, Problem>)
    ensures forall i :: 0 <= i < |KeyOrder(errors)| ==> KeyOrder(errors)[i] in errors
    ensures forall f :: f in errors ==> f in KeyOrder(errors)
    ensures InRankOrder(KeyOrder(errors))
    ensures |KeyOrder(errors)| == |errors|
  {
    KeysFromFacts(errors, 0);
    KeyOrderLength(errors);
  }

  /** Each key appears once, so the order is as long as the dictionary. */
  lemma KeyOrderLength(errors: map<Field, Problem>)
    ensures |KeyOrder(errors)| == |errors|
  {
    KeysFromFacts(errors, 0);
    RankedCover(KeyOrder(errors), errors);
  }

  /** Fields in rank order that are exactly a dictionary's keys are as many as the keys. */
  lemma RankedCover(keys: seq<Field>, errors: map<Field, Problem>)
    requires InRankOrder(keys)
    requires forall i :: 0 <= i < |keys| ==> keys[i] in errors
    requires forall f :: f in errors ==> f in keys
    ensures |keys| == |errors|
  {
    RankedDistinct(keys);
    var present := set x | x in keys;
    forall f | f in errors
      ensures f in present
    {
      assert f in keys;
    }
    forall f | f in present
      ensures f in errors
    {
      var i :| 0 <= i < |keys| && keys[i] == f;
    }
    assert present == errors.Keys;
  }

  /** From rank `r` on: keys only, all of rank `r` or more, every such key, by increasing rank. */
  lemma {:induction false} KeysFromFacts(errors: map<Field, Problem>, r: nat)
    ensures forall i :: 0 <= i < |KeysFrom(errors, r)| ==>
      KeysFrom(errors, r)[i] in errors && Rank(KeysFrom(errors, r)[i]) >= r
    ensures forall f :: f in errors && Rank(f) >= r ==> f in KeysFrom(errors, r)
    ensures InRankOrder(KeysFrom(errors, r))
    decreases 27 - r
  {
    if r < 27 {
      KeysFromFacts(errors, r + 1);
      var head := FieldOfRank(r);
      var rest := KeysFrom(errors, r + 1);
      RankInverse(head);
      assert Rank(head) == r by {
        RankOfField(r);
      }
      forall f | f in errors && Rank(f) >= r
        ensures f in KeysFrom(errors, r)
      {
        RankInverse(f);
        if Rank(f) == r {
          assert f == head;
        }
      }
      if head in errors {
        PrependRanked(head, rest);
        assert KeysFrom(errors, r) == [head] + rest;
      }
    } else {
      forall f | f in errors && Rank(f) >= r
        ensures false
      {
        RankInverse(f);
      }
    }
  }

  /** A field ranked below everything in a sequence in rank order can go in front of it. */
  lemma PrependRanked(f: Field, t: seq<Field>)
    requires InRankOrder(t)
    requires forall k :: 0 <= k < |t| ==> Rank(f) < Rank(t[k])
    ensures InRankOrder([f] + t)
  {
    var r := [f] + t;
    forall i, j | 0 <= i < j < |r|
      ensures Rank(r[i]) < Rank(r[j])
    {
      assert r[j] == t[j - 1];
      if i > 0 {
        assert r[i] == t[i - 1];
      }
    }
  }

  /** A sequence in rank order repeats no field: it has as many distinct fields as entries. */
  lemma {:induction false} RankedDistinct(s: seq<Field>)
    requires InRankOrder(s)
    ensures |set x | x in s| == |s|
  {
    if s != [] {
      assert InRankOrder(s[1..]);
      RankedDistinct(s[1..]);
      assert s[0] !in s[1..];
      assert (set x | x in s) == {s[0]} + (set x | x in s[1..]) by {
        assert s == [s[0]] + s[1..];
      }
    }
  }

  /** The list has one row per key, and the panel shows it exactly when there is an error. */
  lemma ErrorRowsCount(errors: map<Field, Problem>)
    ensures |ErrorRows(errors)| == |errors|
    ensures ErrorRows(errors) == [] <==> errors == map[]
  {
    KeyOrderFacts(errors);
    ErrorRowsFollowKeys(errors);
    if errors != map[] {
      var f :| f in errors;
      assert |errors| > 0;
    }
  }
}
