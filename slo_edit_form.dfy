/**
 * The edit form: the nine fields it takes from the SLO under edit, its
 * validator (no length minimums and no alert-threshold range, unlike the
 * create page), edits that blank their own error, and the two save buttons.
 */
module SloEditForm {
  import opened Optional
  import opened Text
  import opened Runtime
  import Docs

  /** The form's state object. */
  datatype EditData = EditData(
    name: string, description: string, service: string, metricSource: string,
    targetThreshold: string, evaluationWindow: string,
    alertingEnabled: bool, alertThreshold: string, notificationChannels: seq<string>)

  datatype EditField =
    | Name | Description | Service | MetricSource | TargetThreshold | EvaluationWindow
    | AlertingEnabled | AlertThreshold | NotificationChannels

  /** What an input hands to `handleInputChange`: a text, a checkbox state, or a multi-select. */
  datatype Input = Str(s: string) | Bool(b: bool) | List(items: seq<string>)

  /** The kind of input each field's widget produces. */
  predicate Fits(f: EditField, v: Input) {
    match f
    case AlertingEnabled => v.Bool?
    case NotificationChannels => v.List?
    case _ => v.Str?
  }

  /** Field `f` of the form, as its widget shows it. */
  function Read(e: EditData, f: EditField): (v: Input)
    ensures Fits(f, v)
  {
    match f
    case Name => Str(e.name)
    case Description => Str(e.description)
    case Service => Str(e.service)
    case MetricSource => Str(e.metricSource)
    case TargetThreshold => Str(e.targetThreshold)
    case EvaluationWindow => Str(e.evaluationWindow)
    case AlertingEnabled => Bool(e.alertingEnabled)
    case AlertThreshold => Str(e.alertThreshold)
    case NotificationChannels => List(e.notificationChannels)
  }

  /** `{ ...prev, [field]: value }`. */
  function Write(e: EditData, f: EditField, v: Input): (r: EditData)
    requires Fits(f, v)
    ensures Read(r, f) == v
    ensures forall g :: g != f ==> Read(r, g) == Read(e, g)
  {
    match f
    case Name => e.(name := v.s)
    case Description => e.(description := v.s)
    case Service => e.(service := v.s)
    case MetricSource => e.(metricSource := v.s)
    case TargetThreshold => e.(targetThreshold := v.s)
    case EvaluationWindow => e.(evaluationWindow := v.s)
    case AlertingEnabled => e.(alertingEnabled := v.b)
    case AlertThreshold => e.(alertThreshold := v.s)
    case NotificationChannels => e.(notificationChannels := v.items)
  }

  /** Two forms that read the same in every field are the same form. */
  lemma ReadsDetermine(e: EditData, e': EditData)
    requires forall f :: Read(e, f) == Read(e', f)
    ensures e == e'
  {
    assert Read(e, Name) == Read(e', Name) && Read(e, Description) == Read(e', Description);
    assert Read(e, Service) == Read(e', Service) && Read(e, MetricSource) == Read(e', MetricSource);
    assert Read(e, TargetThreshold) == Read(e', TargetThreshold);
    assert Read(e, EvaluationWindow) == Read(e', EvaluationWindow);
    assert Read(e, AlertingEnabled) == Read(e', AlertingEnabled);
    assert Read(e, AlertThreshold) == Read(e', AlertThreshold);
    assert Read(e, NotificationChannels) == Read(e', NotificationChannels);
  }

  // ------------------------------------------------------- to and from records

  /** `sloData?.k || ''` on a string property. */
  function TextOr(d: Docs.Doc, k: Docs.DocKey): string {
    match Docs.Get(d, k)
    case Some(JStr(s)) => s
    case _ => ""
  }

  /** `sloData?.alertingEnabled || false`. */
  function FlagOr(d: Docs.Doc, k: Docs.DocKey): bool {
    match Docs.Get(d, k)
    case Some(JBool(b)) => b
    case _ => false
  }

  /** `sloData?.notificationChannels || []`. */
  function ListOr(d: Docs.Doc, k: Docs.DocKey): seq<string> {
    match Docs.Get(d, k)
    case Some(JList(xs)) => xs
    case _ => []
  }

  /** The initial form: each field from the record, or empty, false or none when it is missing. */
  function InitialForm(d: Docs.Doc): EditData {
    EditData(
      TextOr(d, Docs.Name), TextOr(d, Docs.Description), TextOr(d, Docs.Service),
      TextOr(d, Docs.MetricSource), TextOr(d, Docs.TargetThreshold), TextOr(d, Docs.EvaluationWindow),
      FlagOr(d, Docs.AlertingEnabled), TextOr(d, Docs.AlertThreshold), ListOr(d, Docs.NotificationChannels))
  }

  /** The record `onSave(formData)` hands over: exactly the nine form properties. */
  function ToDoc(e: EditData): (d: Docs.Doc)
    ensures d.Keys == {Docs.Name, Docs.Description, Docs.Service, Docs.MetricSource, Docs.TargetThreshold,
      Docs.EvaluationWindow, Docs.AlertingEnabled, Docs.AlertThreshold, Docs.NotificationChannels}
  {
    map[Docs.Name := Docs.JStr(e.name), Docs.Description := Docs.JStr(e.description),
        Docs.Service := Docs.JStr(e.service), Docs.MetricSource := Docs.JStr(e.metricSource),
        Docs.TargetThreshold := Docs.JStr(e.targetThreshold),
        Docs.EvaluationWindow := Docs.JStr(e.evaluationWindow),
        Docs.AlertingEnabled := Docs.JBool(e.alertingEnabled),
        Docs.AlertThreshold := Docs.JStr(e.alertThreshold),
        Docs.NotificationChannels := Docs.JList(e.notificationChannels)]
  }

  /** A form saved as a record and opened again reads back unchanged, whatever else the record gains. */
  lemma {:induction false} RecordRoundTrip(e: EditData, extra: Docs.Doc)
    requires forall k :: k in extra ==> k !in ToDoc(e)
    ensures InitialForm(ToDoc(e) + extra) == e
  {
    var d := ToDoc(e) + extra;
    assert d[Docs.Name] == Docs.JStr(e.name) && d[Docs.Description] == Docs.JStr(e.description);
    assert d[Docs.Service] == Docs.JStr(e.service) && d[Docs.MetricSource] == Docs.JStr(e.metricSource);
    assert d[Docs.TargetThreshold] == Docs.JStr(e.targetThreshold);
    assert d[Docs.EvaluationWindow] == Docs.JStr(e.evaluationWindow);
    assert d[Docs.AlertingEnabled] == Docs.JBool(e.alertingEnabled);
    assert d[Docs.AlertThreshold] == Docs.JStr(e.alertThreshold);
    assert d[Docs.NotificationChannels] == Docs.JList(e.notificationChannels);
  }

  // ----------------------------------------------------------------- rules

  /** The validator's messages. */
  datatype EditProblem =
    | NameRequired | DescriptionRequired | ServiceRequired | MetricSourceRequired
    | ThresholdRequired | ThresholdOutOfRange | WindowRequired
    | AlertThresholdRequired | ChannelsRequired

  function Message(p: EditProblem): string {
    match p
    case NameRequired => "SLO name is required"
    case DescriptionRequired => "Description is required"
    case ServiceRequired => "Service selection is required"
    case MetricSourceRequired => "Metric source is required"
    case ThresholdRequired => "Target threshold is required"
    case ThresholdOutOfRange => "Threshold must be between 0 and 100"
    case WindowRequired => "Evaluation window is required"
    case AlertThresholdRequired => "Alert threshold is required when alerting is enabled"
    case ChannelsRequired => "At least one notification channel is required when alerting is enabled"
  }

  /**
   * Field `f`'s rule. `alerting` is the toggle as the two alert rules see it.
   * `!text.trim()` is written `AllSpace(text)`, its equivalent (`Text.BlankIffAllSpace`).
   */
  function Rule(e: EditData, f: EditField, alerting: bool, js: Js): Option<EditProblem> {
    match f
    case Name => if AllSpace(e.name) then Some(NameRequired) else None
    case Description => if AllSpace(e.description) then Some(DescriptionRequired) else None
    case Service => if e.service == "" then Some(ServiceRequired) else None
    case MetricSource => if e.metricSource == "" then Some(MetricSourceRequired) else None
    case TargetThreshold =>
      if e.targetThreshold == "" then Some(ThresholdRequired)
      else if !Percent(js.parseFloat(e.targetThreshold)) then Some(ThresholdOutOfRange)
      else None
    case EvaluationWindow => if e.evaluationWindow == "" then Some(WindowRequired) else None
    case AlertThreshold => if alerting && e.alertThreshold == "" then Some(AlertThresholdRequired) else None
    case NotificationChannels =>
      if alerting && |e.notificationChannels| == 0 then Some(ChannelsRequired) else None
    case AlertingEnabled => None
  }

  /** The fields whose rules read the alerting toggle. */
  predicate IsAlertField(f: EditField) {
    f == AlertThreshold || f == NotificationChannels
  }

  /** What `validateForm` records under `f`. */
  function RuleError(e: EditData, f: EditField, js: Js): Option<EditProblem> {
    Rule(e, f, e.alertingEnabled, js)
  }

  /** The messages of the fields in `done` whose rule fails. */
  function ErrorsOver(e: EditData, js: Js, done: set<EditField>): map<EditField, EditProblem> {
    map f | f in done && RuleError(e, f, js).Some? :: RuleError(e, f, js).value
  }

  /** The dictionary `validateForm` builds. */
  function EditErrors(e: EditData, js: Js): map<EditField, EditProblem> {
    ErrorsOver(e, js, Checked)
  }

  /** The fields `validateForm` checks: all but the alerting toggle. */
  const Checked: set<EditField> :=
    {Name, Description, Service, MetricSource, TargetThreshold, EvaluationWindow, AlertThreshold, NotificationChannels}

  /** One check: field `g`'s message written into `m` when its rule fails. */
  function Step(e: EditData, js: Js, m: map<EditField, EditProblem>, g: EditField): map<EditField, EditProblem> {
    var p := RuleError(e, g, js);
    if p.Some? then m[g := p.value] else m
  }

  /** Checking one more field adds its message when its rule fails, and nothing otherwise. */
  lemma AddRule(e: EditData, js: Js, done: set<EditField>, g: EditField)
    ensures ErrorsOver(e, js, done + {g}) == Step(e, js, ErrorsOver(e, js, done), g)
  {
  }

  /** Before any check the dictionary is empty. */
  lemma NothingChecked(e: EditData, js: Js)
    ensures ErrorsOver(e, js, {}) == map[]
  {
  }

  /** The fields `validateForm` checks, one at a time in the form's order, are the checked fields. */
  lemma CheckOrderCovers()
    ensures {} + {Name} + {Description} + {Service} + {MetricSource} + {TargetThreshold}
      + {EvaluationWindow} + {AlertThreshold} + {NotificationChannels} == Checked
  {
  }

  /**
   * `validateForm`'s body: starting from an empty `newErrors`, the eight
   * checks in the form's order, each writing its field's message. The
   * result is the validator's dictionary.
   */
  method BuildErrors(e: EditData, js: Js) returns (newErrors: map<EditField, EditProblem>)
    ensures newErrors == EditErrors(e, js)
  {
    newErrors := map[];
    ghost var done: set<EditField> := {};
    NothingChecked(e, js);
    newErrors := CheckName(e, js, newErrors);
    AddRule(e, js, done, Name);
    done := done + {Name};
    newErrors := CheckDescription(e, js, newErrors);
    AddRule(e, js, done, Description);
    done := done + {Description};
    newErrors := CheckService(e, js, newErrors);
    AddRule(e, js, done, Service);
    done := done + {Service};
    newErrors := CheckMetricSource(e, js, newErrors);
    AddRule(e, js, done, MetricSource);
    done := done + {MetricSource};
    newErrors := CheckThreshold(e, js, newErrors);
    AddRule(e, js, done, TargetThreshold);
    done := done + {TargetThreshold};
    newErrors := CheckWindow(e, js, newErrors);
    AddRule(e, js, done, EvaluationWindow);
    done := done + {EvaluationWindow};
    newErrors := CheckAlertThreshold(e, js, newErrors);
    AddRule(e, js, done, AlertThreshold);
    done := done + {AlertThreshold};
    newErrors := CheckChannels(e, js, newErrors);
    AddRule(e, js, done, NotificationChannels);
    done := done + {NotificationChannels};
    CheckOrderCovers();
  }

  /** The name: not blank once trimmed. */
  method CheckName(e: EditData, js: Js, errors: map<EditField, EditProblem>) returns (newErrors: map<EditField, EditProblem>)
    ensures newErrors == Step(e, js, errors, Name)
  {
    newErrors := errors;
    if AllSpace(e.name) {
      newErrors := newErrors[Name := NameRequired];
    }
  }

  /** The description: not blank once trimmed. */
  method CheckDescription(e: EditData, js: Js, errors: map<EditField, EditProblem>) returns (newErrors: map<EditField, EditProblem>)
    ensures newErrors == Step(e, js, errors, Description)
  {
    newErrors := errors;
    if AllSpace(e.description) {
      newErrors := newErrors[Description := DescriptionRequired];
    }
  }

  /** The service selection. */
  method CheckService(e: EditData, js: Js, errors: map<EditField, EditProblem>) returns (newErrors: map<EditField, EditProblem>)
    ensures newErrors == Step(e, js, errors, Service)
  {
    newErrors := errors;
    if e.service == "" {
      newErrors := newErrors[Service := ServiceRequired];
    }
  }

  /** The metric source. */
  method CheckMetricSource(e: EditData, js: Js, errors: map<EditField, EditProblem>) returns (newErrors: map<EditField, EditProblem>)
    ensures newErrors == Step(e, js, errors, MetricSource)
  {
    newErrors := errors;
    if e.metricSource == "" {
      newErrors := newErrors[MetricSource := MetricSourceRequired];
    }
  }

  /** The target threshold: present, and a number in [0, 100]. */
  method CheckThreshold(e: EditData, js: Js, errors: map<EditField, EditProblem>) returns (newErrors: map<EditField, EditProblem>)
    ensures newErrors == Step(e, js, errors, TargetThreshold)
  {
    newErrors := errors;
    if e.targetThreshold == "" {
      newErrors := newErrors[TargetThreshold := ThresholdRequired];
    } else {
      var threshold := js.parseFloat(e.targetThreshold);
      if !Percent(threshold) {
        newErrors := newErrors[TargetThreshold := ThresholdOutOfRange];
      }
    }
  }

  /** The evaluation window. */
  method CheckWindow(e: EditData, js: Js, errors: map<EditField, EditProblem>) returns (newErrors: map<EditField, EditProblem>)
    ensures newErrors == Step(e, js, errors, EvaluationWindow)
  {
    newErrors := errors;
    if e.evaluationWindow == "" {
      newErrors := newErrors[EvaluationWindow := WindowRequired];
    }
  }

  /** With alerting on, an alert threshold, of any value. */
  method CheckAlertThreshold(e: EditData, js: Js, errors: map<EditField, EditProblem>) returns (newErrors: map<EditField, EditProblem>)
    ensures newErrors == Step(e, js, errors, AlertThreshold)
  {
    newErrors := errors;
    if e.alertingEnabled && e.alertThreshold == "" {
      newErrors := newErrors[AlertThreshold := AlertThresholdRequired];
    }
  }

  /** With alerting on, at least one channel. */
  method CheckChannels(e: EditData, js: Js, errors: map<EditField, EditProblem>) returns (newErrors: map<EditField, EditProblem>)
    ensures newErrors == Step(e, js, errors, NotificationChannels)
  {
    newErrors := errors;
    if e.alertingEnabled && |e.notificationChannels| == 0 {
      newErrors := newErrors[NotificationChannels := ChannelsRequired];
    }
  }

  lemma EditErrorsKeys(e: EditData, js: Js, f: EditField)
    ensures f in EditErrors(e, js) <==> RuleError(e, f, js).Some?
    ensures f in EditErrors(e, js) ==> EditErrors(e, js)[f] == RuleError(e, f, js).value
  {
  }

  /** Any name that is not blank passes: there is no minimum length. */
  lemma NoNameMinimum(e: EditData, js: Js)
    ensures Name in EditErrors(e, js) <==> IsBlank(e.name)
    ensures e.name == "x" ==> Name !in EditErrors(e, js)
  {
    BlankIffAllSpace(e.name);
    if e.name == "x" {
      assert !IsSpace(e.name[0]);
    }
  }

  /** With alerting on, any non-empty alert threshold passes, whatever it parses to. */
  lemma AlertThresholdUnranged(e: EditData, js: Js)
    requires e.alertingEnabled
    ensures AlertThreshold in EditErrors(e, js) <==> e.alertThreshold == ""
    ensures NotificationChannels in EditErrors(e, js) <==> e.notificationChannels == []
  {
  }

  /** With alerting off neither alert key appears. */
  lemma AlertingOffNoAlertKeys(e: EditData, js: Js)
    requires !e.alertingEnabled
    ensures AlertThreshold !in EditErrors(e, js) && NotificationChannels !in EditErrors(e, js)
  {
  }

  /** The target threshold: empty is "required", a non-number or out of range is the range message. */
  lemma ThresholdMessages(e: EditData, js: Js)
    ensures e.targetThreshold == "" ==> EditErrors(e, js)[TargetThreshold] == ThresholdRequired
    ensures e.targetThreshold != "" && !Percent(js.parseFloat(e.targetThreshold)) ==>
      EditErrors(e, js)[TargetThreshold] == ThresholdOutOfRange
    ensures TargetThreshold in EditErrors(e, js) <==>
      e.targetThreshold == "" || !Percent(js.parseFloat(e.targetThreshold))
  {
  }

  /**
   * What the edit form must satisfy to save, stated field by field; a name
   * or description passes when it is not only white space.
   */
  predicate EditAcceptable(e: EditData, js: Js) {
    && !AllSpace(e.name) && !AllSpace(e.description)
    && e.service != "" && e.metricSource != "" && e.evaluationWindow != ""
    && e.targetThreshold != "" && Percent(js.parseFloat(e.targetThreshold))
    && (e.alertingEnabled ==> e.alertThreshold != "" && e.notificationChannels != [])
  }

  /** The dictionary comes out empty exactly for an acceptable form. */
  lemma {:induction false} NoEditErrorsIffAcceptable(e: EditData, js: Js)
    ensures EditErrors(e, js) == map[] <==> EditAcceptable(e, js)
  {
    if EditErrors(e, js) == map[] {
      NoErrorsAcceptable(e, js);
    }
    if EditAcceptable(e, js) {
      AcceptableNoErrors(e, js);
    }
  }

  lemma NoErrorsAcceptable(e: EditData, js: Js)
    requires EditErrors(e, js) == map[]
    ensures EditAcceptable(e, js)
  {
    forall f | f in Checked
      ensures RuleError(e, f, js).None?
    {
      assert f !in EditErrors(e, js);
    }
    assert Rule(e, Name, e.alertingEnabled, js).None? && Rule(e, Description, e.alertingEnabled, js).None?;
    assert Rule(e, Service, e.alertingEnabled, js).None? && Rule(e, MetricSource, e.alertingEnabled, js).None?;
    assert Rule(e, TargetThreshold, e.alertingEnabled, js).None?;
    assert Rule(e, EvaluationWindow, e.alertingEnabled, js).None?;
    assert Rule(e, AlertThreshold, e.alertingEnabled, js).None?;
    assert Rule(e, NotificationChannels, e.alertingEnabled, js).None?;
  }

  lemma AcceptableNoErrors(e: EditData, js: Js)
    requires EditAcceptable(e, js)
    ensures EditErrors(e, js) == map[]
  {
    assert forall f :: f !in EditErrors(e, js);
  }

  // ------------------------------------------------------------ form state

  /** An error entry: a message, or the empty string an edit leaves in its place. */
  datatype Shown = Cleared | Showing(problem: EditProblem)

  /** The text the field's `error` prop receives. */
  function ShownText(s: Shown): string {
    match s
    case Cleared => ""
    case Showing(p) => Message(p)
  }

  /** `setErrors(newErrors)`: every failing field shows its message. */
  function ShowAll(errors: map<EditField, EditProblem>): (r: map<EditField, Shown>)
    ensures r.Keys == errors.Keys
    ensures forall f :: f in errors ==> r[f] == Showing(errors[f])
  {
    map f | f in errors :: Showing(errors[f])
  }

  /** Field `f`'s rule as it reads while alerting is on. */
  function SteadyRule(e: EditData, f: EditField, js: Js): Option<EditProblem> {
    Rule(e, f, IsAlertField(f), js)
  }

  /**
   * Every message shown is its field's steady-rule message for the field's
   * current value; an edited field shows nothing until the next validation.
   */
  ghost predicate ShownSteady(e: EditData, errors: map<EditField, Shown>, js: Js) {
    forall f :: f in errors && errors[f].Showing? ==>
      f in Checked && SteadyRule(e, f, js) == Some(errors[f].problem)
  }

  lemma {:induction false} ValidatedSteady(e: EditData, js: Js)
    ensures ShownSteady(e, ShowAll(EditErrors(e, js)), js)
  {
    forall f | f in EditErrors(e, js)
      ensures f in Checked && SteadyRule(e, f, js) == Some(EditErrors(e, js)[f])
    {
      EditErrorsKeys(e, js, f);
    }
  }

  lemma {:induction false} SteadyRuleLocal(e: EditData, js: Js, g: EditField, v: Input, f: EditField)
    requires Fits(g, v) && f != g
    ensures SteadyRule(Write(e, g, v), f, js) == SteadyRule(e, f, js)
  {
    var e' := Write(e, g, v);
    assert Read(e', f) == Read(e, f);
  }

  lemma {:induction false} EditKeepsSteady(e: EditData, errors: map<EditField, Shown>, js: Js, g: EditField, v: Input)
    requires Fits(g, v) && ShownSteady(e, errors, js)
    ensures ShownSteady(Write(e, g, v), ClearOne(errors, g), js)
  {
    var errors' := ClearOne(errors, g);
    forall f | f in errors' && errors'[f].Showing?
      ensures f in Checked && SteadyRule(Write(e, g, v), f, js) == Some(errors'[f].problem)
    {
      SteadyRuleLocal(e, js, g, v, f);
    }
  }

  /** `if (errors?.[field]) errors[field] = ''`: only a showing message is blanked, and the key stays. */
  function ClearOne(errors: map<EditField, Shown>, f: EditField): (r: map<EditField, Shown>)
    ensures r.Keys == errors.Keys
    ensures f in r ==> r[f] == Cleared
    ensures forall g :: g in errors && g != f ==> r[g] == errors[g]
  {
    if f in errors && errors[f].Showing? then errors[f := Cleared] else errors
  }

  /** The form component's state. */
  class Form {
    /** `parseFloat` as the browser provides it. */
    const js: Js
    var data: EditData
    var errors: map<EditField, Shown>
    var hasChanges: bool

    ghost predicate Valid()
      reads this
    {
      ShownSteady(data, errors, js)
    }

    /** Mounting on the SLO under edit. */
    constructor (sloData: Docs.Doc, js: Js)
      ensures Valid() && this.js == js
      ensures data == InitialForm(sloData) && errors == map[] && !hasChanges
    {
      this.js := js;
      data := InitialForm(sloData);
      errors := map[];
      hasChanges := false;
    }

    /** `handleInputChange`: that field replaced, changes marked, that field's message blanked. */
    method InputChange(f: EditField, v: Input)
      requires Valid() && Fits(f, v)
      modifies this
      ensures Valid()
      ensures data == Write(old(data), f, v) && errors == ClearOne(old(errors), f) && hasChanges
    {
      EditKeepsSteady(data, errors, js, f, v);
      data := Write(data, f, v);
      hasChanges := true;
      if f in errors && errors[f].Showing? {
        errors := errors[f := Cleared];
      }
    }

    /** `validateForm`: records the messages and reports whether the form is acceptable. */
    method Validate() returns (valid: bool)
      requires Valid()
      modifies this
      ensures Valid()
      ensures errors == ShowAll(EditErrors(data, js)) && (valid <==> EditAcceptable(data, js))
      ensures data == old(data) && hasChanges == old(hasChanges)
    {
      var found := BuildErrors(data, js);
      errors := ShowAll(found);
      ValidatedSteady(data, js);
      NoEditErrorsIffAcceptable(data, js);
      valid := |found| == 0;
    }

    /** `handleSubmit`: hands the form's record to the page when it validates. */
    method Submit() returns (saved: Option<Docs.Doc>)
      requires Valid()
      modifies this
      ensures Valid()
      ensures errors == ShowAll(EditErrors(data, js)) && data == old(data) && hasChanges == old(hasChanges)
      ensures saved.Some? <==> EditAcceptable(data, js)
      ensures saved.Some? ==> saved.value == ToDoc(data)
    {
      var valid := Validate();
      saved := if valid then Some(ToDoc(data)) else None;
    }

    /** `handleSaveAsNew`: the same record with `saveAsNew: true`. */
    method SaveAsNew() returns (saved: Option<Docs.Doc>)
      requires Valid()
      modifies this
      ensures Valid()
      ensures errors == ShowAll(EditErrors(data, js)) && data == old(data) && hasChanges == old(hasChanges)
      ensures saved.Some? <==> EditAcceptable(data, js)
      ensures saved.Some? ==> saved.value == ToDoc(data)[Docs.SaveAsNew := Docs.JBool(true)]
    {
      var valid := Validate();
      saved := if valid then Some(ToDoc(data)[Docs.SaveAsNew := Docs.JBool(true)]) else None;
    }

    /** "Save Changes" is enabled only after an edit. */
    predicate SubmitEnabled()
      reads this
    {
      hasChanges
    }

    /** "Save as New Version" also waits while the page is saving. */
    predicate SaveAsNewEnabled(isLoading: bool)
      reads this
    {
      !isLoading && hasChanges
    }
  }
}
