/**
 * The create page's form and its validator. The form is the page's
 * `formData` object: a dictionary from its 27 field keys to a text, a flag or
 * a list. A key may be missing when a stored draft lacked it; a missing
 * value reads like JavaScript's `undefined` (falsy, empty).
 */
module CreateForm {
  import opened Optional
  import opened Text
  import opened Runtime

  datatype Field =
    | Name | Description | Service | Component
    | MetricSource | MetricType | TargetValue | EvaluationWindow | MetricQuery
    | AlertingEnabled | AlertThreshold | AlertSeverity | AlertChannels
    | EscalationTime | AlertRecipients | CustomAlertMessage
    | Priority | OwnerTeam | Dependencies | ErrorBudget | BurnRateThreshold | Tags | DocumentationUrl
    | VersionControlEnabled | AutoRemediationEnabled | MaintenanceModeEnabled | HistoricalAnalysisEnabled

  /** The object key of each field. */
  function Key(f: Field): string {
    match f
    case Name => "name"
    case Description => "description"
    case Service => "service"
    case Component => "component"
    case MetricSource => "metricSource"
    case MetricType => "metricType"
    case TargetValue => "targetValue"
    case EvaluationWindow => "evaluationWindow"
    case MetricQuery => "metricQuery"
    case AlertingEnabled => "alertingEnabled"
    case AlertThreshold => "alertThreshold"
    case AlertSeverity => "alertSeverity"
    case AlertChannels => "alertChannels"
    case EscalationTime => "escalationTime"
    case AlertRecipients => "alertRecipients"
    case CustomAlertMessage => "customAlertMessage"
    case Priority => "priority"
    case OwnerTeam => "ownerTeam"
    case Dependencies => "dependencies"
    case ErrorBudget => "errorBudget"
    case BurnRateThreshold => "burnRateThreshold"
    case Tags => "tags"
    case DocumentationUrl => "documentationUrl"
    case VersionControlEnabled => "versionControlEnabled"
    case AutoRemediationEnabled => "autoRemediationEnabled"
    case MaintenanceModeEnabled => "maintenanceModeEnabled"
    case HistoricalAnalysisEnabled => "historicalAnalysisEnabled"
  }

  /** A field value: a text input, a toggle, or a multi-select. */
  datatype Value = Text(text: string) | Flag(flag: bool) | Items(items: seq<string>)

  type Form = map<Field, Value>

  /** The kind of value each field holds. */
  predicate Fits(f: Field, v: Value) {
    match f
    case AlertingEnabled | VersionControlEnabled | AutoRemediationEnabled
       | MaintenanceModeEnabled | HistoricalAnalysisEnabled => v.Flag?
    case AlertChannels | Dependencies => v.Items?
    case _ => v.Text?
  }

  /** Every field. */
  const AllFields: set<Field> := {
    Name, Description, Service, Component,
    MetricSource, MetricType, TargetValue, EvaluationWindow, MetricQuery,
    AlertingEnabled, AlertThreshold, AlertSeverity, AlertChannels,
    EscalationTime, AlertRecipients, CustomAlertMessage,
    Priority, OwnerTeam, Dependencies, ErrorBudget, BurnRateThreshold, Tags, DocumentationUrl,
    VersionControlEnabled, AutoRemediationEnabled, MaintenanceModeEnabled, HistoricalAnalysisEnabled}

  /** Each field's initial value: empty texts and lists, priority "medium", two toggles on. */
  function DefaultValue(f: Field): Value {
    match f
    case AlertingEnabled | AutoRemediationEnabled | MaintenanceModeEnabled => Flag(false)
    case VersionControlEnabled | HistoricalAnalysisEnabled => Flag(true)
    case AlertChannels | Dependencies => Items([])
    case Priority => Text("medium")
    case _ => Text("")
  }

  /** The form the page starts with. */
  const DefaultForm: Form := map f | f in AllFields :: DefaultValue(f)

  /** Every field present with a value of its kind. */
  predicate WellTyped(form: Form) {
    forall f :: f in form ==> Fits(f, form[f])
  }

  lemma FieldListed(f: Field)
    ensures f in AllFields
  {
  }

  lemma DefaultFormWellTyped()
    ensures WellTyped(DefaultForm)
    ensures forall f :: f in DefaultForm
  {
    forall f
      ensures f in DefaultForm
    {
      FieldListed(f);
    }
  }

  // ----------------------------------------------------------- reading values

  /** A text field's string; a missing value reads as empty. */
  function TextOf(form: Form, f: Field): string {
    if f in form && form[f].Text? then form[f].text else ""
  }

  /** A list field's entries; a missing value reads as none. */
  function ItemsOf(form: Form, f: Field): seq<string> {
    if f in form && form[f].Items? then form[f].items else []
  }

  /** A toggle is on. */
  predicate FlagOn(form: Form, f: Field) {
    f in form && form[f] == Flag(true)
  }

  /** `formData.<f>` is truthy, for a text field. */
  predicate Filled(form: Form, f: Field) {
    TextOf(form, f) != ""
  }

  // ------------------------------------------------------------------ rules

  /** The fields that only matter while alerting is enabled. */
  predicate IsAlertField(f: Field) {
    f == AlertThreshold || f == AlertSeverity || f == AlertChannels
  }

  /** The validator's messages, one per way a field can fail. */
  datatype Problem =
    | NameRequired | NameTooShort | DescriptionRequired | DescriptionTooShort
    | ServiceRequired | ComponentRequired | MetricSourceRequired | MetricTypeRequired
    | TargetRequired | TargetOutOfRange | WindowRequired | QueryRequired
    | ThresholdRequired | ThresholdOutOfRange | SeverityRequired | ChannelsRequired
    | BudgetOutOfRange | BurnRateNegative | InvalidUrl

  /** The text the page shows for each problem. */
  function Message(p: Problem): string {
    match p
    case NameRequired => "SLO name is required"
    case NameTooShort => "SLO name must be at least 3 characters"
    case DescriptionRequired => "Description is required"
    case DescriptionTooShort => "Description must be at least 10 characters"
    case ServiceRequired => "Service selection is required"
    case ComponentRequired => "Component selection is required"
    case MetricSourceRequired => "Metric source is required"
    case MetricTypeRequired => "Metric type is required"
    case TargetRequired => "Target value is required"
    case TargetOutOfRange => "Target value must be between 0 and 100"
    case WindowRequired => "Evaluation window is required"
    case QueryRequired => "Metric query is required"
    case ThresholdRequired => "Alert threshold is required when alerting is enabled"
    case ThresholdOutOfRange => "Alert threshold must be between 0 and 100"
    case SeverityRequired => "Alert severity is required when alerting is enabled"
    case ChannelsRequired => "At least one notification channel is required"
    case BudgetOutOfRange => "Error budget must be between 0 and 100"
    case BurnRateNegative => "Burn rate threshold must be a positive number"
    case InvalidUrl => "Please enter a valid URL"
  }

  /**
   * The problem `validateForm` records under key `f`, or `None` when it
   * records none. A rule reads only its own field, and an alert rule also
   * the alerting toggle.
   */
  function RuleError(form: Form, f: Field, js: Js): Option<Problem> {
    Rule(f, TextOf(form, f), ItemsOf(form, f), IsAlertField(f) && FlagOn(form, AlertingEnabled), js)
  }

  /** Field `f`'s rule, given its text, its list, and whether alerting applies to it. */
  function Rule(f: Field, text: string, items: seq<string>, alerting: bool, js: Js): Option<Problem> {
    match f
    case Name => NameRule(text)
    case Description => DescriptionRule(text)
    case Service => Present(text, ServiceRequired)
    case Component => Present(text, ComponentRequired)
    case MetricSource => Present(text, MetricSourceRequired)
    case MetricType => Present(text, MetricTypeRequired)
    case TargetValue => TargetRule(text, js)
    case EvaluationWindow => Present(text, WindowRequired)
    case MetricQuery => QueryRule(text)
    case AlertThreshold => ThresholdRule(text, alerting, js)
    case AlertSeverity => if alerting then Present(text, SeverityRequired) else None
    case AlertChannels => ChannelsRule(items, alerting)
    case ErrorBudget => BudgetRule(text, js)
    case BurnRateThreshold => BurnRateRule(text, js)
    case DocumentationUrl => UrlRule(text, js)
    case _ => None
  }

  /*
   * `!text.trim()` is written `AllSpace(text)`, its equivalent
   * (`Text.BlankIffAllSpace`).
   */

  /** A selection or text that only has to be present. */
  function Present(text: string, p: Problem): Option<Problem> {
    if text == "" then Some(p) else None
  }

  function NameRule(text: string): Option<Problem> {
    if AllSpace(text) then Some(NameRequired)
    else if Utf16Length(text) < 3 then Some(NameTooShort)
    else None
  }

  function DescriptionRule(text: string): Option<Problem> {
    if AllSpace(text) then Some(DescriptionRequired)
    else if Utf16Length(text) < 10 then Some(DescriptionTooShort)
    else None
  }

  function TargetRule(text: string, js: Js): Option<Problem> {
    if text == "" then Some(TargetRequired)
    else if !Percent(js.parseFloat(text)) then Some(TargetOutOfRange)
    else None
  }

  function QueryRule(text: string): Option<Problem> {
    if AllSpace(text) then Some(QueryRequired) else None
  }

  function ThresholdRule(text: string, alerting: bool, js: Js): Option<Problem> {
    if !alerting then None
    else if text == "" then Some(ThresholdRequired)
    else if !Percent(js.parseFloat(text)) then Some(ThresholdOutOfRange)
    else None
  }

  function ChannelsRule(items: seq<string>, alerting: bool): Option<Problem> {
    if alerting && items == [] then Some(ChannelsRequired) else None
  }

  function BudgetRule(text: string, js: Js): Option<Problem> {
    if text != "" && !Percent(js.parseFloat(text)) then Some(BudgetOutOfRange) else None
  }

  function BurnRateRule(text: string, js: Js): Option<Problem> {
    var rate := js.parseFloat(text);
    if text != "" && (rate.None? || rate.value < 0.0) then Some(BurnRateNegative) else None
  }

  function UrlRule(text: string, js: Js): Option<Problem> {
    if text != "" && !js.isUrl(text) then Some(InvalidUrl) else None
  }

  /** The fields `validateForm` checks. */
  const Checked: set<Field> := {Name, Description, Service, Component, MetricSource, MetricType,
    TargetValue, EvaluationWindow, MetricQuery, AlertThreshold, AlertSeverity, AlertChannels,
    ErrorBudget, BurnRateThreshold, DocumentationUrl}

  /**
   * A field's place in the order `validateForm` writes its keys (the check
   * order, 0 to 14), followed by the fields it never checks (15 to 26).
   */
  function Rank(f: Field): nat {
    match f
    case Name => 0
    case Description => 1
    case Service => 2
    case Component => 3
    case MetricSource => 4
    case MetricType => 5
    case TargetValue => 6
    case EvaluationWindow => 7
    case MetricQuery => 8
    case AlertThreshold => 9
    case AlertSeverity => 10
    case AlertChannels => 11
    case ErrorBudget => 12
    case BurnRateThreshold => 13
    case DocumentationUrl => 14
    case AlertingEnabled => 15
    case EscalationTime => 16
    case AlertRecipients => 17
    case CustomAlertMessage => 18
    case Priority => 19
    case OwnerTeam => 20
    case Dependencies => 21
    case Tags => 22
    case VersionControlEnabled => 23
    case AutoRemediationEnabled => 24
    case MaintenanceModeEnabled => 25
    case HistoricalAnalysisEnabled => 26
  }

  /** The field of each rank below 27; every larger number names the last. */
  function FieldOfRank(r: nat): Field {
    match r
    case 0 => Name
    case 1 => Description
    case 2 => Service
    case 3 => Component
    case 4 => MetricSource
    case 5 => MetricType
    case 6 => TargetValue
    case 7 => EvaluationWindow
    case 8 => MetricQuery
    case 9 => AlertThreshold
    case 10 => AlertSeverity
    case 11 => AlertChannels
    case 12 => ErrorBudget
    case 13 => BurnRateThreshold
    case 14 => DocumentationUrl
    case 15 => AlertingEnabled
    case 16 => EscalationTime
    case 17 => AlertRecipients
    case 18 => CustomAlertMessage
    case 19 => Priority
    case 20 => OwnerTeam
    case 21 => Dependencies
    case 22 => Tags
    case 23 => VersionControlEnabled
    case 24 => AutoRemediationEnabled
    case 25 => MaintenanceModeEnabled
    case _ => HistoricalAnalysisEnabled
  }

  /** Each rank below 27 is the rank of its field. */
  lemma RankOfField(r: nat)
    requires r < 27
    ensures Rank(FieldOfRank(r)) == r
  {
  }

  /** Ranks number the fields 0 to 26, one each. */
  lemma RankInverse(f: Field)
    ensures Rank(f) < 27 && FieldOfRank(Rank(f)) == f
  {
  }

  /** The checked fields are exactly those of rank below 15. */
  lemma CheckedRanks(f: Field)
    ensures f in Checked <==> Rank(f) < 15
  {
  }

  /** The fields of `s` come in strictly increasing rank. */
  predicate InRankOrder(s: seq<Field>) {
    forall i, j :: 0 <= i < j < |s| ==> Rank(s[i]) < Rank(s[j])
  }

  /** The messages of the fields in `done` whose rule fails. */
  function ErrorsOver(form: Form, js: Js, done: set<Field>): map<Field, Problem> {
    map f | f in done && RuleError(form, f, js).Some? :: RuleError(form, f, js).value
  }

  /** The dictionary `validateForm` builds: one message per failing field. */
  function Errors(form: Form, js: Js): map<Field, Problem> {
    ErrorsOver(form, js, Checked)
  }

  /** One check: field `g`'s message written into `m` when its rule fails. */
  function Step(form: Form, js: Js, m: map<Field, Problem>, g: Field): map<Field, Problem> {
    var p := RuleError(form, g, js);
    if p.Some? then m[g := p.value] else m
  }

  /** Checking one more field adds its message when its rule fails, and nothing otherwise. */
  lemma AddRule(form: Form, js: Js, done: set<Field>, g: Field)
    ensures ErrorsOver(form, js, done + {g}) == Step(form, js, ErrorsOver(form, js, done), g)
  {
  }

  /** The fields `validateForm` checks, one at a time in the page's order, are the checked fields. */
  lemma CheckOrderCovers()
    ensures {} + {Name} + {Description} + {Service} + {Component} + {MetricSource} + {MetricType}
      + {TargetValue} + {EvaluationWindow} + {MetricQuery} + {AlertThreshold} + {AlertSeverity}
      + {AlertChannels} + {ErrorBudget} + {BurnRateThreshold} + {DocumentationUrl} == Checked
  {
    var basic := {} + {Name} + {Description} + {Service} + {Component};
    assert basic == {Name, Description, Service, Component};
    var metric := basic + {MetricSource} + {MetricType} + {TargetValue} + {EvaluationWindow} + {MetricQuery};
    assert metric == {Name, Description, Service, Component, MetricSource, MetricType,
      TargetValue, EvaluationWindow, MetricQuery};
    var alerting := metric + {AlertThreshold} + {AlertSeverity} + {AlertChannels};
    assert alerting == {Name, Description, Service, Component, MetricSource, MetricType,
      TargetValue, EvaluationWindow, MetricQuery, AlertThreshold, AlertSeverity, AlertChannels};
  }

  /** Before any check the dictionary is empty. */
  lemma NothingChecked(form: Form, js: Js)
    ensures ErrorsOver(form, js, {}) == map[]
  {
  }

  /**
   * `validateForm`'s body: starting from an empty `newErrors`, the checks
   * in the page's order, each writing its field's message. The result is
   * the validator's dictionary.
   */
  method BuildErrors(form: Form, js: Js) returns (newErrors: map<Field, Problem>)
    ensures newErrors == Errors(form, js)
  {
    newErrors := map[];
    ghost var done: set<Field> := {};
    NothingChecked(form, js);
    newErrors := CheckName(form, js, newErrors);
    AddRule(form, js, done, Name);
    done := done + {Name};
    newErrors := CheckDescription(form, js, newErrors);
    AddRule(form, js, done, Description);
    done := done + {Description};
    newErrors := CheckService(form, js, newErrors);
    AddRule(form, js, done, Service);
    done := done + {Service};
    newErrors := CheckComponent(form, js, newErrors);
    AddRule(form, js, done, Component);
    done := done + {Component};
    newErrors := CheckMetricSource(form, js, newErrors);
    AddRule(form, js, done, MetricSource);
    done := done + {MetricSource};
    newErrors := CheckMetricType(form, js, newErrors);
    AddRule(form, js, done, MetricType);
    done := done + {MetricType};
    newErrors := CheckTarget(form, js, newErrors);
    AddRule(form, js, done, TargetValue);
    done := done + {TargetValue};
    newErrors := CheckWindow(form, js, newErrors);
    AddRule(form, js, done, EvaluationWindow);
    done := done + {EvaluationWindow};
    newErrors := CheckQuery(form, js, newErrors);
    AddRule(form, js, done, MetricQuery);
    done := done + {MetricQuery};
    newErrors := CheckAlerting(form, js, newErrors);
    AddRule(form, js, done, AlertThreshold);
    done := done + {AlertThreshold};
    AddRule(form, js, done, AlertSeverity);
    done := done + {AlertSeverity};
    AddRule(form, js, done, AlertChannels);
    done := done + {AlertChannels};
    newErrors := CheckBudget(form, js, newErrors);
    AddRule(form, js, done, ErrorBudget);
    done := done + {ErrorBudget};
    newErrors := CheckBurnRate(form, js, newErrors);
    AddRule(form, js, done, BurnRateThreshold);
    done := done + {BurnRateThreshold};
    newErrors := CheckUrl(form, js, newErrors);
    AddRule(form, js, done, DocumentationUrl);
    done := done + {DocumentationUrl};
    CheckOrderCovers();
  }

  /** The name: blank once trimmed, or shorter than 3 UTF-16 code units. */
  method CheckName(form: Form, js: Js, errors: map<Field, Problem>) returns (newErrors: map<Field, Problem>)
    ensures newErrors == Step(form, js, errors, Name)
  {
    newErrors := errors;
    var name := TextOf(form, Name);
    if AllSpace(name) {
      newErrors := newErrors[Name := NameRequired];
    } else if Utf16Length(name) < 3 {
      newErrors := newErrors[Name := NameTooShort];
    }
  }

  /** The description: blank once trimmed, or shorter than 10 UTF-16 code units. */
  method CheckDescription(form: Form, js: Js, errors: map<Field, Problem>) returns (newErrors: map<Field, Problem>)
    ensures newErrors == Step(form, js, errors, Description)
  {
    newErrors := errors;
    var description := TextOf(form, Description);
    if AllSpace(description) {
      newErrors := newErrors[Description := DescriptionRequired];
    } else if Utf16Length(description) < 10 {
      newErrors := newErrors[Description := DescriptionTooShort];
    }
  }

  /** The service selection. */
  method CheckService(form: Form, js: Js, errors: map<Field, Problem>) returns (newErrors: map<Field, Problem>)
    ensures newErrors == Step(form, js, errors, Service)
  {
    newErrors := errors;
    if !Filled(form, Service) {
      newErrors := newErrors[Service := ServiceRequired];
    }
  }

  /** The component selection. */
  method CheckComponent(form: Form, js: Js, errors: map<Field, Problem>) returns (newErrors: map<Field, Problem>)
    ensures newErrors == Step(form, js, errors, Component)
  {
    newErrors := errors;
    if !Filled(form, Component) {
      newErrors := newErrors[Component := ComponentRequired];
    }
  }

  /** The metric source. */
  method CheckMetricSource(form: Form, js: Js, errors: map<Field, Problem>) returns (newErrors: map<Field, Problem>)
    ensures newErrors == Step(form, js, errors, MetricSource)
  {
    newErrors := errors;
    if !Filled(form, MetricSource) {
      newErrors := newErrors[MetricSource := MetricSourceRequired];
    }
  }

  /** The metric type. */
  method CheckMetricType(form: Form, js: Js, errors: map<Field, Problem>) returns (newErrors: map<Field, Problem>)
    ensures newErrors == Step(form, js, errors, MetricType)
  {
    newErrors := errors;
    if !Filled(form, MetricType) {
      newErrors := newErrors[MetricType := MetricTypeRequired];
    }
  }

  /** The target: present, and a number in [0, 100]. */
  method CheckTarget(form: Form, js: Js, errors: map<Field, Problem>) returns (newErrors: map<Field, Problem>)
    ensures newErrors == Step(form, js, errors, TargetValue)
  {
    newErrors := errors;
    if !Filled(form, TargetValue) {
      newErrors := newErrors[TargetValue := TargetRequired];
    } else {
      var target := js.parseFloat(TextOf(form, TargetValue));
      if !Percent(target) {
        newErrors := newErrors[TargetValue := TargetOutOfRange];
      }
    }
  }

  /** The evaluation window. */
  method CheckWindow(form: Form, js: Js, errors: map<Field, Problem>) returns (newErrors: map<Field, Problem>)
    ensures newErrors == Step(form, js, errors, EvaluationWindow)
  {
    newErrors := errors;
    if !Filled(form, EvaluationWindow) {
      newErrors := newErrors[EvaluationWindow := WindowRequired];
    }
  }

  /** The metric query: not blank once trimmed. */
  method CheckQuery(form: Form, js: Js, errors: map<Field, Problem>) returns (newErrors: map<Field, Problem>)
    ensures newErrors == Step(form, js, errors, MetricQuery)
  {
    newErrors := errors;
    if AllSpace(TextOf(form, MetricQuery)) {
      newErrors := newErrors[MetricQuery := QueryRequired];
    }
  }

  /** Alerting, checked only while it is enabled: a threshold in [0, 100], a severity, a channel. */
  method CheckAlerting(form: Form, js: Js, errors: map<Field, Problem>) returns (newErrors: map<Field, Problem>)
    ensures newErrors == Step(form, js, Step(form, js, Step(form, js, errors, AlertThreshold), AlertSeverity), AlertChannels)
  {
    newErrors := errors;
    if FlagOn(form, AlertingEnabled) {
      if !Filled(form, AlertThreshold) {
        newErrors := newErrors[AlertThreshold := ThresholdRequired];
      } else {
        var threshold := js.parseFloat(TextOf(form, AlertThreshold));
        if !Percent(threshold) {
          newErrors := newErrors[AlertThreshold := ThresholdOutOfRange];
        }
      }
      ghost var afterThreshold := newErrors;
      assert afterThreshold == Step(form, js, errors, AlertThreshold);

      if !Filled(form, AlertSeverity) {
        newErrors := newErrors[AlertSeverity := SeverityRequired];
      }
      ghost var afterSeverity := newErrors;
      assert afterSeverity == Step(form, js, afterThreshold, AlertSeverity);

      if ItemsOf(form, AlertChannels) == [] {
        newErrors := newErrors[AlertChannels := ChannelsRequired];
      }
      assert newErrors == Step(form, js, afterSeverity, AlertChannels);
    }
  }

  /** The error budget, when filled: a number in [0, 100]. */
  method CheckBudget(form: Form, js: Js, errors: map<Field, Problem>) returns (newErrors: map<Field, Problem>)
    ensures newErrors == Step(form, js, errors, ErrorBudget)
  {
    newErrors := errors;
    if Filled(form, ErrorBudget) {
      var budget := js.parseFloat(TextOf(form, ErrorBudget));
      if !Percent(budget) {
        newErrors := newErrors[ErrorBudget := BudgetOutOfRange];
      }
    }
  }

  /** The burn-rate threshold, when filled: a number, not negative. */
  method CheckBurnRate(form: Form, js: Js, errors: map<Field, Problem>) returns (newErrors: map<Field, Problem>)
    ensures newErrors == Step(form, js, errors, BurnRateThreshold)
  {
    newErrors := errors;
    if Filled(form, BurnRateThreshold) {
      var burnRate := js.parseFloat(TextOf(form, BurnRateThreshold));
      if burnRate.None? || burnRate.value < 0.0 {
        newErrors := newErrors[BurnRateThreshold := BurnRateNegative];
      }
    }
  }

  /** The documentation link, when filled: a URL the browser parses. */
  method CheckUrl(form: Form, js: Js, errors: map<Field, Problem>) returns (newErrors: map<Field, Problem>)
    ensures newErrors == Step(form, js, errors, DocumentationUrl)
  {
    newErrors := errors;
    if Filled(form, DocumentationUrl) && !js.isUrl(TextOf(form, DocumentationUrl)) {
      newErrors := newErrors[DocumentationUrl := InvalidUrl];
    }
  }

  // ---------------------------------------------------------------- lemmas

  /** A key is present exactly when its rule fails, holding that rule's message. */
  lemma ErrorsKeys(form: Form, js: Js, f: Field)
    ensures f in Errors(form, js) <==> RuleError(form, f, js).Some?
    ensures f in Errors(form, js) ==> Errors(form, js)[f] == RuleError(form, f, js).value
  {
    if f !in Checked {
      assert RuleError(form, f, js) == None;
    }
  }

  /** The dictionary is empty exactly when no checked rule fails. */
  lemma EmptyIffNoRuleFails(form: Form, js: Js)
    ensures Errors(form, js) == map[] <==> forall f :: f in Checked ==> RuleError(form, f, js) == None
  {
    if forall f :: f in Checked ==> RuleError(form, f, js) == None {
      assert forall f :: f !in Errors(form, js);
    }
    if Errors(form, js) == map[] {
      forall f | f in Checked
        ensures RuleError(form, f, js) == None
      {
        assert f !in Errors(form, js);
      }
    }
  }

  /** With alerting off no alert key appears, whatever the alert fields hold. */
  lemma AlertingOffNoAlertKeys(form: Form, js: Js)
    requires !FlagOn(form, AlertingEnabled)
    ensures AlertThreshold !in Errors(form, js)
    ensures AlertSeverity !in Errors(form, js)
    ensures AlertChannels !in Errors(form, js)
  {
  }

  /** With alerting on and the alert fields untouched, all three alert keys appear. */
  lemma AlertingOnEmptyAlertKeys(form: Form, js: Js)
    requires FlagOn(form, AlertingEnabled)
    requires TextOf(form, AlertThreshold) == "" && TextOf(form, AlertSeverity) == ""
    requires ItemsOf(form, AlertChannels) == []
    ensures AlertThreshold in Errors(form, js) && AlertSeverity in Errors(form, js)
    ensures AlertChannels in Errors(form, js)
  {
    ErrorsKeys(form, js, AlertThreshold);
    ErrorsKeys(form, js, AlertSeverity);
    ErrorsKeys(form, js, AlertChannels);
  }

  /** A name that is not blank but shorter than 3 UTF-16 code units gets the length message. */
  lemma ShortNameMessage(form: Form, js: Js)
    requires !IsBlank(TextOf(form, Name)) && Utf16Length(TextOf(form, Name)) < 3
    ensures Name in Errors(form, js)
    ensures Errors(form, js)[Name] == NameTooShort
  {
    BlankIffAllSpace(TextOf(form, Name));
    ErrorsKeys(form, js, Name);
  }

  /** Length counts code units: two characters above U+FFFF are long enough, one is not. */
  lemma NameLengthInCodeUnits()
    ensures NameRule("\U{1F600}\U{1F600}") == None
    ensures NameRule("\U{1F600}") == Some(NameTooShort)
  {
    assert Utf16Length("\U{1F600}") == 2;
    assert Utf16Length("\U{1F600}\U{1F600}") == 4;
  }

  /** A name of only white space is "required", however long: the length test sees the untrimmed text. */
  lemma BlankNameRequired(form: Form, js: Js)
    requires IsBlank(TextOf(form, Name))
    ensures Name in Errors(form, js) && Errors(form, js)[Name] == NameRequired
  {
    BlankIffAllSpace(TextOf(form, Name));
    ErrorsKeys(form, js, Name);
  }

  /** The target is checked as a number only once present: empty is "required", a non-number or out of range is the range message. */
  lemma TargetMessages(form: Form, js: Js)
    ensures TextOf(form, TargetValue) == "" ==> Errors(form, js)[TargetValue] == TargetRequired
    ensures TextOf(form, TargetValue) != "" && !Percent(js.parseFloat(TextOf(form, TargetValue))) ==>
      Errors(form, js)[TargetValue] == TargetOutOfRange
    ensures TargetValue in Errors(form, js) <==>
      TextOf(form, TargetValue) == "" || !Percent(js.parseFloat(TextOf(form, TargetValue)))
  {
    ErrorsKeys(form, js, TargetValue);
  }

  /** The optional fields are checked only when filled: left empty they never produce a key. */
  lemma EmptyOptionalFieldsPass(form: Form, js: Js)
    requires !Filled(form, ErrorBudget) && !Filled(form, BurnRateThreshold) && !Filled(form, DocumentationUrl)
    ensures ErrorBudget !in Errors(form, js) && BurnRateThreshold !in Errors(form, js)
    ensures DocumentationUrl !in Errors(form, js)
  {
    ErrorsKeys(form, js, ErrorBudget);
    ErrorsKeys(form, js, BurnRateThreshold);
    ErrorsKeys(form, js, DocumentationUrl);
  }

  /** The nine fields every submission must fill. */
  const RequiredKeys: set<Field> :=
    {Name, Description, Service, Component, MetricSource, MetricType, TargetValue, EvaluationWindow, MetricQuery}

  /** The required fields are exactly those of rank below 9: they open the check order. */
  lemma RequiredRanks(f: Field)
    ensures f in RequiredKeys <==> Rank(f) < 9
  {
  }

  /** A form with every checked text empty and alerting off fails exactly the nine required fields. */
  lemma ClearFormErrors(form: Form, js: Js)
    requires TextOf(form, Name) == "" && TextOf(form, Description) == "" && TextOf(form, Service) == ""
    requires TextOf(form, Component) == "" && TextOf(form, MetricSource) == "" && TextOf(form, MetricType) == ""
    requires TextOf(form, TargetValue) == "" && TextOf(form, EvaluationWindow) == "" && TextOf(form, MetricQuery) == ""
    requires TextOf(form, ErrorBudget) == "" && TextOf(form, BurnRateThreshold) == ""
    requires TextOf(form, DocumentationUrl) == "" && !FlagOn(form, AlertingEnabled)
    ensures Errors(form, js).Keys == RequiredKeys
  {
    forall f | f in Checked
      ensures f in Errors(form, js) <==> f in RequiredKeys
    {
      ErrorsKeys(form, js, f);
    }
  }

  /** The untouched form fails exactly the nine required fields. */
  lemma DefaultFormErrors(js: Js)
    ensures Errors(DefaultForm, js).Keys == RequiredKeys
  {
    assert TextOf(DefaultForm, Name) == "" && TextOf(DefaultForm, Description) == "";
    assert TextOf(DefaultForm, Service) == "" && TextOf(DefaultForm, Component) == "";
    assert TextOf(DefaultForm, MetricSource) == "" && TextOf(DefaultForm, MetricType) == "";
    assert TextOf(DefaultForm, TargetValue) == "" && TextOf(DefaultForm, EvaluationWindow) == "";
    assert TextOf(DefaultForm, MetricQuery) == "" && TextOf(DefaultForm, ErrorBudget) == "";
    assert TextOf(DefaultForm, BurnRateThreshold) == "" && TextOf(DefaultForm, DocumentationUrl) == "";
    assert DefaultForm[AlertingEnabled] == Flag(false);
    ClearFormErrors(DefaultForm, js);
  }

  /**
   * A rule reads only its own field, and the alert rules also the alerting
   * toggle: editing one field cannot add or remove another field's error.
   */
  lemma RulesIndependent(form: Form, js: Js, g: Field, v: Value, f: Field)
    requires f != g && !(g == AlertingEnabled && IsAlertField(f))
    ensures RuleError(form[g := v], f, js) == RuleError(form, f, js)
  {
    var form' := form[g := v];
    assert TextOf(form', f) == TextOf(form, f);
    assert ItemsOf(form', f) == ItemsOf(form, f);
    assert (IsAlertField(f) && FlagOn(form', AlertingEnabled)) == (IsAlertField(f) && FlagOn(form, AlertingEnabled));
  }

  /**
   * Field `f`'s rule as it reads while alerting is on: for the alert fields
   * the message they show once alerting is switched on, for the others
   * their ordinary rule.
   */
  function SteadyRule(form: Form, f: Field, js: Js): Option<Problem> {
    Rule(f, TextOf(form, f), ItemsOf(form, f), IsAlertField(f), js)
  }

  /** The steady rule is the validator's rule except on an alert field while alerting is off. */
  lemma SteadyRuleAgrees(form: Form, js: Js, f: Field)
    ensures FlagOn(form, AlertingEnabled) || !IsAlertField(f) ==> RuleError(form, f, js) == SteadyRule(form, f, js)
    ensures IsAlertField(f) && !FlagOn(form, AlertingEnabled) ==> RuleError(form, f, js) == None
  {
  }

  /** The steady rule reads only its own field: not even the alerting toggle. */
  lemma SteadyRuleLocal(form: Form, js: Js, g: Field, v: Value, f: Field)
    requires f != g
    ensures SteadyRule(form[g := v], f, js) == SteadyRule(form, f, js)
  {
    assert TextOf(form[g := v], f) == TextOf(form, f);
    assert ItemsOf(form[g := v], f) == ItemsOf(form, f);
  }

  /**
   * The nine required fields are filled, the name and description long
   * enough, the target a percentage. A text that is only white space is
   * blank once trimmed (`Text.BlankIffAllSpace`).
   */
  predicate RequiredFilled(form: Form, js: Js) {
    && !AllSpace(TextOf(form, Name)) && Utf16Length(TextOf(form, Name)) >= 3
    && !AllSpace(TextOf(form, Description)) && Utf16Length(TextOf(form, Description)) >= 10
    && Filled(form, Service) && Filled(form, Component)
    && Filled(form, MetricSource) && Filled(form, MetricType)
    && Filled(form, TargetValue) && Percent(js.parseFloat(TextOf(form, TargetValue)))
    && Filled(form, EvaluationWindow) && !AllSpace(TextOf(form, MetricQuery))
  }

  /** With alerting on: a percentage threshold, a severity and at least one channel. */
  predicate AlertingComplete(form: Form, js: Js) {
    FlagOn(form, AlertingEnabled) ==>
      && Filled(form, AlertThreshold) && Percent(js.parseFloat(TextOf(form, AlertThreshold)))
      && Filled(form, AlertSeverity) && ItemsOf(form, AlertChannels) != []
  }

  /** Each optional field is empty or well formed. */
  predicate OptionalValid(form: Form, js: Js) {
    && (Filled(form, ErrorBudget) ==> Percent(js.parseFloat(TextOf(form, ErrorBudget))))
    && (Filled(form, BurnRateThreshold) ==>
          var rate := js.parseFloat(TextOf(form, BurnRateThreshold)); rate.Some? && rate.value >= 0.0)
    && (Filled(form, DocumentationUrl) ==> js.isUrl(TextOf(form, DocumentationUrl)))
  }

  /** What a form must satisfy to be accepted, stated field by field. */
  predicate Acceptable(form: Form, js: Js) {
    RequiredFilled(form, js) && AlertingComplete(form, js) && OptionalValid(form, js)
  }

  lemma RequiredRulesPass(form: Form, js: Js)
    ensures RequiredFilled(form, js) <==>
      && RuleError(form, Name, js) == None && RuleError(form, Description, js) == None
      && RuleError(form, Service, js) == None && RuleError(form, Component, js) == None
      && RuleError(form, MetricSource, js) == None && RuleError(form, MetricType, js) == None
      && RuleError(form, TargetValue, js) == None && RuleError(form, EvaluationWindow, js) == None
      && RuleError(form, MetricQuery, js) == None
  {
  }

  lemma AlertRulesPass(form: Form, js: Js)
    ensures AlertingComplete(form, js) <==>
      && RuleError(form, AlertThreshold, js) == None && RuleError(form, AlertSeverity, js) == None
      && RuleError(form, AlertChannels, js) == None
  {
  }

  lemma OptionalRulesPass(form: Form, js: Js)
    ensures OptionalValid(form, js) <==>
      && RuleError(form, ErrorBudget, js) == None && RuleError(form, BurnRateThreshold, js) == None
      && RuleError(form, DocumentationUrl, js) == None
  {
  }

  /** No checked rule fails exactly when each of the fifteen passes. */
  lemma CheckedPass(form: Form, js: Js)
    ensures (forall f :: f in Checked ==> RuleError(form, f, js) == None) <==>
      && RuleError(form, Name, js) == None && RuleError(form, Description, js) == None
      && RuleError(form, Service, js) == None && RuleError(form, Component, js) == None
      && RuleError(form, MetricSource, js) == None && RuleError(form, MetricType, js) == None
      && RuleError(form, TargetValue, js) == None && RuleError(form, EvaluationWindow, js) == None
      && RuleError(form, MetricQuery, js) == None && RuleError(form, AlertThreshold, js) == None
      && RuleError(form, AlertSeverity, js) == None && RuleError(form, AlertChannels, js) == None
      && RuleError(form, ErrorBudget, js) == None && RuleError(form, BurnRateThreshold, js) == None
      && RuleError(form, DocumentationUrl, js) == None
  {
    var all := forall f :: f in Checked ==> RuleError(form, f, js) == None;
    if !all {
      var f :| f in Checked && RuleError(form, f, js) != None;
      assert f == Name || f == Description || f == Service || f == Component || f == MetricSource
        || f == MetricType || f == TargetValue || f == EvaluationWindow || f == MetricQuery
        || f == AlertThreshold || f == AlertSeverity || f == AlertChannels || f == ErrorBudget
        || f == BurnRateThreshold || f == DocumentationUrl;
    }
  }

  /** The dictionary comes out empty exactly for an acceptable form. */
  lemma NoErrorsIffAcceptable(form: Form, js: Js)
    ensures Errors(form, js) == map[] <==> Acceptable(form, js)
  {
    EmptyIffNoRuleFails(form, js);
    CheckedPass(form, js);
    RequiredRulesPass(form, js);
    AlertRulesPass(form, js);
    OptionalRulesPass(form, js);
  }
}
