/**
 * The filter toolbar: the per-field edits it hands to the page, the
 * threshold inputs' parse defaults, the "filters active" test, the results
 * line, the service and status options, and its expand/collapse flag.
 */
module FilterToolbar {
  import opened Optional
  import opened Text
  import opened Seqs
  import opened SloRecords

  // ------------------------------------------------------------------ edits

  /** One edit the toolbar can make; the threshold edits carry the raw input text. */
  datatype FilterEdit =
    | SetSearch(search: string)
    | SetService(service: string)
    | SetStatus(status: string)
    | SetMinText(minText: string)
    | SetMaxText(maxText: string)
    | SetDateFrom(dateFrom: string)
    | SetDateTo(dateTo: string)
    | SetOwner(owner: string)

  /** The fields of the filter record, for stating which one an edit touches. */
  datatype FilterField = Search | Service | Status | ThresholdMin | ThresholdMax | DateFrom | DateTo | Owner

  datatype FieldValue = Str(s: string) | Num(n: real)

  function Get(f: Filters, g: FilterField): FieldValue {
    match g
    case Search => Str(f.search)
    case Service => Str(f.service)
    case Status => Str(f.status)
    case ThresholdMin => Num(f.thresholdMin)
    case ThresholdMax => Num(f.thresholdMax)
    case DateFrom => Str(f.dateFrom)
    case DateTo => Str(f.dateTo)
    case Owner => Str(f.owner)
  }

  /** The field an edit replaces. */
  function Target(e: FilterEdit): FilterField {
    match e
    case SetSearch(_) => Search
    case SetService(_) => Service
    case SetStatus(_) => Status
    case SetMinText(_) => ThresholdMin
    case SetMaxText(_) => ThresholdMax
    case SetDateFrom(_) => DateFrom
    case SetDateTo(_) => DateTo
    case SetOwner(_) => Owner
  }

  /** `parseFloat(value) || 0`: the parsed number, 0 when the text does not parse. */
  function MinFromInput(text: string): real {
    match ParseFloat(text)
    case Some(v) => v
    case None => 0.0
  }

  /** `parseFloat(value) || 100`: the parsed number, 100 when the text does not parse or parses to 0. */
  function MaxFromInput(text: string): real {
    match ParseFloat(text)
    case Some(v) => if v != 0.0 then v else 100.0
    case None => 100.0
  }

  /** The value the edited field takes. */
  function NewValue(e: FilterEdit): FieldValue {
    match e
    case SetMinText(t) => Num(MinFromInput(t))
    case SetMaxText(t) => Num(MaxFromInput(t))
    case SetSearch(v) => Str(v)
    case SetService(v) => Str(v)
    case SetStatus(v) => Str(v)
    case SetDateFrom(v) => Str(v)
    case SetDateTo(v) => Str(v)
    case SetOwner(v) => Str(v)
  }

  /** `{ ...filters, <field>: value }` for the edit's field. */
  function ApplyEdit(f: Filters, e: FilterEdit): Filters {
    match e
    case SetSearch(v) => f.(search := v)
    case SetService(v) => f.(service := v)
    case SetStatus(v) => f.(status := v)
    case SetMinText(t) => f.(thresholdMin := MinFromInput(t))
    case SetMaxText(t) => f.(thresholdMax := MaxFromInput(t))
    case SetDateFrom(v) => f.(dateFrom := v)
    case SetDateTo(v) => f.(dateTo := v)
    case SetOwner(v) => f.(owner := v)
  }

  /** An edit sets its own field to the edited value and leaves the other seven as they were. */
  lemma ApplyEditFrame(f: Filters, e: FilterEdit)
    ensures Get(ApplyEdit(f, e), Target(e)) == NewValue(e)
    ensures forall g :: g != Target(e) ==> Get(ApplyEdit(f, e), g) == Get(f, g)
  {
    match e
    case SetSearch(_) =>
    case SetService(_) =>
    case SetStatus(_) =>
    case SetMinText(_) =>
    case SetMaxText(_) =>
    case SetDateFrom(_) =>
    case SetDateTo(_) =>
    case SetOwner(_) =>
  }

  /** Two records with the same fields are the same record. */
  lemma FieldsDetermine(f: Filters, h: Filters)
    requires forall g :: Get(f, g) == Get(h, g)
    ensures f == h
  {
    assert Get(f, Search) == Get(h, Search) && Get(f, Service) == Get(h, Service);
    assert Get(f, Status) == Get(h, Status) && Get(f, ThresholdMin) == Get(h, ThresholdMin);
    assert Get(f, ThresholdMax) == Get(h, ThresholdMax) && Get(f, DateFrom) == Get(h, DateFrom);
    assert Get(f, DateTo) == Get(h, DateTo) && Get(f, Owner) == Get(h, Owner);
  }

  /** Typing a whole number into the minimum sets exactly that number. */
  lemma MinTypedNumber(n: nat)
    ensures MinFromInput(NatToString(n)) == n as real
  {
    ParseFloatNat(n);
  }

  /** Typing a positive whole number into the maximum sets it; typing 0 or nothing gives 100. */
  lemma MaxTypedNumber(n: nat)
    ensures n > 0 ==> MaxFromInput(NatToString(n)) == n as real
    ensures MaxFromInput(NatToString(0)) == 100.0
    ensures MaxFromInput("") == 100.0
  {
    ParseFloatNat(n);
    ParseFloatNat(0);
    ParseFloatBlank("");
  }

  // ----------------------------------------------------------------- status

  /** `hasActiveFilters`: search, service or status set, or a threshold narrowed. */
  predicate HasActiveFilters(f: Filters) {
    f.search != "" || f.service != "" || f.status != "" || f.thresholdMin > 0.0 || f.thresholdMax < 100.0
  }

  /** Owner and dates never count as active filters. */
  lemma ActiveIgnoresOwnerAndDates(f: Filters, owner: string, dateFrom: string, dateTo: string)
    ensures HasActiveFilters(f.(owner := owner, dateFrom := dateFrom, dateTo := dateTo)) == HasActiveFilters(f)
  {
  }

  /**
   * With no active filter and no owner text, every record whose target lies
   * in [0, 100] is displayed, in its order.
   */
  lemma InactiveShowsAll(slos: seq<Slo>, f: Filters)
    requires !HasActiveFilters(f) && f.owner == ""
    requires forall i :: 0 <= i < |slos| ==> 0.0 <= slos[i].target <= 100.0
    ensures FilterSlos(slos, f) == slos
  {
    FilterAll(slos, Matcher(f));
  }

  /** The results line under the toolbar. */
  function ResultsMessage(count: nat, active: bool): (r: string)
    ensures count == 0 ==> r == "No SLOs found"
    ensures count > 0 ==> |r| > 8 && r[..8] == "Showing "
  {
    if count > 0 then
      "Showing " + NatToString(count) + " SLO" + PluralS(count) + (if active then " matching your filters" else "")
    else "No SLOs found"
  }

  lemma MessageShape(digits: string, tail: string)
    ensures var r := "Showing " + digits + " SLO" + tail;
      && r[..8] == "Showing "
      && r[8..8 + |digits|] == digits
      && r[8 + |digits|..12 + |digits|] == " SLO"
      && r[12 + |digits|..] == tail
  {
    var r := "Showing " + digits + " SLO" + tail;
    assert r == "Showing " + (digits + (" SLO" + tail));
    assert r[8..] == digits + (" SLO" + tail);
    assert r[8 + |digits|..] == " SLO" + tail;
  }

  /** A non-empty result names its count, which reads back as the count, with "SLO" in the right number. */
  lemma ResultsMessageCount(count: nat, active: bool)
    requires count > 0
    ensures var r := ResultsMessage(count, active);
      var digits := NatToString(count);
      && r[..8] == "Showing "
      && r[8..8 + |digits|] == digits && DigitsValue(digits) == count
      && r[8 + |digits|..12 + |digits|] == " SLO"
      && (count != 1 <==> |r| > 12 + |digits| && r[12 + |digits|] == 's')
  {
    NatToStringValue(count);
    var digits := NatToString(count);
    var tail := PluralS(count) + (if active then " matching your filters" else "");
    MessageShape(digits, tail);
    assert ResultsMessage(count, active) == "Showing " + digits + " SLO" + tail;
    assert count != 1 <==> tail != [] && tail[0] == 's';
  }

  // ---------------------------------------------------------------- options

  /** The service select's values: empty for "All Services", otherwise a slug. */
  const ServiceOptions: seq<string> := ["", "api-gateway", "user-service", "payment-service",
    "notification-service", "database", "cache-service", "auth-service", "file-storage"]

  /** The status select's values. */
  const StatusOptions: seq<string> := ["", "healthy", "warning", "critical", "unknown"]

  /**
   * The service options are slugs while the records hold display names, so
   * picking any service leaves no mock record on screen.
   */
  lemma ServicePickEmptiesMock(f: Filters, i: nat)
    requires 0 < i < |ServiceOptions|
    ensures FilterSlos(MockSlos, f.(service := ServiceOptions[i])) == []
  {
    var g := f.(service := ServiceOptions[i]);
    MockServicesCapitalised();
    OptionsLowerCase(i);
    forall j | 0 <= j < |MockSlos|
      ensures !Matcher(g)(MockSlos[j])
    {
      assert MockSlos[j].service[0] != ServiceOptions[i][0];
    }
    FilterNone(MockSlos, Matcher(g));
  }

  /** Every mock record's service is a display name starting with a capital. */
  lemma MockServicesCapitalised()
    ensures forall j :: 0 <= j < |MockSlos| ==> MockSlos[j].service != [] && 'A' <= MockSlos[j].service[0] <= 'Z'
  {
    assert MockSlos[0].service == "API Gateway";
    assert MockSlos[1].service == "User Service";
    assert MockSlos[2].service == "Payment Service";
    assert MockSlos[3].service == "Database";
    assert MockSlos[4].service == "Notification Service";
    assert MockSlos[5].service == "Cache Service";
    assert MockSlos[6].service == "Auth Service";
    assert MockSlos[7].service == "File Storage";
  }

  /** Every non-empty service option is a slug starting with a lower-case letter. */
  lemma OptionsLowerCase(i: nat)
    requires 0 < i < |ServiceOptions|
    ensures ServiceOptions[i] != [] && 'a' <= ServiceOptions[i][0] <= 'z'
  {
  }

  /** Every non-empty status option is the status of some mock record, so none of them empties the list by itself. */
  lemma StatusOptionsOccur(i: nat)
    requires 0 < i < |StatusOptions|
    ensures exists j :: 0 <= j < |MockSlos| && MockSlos[j].status == StatusOptions[i]
  {
    var j := if i == 1 then 0 else if i == 2 then 1 else if i == 3 then 2 else 7;
    assert MockSlos[j].status == StatusOptions[i];
  }

  // -------------------------------------------------------------- component

  /** The toolbar's own state: whether the advanced filters are shown. */
  class Toolbar {
    var isExpanded: bool

    constructor ()
      ensures !isExpanded
    {
      isExpanded := false;
    }

    /** Either "Filters" or "Advanced" button. */
    method ToggleExpanded()
      modifies this
      ensures isExpanded == !old(isExpanded)
    {
      isExpanded := !isExpanded;
    }
  }
}
