/**
 * The SLO records of the list page, the filter record of its toolbar, the
 * filter predicate behind the displayed list, and the record transforms the
 * bulk actions run: delete, duplicate, enable/disable monitoring and the
 * export selection.
 */
module SloRecords {
  import opened Optional
  import opened Text
  import opened Seqs

  /** One SLO record of the list page. `monitoringEnabled` is absent until a status change sets it. */
  datatype Slo = Slo(
    id: string,
    name: string,
    description: string,
    service: string,
    target: real,
    status: string,
    lastModified: string,
    owner: string,
    tags: seq<string>,
    currentValue: Option<real>,
    monitoringEnabled: Option<bool>)

  /** The toolbar's filter record. */
  datatype Filters = Filters(
    search: string,
    service: string,
    status: string,
    thresholdMin: real,
    thresholdMax: real,
    dateFrom: string,
    dateTo: string,
    owner: string)

  /** The filters the page starts with and returns to on "clear". */
  const DefaultFilters: Filters := Filters("", "", "", 0.0, 100.0, "", "", "")

  function Rec(id: string, name: string, description: string, service: string, target: real,
               status: string, lastModified: string, owner: string, tags: seq<string>,
               currentValue: Option<real>): Slo
  {
    Slo(id, name, description, service, target, status, lastModified, owner, tags, currentValue, None)
  }

  /** The eight records the page starts with. */
  const MockSlos: seq<Slo> := [
    Rec("slo-001", "API Gateway Availability",
        "Ensures API Gateway maintains 99.9% uptime for all incoming requests with proper error handling and response times under 200ms",
        "API Gateway", 99.9, "healthy", "10/28/2025", "DevOps Team", ["critical", "gateway"], Some(99.95)),
    Rec("slo-002", "User Service Response Time",
        "User authentication and profile management service must respond within 150ms for 95% of requests during peak hours",
        "User Service", 95.0, "warning", "10/27/2025", "Backend Team", ["performance", "user"], Some(94.2)),
    Rec("slo-003", "Payment Processing Success Rate",
        "Payment transactions must complete successfully 99.95% of the time with proper fraud detection and validation",
        "Payment Service", 99.95, "critical", "10/29/2025", "Payment Team", ["critical", "payment"], Some(98.8)),
    Rec("slo-004", "Database Query Performance",
        "Database queries must execute within 100ms for 90% of read operations and 500ms for write operations",
        "Database", 90.0, "healthy", "10/26/2025", "DBA Team", ["database", "performance"], Some(92.1)),
    Rec("slo-005", "Notification Delivery Rate",
        "Push notifications and email alerts must be delivered within 30 seconds for 98% of all notification requests",
        "Notification Service", 98.0, "healthy", "10/25/2025", "Platform Team", ["notification", "delivery"], Some(98.7)),
    Rec("slo-006", "Cache Hit Rate",
        "Redis cache must maintain 85% hit rate for frequently accessed data to ensure optimal application performance",
        "Cache Service", 85.0, "warning", "10/24/2025", "Infrastructure Team", ["cache", "performance"], Some(83.4)),
    Rec("slo-007", "Authentication Service Uptime",
        "OAuth and SSO authentication services must maintain 99.99% availability with zero data breaches",
        "Auth Service", 99.99, "healthy", "10/23/2025", "Security Team", ["critical", "security"], Some(99.99)),
    Rec("slo-008", "File Upload Success Rate",
        "File upload operations must complete successfully 99% of the time with proper virus scanning and validation",
        "File Storage", 99.0, "unknown", "10/22/2025", "Storage Team", ["storage", "upload"], None)
  ]

  // ------------------------------------------------------------- filtering

  /**
   * The filter predicate, test by test in the order the page applies them:
   * search, service, status, threshold range, owner, then the date branch.
   */
  predicate Matches(f: Filters, s: Slo) {
    if f.search != "" && !Includes(ToLower(s.name), ToLower(f.search))
                      && !Includes(ToLower(s.description), ToLower(f.search)) then false
    else if f.service != "" && s.service != f.service then false
    else if f.status != "" && s.status != f.status then false
    else if s.target < f.thresholdMin || s.target > f.thresholdMax then false
    else if f.owner != "" && !Includes(ToLower(s.owner), ToLower(f.owner)) then false
    else if f.dateFrom != "" || f.dateTo != "" then true
    else true
  }

  function Matcher(f: Filters): Slo -> bool {
    s => Matches(f, s)
  }

  /** The displayed list: the records `f` lets through. */
  function FilterSlos(slos: seq<Slo>, f: Filters): seq<Slo> {
    Filter(slos, Matcher(f))
  }

  /** The search criterion, stated by occurrence: empty, or found in the lower-cased name or description. */
  ghost predicate SearchHit(f: Filters, s: Slo) {
    f.search == ""
    || (exists i :: OccursAt(ToLower(s.name), ToLower(f.search), i))
    || (exists i :: OccursAt(ToLower(s.description), ToLower(f.search), i))
  }

  /** The owner criterion, stated by occurrence: empty, or found in the lower-cased owner. */
  ghost predicate OwnerHit(f: Filters, s: Slo) {
    f.owner == "" || exists i :: OccursAt(ToLower(s.owner), ToLower(f.owner), i)
  }

  /**
   * A record passes exactly when every criterion holds: search, exact service
   * and status (each skipped when empty), the closed threshold range, and owner.
   */
  lemma MatchesIff(f: Filters, s: Slo)
    ensures Matches(f, s) <==>
      && SearchHit(f, s)
      && (f.service == "" || s.service == f.service)
      && (f.status == "" || s.status == f.status)
      && f.thresholdMin <= s.target <= f.thresholdMax
      && OwnerHit(f, s)
  {
    IncludesAt(ToLower(s.name), ToLower(f.search));
    IncludesAt(ToLower(s.description), ToLower(f.search));
    IncludesAt(ToLower(s.owner), ToLower(f.owner));
  }

  /** The date fields never change the outcome. */
  lemma DatesInert(f: Filters, s: Slo, dateFrom: string, dateTo: string)
    ensures Matches(f.(dateFrom := dateFrom, dateTo := dateTo), s) == Matches(f, s)
  {
  }

  /** The displayed list keeps the records' order and drops only records that fail a test. */
  lemma FilterSlosSubseq(slos: seq<Slo>, f: Filters)
    ensures IsSubseq(FilterSlos(slos, f), slos)
    ensures forall i :: 0 <= i < |FilterSlos(slos, f)| ==> Matches(f, FilterSlos(slos, f)[i])
    ensures forall i :: 0 <= i < |slos| && Matches(f, slos[i]) ==> slos[i] in FilterSlos(slos, f)
  {
    FilterIsSubseq(slos, Matcher(f));
  }

  /** Filtering the displayed list again with the same filters changes nothing. */
  lemma FilterSlosIdempotent(slos: seq<Slo>, f: Filters)
    ensures FilterSlos(FilterSlos(slos, f), f) == FilterSlos(slos, f)
  {
    FilterIdempotent(slos, Matcher(f));
  }

  // ------------------------------------------------------- ids and lookup

  /** `slos.map(slo => slo.id)`. */
  function Ids(slos: seq<Slo>): (r: seq<string>)
    ensures |r| == |slos| && forall i :: 0 <= i < |slos| ==> r[i] == slos[i].id
  {
    seq(|slos|, i requires 0 <= i < |slos| => slos[i].id)
  }

  /** The position `slos.find(slo => slo.id === id)` stops at: the first record with that id. */
  function FindIndex(slos: seq<Slo>, id: string): (k: nat)
    requires id in Ids(slos)
    ensures k < |slos| && slos[k].id == id
    ensures forall j :: 0 <= j < k ==> slos[j].id != id
  {
    if slos[0].id == id then 0
    else
      assert id in Ids(slos[1..]) by {
        var j :| 0 <= j < |slos| && Ids(slos)[j] == id;
        assert Ids(slos[1..])[j - 1] == id;
      }
      1 + FindIndex(slos[1..], id)
  }

  // ------------------------------------------------------------ transforms

  /** The copy of `s` a duplicate makes: new id and name, new date, everything else as is. */
  function CopyOf(s: Slo, now: nat, today: string): (c: Slo)
    ensures c.id == s.id + "-copy-" + NatToString(now) && c.name == s.name + " (Copy)"
    ensures c.lastModified == today
  {
    s.(id := s.id + "-copy-" + NatToString(now), name := s.name + " (Copy)", lastModified := today)
  }

  /** `a` and `b` agree on every field a duplicate keeps. */
  predicate SameContent(a: Slo, b: Slo) {
    && a.description == b.description && a.service == b.service && a.target == b.target
    && a.status == b.status && a.owner == b.owner && a.tags == b.tags
    && a.currentValue == b.currentValue && a.monitoringEnabled == b.monitoringEnabled
  }

  /**
   * The records after duplicating `ids`: the existing records, then one copy
   * per id in id order. Each copy reads the clock afresh: copy `i` takes the
   * time `now(i)` and the date `today(i)`.
   */
  function Duplicate(slos: seq<Slo>, ids: seq<string>, now: nat -> nat, today: nat -> string): (r: seq<Slo>)
    requires forall i :: 0 <= i < |ids| ==> ids[i] in Ids(slos)
    ensures |r| == |slos| + |ids| && r[..|slos|] == slos
    ensures forall i :: 0 <= i < |ids| ==>
      var orig := slos[FindIndex(slos, ids[i])];
      && r[|slos| + i].id == ids[i] + "-copy-" + NatToString(now(i))
      && r[|slos| + i].name == orig.name + " (Copy)"
      && r[|slos| + i].lastModified == today(i)
      && SameContent(r[|slos| + i], orig)
  {
    slos + seq(|ids|, i requires 0 <= i < |ids| => CopyOf(slos[FindIndex(slos, ids[i])], now(i), today(i)))
  }

  /** A copy never carries its original's id: the copy's id is strictly longer. */
  lemma CopyIdDiffers(s: Slo, now: nat, today: string)
    ensures CopyOf(s, now, today).id != s.id
  {
    assert |CopyOf(s, now, today).id| > |s.id|;
  }

  function Unlisted(ids: seq<string>): Slo -> bool {
    (s: Slo) => s.id !in ids
  }

  function Listed(ids: seq<string>): Slo -> bool {
    (s: Slo) => s.id in ids
  }

  /** The records after deleting `ids`: those whose id is not listed, in their order. */
  function Delete(slos: seq<Slo>, ids: seq<string>): seq<Slo> {
    Filter(slos, Unlisted(ids))
  }

  /** The records the export hands over: those whose id is selected, in record order. */
  function ExportSelection(slos: seq<Slo>, selected: seq<string>): seq<Slo> {
    Filter(slos, Listed(selected))
  }

  /** Delete keeps exactly the unlisted records, in their order. */
  lemma DeleteKeeps(slos: seq<Slo>, ids: seq<string>)
    ensures IsSubseq(Delete(slos, ids), slos)
    ensures forall i :: 0 <= i < |Delete(slos, ids)| ==> Delete(slos, ids)[i].id !in ids
    ensures forall i :: 0 <= i < |slos| && slos[i].id !in ids ==> slos[i] in Delete(slos, ids)
  {
    FilterIsSubseq(slos, Unlisted(ids));
  }

  /** Deleting the same ids twice is deleting them once. */
  lemma DeleteIdempotent(slos: seq<Slo>, ids: seq<string>)
    ensures Delete(Delete(slos, ids), ids) == Delete(slos, ids)
  {
    FilterIdempotent(slos, Unlisted(ids));
  }

  /** What a delete of the selection removes is exactly what an export of it hands over. */
  lemma DeleteExportPartition(slos: seq<Slo>, ids: seq<string>)
    ensures multiset(Delete(slos, ids)) + multiset(ExportSelection(slos, ids)) == multiset(slos)
  {
    FilterPartition(slos, Unlisted(ids), Listed(ids));
  }

  /**
   * The records after enabling (`enable`) or disabling monitoring for `ids`
   * reading the date afresh for each record (`today(i)` for record `i`):
   * same length and order; listed records get the flag and the date, all
   * others stay identical.
   */
  function SetMonitoring(slos: seq<Slo>, ids: seq<string>, enable: bool, today: nat -> string): (r: seq<Slo>)
    ensures |r| == |slos|
    ensures forall i :: 0 <= i < |slos| && slos[i].id in ids ==>
      r[i] == slos[i].(monitoringEnabled := Some(enable), lastModified := today(i))
    ensures forall i :: 0 <= i < |slos| && slos[i].id !in ids ==> r[i] == slos[i]
  {
    seq(|slos|, i requires 0 <= i < |slos| =>
      if slos[i].id in ids then slos[i].(monitoringEnabled := Some(enable), lastModified := today(i))
      else slos[i])
  }

  /** A status change keeps every id in place, so selections and pending ids stay valid. */
  lemma SetMonitoringIds(slos: seq<Slo>, ids: seq<string>, enable: bool, today: nat -> string)
    ensures Ids(SetMonitoring(slos, ids, enable, today)) == Ids(slos)
  {
  }

  /** Repeating the same status change changes nothing more. */
  lemma SetMonitoringIdempotent(slos: seq<Slo>, ids: seq<string>, enable: bool, today: nat -> string)
    ensures SetMonitoring(SetMonitoring(slos, ids, enable, today), ids, enable, today)
         == SetMonitoring(slos, ids, enable, today)
  {
  }
}
