/**
 * The edit page's dependency panel: the systems connected to the SLO, the
 * impact level it derives from their impacts, and its captions.
 */
module DependencyChecker {
  import opened Seqs
  import opened Impact

  /** One connected system. `lastUpdated` is kept as its timestamp text. */
  datatype Dependency = Dependency(
    id: string, name: string, kind: string, service: string, relationship: string,
    impact: Level, description: string, status: string, lastUpdated: string)

  /** The four systems the panel reports, whatever SLO and form it is given. */
  const MockDependencies: seq<Dependency> := [
    Dependency("slo-001", "Database Response Time SLO", "slo", "Database Cluster", "depends_on", High,
      "This SLO monitors database response times that directly affect API Gateway performance",
      "healthy", "2024-10-29T08:30:00"),
    Dependency("slo-002", "CDN Availability SLO", "slo", "CDN Service", "related", Medium,
      "CDN performance impacts overall user experience metrics", "warning", "2024-10-29T09:15:00"),
    Dependency("alert-001", "API Gateway High Latency Alert", "alert", "API Gateway", "triggers", High,
      "Alert rule that triggers when API response time exceeds threshold", "active", "2024-10-29T10:00:00"),
    Dependency("dashboard-001", "Service Health Dashboard", "dashboard", "Monitoring", "displays", Low,
      "Dashboard widget showing this SLO status", "active", "2024-10-29T07:45:00")]

  /** `deps.filter(dep => dep.impact === l).length`. */
  function Count(deps: seq<Dependency>, l: Level): (n: nat)
    ensures n <= |deps|
    ensures n > 0 <==> exists i :: 0 <= i < |deps| && deps[i].impact == l
  {
    var r := Filter(deps, (d: Dependency) => d.impact == l);
    assert |r| > 0 ==> r[0] in deps;
    |r|
  }

  /** The level the timer sets: high if any is high, else medium if any is medium, else low. */
  function ImpactFrom(deps: seq<Dependency>): Level {
    if Count(deps, High) > 0 then High else if Count(deps, Medium) > 0 then Medium else Low
  }

  function Impacts(deps: seq<Dependency>): (r: seq<Level>)
    ensures |r| == |deps| && forall i :: 0 <= i < |deps| ==> r[i] == deps[i].impact
  {
    if deps == [] then [] else [deps[0].impact] + Impacts(deps[1..])
  }

  /** A level occurs among the impacts exactly when some system has it. */
  lemma {:induction false} CountedIffPresent(deps: seq<Dependency>, l: Level)
    ensures l in Impacts(deps) <==> Count(deps, l) > 0
  {
    var ls := Impacts(deps);
    if l in ls {
      var i :| 0 <= i < |ls| && ls[i] == l;
      assert deps[i].impact == l;
    }
    if Count(deps, l) > 0 {
      var i :| 0 <= i < |deps| && deps[i].impact == l;
      assert ls[i] == l;
    }
  }

  /**
   * The panel's level is the greatest impact among the systems (low when
   * there are none), the same rule the change-impact panel applies to changes.
   */
  lemma {:induction false} ImpactFromIsMax(deps: seq<Dependency>)
    ensures ImpactFrom(deps) == Dominant(Impacts(deps)) == Max(Impacts(deps))
  {
    DominantIsMax(Impacts(deps));
    CountedIffPresent(deps, High);
    CountedIffPresent(deps, Medium);
  }

  /** With the four mock systems the panel always reports high impact. */
  lemma MockIsHigh()
    ensures ImpactFrom(MockDependencies) == High
  {
    assert MockDependencies[0].impact == High;
  }

  /** The panel's state. */
  class Checker {
    var dependencies: seq<Dependency>
    var isLoading: bool
    var impactLevel: Level

    /** The level always matches the list shown. */
    ghost predicate Valid()
      reads this
    {
      impactLevel == ImpactFrom(dependencies)
    }

    /** Mounting: no systems, not loading, low impact. */
    constructor ()
      ensures Valid() && dependencies == [] && !isLoading && impactLevel == Low
    {
      dependencies := [];
      isLoading := false;
      impactLevel := Low;
    }

    /** The effect starting (on mount and whenever the id or the form changes): the spinner. */
    method Start()
      requires Valid()
      modifies this
      ensures Valid() && isLoading
      ensures dependencies == old(dependencies) && impactLevel == old(impactLevel)
    {
      isLoading := true;
    }

    /**
     * The effect's timer firing with the systems it reports (`found`; the
     * page always reports `MockDependencies`): the list, its level, the
     * spinner gone.
     */
    method Finish(found: seq<Dependency>)
      requires Valid()
      modifies this
      ensures Valid() && !isLoading
      ensures dependencies == found && impactLevel == ImpactFrom(found)
    {
      dependencies := found;
      var highImpactCount := Count(dependencies, High);
      var mediumImpactCount := Count(dependencies, Medium);
      if highImpactCount > 0 {
        impactLevel := High;
      } else if mediumImpactCount > 0 {
        impactLevel := Medium;
      } else {
        impactLevel := Low;
      }
      isLoading := false;
    }

    /** The "Recommended Actions" block is shown only for high impact. */
    predicate RecommendationsShown()
      reads this
    {
      impactLevel == High
    }
  }

  /** The recommendations appear exactly when some connected system has high impact. */
  lemma RecommendationsIffHigh(c: Checker)
    requires c.Valid()
    ensures c.RecommendationsShown() <==> exists i :: 0 <= i < |c.dependencies| && c.dependencies[i].impact == High
  {
  }

  // ------------------------------------------------------------- captions

  /** `getRelationshipLabel`; any other relationship reads "Connected to". */
  function RelationshipLabel(r: string): string {
    match r
    case "depends_on" => "Depends on"
    case "related" => "Related to"
    case "triggers" => "Triggers"
    case "displays" => "Displays"
    case _ => "Connected to"
  }

  /** `getTypeIcon`; any other kind shows a link. */
  function TypeIcon(k: string): string {
    match k
    case "slo" => "Target"
    case "alert" => "AlertTriangle"
    case "dashboard" => "BarChart3"
    case _ => "Link"
  }

  /** `getStatusColor`: healthy and active are green. */
  function StatusColor(s: string): string {
    match s
    case "healthy" => "text-success"
    case "active" => "text-success"
    case "warning" => "text-warning"
    case "error" => "text-error"
    case _ => "text-muted-foreground"
  }

  /** The four relationships and three kinds the lookups know. */
  const KnownRelationships: seq<string> := ["depends_on", "related", "triggers", "displays"]
  const KnownKinds: seq<string> := ["slo", "alert", "dashboard"]

  /** Exactly an unknown relationship reads "Connected to", and exactly an unknown kind shows a link. */
  lemma LookupFallbacks(r: string, k: string)
    ensures r !in KnownRelationships <==> RelationshipLabel(r) == "Connected to"
    ensures k !in KnownKinds <==> TypeIcon(k) == "Link"
  {
  }

  /** Every mock system has a known relationship and kind, so none falls to the fallback captions. */
  lemma MockCaptionsKnown(i: nat)
    requires i < |MockDependencies|
    ensures RelationshipLabel(MockDependencies[i].relationship) != "Connected to"
    ensures TypeIcon(MockDependencies[i].kind) != "Link"
    ensures StatusColor(MockDependencies[i].status) != "text-muted-foreground"
  {
  }
}
