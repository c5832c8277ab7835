/** The breadcrumb trail above each page: a fixed trail per known path, shown only when it has two or more steps. */
module Breadcrumb {
  import opened Router

  /** One step: its caption and where its link goes. */
  datatype Crumb = Crumb(caption: string, path: string)

  const Dashboard: Crumb := Crumb("Dashboard", DashboardPath)
  const Slos: Crumb := Crumb("SLOs", ListPath)

  /** The paths `breadcrumbMap` knows. */
  const MappedPaths: seq<string> := [DashboardPath, ListPath, CreatePath, EditPath, DetailsPath]

  /** `breadcrumbMap[path] || []`. */
  function Trail(path: string): seq<Crumb> {
    if path == DashboardPath then [Dashboard]
    else if path == ListPath then [Dashboard, Slos]
    else if path == CreatePath then [Dashboard, Slos, Crumb("Create SLO", CreatePath)]
    else if path == EditPath then [Dashboard, Slos, Crumb("Edit SLO", EditPath)]
    else if path == DetailsPath then [Dashboard, Slos, Crumb("SLO Details", DetailsPath)]
    else []
  }

  /** An unknown path has no trail; a known one ends at that path and starts at the dashboard. */
  lemma TrailShape(path: string)
    ensures path !in MappedPaths <==> Trail(path) == []
    ensures path in MappedPaths ==> Trail(path)[|Trail(path)| - 1].path == path && Trail(path)[0] == Dashboard
  {
  }

  /** The list, create, edit and details pages have the SLO list second, and end one step below it. */
  lemma SloPagesUnderList(path: string)
    requires path in MappedPaths[1..]
    ensures |Trail(path)| >= 2 && Trail(path)[1] == Slos
    ensures path != ListPath ==> |Trail(path)| == 3
  {
  }

  /** The trail renders only with more than one step. */
  predicate Rendered(items: seq<Crumb>) {
    !(|items| <= 1)
  }

  /** The dashboard and unknown paths render nothing; every other known path renders its trail. */
  lemma RenderedPaths(path: string)
    ensures Rendered(Trail(path)) <==> path in MappedPaths[1..]
  {
  }

  /** A chevron stands before every step but the first. */
  predicate HasSeparator(index: nat) {
    index > 0
  }

  /** The last step is plain text; the others are links. */
  predicate IsLink(index: nat, n: nat) {
    index != n - 1
  }

  /** A rendered trail has a link back to the dashboard first and the current page as plain text last. */
  lemma RenderedEnds(path: string)
    requires Rendered(Trail(path))
    ensures IsLink(0, |Trail(path)|) && !HasSeparator(0)
    ensures !IsLink(|Trail(path)| - 1, |Trail(path)|) && HasSeparator(|Trail(path)| - 1)
    ensures Trail(path)[0].path == DashboardPath && Trail(path)[|Trail(path)| - 1].path == path
  {
  }
}
