/** Where a page sends the browser, with the notice it hands to the next page. */
module Router {
  import opened Optional

  /** The `state` handed to `navigate`: a message and its kind. */
  datatype Notice = Notice(message: string, kind: string)

  /** One `navigate(path, { state })` call. */
  datatype Route = Route(path: string, notice: Option<Notice>)

  /** The dashboard. */
  const DashboardPath: string := "/slo-dashboard"

  /** The SLO list page, where every form page returns. */
  const ListPath: string := "/slo-list-management"

  /** The create, edit and details pages. */
  const CreatePath: string := "/create-new-slo"
  const EditPath: string := "/edit-slo"
  const DetailsPath: string := "/slo-details"
}
