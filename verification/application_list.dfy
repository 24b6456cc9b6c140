/**
 * The applications table (client/src/components/ApplicationList.jsx): the
 * status badge colour, the columns shown for each role, and the admin's
 * status select.
 */
module ApplicationList {
  import opened Wrappers
  import opened Text
  import ApplicationsRoutes
  import ApplicationModel

  /** A row's data as the table reads it. */
  datatype Row = Row(id: string, status: Option<string>)

  /** `STATUS_COLORS[status] || "gray"`. */
  function BadgeColor(status: Option<string>): (c: string)
    ensures status == Some("pending") ==> c == "gray"
    ensures status == Some("reviewed") ==> c == "blue"
    ensures status == Some("accepted") ==> c == "green"
    ensures status == Some("rejected") ==> c == "red"
    ensures !(status.Some? && status.value in ["pending", "reviewed", "accepted", "rejected"]) ==> c == "gray"
  {
    match status
    case Some("reviewed") => "blue"
    case Some("accepted") => "green"
    case Some("rejected") => "red"
    case _ => "gray"
  }

  /** Four of the seven pipeline stages have no colour of their own and show grey. */
  lemma StagesMostlyGray()
    ensures forall s :: s in ApplicationModel.Stages && s != "rejected" ==> BadgeColor(Some(s)) == "gray"
  {
  }

  /** The options of the status select. */
  const SelectOptions: seq<string> := ["pending", "reviewed", "accepted", "rejected"]

  /** The select offers exactly the values the server's status route accepts. */
  lemma SelectMatchesRoute()
    ensures SelectOptions == ApplicationsRoutes.RouteStatuses
  {
  }

  datatype Rendered = EmptyMessage(text: string) | Table(columns: seq<string>, rows: seq<Row>)

  /** The table's header cells for `forRole` (default "admin"). */
  function Columns(forRole: Option<string>): (cols: seq<string>)
    ensures ("Applicant" in cols) <==> forRole.GetOr("admin") == "admin"
    ensures ("Change Status" in cols) <==> forRole.GetOr("admin") == "admin"
    ensures forRole.GetOr("admin") == "admin" ==> cols == ["Applicant", "Job", "Status", "Applied At", "Change Status"]
    ensures forRole.GetOr("admin") != "admin" ==> cols == ["Job", "Status", "Applied At"]
  {
    var admin := forRole.GetOr("admin") == "admin";
    (if admin then ["Applicant"] else []) + ["Job", "Status", "Applied At"] + (if admin then ["Change Status"] else [])
  }

  /** The component: a message for a missing or empty list, else the table. */
  function Render(applications: Option<seq<Row>>, forRole: Option<string>): (r: Rendered)
    ensures r.EmptyMessage? <==> applications.None? || |applications.value| == 0
    ensures r.EmptyMessage? ==> r.text == "No applications found."
    ensures r.Table? ==> r.columns == Columns(forRole) && r.rows == applications.value
  {
    if applications.None? || |applications.value| == 0 then EmptyMessage("No applications found.")
    else Table(Columns(forRole), applications.value)
  }

  /** What choosing `value` in a row's select sends: `onStatusChange(app._id, value)`. */
  datatype StatusChange = StatusChange(id: string, status: string)

  /** The select exists only for admins; choosing an option reports that row's id and the option. */
  function ChooseStatus(row: Row, forRole: Option<string>, value: string): (r: Option<StatusChange>)
    requires value in SelectOptions
    ensures r.Some? <==> forRole.GetOr("admin") == "admin"
    ensures r.Some? ==> r.value.id == row.id && r.value.status in ApplicationsRoutes.RouteStatuses
  {
    if forRole.GetOr("admin") == "admin" then Some(StatusChange(row.id, value)) else None
  }
}
