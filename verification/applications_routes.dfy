/**
 * The application routes (server/routes/applications.routes.js) as
 * transformers of the application collection, given the job collection.
 */
module ApplicationsRoutes {
  import opened Wrappers
  import opened Text
  import opened Store
  import opened Http
  import JobModel
  import opened ApplicationModel
  import opened AuthMiddleware

  type Jobs = map<Id, JobModel.Job>
  type Apps = map<Id, Application>

  const JobNotFoundMessage: string := "Job not found"
  const InvalidStatusMessage: string := "Invalid status"
  const ApplicationNotFoundMessage: string := "Application not found"

  /** The status values the status route lets through. */
  const RouteStatuses: seq<string> := ["pending", "reviewed", "accepted", "rejected"]

  // ------------------------------------------------------------ apply

  /**
   * What the apply handler hands to `Application.create`: the path's job id,
   * the caller's id, and `notes || ""`. Nothing else from the body is used.
   */
  function ApplyFields(caller: Caller, jobId: Id, notes: Option<string>): (f: ApplicationFields)
    ensures f.job == Some(jobId) && f.user == Some(caller.id)
    ensures f.fullName.None? && f.phone.None? && f.cvUrl.None?
    ensures f.linkedin.None? && f.extraNotes.None? && f.status.None?
    ensures f.notes == Some(NotesText(if Truthy(notes) then notes.value else ""))
  {
    ApplicationFields(Some(jobId), Some(caller.id), None, None, None, None, None, None,
                      Some(NotesText(OrElse(notes, ""))))
  }

  /**
   * POST /api/applications/:jobId after `authMiddleware`: 404 when the job is
   * unknown; otherwise the create call's outcome (201, or 500 when it throws).
   */
  function Apply(caller: Caller, jobId: Id, notes: Option<string>, jobs: Jobs, apps: Apps,
                 newId: Id, now: int): (out: (Reply<Application>, Apps))
    ensures jobId !in jobs ==> out == (Status(NOT_FOUND, JobNotFoundMessage), apps)
    ensures out.0.code in {CREATED, NOT_FOUND, SERVER_ERROR}
    ensures out.0.code != CREATED ==> out.1 == apps
    ensures out.0.code == CREATED ==>
              && out.0.data.Some? && out.0.data.value.job == jobId && out.0.data.value.user == caller.id
              && newId !in apps && out.1 == apps[newId := out.0.data.value]
  {
    if jobId !in jobs then (Status(NOT_FOUND, JobNotFoundMessage), apps)
    else
      match Create(ApplyFields(caller, jobId, notes), newId, now)
      case Invalid(_) => (ServerError(), apps)
      case Saved(a) =>
        if newId in apps then (ServerError(), apps)
        else (Reply(CREATED, "Application submitted", Some(a)), apps[newId := a])
  }

  /**
   * The handler sends neither full name, phone nor CV path, which the schema
   * requires: for a known job, applying always answers 500 and stores nothing.
   */
  lemma ApplyAlwaysFails(caller: Caller, jobId: Id, notes: Option<string>, jobs: Jobs, apps: Apps,
                         newId: Id, now: int)
    requires jobId in jobs
    ensures Apply(caller, jobId, notes, jobs, apps, newId, now) == (ServerError(), apps)
  {
    RequiredPaths(ApplyFields(caller, jobId, notes), newId, now);
  }

  /**
   * No check for an earlier application by the same user to the same job:
   * the reply code does not depend on the applications already stored.
   */
  lemma ApplyIgnoresExistingApplications(caller: Caller, jobId: Id, notes: Option<string>, jobs: Jobs,
                                         apps1: Apps, apps2: Apps, newId: Id, now: int)
    requires newId !in apps1 && newId !in apps2
    ensures Apply(caller, jobId, notes, jobs, apps1, newId, now).0
            == Apply(caller, jobId, notes, jobs, apps2, newId, now).0
  {
  }

  // ------------------------------------------------------------ listings

  /**
   * GET /api/applications/my after `authMiddleware`: the caller's
   * applications, each once, newest first.
   */
  method MyApplications(caller: Caller, apps: Apps) returns (reply: Reply<seq<Application>>)
    requires WellFormed(apps)
    ensures reply.code == OK && reply.data.Some?
    ensures var listed := reply.data.value;
      && (forall i :: 0 <= i < |listed| ==> listed[i].id in apps && apps[listed[i].id] == listed[i]
                                              && listed[i].user == caller.id)
      && (forall k :: k in apps && apps[k].user == caller.id ==> apps[k] in listed)
      && (forall i, j :: 0 <= i < j < |listed| ==> listed[i].id != listed[j].id)
      && (forall i, j :: 0 <= i < j < |listed| ==> listed[i].createdAt >= listed[j].createdAt)
  {
    var mine := map k | k in apps && apps[k].user == caller.id :: apps[k];
    var ids := ListNewestFirst(mine, (a: Application) => a.createdAt);
    var listed := Records(mine, ids);
    forall k | k in apps && apps[k].user == caller.id ensures apps[k] in listed {
      assert k in mine;
      var i :| 0 <= i < |ids| && ids[i] == k;
      assert listed[i] == apps[k];
    }
    reply := Reply(OK, "", Some(listed));
  }

  /** GET /api/applications after `authMiddleware, adminOnly`: every application once, newest first. */
  method AllApplications(apps: Apps) returns (reply: Reply<seq<Application>>)
    requires WellFormed(apps)
    ensures reply.code == OK && reply.data.Some?
    ensures var listed := reply.data.value;
      && (forall i :: 0 <= i < |listed| ==> listed[i].id in apps && apps[listed[i].id] == listed[i])
      && (forall k :: k in apps ==> apps[k] in listed)
      && (forall i, j :: 0 <= i < j < |listed| ==> listed[i].id != listed[j].id)
      && (forall i, j :: 0 <= i < j < |listed| ==> listed[i].createdAt >= listed[j].createdAt)
  {
    var ids := ListNewestFirst(apps, (a: Application) => a.createdAt);
    var listed := Records(apps, ids);
    forall k | k in apps ensures apps[k] in listed {
      var i :| 0 <= i < |ids| && ids[i] == k;
      assert listed[i] == apps[k];
    }
    reply := Reply(OK, "", Some(listed));
  }

  // ------------------------------------------------------------ status

  /**
   * PUT /api/applications/:id/status after `authMiddleware, adminOnly`, as
   * written: the status must be one of `RouteStatuses` (checked before the
   * lookup); an unknown id answers 404; otherwise only `status` changes, and
   * the store's `timestamps` option stamps `updatedAt`. The update runs
   * without schema validation.
   */
  function UpdateStatus(id: Id, status: Option<string>, apps: Apps, now: int): (out: (Reply<Application>, Apps))
    ensures !(status.Some? && status.value in RouteStatuses) ==>
              out == (Status(BAD_REQUEST, InvalidStatusMessage), apps)
    ensures status.Some? && status.value in RouteStatuses && id !in apps ==>
              out == (Status(NOT_FOUND, ApplicationNotFoundMessage), apps)
    ensures out.0.code == OK <==> status.Some? && status.value in RouteStatuses && id in apps
    ensures out.0.code == OK ==> StatusOnlyChange(apps, out.1, id, status.value, now)
                                 && out.0.data == Some(out.1[id])
  {
    if status.None? || status.value !in RouteStatuses then (Status(BAD_REQUEST, InvalidStatusMessage), apps)
    else SetStatus(id, status.value, apps, now)
  }

  /** The lookup and write shared by both status handlers. */
  function SetStatus(id: Id, status: string, apps: Apps, now: int): (out: (Reply<Application>, Apps))
    ensures id !in apps ==> out == (Status(NOT_FOUND, ApplicationNotFoundMessage), apps)
    ensures id in apps ==> out.0.code == OK && StatusOnlyChange(apps, out.1, id, status, now)
                           && out.0.data == Some(out.1[id])
  {
    if id !in apps then (Status(NOT_FOUND, ApplicationNotFoundMessage), apps)
    else
      var a := apps[id].(status := status, updatedAt := now);
      (Reply(OK, "Status updated", Some(a)), apps[id := a])
  }

  /**
   * `apps'` is `apps` with application `id`'s status set to `status` and its
   * `updatedAt` set to `now`; every other field and every other application
   * is untouched.
   */
  predicate StatusOnlyChange(apps: Apps, apps': Apps, id: Id, status: string, now: int) {
    && id in apps && apps'.Keys == apps.Keys
    && apps'[id] == apps[id].(status := status, updatedAt := now)
    && forall k :: k in apps && k != id ==> apps'[k] == apps[k]
  }

  /** Of the route's four values only "pending" and "rejected" are schema stages. */
  lemma RouteAndSchemaStatusesOverlap()
    ensures (set s | s in RouteStatuses && s in Stages) == {"pending", "rejected"}
    ensures "reviewed" !in Stages && "accepted" !in Stages
  {
    var both := set s | s in RouteStatuses && s in Stages;
    assert "pending" in both && "rejected" in both;
    forall s | s in both ensures s == "pending" || s == "rejected" {
      assert s in RouteStatuses;
    }
  }

  /** As written, a status update can store a value the schema's enum does not allow. */
  lemma UpdateStatusLeavesSchema(id: Id, apps: Apps, now: int)
    requires id in apps && AllSchemaValid(apps)
    ensures var out := UpdateStatus(id, Some("reviewed"), apps, now);
      out.0.code == OK && !AllSchemaValid(out.1)
  {
    var out := UpdateStatus(id, Some("reviewed"), apps, now);
    assert !SchemaValid(out.1[id]);
  }

  /** As written, five of the seven schema stages are refused with 400. */
  lemma UpdateStatusRefusesStages(id: Id, apps: Apps, now: int)
    ensures forall s :: s in Stages && s != "pending" && s != "rejected" ==>
              UpdateStatus(id, Some(s), apps, now).0.code == BAD_REQUEST
  {
  }

  /**
   * Corrected status handler: the allowed values are exactly the schema's
   * seven stages, so every stored application stays schema-valid.
   */
  function UpdateStatusToStage(id: Id, status: Option<string>, apps: Apps, now: int): (out: (Reply<Application>, Apps))
    ensures !(status.Some? && status.value in Stages) ==>
              out == (Status(BAD_REQUEST, InvalidStatusMessage), apps)
    ensures status.Some? && status.value in Stages && id !in apps ==>
              out == (Status(NOT_FOUND, ApplicationNotFoundMessage), apps)
    ensures out.0.code == OK <==> status.Some? && status.value in Stages && id in apps
    ensures out.0.code == OK ==> StatusOnlyChange(apps, out.1, id, status.value, now)
                                 && out.0.data == Some(out.1[id])
    ensures AllSchemaValid(apps) ==> AllSchemaValid(out.1)
  {
    if status.None? || status.value !in Stages then (Status(BAD_REQUEST, InvalidStatusMessage), apps)
    else SetStatus(id, status.value, apps, now)
  }

  /** Both status handlers keep every document filed under its own id. */
  lemma StatusUpdatesPreserveWellFormed(id: Id, status: Option<string>, apps: Apps, now: int)
    requires WellFormed(apps)
    ensures WellFormed(UpdateStatus(id, status, apps, now).1)
    ensures WellFormed(UpdateStatusToStage(id, status, apps, now).1)
  {
  }

  // ------------------------------------------------------------ mounted routes

  /** POST /api/applications/:jobId: `authMiddleware`, then the handler as the caller. */
  function ApplyEndpoint(header: Option<string>, verify: string -> Option<Claims>, jobId: Id,
                         notes: Option<string>, jobs: Jobs, apps: Apps, newId: Id, now: int): (out: (Reply<Application>, Apps))
    ensures Authenticate(header, verify).Stop? ==> out.0.code == UNAUTHORIZED && out.1 == apps
    ensures Authenticate(header, verify).Next? ==>
              out == Apply(Authenticate(header, verify).caller, jobId, notes, jobs, apps, newId, now)
  {
    match Authenticate(header, verify)
    case Stop(code, message) => (Status(code, message), apps)
    case Next(caller) => Apply(caller, jobId, notes, jobs, apps, newId, now)
  }

  /**
   * PUT /api/applications/:id/status: `authMiddleware, adminOnly`, then the
   * status handler as written.
   */
  function UpdateStatusEndpoint(header: Option<string>, verify: string -> Option<Claims>, id: Id,
                                status: Option<string>, apps: Apps, now: int): (out: (Reply<Application>, Apps))
    ensures AuthenticateAdmin(header, verify).Stop? ==>
              out.0.code in {UNAUTHORIZED, FORBIDDEN} && out.1 == apps
    ensures AuthenticateAdmin(header, verify).Next? ==> out == UpdateStatus(id, status, apps, now)
  {
    match AuthenticateAdmin(header, verify)
    case Stop(code, message) => (Status(code, message), apps)
    case Next(_) => UpdateStatus(id, status, apps, now)
  }

  /**
   * The same route with the corrected handler: whoever calls it, the stored
   * applications stay schema-valid.
   */
  function CorrectedStatusEndpoint(header: Option<string>, verify: string -> Option<Claims>, id: Id,
                                   status: Option<string>, apps: Apps, now: int): (out: (Reply<Application>, Apps))
    ensures AuthenticateAdmin(header, verify).Stop? ==>
              out.0.code in {UNAUTHORIZED, FORBIDDEN} && out.1 == apps
    ensures AuthenticateAdmin(header, verify).Next? ==> out == UpdateStatusToStage(id, status, apps, now)
    ensures AllSchemaValid(apps) ==> AllSchemaValid(out.1)
  {
    match AuthenticateAdmin(header, verify)
    case Stop(code, message) => (Status(code, message), apps)
    case Next(_) => UpdateStatusToStage(id, status, apps, now)
  }
}
