/**
 * The job routes (server/routes/jobs.routes.js) as transformers of the job
 * collection: each takes the collection and returns the reply and the new
 * collection. The `...Endpoint` functions add the middleware chain each
 * route is mounted with.
 */
module JobsRoutes {
  import opened Wrappers
  import opened Text
  import opened Store
  import opened Http
  import opened JobModel
  import opened AuthMiddleware

  type Jobs = map<Id, Job>

  const FieldsRequiredMessage: string := "All fields are required"
  const JobNotFoundMessage: string := "Job not found"

  /** The four fields the create handler reads; it passes only these on. */
  function CreateFields(body: JobFields): (f: JobFields)
    ensures f.title == body.title && f.company == body.company
            && f.location == body.location && f.description == body.description
    ensures f.salaryMin.None? && f.salaryMax.None? && f.requirements.None? && f.about.None?
            && f.locationType.None? && f.jobType.None? && f.createdAt.None?
    ensures HasRequiredFields(f) <==> HasRequiredFields(body)
  {
    NoFields.(title := body.title, company := body.company,
              location := body.location, description := body.description)
  }

  /** `title && company && location && description`. */
  predicate HasRequiredFields(body: JobFields) {
    Truthy(body.title) && Truthy(body.company) && Truthy(body.location) && Truthy(body.description)
  }

  /**
   * POST /api/jobs after the middleware: 400 unless the four required fields
   * are truthy, else the job is created with only those four fields (so every
   * other field takes its default) under the store-chosen id `newId`; a
   * clash with an existing id is a store error and answers 500.
   */
  function CreateJob(body: JobFields, jobs: Jobs, newId: Id, now: int): (out: (Reply<Job>, Jobs))
    ensures var (reply, jobs') := out;
      && (!HasRequiredFields(body) ==> reply == Status(BAD_REQUEST, FieldsRequiredMessage) && jobs' == jobs)
      && (reply.code == CREATED <==> HasRequiredFields(body) && newId !in jobs)
      && (reply.code != CREATED ==> jobs' == jobs)
      && (reply.code == CREATED ==>
           && reply.data.Some?
           && var j := reply.data.value;
           && jobs' == jobs[newId := j]
           && j.id == newId && SchemaValid(j) && j.createdAt == now
           && j.title == body.title.value && j.company == body.company.value
           && j.location == body.location.value && j.description == body.description.value
           && j.salaryMin == "" && j.salaryMax == "" && j.requirements == "" && j.about == ""
           && j.locationType == DefaultLocationType && j.jobType == DefaultJobType)
  {
    if !HasRequiredFields(body) then
      (Status(BAD_REQUEST, FieldsRequiredMessage), jobs)
    else if newId in jobs then
      (ServerError(), jobs)
    else
      match Create(CreateFields(body), newId, now)
      case Invalid(_) => (ServerError(), jobs)
      case Saved(j) => (Reply(CREATED, "Job created", Some(j)), jobs[newId := j])
  }

  /** PUT /api/jobs/:id after the middleware. */
  function UpdateJob(id: Id, body: JobFields, jobs: Jobs): (out: (Reply<Job>, Jobs))
    ensures var (reply, jobs') := out;
      && (id !in jobs ==> reply == Status(NOT_FOUND, JobNotFoundMessage) && jobs' == jobs)
      && (id in jobs ==>
           && reply.code == OK
           && jobs'.Keys == jobs.Keys
           && jobs'[id] == Patch(jobs[id], body)
           && reply.data == Some(jobs'[id])
           && forall k :: k in jobs && k != id ==> jobs'[k] == jobs[k])
  {
    if id !in jobs then (Status(NOT_FOUND, JobNotFoundMessage), jobs)
    else
      var j := Patch(jobs[id], body);
      (Reply(OK, "Job updated", Some(j)), jobs[id := j])
  }

  /** DELETE /api/jobs/:id after the middleware. */
  function DeleteJob(id: Id, jobs: Jobs): (out: (Reply<Job>, Jobs))
    ensures var (reply, jobs') := out;
      && (id !in jobs ==> reply == Status(NOT_FOUND, JobNotFoundMessage) && jobs' == jobs)
      && (id in jobs ==>
           && reply == Status(OK, "Job deleted successfully")
           && id !in jobs'
           && jobs'.Keys == jobs.Keys - {id}
           && forall k :: k in jobs' ==> jobs'[k] == jobs[k])
  {
    if id !in jobs then (Status(NOT_FOUND, JobNotFoundMessage), jobs)
    else (Status(OK, "Job deleted successfully"), jobs - {id})
  }

  /**
   * GET /api/jobs: public, every job once, newest first. (The body is the bare
   * array, so the reply message is empty.)
   */
  method ListJobs(jobs: Jobs) returns (reply: Reply<seq<Job>>)
    ensures reply.code == OK && reply.data.Some?
    ensures var listed := reply.data.value;
      && |listed| == |jobs|
      && (forall i :: 0 <= i < |listed| ==> listed[i] in jobs.Values)
      && (forall k :: k in jobs ==> jobs[k] in listed)
      && (forall i, j :: 0 <= i < j < |listed| ==> listed[i].createdAt >= listed[j].createdAt)
  {
    var ids := ListNewestFirst(jobs, (j: Job) => j.createdAt);
    EnumerationSize(jobs, ids);
    var listed := Records(jobs, ids);
    forall k | k in jobs ensures jobs[k] in listed {
      var i :| 0 <= i < |ids| && ids[i] == k;
      assert listed[i] == jobs[k];
    }
    reply := Reply(OK, "", Some(listed));
  }

  /** A listing that names every document once has one entry per document. */
  lemma {:induction false} EnumerationSize<T>(m: map<Id, T>, ids: seq<Id>)
    requires Enumerates(m, ids)
    ensures |ids| == |m|
    decreases |ids|
  {
    if |ids| == 0 {
      assert m.Keys == {};
    } else {
      var k := ids[|ids| - 1];
      var m' := m - {k};
      var ids' := ids[..|ids| - 1];
      forall x | x in m' ensures x in ids' {
        var i :| 0 <= i < |ids| && ids[i] == x;
      }
      EnumerationSize(m', ids');
      assert m'.Keys == m.Keys - {k};
    }
  }

  // ------------------------------------------------------------ mounted routes

  /** POST /api/jobs: `authMiddleware, adminOnly`, then the handler. */
  function CreateJobEndpoint(header: Option<string>, verify: string -> Option<Claims>,
                             body: JobFields, jobs: Jobs, newId: Id, now: int): (out: (Reply<Job>, Jobs))
    ensures AuthenticateAdmin(header, verify).Stop? ==>
              out.0 == Status(AuthenticateAdmin(header, verify).code, AuthenticateAdmin(header, verify).message)
              && out.1 == jobs
    ensures AuthenticateAdmin(header, verify).Next? ==> out == CreateJob(body, jobs, newId, now)
  {
    match AuthenticateAdmin(header, verify)
    case Stop(code, message) => (Status(code, message), jobs)
    case Next(_) => CreateJob(body, jobs, newId, now)
  }

  /** PUT /api/jobs/:id: `authMiddleware, adminOnly`, then the handler. */
  function UpdateJobEndpoint(header: Option<string>, verify: string -> Option<Claims>,
                             id: Id, body: JobFields, jobs: Jobs): (out: (Reply<Job>, Jobs))
    ensures AuthenticateAdmin(header, verify).Stop? ==>
              out.0 == Status(AuthenticateAdmin(header, verify).code, AuthenticateAdmin(header, verify).message)
              && out.1 == jobs
    ensures AuthenticateAdmin(header, verify).Next? ==> out == UpdateJob(id, body, jobs)
  {
    match AuthenticateAdmin(header, verify)
    case Stop(code, message) => (Status(code, message), jobs)
    case Next(_) => UpdateJob(id, body, jobs)
  }

  /** DELETE /api/jobs/:id: `authMiddleware, adminOnly`, then the handler. */
  function DeleteJobEndpoint(header: Option<string>, verify: string -> Option<Claims>,
                             id: Id, jobs: Jobs): (out: (Reply<Job>, Jobs))
    ensures AuthenticateAdmin(header, verify).Stop? ==>
              out.0 == Status(AuthenticateAdmin(header, verify).code, AuthenticateAdmin(header, verify).message)
              && out.1 == jobs
    ensures AuthenticateAdmin(header, verify).Next? ==> out == DeleteJob(id, jobs)
  {
    match AuthenticateAdmin(header, verify)
    case Stop(code, message) => (Status(code, message), jobs)
    case Next(_) => DeleteJob(id, jobs)
  }

  /** Only an authenticated admin can change the job collection. */
  lemma OnlyAdminsMutateJobs(header: Option<string>, verify: string -> Option<Claims>,
                             body: JobFields, id: Id, jobs: Jobs, newId: Id, now: int)
    ensures var g := Authenticate(header, verify);
      !(g.Next? && g.caller.role == "admin") ==>
        && CreateJobEndpoint(header, verify, body, jobs, newId, now).1 == jobs
        && UpdateJobEndpoint(header, verify, id, body, jobs).1 == jobs
        && DeleteJobEndpoint(header, verify, id, jobs).1 == jobs
        && CreateJobEndpoint(header, verify, body, jobs, newId, now).0.code in {UNAUTHORIZED, FORBIDDEN}
        && UpdateJobEndpoint(header, verify, id, body, jobs).0.code in {UNAUTHORIZED, FORBIDDEN}
        && DeleteJobEndpoint(header, verify, id, jobs).0.code in {UNAUTHORIZED, FORBIDDEN}
  {
  }

  /** Every job route keeps each document filed under its own id. */
  lemma RoutesPreserveWellFormed(body: JobFields, id: Id, jobs: Jobs, newId: Id, now: int)
    requires WellFormed(jobs)
    ensures WellFormed(CreateJob(body, jobs, newId, now).1)
    ensures WellFormed(UpdateJob(id, body, jobs).1)
    ensures WellFormed(DeleteJob(id, jobs).1)
  {
  }

  /** Deleting a job, then deleting it again, answers 404 the second time. */
  lemma DeleteTwice(id: Id, jobs: Jobs)
    requires id in jobs
    ensures DeleteJob(id, DeleteJob(id, jobs).1).0.code == NOT_FOUND
  {
  }
}
