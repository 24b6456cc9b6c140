/**
 * The job posting document (server/models/Job.js): four required strings,
 * four optional strings defaulting to "", two enumerated strings with
 * defaults, and a creation timestamp defaulting to the insertion time.
 */
module JobModel {
  import opened Wrappers
  import opened Text
  import opened Store

  datatype Job = Job(
    id: Id,
    title: string,
    company: string,
    location: string,
    description: string,
    salaryMin: string,
    salaryMax: string,
    requirements: string,
    about: string,
    locationType: string,
    jobType: string,
    createdAt: int)

  const LocationTypes: seq<string> := ["remote", "onsite", "hybrid"]
  const JobTypes: seq<string> := ["full_time", "part_time", "internship"]
  const DefaultLocationType: string := "onsite"
  const DefaultJobType: string := "full_time"

  /**
   * The fields a caller may hand to `Job.create` or `findByIdAndUpdate`;
   * `None` is an absent key.
   */
  datatype JobFields = JobFields(
    title: Option<string>,
    company: Option<string>,
    location: Option<string>,
    description: Option<string>,
    salaryMin: Option<string>,
    salaryMax: Option<string>,
    requirements: Option<string>,
    about: Option<string>,
    locationType: Option<string>,
    jobType: Option<string>,
    createdAt: Option<int>)

  const NoFields: JobFields := JobFields(None, None, None, None, None, None, None, None, None, None, None)

  /** What the schema accepts as a stored job. */
  predicate SchemaValid(j: Job) {
    && j.title != "" && j.company != "" && j.location != "" && j.description != ""
    && j.locationType in LocationTypes
    && j.jobType in JobTypes
  }

  /** A `required: true` string path fails when absent or empty. */
  predicate MissingRequired(v: Option<string>) {
    !Truthy(v)
  }

  /** The paths whose validators fail for a new document built from `f`. */
  function InvalidPaths(f: JobFields): (paths: set<string>)
    ensures paths == {} <==>
              && Truthy(f.title) && Truthy(f.company) && Truthy(f.location) && Truthy(f.description)
              && (f.locationType.None? || f.locationType.value in LocationTypes)
              && (f.jobType.None? || f.jobType.value in JobTypes)
  {
    (if MissingRequired(f.title) then {"title"} else {})
    + (if MissingRequired(f.company) then {"company"} else {})
    + (if MissingRequired(f.location) then {"location"} else {})
    + (if MissingRequired(f.description) then {"description"} else {})
    + (if f.locationType.Some? && f.locationType.value !in LocationTypes then {"locationType"} else {})
    + (if f.jobType.Some? && f.jobType.value !in JobTypes then {"jobType"} else {})
  }

  /** The outcome of `Job.create`: the stored document, or the failing paths. */
  datatype Created = Saved(job: Job) | Invalid(paths: set<string>)

  /**
   * `Job.create(fields)`: given fields are kept, absent ones take their schema
   * default, `createdAt` defaults to `now`; any failing validator rejects.
   */
  function Create(f: JobFields, id: Id, now: int): (r: Created)
    ensures r.Saved? <==> InvalidPaths(f) == {}
    ensures r.Invalid? ==> r.paths == InvalidPaths(f)
    ensures r.Saved? ==> SchemaValid(r.job) && r.job.id == id
    ensures r.Saved? ==> && Some(r.job.title) == f.title && Some(r.job.company) == f.company
                         && Some(r.job.location) == f.location && Some(r.job.description) == f.description
    ensures r.Saved? ==> && r.job.salaryMin == f.salaryMin.GetOr("")
                         && r.job.salaryMax == f.salaryMax.GetOr("")
                         && r.job.requirements == f.requirements.GetOr("")
                         && r.job.about == f.about.GetOr("")
                         && r.job.locationType == f.locationType.GetOr(DefaultLocationType)
                         && r.job.jobType == f.jobType.GetOr(DefaultJobType)
                         && r.job.createdAt == f.createdAt.GetOr(now)
  {
    var paths := InvalidPaths(f);
    if paths != {} then Invalid(paths)
    else Saved(Job(
      id, f.title.value, f.company.value, f.location.value, f.description.value,
      f.salaryMin.GetOr(""), f.salaryMax.GetOr(""), f.requirements.GetOr(""), f.about.GetOr(""),
      f.locationType.GetOr(DefaultLocationType), f.jobType.GetOr(DefaultJobType),
      f.createdAt.GetOr(now)))
  }

  /**
   * `findByIdAndUpdate(id, body)`: every field present in the body replaces
   * the stored one; the id never changes. Schema validators do not run on
   * this path (the store's default for updates), so enum and required checks
   * are not applied.
   */
  function Patch(j: Job, f: JobFields): (r: Job)
    ensures r.id == j.id
    ensures r.title == f.title.GetOr(j.title) && r.company == f.company.GetOr(j.company)
    ensures r.location == f.location.GetOr(j.location) && r.description == f.description.GetOr(j.description)
    ensures r.salaryMin == f.salaryMin.GetOr(j.salaryMin) && r.salaryMax == f.salaryMax.GetOr(j.salaryMax)
    ensures r.requirements == f.requirements.GetOr(j.requirements) && r.about == f.about.GetOr(j.about)
    ensures r.locationType == f.locationType.GetOr(j.locationType) && r.jobType == f.jobType.GetOr(j.jobType)
    ensures r.createdAt == f.createdAt.GetOr(j.createdAt)
  {
    j.(title := f.title.GetOr(j.title),
       company := f.company.GetOr(j.company),
       location := f.location.GetOr(j.location),
       description := f.description.GetOr(j.description),
       salaryMin := f.salaryMin.GetOr(j.salaryMin),
       salaryMax := f.salaryMax.GetOr(j.salaryMax),
       requirements := f.requirements.GetOr(j.requirements),
       about := f.about.GetOr(j.about),
       locationType := f.locationType.GetOr(j.locationType),
       jobType := f.jobType.GetOr(j.jobType),
       createdAt := f.createdAt.GetOr(j.createdAt))
  }

  /** An empty body changes nothing, and patching twice with the same body is patching once. */
  lemma PatchIdentityAndIdempotent(j: Job, f: JobFields)
    ensures Patch(j, NoFields) == j
    ensures Patch(Patch(j, f), f) == Patch(j, f)
  {
  }

  /** Because updates skip validation, a body can store a location type outside the enum. */
  lemma PatchCanLeaveSchema(j: Job)
    requires SchemaValid(j)
    ensures !SchemaValid(Patch(j, NoFields.(locationType := Some("mars"))))
  {
  }

  /** A job collection: every document is filed under its own id. */
  predicate WellFormed(jobs: map<Id, Job>) {
    forall k :: k in jobs ==> jobs[k].id == k
  }
}
