/**
 * The admin job list page (client/src/pages/AdminJobsPage.jsx): salary
 * formatting, the list updates after save and delete, and the two metrics
 * (distinct companies, jobs posted this month). Network calls are left out: each update takes the server's
 * answer as a parameter.
 */
module AdminJobsPage {
  import opened Wrappers
  import opened Text

  /** A job as the page holds it (JSON from the server: any field may be absent). */
  datatype JobView = JobView(id: string, company: Option<string>, salaryMin: Option<string>, salaryMax: Option<string>,
                             created: Option<MonthOfYear>)

  /** `getMonth()` (0-based) and `getFullYear()` of a date in local time. */
  datatype MonthOfYear = MonthOfYear(monthIndex: nat, year: nat)

  /** `"$" + x`. */
  function Dollar(x: string): string {
    "$" + x
  }

  /**
   * The salary text for truthy bounds: both as "$min - $max", one alone as
   * "$x"; the caller supplies what to show when neither is truthy.
   */
  function SalaryRange(salaryMin: Option<string>, salaryMax: Option<string>, none: string): (r: string)
    ensures !Truthy(salaryMin) && !Truthy(salaryMax) ==> r == none
    ensures Truthy(salaryMin) && Truthy(salaryMax) ==> r == Dollar(salaryMin.value) + " - " + Dollar(salaryMax.value)
    ensures Truthy(salaryMin) && !Truthy(salaryMax) ==> r == Dollar(salaryMin.value)
    ensures !Truthy(salaryMin) && Truthy(salaryMax) ==> r == Dollar(salaryMax.value)
  {
    if Truthy(salaryMin) || Truthy(salaryMax) then
      (if Truthy(salaryMin) then Dollar(salaryMin.value) else "")
      + (if Truthy(salaryMin) && Truthy(salaryMax) then " - " else "")
      + (if Truthy(salaryMax) then Dollar(salaryMax.value) else "")
    else none
  }

  /** `formatSalary(job)`: "—" for no job or no salary at all. */
  function FormatSalary(job: Option<JobView>): (r: string)
    ensures job.None? ==> r == "—"
    ensures job.Some? ==> r == SalaryRange(job.value.salaryMin, job.value.salaryMax, "—")
  {
    match job
    case None => "—"
    case Some(j) => SalaryRange(j.salaryMin, j.salaryMax, "—")
  }

  /**
   * A formatted salary starts with "$" exactly when some bound is truthy, and
   * then contains the separator exactly when both are.
   */
  lemma FormatSalaryShape(j: JobView)
    ensures StartsWith(FormatSalary(Some(j)), "$") <==> Truthy(j.salaryMin) || Truthy(j.salaryMax)
    ensures Truthy(j.salaryMin) && Truthy(j.salaryMax) ==> Contains(FormatSalary(Some(j)), " - ")
  {
    var r := FormatSalary(Some(j));
    if Truthy(j.salaryMin) || Truthy(j.salaryMax) {
      assert r[0] == '$';
    } else {
      assert r[0] != '$';
    }
    if Truthy(j.salaryMin) && Truthy(j.salaryMax) {
      var a := Dollar(j.salaryMin.value);
      assert r[|a|..|a| + 3] == " - ";
      ContainsAt(r, " - ", |a|);
    }
  }

  /** `prev.map(j => j._id === updated._id ? updated : j)` after an edit is saved. */
  function ReplaceById(jobs: seq<JobView>, updated: JobView): (r: seq<JobView>)
    ensures |r| == |jobs|
    ensures forall i :: 0 <= i < |jobs| ==> r[i] == (if jobs[i].id == updated.id then updated else jobs[i])
  {
    seq(|jobs|, i requires 0 <= i < |jobs| => if jobs[i].id == updated.id then updated else jobs[i])
  }

  /** Applying the same saved edit twice is applying it once; other jobs are untouched. */
  lemma ReplaceByIdIdempotent(jobs: seq<JobView>, updated: JobView)
    ensures ReplaceById(ReplaceById(jobs, updated), updated) == ReplaceById(jobs, updated)
    ensures DeleteById(ReplaceById(jobs, updated), updated.id) == DeleteById(jobs, updated.id)
  {
    DeleteReplaced(jobs, updated);
  }

  lemma {:induction false} DeleteReplaced(jobs: seq<JobView>, updated: JobView)
    ensures DeleteById(ReplaceById(jobs, updated), updated.id) == DeleteById(jobs, updated.id)
  {
    if |jobs| > 0 {
      var replaced := ReplaceById(jobs, updated);
      DeleteReplaced(jobs[1..], updated);
      assert replaced[1..] == ReplaceById(jobs[1..], updated);
      assert replaced[0].id == updated.id <==> jobs[0].id == updated.id;
      if jobs[0].id == updated.id {
        calc {
          DeleteById(replaced, updated.id);
          DeleteById(replaced[1..], updated.id);
          DeleteById(jobs[1..], updated.id);
          DeleteById(jobs, updated.id);
        }
      } else {
        assert replaced[0] == jobs[0];
        calc {
          DeleteById(replaced, updated.id);
          [jobs[0]] + DeleteById(replaced[1..], updated.id);
          [jobs[0]] + DeleteById(jobs[1..], updated.id);
          DeleteById(jobs, updated.id);
        }
      }
    }
  }

  /** `[created, ...prev]` after a new job is saved. */
  function Prepend(jobs: seq<JobView>, created: JobView): (r: seq<JobView>)
    ensures |r| == |jobs| + 1 && r[0] == created && r[1..] == jobs
  {
    [created] + jobs
  }

  /** `prev.filter(j => j._id !== id)` after a delete. */
  function DeleteById(jobs: seq<JobView>, id: string): (r: seq<JobView>)
    ensures forall i :: 0 <= i < |r| ==> r[i].id != id
    ensures forall j :: j in jobs && j.id != id ==> j in r
    ensures forall j :: j in r ==> j in jobs
    ensures |r| <= |jobs|
    ensures forall j :: multiset(r)[j] == (if j.id == id then 0 else multiset(jobs)[j])
  {
    if |jobs| == 0 then []
    else
      assert jobs == [jobs[0]] + jobs[1..];
      if jobs[0].id == id then DeleteById(jobs[1..], id)
      else [jobs[0]] + DeleteById(jobs[1..], id)
  }

  /** Deleting keeps the other jobs in their order: the result is a subsequence. */
  predicate Subsequence(a: seq<JobView>, b: seq<JobView>)
    decreases |b|
  {
    |a| == 0 || (|b| > 0 && ((a[0] == b[0] && Subsequence(a[1..], b[1..])) || Subsequence(a, b[1..])))
  }

  lemma {:induction false} DeleteKeepsOrder(jobs: seq<JobView>, id: string)
    ensures Subsequence(DeleteById(jobs, id), jobs)
    ensures DeleteById(DeleteById(jobs, id), id) == DeleteById(jobs, id)
  {
    if |jobs| > 0 {
      DeleteKeepsOrder(jobs[1..], id);
      var rest := DeleteById(jobs[1..], id);
      if jobs[0].id != id {
        assert DeleteById(jobs, id) == [jobs[0]] + rest;
        assert ([jobs[0]] + rest)[1..] == rest;
      }
    }
  }

  /** The distinct companies of the list (an absent company counts as one value). */
  function Companies(jobs: seq<JobView>): set<Option<string>> {
    set j | j in jobs :: j.company
  }

  /** `jobMetrics.companies`: 0 for an empty list, else the number of distinct companies. */
  method CountCompanies(jobs: seq<JobView>) returns (n: nat)
    ensures n == |Companies(jobs)|
    ensures n <= |jobs|
    ensures n == 0 <==> |jobs| == 0
  {
    if |jobs| == 0 {
      return 0;
    }
    var seen: set<Option<string>> := {};
    var i := 0;
    while i < |jobs|
      invariant 0 <= i <= |jobs|
      invariant seen == set j | j in jobs[..i] :: j.company
      invariant |seen| <= i
    {
      assert jobs[..i + 1] == jobs[..i] + [jobs[i]];
      seen := seen + {jobs[i].company};
      i := i + 1;
    }
    assert jobs[..i] == jobs;
    assert jobs[0].company in seen;
    n := |seen|;
  }

  /** Whether a job was posted in the given month; a job without `createdAt` never is. */
  predicate PostedIn(j: JobView, now: MonthOfYear) {
    j.created == Some(now)
  }

  /** `jobMetrics.newThisMonth`: how many jobs were posted in the current month. */
  function NewThisMonth(jobs: seq<JobView>, now: MonthOfYear): (n: nat)
    ensures n <= |jobs|
    ensures n == 0 <==> forall j :: j in jobs ==> !PostedIn(j, now)
    ensures n == |jobs| <==> forall j :: j in jobs ==> PostedIn(j, now)
  {
    if |jobs| == 0 then 0
    else
      var rest := NewThisMonth(jobs[1..], now);
      assert forall j :: j in jobs <==> j == jobs[0] || j in jobs[1..];
      (if PostedIn(jobs[0], now) then 1 else 0) + rest
  }

  /** The count over a concatenation is the sum of the counts. */
  lemma {:induction false} NewThisMonthAppend(a: seq<JobView>, b: seq<JobView>, now: MonthOfYear)
    ensures NewThisMonth(a + b, now) == NewThisMonth(a, now) + NewThisMonth(b, now)
  {
    if |a| > 0 {
      assert (a + b)[1..] == a[1..] + b;
      NewThisMonthAppend(a[1..], b, now);
    } else {
      assert a + b == b;
    }
  }

  /**
   * Saving a new job posted this month raises the count by one; deleting
   * never raises it.
   */
  lemma {:induction false} MetricsAfterUpdates(jobs: seq<JobView>, created: JobView, id: string, now: MonthOfYear)
    ensures PostedIn(created, now) ==> NewThisMonth(Prepend(jobs, created), now) == NewThisMonth(jobs, now) + 1
    ensures NewThisMonth(DeleteById(jobs, id), now) <= NewThisMonth(jobs, now)
  {
    assert Prepend(jobs, created)[1..] == jobs;
    if |jobs| > 0 {
      MetricsAfterUpdates(jobs[1..], created, id, now);
      if jobs[0].id != id {
        assert (DeleteById(jobs, id))[1..] == DeleteById(jobs[1..], id);
      }
    }
  }

  datatype Metrics = Metrics(companies: nat, newThisMonth: nat)

  /** `jobMetrics`: both counts, zero for an empty list. */
  method JobMetrics(jobs: seq<JobView>, now: MonthOfYear) returns (m: Metrics)
    ensures m.companies == |Companies(jobs)| && m.newThisMonth == NewThisMonth(jobs, now)
    ensures |jobs| == 0 ==> m == Metrics(0, 0)
  {
    if |jobs| == 0 {
      return Metrics(0, 0);
    }
    var companies := CountCompanies(jobs);
    m := Metrics(companies, NewThisMonth(jobs, now));
  }
}
