/**
 * The job details page (client/src/pages/JobDetailsPage.jsx): the salary
 * line, the requirements list and the fallbacks for absent fields.
 */
module JobDetailsPage {
  import opened Wrappers
  import opened Text
  import AdminJobsPage

  /** The fields of the fetched job the page reads (any may be absent). */
  datatype JobDetails = JobDetails(
    locationType: Option<string>,
    jobType: Option<string>,
    salaryMin: Option<string>,
    salaryMax: Option<string>,
    description: Option<string>,
    requirements: Option<string>)

  /** The salary line: the admin page's format, with "Not provided" when there is no salary. */
  function SalaryText(j: JobDetails): (r: string)
    ensures !Truthy(j.salaryMin) && !Truthy(j.salaryMax) ==> r == "Not provided"
  {
    AdminJobsPage.SalaryRange(j.salaryMin, j.salaryMax, "Not provided")
  }

  /** Both pages print a salary the same way; they differ only in the no-salary text. */
  lemma SalaryAgreesWithAdminPage(j: JobDetails, id: string, company: Option<string>)
    ensures var shown := AdminJobsPage.FormatSalary(Some(AdminJobsPage.JobView(id, company, j.salaryMin, j.salaryMax, None)));
      && (Truthy(j.salaryMin) || Truthy(j.salaryMax) ==> SalaryText(j) == shown)
      && (!Truthy(j.salaryMin) && !Truthy(j.salaryMax) ==> shown == "—" && SalaryText(j) == "Not provided")
  {
  }

  /** The location type line: the stored value, or "N/A" when it is missing or empty. */
  function LocationTypeText(j: JobDetails): (r: string)
    ensures r != ""
    ensures Truthy(j.locationType) ==> r == j.locationType.value
    ensures !Truthy(j.locationType) ==> r == "N/A"
  {
    OrElse(j.locationType, "N/A")
  }

  /** The job type line: the stored value, or "N/A" when it is missing or empty. */
  function JobTypeText(j: JobDetails): (r: string)
    ensures r != ""
    ensures Truthy(j.jobType) ==> r == j.jobType.value
    ensures !Truthy(j.jobType) ==> r == "N/A"
  {
    OrElse(j.jobType, "N/A")
  }

  /** The description paragraph: the stored text, or a fixed sentence when it is missing or empty. */
  function DescriptionText(j: JobDetails): (r: string)
    ensures r != ""
    ensures Truthy(j.description) ==> r == j.description.value
    ensures !Truthy(j.description) ==> r == "No description provided."
  {
    OrElse(j.description, "No description provided.")
  }

  /** `.filter(Boolean).map(item => item.trim())` over the lines. */
  function Items(lines: seq<string>): (r: seq<string>)
    ensures |r| <= |lines|
    ensures (forall k :: 0 <= k < |lines| ==> lines[k] != "") ==> |r| == |lines|
  {
    if |lines| == 0 then []
    else (if lines[0] == "" then [] else [Trim(lines[0])]) + Items(lines[1..])
  }

  /**
   * The requirements list: absent (the section is hidden) unless the text is
   * truthy; otherwise its lines, empty lines dropped, each trimmed. The trim
   * comes after the filter.
   */
  function RequirementItems(requirements: Option<string>): (r: Option<seq<string>>)
    ensures r.Some? <==> Truthy(requirements)
    ensures Truthy(requirements) ==> r == Some(Items(Split(requirements.value, '\n')))
  {
    if Truthy(requirements) then Some(Items(Split(requirements.value, '\n'))) else None
  }

  /** Items of two runs of lines are the items of each, in order. */
  lemma {:induction false} ItemsAppend(a: seq<string>, b: seq<string>)
    ensures Items(a + b) == Items(a) + Items(b)
  {
    if |a| > 0 {
      assert (a + b)[0] == a[0];
      assert (a + b)[1..] == a[1..] + b;
      ItemsAppend(a[1..], b);
    } else {
      assert a + b == b;
    }
  }

  /** An empty line gives no item; any other line gives its trimmed text. */
  lemma ItemsOfOneLine(line: string)
    ensures line == "" ==> Items([line]) == []
    ensures line != "" ==> Items([line]) == [Trim(line)]
  {
  }

  /** Lines that are all non-empty come out one item per line, each trimmed. */
  lemma {:induction false} ItemsOfNonEmptyLines(lines: seq<string>)
    requires forall k :: 0 <= k < |lines| ==> lines[k] != ""
    ensures Items(lines) == seq(|lines|, i requires 0 <= i < |lines| => Trim(lines[i]))
  {
    if |lines| > 0 {
      ItemsOfNonEmptyLines(lines[1..]);
    }
  }

  /**
   * Requirements typed one per line (no empty line) are listed item for item,
   * trimmed; a line of only spaces is kept and shows as an empty item.
   */
  lemma RequirementsOnePerLine(lines: seq<string>)
    requires |lines| >= 1
    requires forall k :: 0 <= k < |lines| ==> lines[k] != "" && '\n' !in lines[k]
    ensures RequirementItems(Some(Join(lines, '\n'))) == Some(seq(|lines|, i requires 0 <= i < |lines| => Trim(lines[i])))
    ensures (exists k :: 0 <= k < |lines| && AllWhitespace(lines[k])) ==> "" in RequirementItems(Some(Join(lines, '\n'))).value
  {
    SplitJoin(lines, '\n');
    JoinStartsWithFirst(lines, '\n');
    ItemsOfNonEmptyLines(lines);
    if exists k :: 0 <= k < |lines| && AllWhitespace(lines[k]) {
      var k :| 0 <= k < |lines| && AllWhitespace(lines[k]);
      TrimEmptyIff(lines[k]);
      var items := RequirementItems(Some(Join(lines, '\n'))).value;
      assert items[k] == "";
    }
  }

  lemma JoinStartsWithFirst(parts: seq<string>, sep: char)
    requires |parts| >= 1
    ensures |Join(parts, sep)| >= |parts[0]|
  {
  }
}
