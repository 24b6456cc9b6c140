/**
 * The admin's application page
 * (client/src/pages/AdminApplicationDetailsPage.jsx): the status choices,
 * the interview-stage test, the form the load seeds, and the interview
 * request (the note guard is `PageForms.NoteToSend`).
 */
module AdminApplicationDetails {
  import opened Wrappers
  import opened Text
  import opened PageForms
  import opened Store
  import opened Http
  import opened ApplicationModel
  import ApplicationsRoutes

  datatype StatusOption = StatusOption(value: string, text: string)

  const StatusOptions: seq<StatusOption> := [
    StatusOption("pending", "Pending"),
    StatusOption("under_review", "Under review"),
    StatusOption("phone_screen", "Phone screen"),
    StatusOption("technical_interview", "Technical interview"),
    StatusOption("hr_interview", "HR interview"),
    StatusOption("offer", "Offer"),
    StatusOption("rejected", "Rejected")
  ]

  /** The option values are the schema's stages, in the schema's order. */
  lemma StatusOptionsAreStages()
    ensures |StatusOptions| == |Stages|
    ensures forall i :: 0 <= i < |Stages| ==> StatusOptions[i].value == Stages[i]
  {
  }

  /** `isInterviewStage`: the lower-cased status (or "") mentions "interview". */
  predicate IsInterviewStage(status: Option<string>) {
    Contains(ToLower(OrElse(status, "")), "interview")
  }

  /** A string missing one of the characters of `sub` holds no copy of `sub`. */
  lemma MissingCharBlocksContains(s: string, sub: string, c: char)
    requires c in sub && c !in s
    ensures !Contains(s, sub)
  {
    if Contains(s, sub) {
      var i := ContainsWitness(s, sub);
    }
  }

  /** Among the seven stages, exactly the two interview stages count as interview stages. */
  lemma InterviewStagesAmongStages()
    ensures forall s :: s in Stages ==> (IsInterviewStage(Some(s)) <==> s == "technical_interview" || s == "hr_interview")
  {
    forall s | s in Stages
      ensures IsInterviewStage(Some(s)) <==> s == "technical_interview" || s == "hr_interview"
    {
      ToLowerKeepsLower(s);
      assert OrElse(Some(s), "") == s;
      if s == "technical_interview" {
        assert s[10..19] == "interview";
        ContainsAt(s, "interview", 10);
      } else if s == "hr_interview" {
        assert s[3..12] == "interview";
        ContainsAt(s, "interview", 3);
      } else if s == "under_review" {
        MissingCharBlocksContains(s, "interview", 't');
      } else if s == "pending" {
        MissingCharBlocksContains(s, "interview", 'v');
      } else {
        assert "interview"[0] == 'i';
        MissingCharBlocksContains(s, "interview", 'i');
      }
    }
  }

  /** The fields of a fetched application the admin form reads. */
  datatype AppView = AppView(
    status: Option<string>,
    interviewAt: Option<DateParts>,
    interviewLocation: Option<string>,
    interviewLink: Option<string>,
    interviewNotes: Option<string>)

  datatype Form = Form(status: string, interviewAt: string, interviewLocation: string,
                       interviewLink: string, interviewNotes: string)

  /** `load`: a missing status becomes "pending" and missing interview fields become "". */
  function LoadForm(data: AppView): (f: Form)
    ensures f.status != ""
    ensures Truthy(data.status) ==> f.status == data.status.value
    ensures !Truthy(data.status) ==> f.status == DefaultStatus
    ensures data.interviewAt.None? <==> f.interviewAt == ""
    ensures f.interviewLocation == OrElse(data.interviewLocation, "")
    ensures f.interviewLink == OrElse(data.interviewLink, "")
    ensures f.interviewNotes == OrElse(data.interviewNotes, "")
  {
    Form(OrElse(data.status, DefaultStatus), DateInputValue(data.interviewAt),
         OrElse(data.interviewLocation, ""), OrElse(data.interviewLink, ""), OrElse(data.interviewNotes, ""))
  }

  datatype InterviewPayload = InterviewPayload(interviewAt: Option<string>, interviewLocation: string,
                                               interviewLink: string, interviewNotes: string)

  /** `saveInterview`'s payload: an empty date is null, the three texts go as typed. */
  function SaveInterview(f: Form, toIso: string -> string): (p: InterviewPayload)
    ensures p.interviewAt.None? <==> f.interviewAt == ""
    ensures p.interviewAt.Some? ==> p.interviewAt.value == toIso(f.interviewAt)
    ensures p.interviewLocation == f.interviewLocation && p.interviewLink == f.interviewLink
            && p.interviewNotes == f.interviewNotes
  {
    InterviewPayload(OptionalDate(f.interviewAt, toIso), f.interviewLocation, f.interviewLink, f.interviewNotes)
  }

  /**
   * Saving the interview right after a load sends null for the date exactly
   * when the application had none, and the stored texts or "" otherwise.
   */
  lemma UntouchedInterviewRoundTrip(data: AppView, toIso: string -> string)
    ensures var p := SaveInterview(LoadForm(data), toIso);
      && (p.interviewAt.None? <==> data.interviewAt.None?)
      && p.interviewLocation == OrElse(data.interviewLocation, "")
      && p.interviewLink == OrElse(data.interviewLink, "")
      && p.interviewNotes == OrElse(data.interviewNotes, "")
  {
  }

  /**
   * `saveStatus` against the status route as written: of the seven options
   * only "pending" and "rejected" can succeed; the corrected route accepts
   * every option for an existing application.
   */
  lemma SaveStatusOutcomes(id: Id, apps: ApplicationsRoutes.Apps, now: int)
    ensures forall o :: o in StatusOptions && o.value != "pending" && o.value != "rejected" ==>
              ApplicationsRoutes.UpdateStatus(id, Some(o.value), apps, now).0.code == BAD_REQUEST
    ensures id in apps ==> forall o :: o in StatusOptions ==>
              ApplicationsRoutes.UpdateStatusToStage(id, Some(o.value), apps, now).0.code == OK
  {
    StatusOptionsAreStages();
    forall o | o in StatusOptions
      ensures o.value in Stages
    {
      var i :| 0 <= i < |StatusOptions| && StatusOptions[i] == o;
      assert o.value == Stages[i];
    }
    ApplicationsRoutes.UpdateStatusRefusesStages(id, apps, now);
  }
}
