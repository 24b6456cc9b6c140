/**
 * The applicant's own application page
 * (client/src/pages/UserApplicationDetailsPage.jsx): seeding and resetting
 * the edit drafts, the LinkedIn link, and the reminder request (the note
 * guard is `PageForms.NoteToSend`).
 * Rendering and the network calls themselves are left out; what the page
 * sends is modelled as a value.
 */
module UserApplicationDetails {
  import opened Wrappers
  import opened Text
  import opened PageForms

  /** The fields of a fetched application the page reads. */
  datatype AppView = AppView(
    fullName: Option<string>,
    phone: Option<string>,
    linkedin: Option<string>,
    extraNotes: Option<string>,
    reminderAt: Option<DateParts>)

  /** The edit drafts; `cvFile` is the name of a chosen replacement file. */
  datatype Drafts = Drafts(
    fullName: string,
    phone: string,
    linkedin: string,
    extraNotes: string,
    cvFile: Option<string>,
    isEditing: bool)

  datatype PageState = PageState(app: Option<AppView>, reminderAt: string, drafts: Drafts)

  /** The drafts a fetched application seeds: each field or "", and no file. */
  predicate SeededFrom(d: Drafts, app: AppView) {
    && d.fullName == OrElse(app.fullName, "")
    && d.phone == OrElse(app.phone, "")
    && d.linkedin == OrElse(app.linkedin, "")
    && d.extraNotes == OrElse(app.extraNotes, "")
    && d.cvFile.None?
  }

  /**
   * A successful `load`: the application is kept, the reminder input shows
   * its local date or "", and the drafts are seeded; edit mode is untouched.
   */
  function Load(data: AppView, s: PageState): (r: PageState)
    ensures r.app == Some(data)
    ensures data.reminderAt.None? <==> r.reminderAt == ""
    ensures data.reminderAt.Some? && Plausible(data.reminderAt.value) ==>
              && |r.reminderAt| == 16
              && (forall i :: 0 <= i < 16 && i !in {4, 7, 10, 13} ==> IsDigit(r.reminderAt[i]))
              && ParseLocalInput(r.reminderAt) == data.reminderAt.value
    ensures SeededFrom(r.drafts, data) && r.drafts.isEditing == s.drafts.isEditing
  {
    PageState(Some(data), DateInputValue(data.reminderAt),
      Drafts(OrElse(data.fullName, ""), OrElse(data.phone, ""), OrElse(data.linkedin, ""),
             OrElse(data.extraNotes, ""), None, s.drafts.isEditing))
  }

  /**
   * `handleCancelEdits`: with no application nothing changes; otherwise the
   * drafts go back to the application's fields, the file is cleared and edit
   * mode ends.
   */
  function CancelEdits(s: PageState): (r: PageState)
    ensures s.app.None? ==> r == s
    ensures s.app.Some? ==> r.app == s.app && r.reminderAt == s.reminderAt
                            && SeededFrom(r.drafts, s.app.value) && !r.drafts.isEditing
  {
    match s.app
    case None => s
    case Some(app) =>
      s.(drafts := Drafts(OrElse(app.fullName, ""), OrElse(app.phone, ""), OrElse(app.linkedin, ""),
                          OrElse(app.extraNotes, ""), None, false))
  }

  /**
   * Whatever was typed into the drafts after a load, cancelling restores the
   * drafts the load seeded (outside edit mode), and cancelling again changes
   * nothing.
   */
  lemma CancelDiscardsEdits(data: AppView, s: PageState, typed: Drafts)
    ensures var loaded := Load(data, s);
      && CancelEdits(loaded.(drafts := typed)).drafts == loaded.drafts.(isEditing := false)
      && CancelEdits(CancelEdits(loaded.(drafts := typed))) == CancelEdits(loaded.(drafts := typed))
  {
  }

  /** The link's `href`: kept when it starts with "http", else given an "https://" prefix. */
  function LinkedInHref(link: string): (href: string)
    ensures StartsWith(href, "http")
    ensures EndsWith(href, link)
    ensures StartsWith(link, "http") <==> href == link
    ensures !StartsWith(link, "http") ==> href == "https://" + link
  {
    if StartsWith(link, "http") then link
    else
      var href := "https://" + link;
      assert href[..4] == "http";
      assert href[|href| - |link|..] == link;
      href
  }

  /** Normalising an already normalised link changes nothing. */
  lemma LinkedInHrefIdempotent(link: string)
    ensures LinkedInHref(LinkedInHref(link)) == LinkedInHref(link)
  {
  }

  /** `saveReminder`'s payload: null for an empty input, else the ISO time of the entered local time. */
  function ReminderPayload(s: PageState, toIso: string -> string): (r: Option<string>)
    ensures r.None? <==> s.reminderAt == ""
    ensures r.Some? ==> r.value == toIso(s.reminderAt)
  {
    OptionalDate(s.reminderAt, toIso)
  }

  /**
   * Saving the reminder right after a load sends null exactly when the
   * application had none, and otherwise the ISO time of the loaded value.
   */
  lemma UntouchedReminderRoundTrip(data: AppView, s: PageState, toIso: string -> string)
    requires data.reminderAt.None? || Plausible(data.reminderAt.value)
    ensures ReminderPayload(Load(data, s), toIso).None? <==> data.reminderAt.None?
    ensures data.reminderAt.Some? ==>
              ReminderPayload(Load(data, s), toIso) == Some(toIso(ToLocalInputValue(data.reminderAt.value)))
  {
  }
}
