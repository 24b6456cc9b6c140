/**
 * The application document and its note sub-document
 * (server/models/Application.js): required references and strings, string
 * defaults, the seven-stage status enum, nullable dates, and the
 * `timestamps` pair `createdAt` / `updatedAt`.
 */
module ApplicationModel {
  import opened Wrappers
  import opened Text
  import opened Store

  /** One entry of the notes thread. */
  datatype Note = Note(text: string, authorRole: string, authorName: string, createdAt: int)

  datatype Application = Application(
    id: Id,
    job: Id,
    user: Id,
    fullName: string,
    phone: string,
    linkedin: string,
    cvUrl: string,
    extraNotes: string,
    status: string,
    respondedAt: Option<int>,
    interviewAt: Option<int>,
    interviewLocation: string,
    interviewLink: string,
    interviewNotes: string,
    reminderAt: Option<int>,
    notes: seq<Note>,
    createdAt: int,
    updatedAt: int)

  /** The status enum, in pipeline order. */
  const Stages: seq<string> :=
    ["pending", "under_review", "phone_screen", "technical_interview", "hr_interview", "offer", "rejected"]
  const DefaultStatus: string := "pending"
  const AuthorRoles: seq<string> := ["user", "admin"]

  // ------------------------------------------------------------ notes

  /** The fields handed to the note sub-schema; `None` is an absent key. */
  datatype NoteFields = NoteFields(text: Option<string>, authorRole: Option<string>, authorName: Option<string>)

  /**
   * A note as the sub-schema builds it: `text` is trimmed on assignment and
   * then required (so blank text fails), `authorRole` is required and must be
   * "user" or "admin", `authorName` defaults to "" and `createdAt` to `now`.
   */
  function MakeNote(f: NoteFields, now: int): (r: Option<Note>)
    ensures r.Some? <==> f.text.Some? && !AllWhitespace(f.text.value)
                         && f.authorRole.Some? && f.authorRole.value in AuthorRoles
    ensures r.Some? ==> && r.value.text == Trim(f.text.value)
                        && r.value.authorRole == f.authorRole.value
                        && r.value.authorName == f.authorName.GetOr("")
                        && r.value.createdAt == now
  {
    if f.text.None? || f.authorRole.None? then None
    else
      var text := Trim(f.text.value);
      TrimEmptyIff(f.text.value);
      if text == "" || f.authorRole.value !in AuthorRoles then None
      else Some(Note(text, f.authorRole.value, f.authorName.GetOr(""), now))
  }

  /** A stored note never has blank or untrimmed text. */
  lemma MakeNoteTrimmed(f: NoteFields, now: int)
    requires MakeNote(f, now).Some?
    ensures var t := MakeNote(f, now).value.text; t != "" && Trim(t) == t
  {
    TrimIdempotent(f.text.value);
  }

  // ------------------------------------------------------------ applications

  /** What the `notes` key of a create call holds: a note list, or (by mistake) a string. */
  datatype NotesValue = NoteList(items: seq<NoteFields>) | NotesText(text: string)

  /** The fields a caller may hand to `Application.create`; `None` is an absent key. */
  datatype ApplicationFields = ApplicationFields(
    job: Option<Id>,
    user: Option<Id>,
    fullName: Option<string>,
    phone: Option<string>,
    linkedin: Option<string>,
    cvUrl: Option<string>,
    extraNotes: Option<string>,
    status: Option<string>,
    notes: Option<NotesValue>)

  predicate NoteListValid(items: seq<NoteFields>, now: int) {
    forall i :: 0 <= i < |items| ==> MakeNote(items[i], now).Some?
  }

  /** Whether the `notes` value casts to a valid note list (a string does not). */
  predicate NotesValid(v: Option<NotesValue>, now: int) {
    match v
    case None => true
    case Some(NoteList(items)) => NoteListValid(items, now)
    case Some(NotesText(_)) => false
  }

  /** The paths whose cast or validators fail for a new document built from `f`. */
  function InvalidPaths(f: ApplicationFields, now: int): (paths: set<string>)
    ensures "job" in paths <==> f.job.None?
    ensures "user" in paths <==> f.user.None?
    ensures "fullName" in paths <==> !Truthy(f.fullName)
    ensures "phone" in paths <==> !Truthy(f.phone)
    ensures "cvUrl" in paths <==> !Truthy(f.cvUrl)
    ensures "status" in paths <==> f.status.Some? && f.status.value !in Stages
    ensures "notes" in paths <==> !NotesValid(f.notes, now)
    ensures paths <= {"job", "user", "fullName", "phone", "cvUrl", "status", "notes"}
  {
    (if f.job.None? then {"job"} else {})
    + (if f.user.None? then {"user"} else {})
    + (if !Truthy(f.fullName) then {"fullName"} else {})
    + (if !Truthy(f.phone) then {"phone"} else {})
    + (if !Truthy(f.cvUrl) then {"cvUrl"} else {})
    + (if f.status.Some? && f.status.value !in Stages then {"status"} else {})
    + (if !NotesValid(f.notes, now) then {"notes"} else {})
  }

  function BuildNotes(items: seq<NoteFields>, now: int): (r: seq<Note>)
    requires NoteListValid(items, now)
    ensures |r| == |items|
    ensures forall i :: 0 <= i < |items| ==> Some(r[i]) == MakeNote(items[i], now)
  {
    seq(|items|, i requires 0 <= i < |items| => MakeNote(items[i], now).value)
  }

  /** What the schema accepts as a stored application. */
  predicate SchemaValid(a: Application) {
    && a.fullName != "" && a.phone != "" && a.cvUrl != ""
    && a.status in Stages
    && forall i :: 0 <= i < |a.notes| ==> a.notes[i].text != "" && a.notes[i].authorRole in AuthorRoles
  }

  datatype Created = Saved(app: Application) | Invalid(paths: set<string>)

  /**
   * `Application.create(fields)` at time `now`: any failing path rejects the
   * document; otherwise given fields are kept and every other field takes its
   * default — status "pending", the three dates null, the strings "", no notes —
   * and both timestamps are `now`.
   */
  function Create(f: ApplicationFields, id: Id, now: int): (r: Created)
    ensures r.Saved? <==> InvalidPaths(f, now) == {}
    ensures r.Invalid? ==> r.paths == InvalidPaths(f, now)
    ensures r.Saved? ==> var a := r.app;
      && SchemaValid(a) && a.id == id
      && Some(a.job) == f.job && Some(a.user) == f.user
      && Some(a.fullName) == f.fullName && Some(a.phone) == f.phone && Some(a.cvUrl) == f.cvUrl
      && a.linkedin == f.linkedin.GetOr("") && a.extraNotes == f.extraNotes.GetOr("")
      && a.status == f.status.GetOr(DefaultStatus)
      && a.respondedAt.None? && a.interviewAt.None? && a.reminderAt.None?
      && a.interviewLocation == "" && a.interviewLink == "" && a.interviewNotes == ""
      && (f.notes.None? ==> a.notes == [])
      && (f.notes.Some? && f.notes.value.NoteList? ==>
            NoteListValid(f.notes.value.items, now) && a.notes == BuildNotes(f.notes.value.items, now))
      && a.createdAt == now && a.updatedAt == now
  {
    var paths := InvalidPaths(f, now);
    if paths != {} then Invalid(paths)
    else
      var notes := match f.notes
        case Some(NoteList(items)) => BuildNotes(items, now)
        case _ => [];
      assert forall i :: 0 <= i < |notes| ==> notes[i].text != "" && notes[i].authorRole in AuthorRoles by {
        if f.notes.Some? {
          forall i | 0 <= i < |notes| ensures notes[i].text != "" && notes[i].authorRole in AuthorRoles {
            MakeNoteTrimmed(f.notes.value.items[i], now);
          }
        }
      }
      Saved(Application(
        id, f.job.value, f.user.value, f.fullName.value, f.phone.value, f.linkedin.GetOr(""),
        f.cvUrl.value, f.extraNotes.GetOr(""), f.status.GetOr(DefaultStatus),
        None, None, "", "", "", None, notes, now, now))
  }

  /** Every create call that leaves out one of the five required paths fails. */
  lemma RequiredPaths(f: ApplicationFields, id: Id, now: int)
    ensures (f.job.None? || f.user.None? || !Truthy(f.fullName) || !Truthy(f.phone) || !Truthy(f.cvUrl))
            ==> Create(f, id, now).Invalid?
  {
  }

  /** An application collection: every document is filed under its own id. */
  predicate WellFormed(apps: map<Id, Application>) {
    forall k :: k in apps ==> apps[k].id == k
  }

  /** Every stored application satisfies the schema. */
  predicate AllSchemaValid(apps: map<Id, Application>) {
    forall k :: k in apps ==> SchemaValid(apps[k])
  }
}
