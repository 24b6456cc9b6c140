/**
 * The CV upload gate (server/config/upload.js): the MIME whitelist of
 * `fileFilter`, the 5 MiB `fileSize` limit and the stored-filename scheme.
 * Disk storage and directory creation are not modelled; the upload
 * timestamp (`Date.now()`) is a parameter.
 */
module Upload {
  import opened Text

  const PdfType: string := "application/pdf"
  const WordType: string := "application/msword"
  const DocxType: string := "application/vnd.openxmlformats-officedocument.wordprocessingml.document"

  /** `limits.fileSize`: 5 MiB. */
  const MaxFileSize: nat := 5 * 1024 * 1024

  const FilterMessage: string := "Only PDF and Word documents are allowed!"

  /** What `fileFilter` passes to its callback: `(null, true)` or `(new Error(...), false)`. */
  datatype FilterVerdict = Accept | Reject(message: string)

  function FileFilter(mimetype: string): (v: FilterVerdict)
    ensures v.Accept? <==> mimetype in {PdfType, WordType, DocxType}
    ensures v.Reject? ==> v.message == FilterMessage
  {
    if mimetype == PdfType || mimetype == WordType || mimetype == DocxType then Accept
    else Reject(FilterMessage)
  }

  /** The three accepted types are the PDF and the two Word formats, nothing else. */
  lemma OnlyDocumentsAccepted(mimetype: string)
    ensures FileFilter(mimetype).Accept? ==>
              || mimetype == "application/pdf"
              || mimetype == "application/msword"
              || mimetype == "application/vnd.openxmlformats-officedocument.wordprocessingml.document"
    ensures FileFilter("application/x-msdownload").Reject?
    ensures FileFilter("image/png").Reject?
  {
  }

  /** `filename`: `Date.now() + '-' + file.originalname`. */
  function StoredFilename(timestamp: nat, originalName: string): (name: string)
    ensures EndsWith(name, originalName)
    ensures |name| > |originalName|
  {
    NatToString(timestamp) + "-" + originalName
  }

  /** The outcome of one upload: stored under a name, or refused by the filter or the limit. */
  datatype Intake = Stored(filename: string) | WrongType(message: string) | TooLarge

  /**
   * The filter runs first; a file that passes it and is longer than the limit
   * is refused; otherwise it is stored under the generated name.
   */
  function Receive(mimetype: string, size: nat, originalName: string, timestamp: nat): (r: Intake)
    ensures r.Stored? <==> FileFilter(mimetype).Accept? && size <= MaxFileSize
    ensures r.Stored? ==> r.filename == StoredFilename(timestamp, originalName)
    ensures FileFilter(mimetype).Reject? ==> r == WrongType(FilterMessage)
    ensures FileFilter(mimetype).Accept? && size > MaxFileSize ==> r == TooLarge
  {
    match FileFilter(mimetype)
    case Reject(message) => WrongType(message)
    case Accept => if size > MaxFileSize then TooLarge else Stored(StoredFilename(timestamp, originalName))
  }

  /** A 6 MiB PDF is too large; an executable is refused by type whatever its size. */
  lemma IntakeExamples(timestamp: nat)
    ensures Receive(PdfType, 6 * 1024 * 1024, "cv.pdf", timestamp) == TooLarge
    ensures Receive(PdfType, 5242880, "cv.pdf", timestamp).Stored?
    ensures Receive("application/x-msdownload", 10, "setup.exe", timestamp).WrongType?
  {
  }

  /** How many decimal digits `s` starts with. */
  function LeadingDigits(s: string): (n: nat)
    ensures n <= |s|
  {
    if |s| > 0 && IsDigit(s[0]) then 1 + LeadingDigits(s[1..]) else 0
  }

  /** The timestamp part of a stored name ends at the first non-digit, the dash. */
  lemma {:induction false} LeadingDigitsOfStoredName(digits: string, rest: string)
    requires forall i :: 0 <= i < |digits| ==> IsDigit(digits[i])
    ensures LeadingDigits(digits + "-" + rest) == |digits|
    decreases |digits|
  {
    if |digits| > 0 {
      assert (digits + "-" + rest)[1..] == digits[1..] + "-" + rest;
      LeadingDigitsOfStoredName(digits[1..], rest);
    }
  }

  /** Two uploads get the same stored name only if timestamp and original name agree. */
  lemma {:induction false} StoredFilenameInjective(t1: nat, n1: string, t2: nat, n2: string)
    requires StoredFilename(t1, n1) == StoredFilename(t2, n2)
    ensures t1 == t2 && n1 == n2
  {
    var a, b := NatToString(t1), NatToString(t2);
    var s := StoredFilename(t1, n1);
    assert s == a + "-" + n1 && s == b + "-" + n2;
    LeadingDigitsOfStoredName(a, n1);
    LeadingDigitsOfStoredName(b, n2);
    assert a == s[..|a|] == b;
    ParseNatToString(t1);
    ParseNatToString(t2);
    assert n1 == s[|a| + 1..] == n2;
  }
}
