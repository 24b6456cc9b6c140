/**
 * Form helpers the two application detail pages share
 * (client/src/pages/UserApplicationDetailsPage.jsx and
 * client/src/pages/AdminApplicationDetailsPage.jsx define them alike):
 * the `datetime-local` input text, the note guard, and the optional-date
 * payload. Reading local-time components out of a `Date` is left to the
 * caller, who passes them in; the reverse conversion to ISO text is a
 * parameter.
 */
module PageForms {
  import opened Wrappers
  import opened Text

  /** `getFullYear()`, `getMonth()` (0-based), `getDate()`, `getHours()`, `getMinutes()`. */
  datatype DateParts = DateParts(year: nat, monthIndex: nat, day: nat, hours: nat, minutes: nat)

  /** Components a real date yields, with a four-digit year. */
  predicate Plausible(d: DateParts) {
    1000 <= d.year <= 9999 && d.monthIndex < 12 && 1 <= d.day <= 31 && d.hours < 24 && d.minutes < 60
  }

  /** `pad(n)`: `String(n).padStart(2, "0")`. */
  function Pad(n: nat): (r: string)
    ensures |r| >= 2
    ensures n < 100 ==> |r| == 2
    ensures forall i :: 0 <= i < |r| ==> IsDigit(r[i])
    ensures ParseNat(r) == n
  {
    ParseNatToString(n);
    NatToStringLength(n);
    PadKeepsValue(NatToString(n));
    PadStart2(NatToString(n))
  }

  /** A one-digit number gets one leading zero; any longer number is written as is. */
  lemma PadAddsAtMostOneZero(n: nat)
    ensures n < 10 ==> Pad(n) == "0" + NatToString(n)
    ensures n >= 10 ==> Pad(n) == NatToString(n)
  {
    NatToStringLength(n);
    if n >= 10 {
      assert |NatToString(n)| >= 2;
    }
  }

  /** Zero-padding a digit string keeps its digits and its value. */
  lemma PadKeepsValue(s: string)
    requires |s| >= 1 && forall i :: 0 <= i < |s| ==> IsDigit(s[i])
    ensures forall i :: 0 <= i < |PadStart2(s)| ==> IsDigit(PadStart2(s)[i])
    ensures ParseNat(PadStart2(s)) == ParseNat(s)
  {
    var r := PadStart2(s);
    if |s| < 2 {
      assert r == "0" + s;
      assert r[..1] == "0";
    }
  }

  /** `toLocalInputValue`: "YYYY-MM-DDTHH:MM" with the month counted from 1. */
  function ToLocalInputValue(d: DateParts): string {
    NatToString(d.year) + "-" + Pad(d.monthIndex + 1) + "-" + Pad(d.day) + "T" + Pad(d.hours) + ":" + Pad(d.minutes)
  }

  /** Reads an input value back into date components (the month back to 0-based). */
  function ParseLocalInput(s: string): DateParts
    requires |s| == 16
    requires forall i :: 0 <= i < 16 && i !in {4, 7, 10, 13} ==> IsDigit(s[i])
  {
    var month := ParseNat(s[5..7]);
    DateParts(ParseNat(s[0..4]), if month == 0 then 0 else month - 1, ParseNat(s[8..10]), ParseNat(s[11..13]), ParseNat(s[14..16]))
  }

  /**
   * For a plausible date the input value has 16 characters with the
   * separators in place, and reading it back gives the same components.
   */
  lemma LocalInputRoundTrip(d: DateParts)
    requires Plausible(d)
    ensures var s := ToLocalInputValue(d);
      && |s| == 16
      && s[4] == '-' && s[7] == '-' && s[10] == 'T' && s[13] == ':'
      && (forall i :: 0 <= i < 16 && i !in {4, 7, 10, 13} ==> IsDigit(s[i]))
      && ParseLocalInput(s) == d
  {
    NatToStringLength(d.year);
    ParseNatToString(d.year);
    var y, mo, da, h, mi := NatToString(d.year), Pad(d.monthIndex + 1), Pad(d.day), Pad(d.hours), Pad(d.minutes);
    InputLayout(y, mo, da, h, mi);
    assert ToLocalInputValue(d) == y + "-" + mo + "-" + da + "T" + h + ":" + mi;
  }

  /**
   * An input value assembled from a four-digit year and four two-digit
   * groups: the separators sit at 4, 7, 10 and 13, every other character is
   * a digit, and each group sits where the reader takes it from.
   */
  lemma InputLayout(y: string, mo: string, da: string, h: string, mi: string)
    requires |y| == 4 && |mo| == 2 && |da| == 2 && |h| == 2 && |mi| == 2
    requires forall i :: 0 <= i < 4 ==> IsDigit(y[i])
    requires forall i :: 0 <= i < 2 ==> IsDigit(mo[i]) && IsDigit(da[i]) && IsDigit(h[i]) && IsDigit(mi[i])
    ensures var s := y + "-" + mo + "-" + da + "T" + h + ":" + mi;
      && |s| == 16
      && s[4] == '-' && s[7] == '-' && s[10] == 'T' && s[13] == ':'
      && (forall i :: 0 <= i < 16 && i !in {4, 7, 10, 13} ==> IsDigit(s[i]))
      && s[0..4] == y && s[5..7] == mo && s[8..10] == da && s[11..13] == h && s[14..16] == mi
  {
    var s := y + "-" + mo + "-" + da + "T" + h + ":" + mi;
    assert s[0..4] == y && s[5..7] == mo && s[8..10] == da && s[11..13] == h && s[14..16] == mi;
    assert s[4] == '-' && s[7] == '-' && s[10] == 'T' && s[13] == ':';
    forall i | 0 <= i < 16 && i !in {4, 7, 10, 13}
      ensures IsDigit(s[i])
    {
      if i < 4 {
        assert s[i] == s[0..4][i];
      } else if i < 7 {
        assert s[i] == s[5..7][i - 5];
      } else if i < 10 {
        assert s[i] == s[8..10][i - 8];
      } else if i < 13 {
        assert s[i] == s[11..13][i - 11];
      } else {
        assert s[i] == s[14..16][i - 14];
      }
    }
  }

  /** What a note box sends: nothing when blank, else the trimmed text. */
  function NoteToSend(noteText: string): (r: Option<string>)
    ensures r.None? <==> AllWhitespace(noteText)
    ensures r.Some? ==> r.value != "" && r.value == Trim(noteText) && Trim(r.value) == r.value
  {
    TrimEmptyIff(noteText);
    TrimIdempotent(noteText);
    var t := Trim(noteText);
    if t == "" then None else Some(t)
  }

  /** A date input's payload: null when empty, else the ISO text of the entered local time. */
  function OptionalDate(input: string, toIso: string -> string): (r: Option<string>)
    ensures input == "" <==> r.None?
    ensures r.Some? ==> r.value == toIso(input)
  {
    if input == "" then None else Some(toIso(input))
  }

  /** A stored date shown in an input: its local value, or "" when there is none. */
  function DateInputValue(date: Option<DateParts>): (r: string)
    ensures date.None? ==> r == ""
    ensures date.Some? && Plausible(date.value) ==>
      && |r| == 16 && (forall i :: 0 <= i < 16 && i !in {4, 7, 10, 13} ==> IsDigit(r[i]))
      && ParseLocalInput(r) == date.value
  {
    if date.None? then "" else DateInputFacts(date.value); ToLocalInputValue(date.value)
  }

  lemma DateInputFacts(d: DateParts)
    ensures Plausible(d) ==> var s := ToLocalInputValue(d);
      && |s| == 16 && (forall i :: 0 <= i < 16 && i !in {4, 7, 10, 13} ==> IsDigit(s[i]))
      && ParseLocalInput(s) == d
  {
    if Plausible(d) {
      LocalInputRoundTrip(d);
    }
  }
}
