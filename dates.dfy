/** Calendar dates as the application stores them: ISO 8601 date-only
    strings (`YYYY-MM-DD`), cut from `toISOString()` timestamps, and compared
    with the current instant the way `new Date(dueDate) < new Date()` does. */
module Dates {

  /** `s.split("T")[0]`: everything before the first `T`, or all of `s`. */
  function DatePart(s: string): (r: string)
    ensures |r| <= |s| && r == s[..|r|]
    ensures 'T' !in r
    ensures |r| < |s| ==> s[|r|] == 'T'
  {
    if s == [] || s[0] == 'T' then ""
    else [s[0]] + DatePart(s[1..])
  }

  predicate IsDigit(c: char) {
    '0' <= c <= '9'
  }

  function DigitValue(c: char): int {
    c as int - '0' as int
  }

  /** A `YYYY-MM-DD` string with a month from 01 to 12 and a day from 01 to 31. */
  predicate IsIsoDate(s: string) {
    && |s| == 10
    && IsDigit(s[0]) && IsDigit(s[1]) && IsDigit(s[2]) && IsDigit(s[3])
    && s[4] == '-' && IsDigit(s[5]) && IsDigit(s[6])
    && s[7] == '-' && IsDigit(s[8]) && IsDigit(s[9])
    && 1 <= DigitValue(s[5]) * 10 + DigitValue(s[6]) <= 12
    && 1 <= DigitValue(s[8]) * 10 + DigitValue(s[9]) <= 31
  }

  /** Lexicographic order on strings; on ISO dates it is chronological order. */
  predicate LexLess(a: string, b: string)
    decreases |a|
  {
    if a == [] then b != []
    else b != [] && (a[0] < b[0] || (a[0] == b[0] && LexLess(a[1..], b[1..])))
  }

  lemma {:induction false} LexLessIrreflexive(a: string)
    ensures !LexLess(a, a)
  {
    if a != [] {
      LexLessIrreflexive(a[1..]);
    }
  }

  lemma {:induction false} LexLessTransitive(a: string, b: string, c: string)
    requires LexLess(a, b) && LexLess(b, c)
    ensures LexLess(a, c)
    decreases |a|
  {
    if a != [] && a[0] == b[0] && b[0] == c[0] {
      LexLessTransitive(a[1..], b[1..], c[1..]);
    }
  }

  /** The current instant, read in UTC: its calendar day and the milliseconds
      elapsed since that day's midnight. */
  datatype Instant = Instant(day: string, msOfDay: int)

  const MsPerDay: int := 86400000

  predicate ValidInstant(now: Instant) {
    IsIsoDate(now.day) && 0 <= now.msOfDay < MsPerDay
  }

  /** `new Date(dueDate) < now`: a date-only string denotes UTC midnight of
      that day, so the comparison holds for every earlier day, and for the
      current day once any time has passed since midnight. A string that is
      not an ISO date gives an invalid date, and comparing it is false. */
  predicate DueBefore(dueDate: string, now: Instant) {
    IsIsoDate(dueDate) && (LexLess(dueDate, now.day) || (dueDate == now.day && now.msOfDay > 0))
  }

  /** A date due before the instant is never later than the current day; a
      day strictly before the current day always counts. */
  lemma DueBeforeDays(dueDate: string, now: Instant)
    requires ValidInstant(now)
    ensures DueBefore(dueDate, now) ==> LexLess(dueDate, now.day) || dueDate == now.day
    ensures DueBefore(dueDate, now) ==> !LexLess(now.day, dueDate)
    ensures IsIsoDate(dueDate) && LexLess(dueDate, now.day) ==> DueBefore(dueDate, now)
  {
    if DueBefore(dueDate, now) && LexLess(now.day, dueDate) {
      if dueDate == now.day {
        LexLessIrreflexive(dueDate);
      } else {
        LexLessTransitive(dueDate, now.day, dueDate);
        LexLessIrreflexive(dueDate);
      }
    }
  }
}
