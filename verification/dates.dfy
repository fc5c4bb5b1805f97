/** The date check of NullDate.Scan (nullabledb/nullabledb.go): find the
    leftmost `dddd[.-]dd[.-]dd` in the scanned text, read year, month and day,
    and refuse any triple that Go's `time.Date` would normalise into a
    different date. The calendar is the proleptic Gregorian one `time` uses. */
module Dates {
  import opened Wrappers
  import opened StrConv
  import opened RestErrors

  datatype Date = Date(year: int, month: int, day: int)

  predicate IsLeap(year: int)
  {
    year % 4 == 0 && (year % 100 != 0 || year % 400 == 0)
  }

  function DaysIn(year: int, month: int): (n: int)
    requires 1 <= month <= 12
    ensures 28 <= n <= 31
    ensures month == 2 ==> (n == 29 <==> IsLeap(year))
  {
    if month == 2 then (if IsLeap(year) then 29 else 28)
    else if month == 4 || month == 6 || month == 9 || month == 11 then 30
    else 31
  }

  /** A date that exists: a month from 1 to 12 and a day within it. */
  predicate IsCalendarDate(d: Date)
  {
    1 <= d.month <= 12 && 1 <= d.day <= DaysIn(d.year, d.month)
  }

  // ---------------------------------------------------------------------
  // time.Date's normalisation
  // ---------------------------------------------------------------------

  /** Month overflow is carried into the year: month 0 is December of the
      year before, month 13 January of the year after. */
  function NormalizeMonth(year: int, month: int): (r: (int, int))
    ensures 1 <= r.1 <= 12
    ensures 1 <= month <= 12 ==> r == (year, month)
  {
    (year + (month - 1) / 12, (month - 1) % 12 + 1)
  }

  /** Day overflow is carried into the month, one month at a time: day 0 is
      the last day of the month before, day 32 of a 31-day month the first
      of the next. */
  function Settle(year: int, month: int, day: int): (r: Date)
    requires 1 <= month <= 12
    ensures 1 <= day <= DaysIn(year, month) ==> r == Date(year, month, day)
    decreases if day < 1 then 2 - day else if day > DaysIn(year, month) then day else 0
  {
    if day < 1 then
      var (y, m) := if month == 1 then (year - 1, 12) else (year, month - 1);
      Settle(y, m, day + DaysIn(y, m))
    else if day > DaysIn(year, month) then
      var (y, m) := if month == 12 then (year + 1, 1) else (year, month + 1);
      Settle(y, m, day - DaysIn(year, month))
    else Date(year, month, day)
  }

  /** `time.Date(year, month, day, 0, 0, 0, 0, UTC)` read back as a date:
      always a real date, and a real date itself is left alone. */
  function Normalize(d: Date): (r: Date)
    ensures IsCalendarDate(r)
    ensures IsCalendarDate(d) ==> r == d
  {
    var (y, m) := NormalizeMonth(d.year, d.month);
    SettleIsCalendarDate(y, m, d.day);
    Settle(y, m, d.day)
  }

  /** Whatever day count it starts from, Settle lands on a real date. */
  lemma {:induction false} SettleIsCalendarDate(year: int, month: int, day: int)
    requires 1 <= month <= 12
    ensures IsCalendarDate(Settle(year, month, day))
    decreases if day < 1 then 2 - day else if day > DaysIn(year, month) then day else 0
  {
    if day < 1 {
      var (y, m) := if month == 1 then (year - 1, 12) else (year, month - 1);
      SettleIsCalendarDate(y, m, day + DaysIn(y, m));
    } else if day > DaysIn(year, month) {
      var (y, m) := if month == 12 then (year + 1, 1) else (year, month + 1);
      SettleIsCalendarDate(y, m, day - DaysIn(year, month));
    }
  }

  /** `time.Date` leaves a triple alone exactly when it names a real date;
      this is the test NullDate.Scan relies on. */
  lemma NormalizeFixesExactlyCalendarDates(d: Date)
    ensures Normalize(d) == d <==> IsCalendarDate(d)
  {
    var (y, m) := NormalizeMonth(d.year, d.month);
    SettleIsCalendarDate(y, m, d.day);
  }

  // ---------------------------------------------------------------------
  // Finding the date in the scanned text
  // ---------------------------------------------------------------------

  predicate IsSeparator(c: char) { c == '.' || c == '-' }

  /** Ten characters of the shape `dddd[.-]dd[.-]dd`, digits being ASCII. */
  predicate DateShaped(w: string)
  {
    |w| == 10 && AllDigits(w[..4]) && IsSeparator(w[4]) && AllDigits(w[5..7]) &&
    IsSeparator(w[7]) && AllDigits(w[8..])
  }

  /** The pattern matches the ten characters starting at `i`. */
  predicate MatchesAt(s: string, i: int)
  {
    0 <= i && i + 10 <= |s| && DateShaped(s[i..i + 10])
  }

  /** The leftmost match at or after `from`. */
  function FindFrom(s: string, from: nat): (r: Option<nat>)
    ensures r.Some? ==> from <= r.value && MatchesAt(s, r.value)
    ensures r.Some? ==> forall j :: from <= j < r.value ==> !MatchesAt(s, j)
    ensures r.None? ==> forall j :: from <= j ==> !MatchesAt(s, j)
    decreases |s| - from
  {
    if from + 10 > |s| then None
    else if DateShaped(s[from..from + 10]) then Some(from)
    else FindFrom(s, from + 1)
  }

  /** Where the regular expression's leftmost match starts; the pattern has a
      fixed length, so the leftmost match is the one at the smallest index. */
  function FindDate(s: string): (r: Option<nat>)
    ensures r.Some? ==> MatchesAt(s, r.value) && forall j :: 0 <= j < r.value ==> !MatchesAt(s, j)
    ensures r.None? <==> forall j :: !MatchesAt(s, j)
  {
    FindFrom(s, 0)
  }

  function NotADateMessage(s: string): string { "'" + s + "' does not parse as a date." }
  function NonExistentDateMessage(s: string): string
  {
    "'" + s + "' specifies a non-existent date (e.g., '2000-10-32')."
  }

  /** The date-checking part of NullDate.Scan: the leftmost date-shaped
      substring, as written, or the error Scan returns. The three
      `ParseInt(…, 10, 32)` failure branches are kept as in the source. */
  function CheckDate(s: string): (r: Result<string, GoError>)
    ensures r.Ok? ==> FindDate(s).Some? && r.value == s[FindDate(s).value..FindDate(s).value + 10]
    ensures r.Ok? ==> DateShaped(r.value)
    ensures r.Err? ==> r.error in {Message(NotADateMessage(s)), Message(NonExistentDateMessage(s))}
    ensures FindDate(s).None? ==> r == Err(Message(NotADateMessage(s)))
  {
    match FindDate(s)
    case None => Err(Message(NotADateMessage(s)))
    case Some(i) =>
      var w := s[i..i + 10];
      match (ParseInt32(w[..4]), ParseInt32(w[5..7]), ParseInt32(w[8..]))
      case (Some(year), Some(month), Some(day)) =>
        if Normalize(Date(year, month, day)) != Date(year, month, day) then Err(Message(NonExistentDateMessage(s)))
        else Ok(w)
      case _ => Err(Message(NotADateMessage(s)))
  }

  /** The year, month and day a date-shaped window spells. */
  function WindowDate(w: string): Date
    requires DateShaped(w)
  {
    Date(DigitsValue(w[..4]), DigitsValue(w[5..7]), DigitsValue(w[8..]))
  }

  /** The captures are plain digits, so the three parses never fail. */
  lemma WindowParses(w: string)
    requires DateShaped(w)
    ensures ParseInt32(w[..4]) == Some(WindowDate(w).year)
    ensures ParseInt32(w[5..7]) == Some(WindowDate(w).month)
    ensures ParseInt32(w[8..]) == Some(WindowDate(w).day)
  {
    ShortDigitRunParses(w[..4]);
    ShortDigitRunParses(w[5..7]);
    ShortDigitRunParses(w[8..]);
  }

  /** What NullDate.Scan accepts: text whose leftmost date-shaped substring
      names a real date, stored as written (separators included); text with
      no such substring, or whose leftmost one names no real date, is refused
      with the matching message. */
  lemma CheckDateAcceptsExactlyRealDates(s: string)
    ensures FindDate(s).None? ==> CheckDate(s) == Err(Message(NotADateMessage(s)))
    ensures FindDate(s).Some? ==>
      var w := s[FindDate(s).value..FindDate(s).value + 10];
      DateShaped(w) &&
      (IsCalendarDate(WindowDate(w)) ==> CheckDate(s) == Ok(w)) &&
      (!IsCalendarDate(WindowDate(w)) ==> CheckDate(s) == Err(Message(NonExistentDateMessage(s))))
  {
    if FindDate(s).Some? {
      var i := FindDate(s).value;
      var w := s[i..i + 10];
      WindowParses(w);
      NormalizeFixesExactlyCalendarDates(WindowDate(w));
    }
  }

  /** The example in the source's own error message is refused, and a leap
      day is accepted only in a leap year. */
  lemma DateExamples()
    ensures !IsCalendarDate(Date(2000, 10, 32))
    ensures IsCalendarDate(Date(2000, 2, 29)) && !IsCalendarDate(Date(1900, 2, 29))
    ensures Normalize(Date(2000, 10, 32)) == Date(2000, 11, 1)
    ensures Normalize(Date(2001, 0, 0)) == Date(2000, 11, 30)
  {
  }
}
