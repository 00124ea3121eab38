/** The records kept by the claims store: policyholders, claims, the calendar
    dates claims are filed on, and the error kinds the store reports. */
module Records {

  datatype Option<T> = None | Some(value: T)

  /** The ValueError messages raised by the store, and the KeyError raised
      when a claim status is not one of the three recognised buckets. */
  datatype Error =
    | InvalidPolicyholder        // empty name, or age / sum insured not positive
    | PolicyholderNotFound
    | NonPositiveClaimAmount
    | ClaimNotFound
    | UnknownStatusKey(key: string)

  datatype Result<T> = Ok(value: T) | Err(error: Error)

  datatype Policyholder = Policyholder(
    id: string,
    name: string,
    age: int,
    policyType: string,
    sumInsured: real)

  datatype Claim = Claim(
    id: string,
    policyholderId: string,
    claimAmount: real,
    reason: string,
    status: string,
    dateOfClaim: Date)

  // ---------------------------------------------------------------------
  // Calendar dates: the proleptic Gregorian calendar of Python's datetime,
  // years 1 to 9999. A claim's "YYYY-MM-DD" text is kept as its three fields.
  // ---------------------------------------------------------------------

  datatype Date = Date(year: int, month: int, day: int)

  /** The "YYYY-MM" key of a month, kept as its two fields. */
  datatype YearMonth = YearMonth(year: int, month: int)

  predicate IsLeapYear(y: int) {
    y % 4 == 0 && (y % 100 != 0 || y % 400 == 0)
  }

  function DaysInMonth(y: int, m: int): int
    requires 1 <= m <= 12
  {
    if m == 2 then (if IsLeapYear(y) then 29 else 28)
    else if m == 4 || m == 6 || m == 9 || m == 11 then 30
    else 31
  }

  function DaysInYear(y: int): int {
    if IsLeapYear(y) then 366 else 365
  }

  predicate ValidDate(d: Date) {
    1 <= d.year <= 9999 && 1 <= d.month <= 12 && 1 <= d.day <= DaysInMonth(d.year, d.month)
  }

  /** Days in the years before year `y` (year 1 has none before it). */
  function DaysBeforeYear(y: int): int {
    var p := y - 1;
    p * 365 + p / 4 - p / 100 + p / 400
  }

  /** Days in the months of year `y` before month `m`. */
  function DaysBeforeMonth(y: int, m: int): int {
    if 1 <= m <= 12 then
      [0, 31, 59, 90, 120, 151, 181, 212, 243, 273, 304, 334][m - 1]
        + (if m > 2 && IsLeapYear(y) then 1 else 0)
    else 0
  }

  /** Day number of a date, 0001-01-01 being day 1: the value Python's
      date.toordinal() gives, which is what datetime comparison orders by. */
  function Ordinal(d: Date): int {
    DaysBeforeYear(d.year) + DaysBeforeMonth(d.year, d.month) + d.day
  }

  /** Calendar order of two dates: year, then month, then day. */
  predicate Before(a: Date, b: Date) {
    a.year < b.year
    || (a.year == b.year && a.month < b.month)
    || (a.year == b.year && a.month == b.month && a.day < b.day)
  }

  function MonthOf(d: Date): YearMonth {
    YearMonth(d.year, d.month)
  }

  // Day numbers follow the calendar order, so comparing ordinals (as the
  // claim-frequency window does) compares calendar days.

  lemma MonthStep(y: int, m: int)
    requires 1 <= m < 12
    ensures DaysBeforeMonth(y, m + 1) == DaysBeforeMonth(y, m) + DaysInMonth(y, m)
  {
  }

  lemma {:induction false} MonthsBefore(y: int, m: int, n: int)
    requires 1 <= m < n <= 12
    ensures DaysBeforeMonth(y, m) + DaysInMonth(y, m) <= DaysBeforeMonth(y, n)
    decreases n - m
  {
    MonthStep(y, m);
    if m + 1 < n {
      MonthsBefore(y, m + 1, n);
    }
  }

  lemma DayOfYearBound(d: Date)
    requires ValidDate(d)
    ensures 1 <= DaysBeforeMonth(d.year, d.month) + d.day <= DaysInYear(d.year)
  {
    if d.month < 12 {
      MonthsBefore(d.year, d.month, 12);
    }
  }

  lemma DivStep4(y: int)
    requires y >= 1
    ensures y / 4 == (y - 1) / 4 + (if y % 4 == 0 then 1 else 0)
  {
  }

  lemma DivStep100(y: int)
    requires y >= 1
    ensures y / 100 == (y - 1) / 100 + (if y % 100 == 0 then 1 else 0)
  {
  }

  lemma DivStep400(y: int)
    requires y >= 1
    ensures y / 400 == (y - 1) / 400 + (if y % 400 == 0 then 1 else 0)
  {
  }

  lemma YearStep(y: int)
    requires y >= 1
    ensures DaysBeforeYear(y + 1) == DaysBeforeYear(y) + DaysInYear(y)
  {
    DivStep4(y);
    DivStep100(y);
    DivStep400(y);
    DivisorsOfCenturies(y);
    assert DaysBeforeYear(y + 1) == y * 365 + y / 4 - y / 100 + y / 400;
    assert DaysBeforeYear(y) == (y - 1) * 365 + (y - 1) / 4 - (y - 1) / 100 + (y - 1) / 400;
  }

  lemma DivisorsOfCenturies(y: int)
    ensures y % 400 == 0 ==> y % 100 == 0
    ensures y % 100 == 0 ==> y % 4 == 0
  {
    if y % 400 == 0 {
      CenturyOf400(y);
    }
    if y % 100 == 0 {
      LeapOfCentury(y);
    }
  }

  lemma CenturyOf400(y: int)
    requires y % 400 == 0
    ensures y % 100 == 0
  {
    var k := y / 400;
    assert y == 100 * (4 * k);
  }

  lemma LeapOfCentury(y: int)
    requires y % 100 == 0
    ensures y % 4 == 0
  {
    var k := y / 100;
    assert y == 4 * (25 * k);
  }

  lemma {:induction false} YearsBefore(x: int, y: int)
    requires 1 <= x < y
    ensures DaysBeforeYear(x) + DaysInYear(x) <= DaysBeforeYear(y)
    decreases y - x
  {
    YearStep(x);
    if x + 1 < y {
      YearsBefore(x + 1, y);
      YearStep(x + 1);
    }
  }

  /** On valid dates the day number is strictly increasing in calendar order. */
  lemma {:induction false} OrdinalMonotonic(a: Date, b: Date)
    requires ValidDate(a) && ValidDate(b) && Before(a, b)
    ensures Ordinal(a) < Ordinal(b)
  {
    DayOfYearBound(a);
    DayOfYearBound(b);
    if a.year < b.year {
      YearsBefore(a.year, b.year);
    } else if a.month < b.month {
      MonthsBefore(a.year, a.month, b.month);
    }
  }

  /** Comparing day numbers of valid dates is comparing them in the calendar. */
  lemma OrdinalOrder(a: Date, b: Date)
    requires ValidDate(a) && ValidDate(b)
    ensures Ordinal(a) < Ordinal(b) <==> Before(a, b)
    ensures Ordinal(a) == Ordinal(b) <==> a == b
  {
    if Before(a, b) {
      OrdinalMonotonic(a, b);
    } else if Before(b, a) {
      OrdinalMonotonic(b, a);
    }
  }

  // ---------------------------------------------------------------------
  // Lower-casing of status strings (ASCII letters; see README).
  // ---------------------------------------------------------------------

  function LowerChar(ch: char): char {
    if 'A' <= ch <= 'Z' then (ch as int + 32) as char else ch
  }

  /** `str.lower()` on ASCII text: each letter A-Z to its lower case. */
  function Lower(s: string): string {
    if s == [] then [] else [LowerChar(s[0])] + Lower(s[1..])
  }
}
