/** The format helpers of `frontend/scripts/utils.js`: the age of a date as a
    label, a salary range, and text cut to a length. The time since the date
    is a parameter (`now - new Date(date)` in milliseconds, None when the date
    does not parse); JavaScript numbers are exact reals. */
module FormatUtils {
  import opened Wrappers
  import opened Text

  const DayMs: int := 1000 * 60 * 60 * 24

  // ---------------------------------------------------------------- formatDate

  /** The classes of `formatDate`, with the count it prints. */
  datatype Age = Today | Yesterday | DaysAgo(days: int) | WeeksAgo(weeks: int)
               | MonthsAgo(months: int) | YearsAgo(years: int) | NotADate

  /** `Math.floor(diff / 86400000)`: a positive divisor makes Dafny's division
      the floor. An invalid date yields NaN, which fails every comparison and
      falls through to the years label. */
  function AgeOf(diff: Option<int>): (r: Age)
    ensures r == Today <==> diff.Some? && 0 <= diff.value < DayMs
    ensures r == Yesterday <==> diff.Some? && DayMs <= diff.value < 2 * DayMs
    ensures r.DaysAgo? ==> diff.Some? && (diff.value < 0 || 2 * DayMs <= diff.value) && diff.value < 7 * DayMs
    ensures r.DaysAgo? ==> r.days < 7 && r.days != 0 && r.days != 1
    ensures r.WeeksAgo? <==> diff.Some? && 7 * DayMs <= diff.value < 30 * DayMs
    ensures r.WeeksAgo? ==> 1 <= r.weeks <= 4
    ensures r.MonthsAgo? <==> diff.Some? && 30 * DayMs <= diff.value < 365 * DayMs
    ensures r.MonthsAgo? ==> 1 <= r.months <= 12
    ensures r.YearsAgo? <==> diff.Some? && 365 * DayMs <= diff.value
    ensures r.YearsAgo? ==> r.years >= 1
    ensures r == NotADate <==> diff.None?
  {
    match diff
    case None => NotADate
    case Some(ms) =>
      var days := ms / DayMs;
      if days == 0 then Today
      else if days == 1 then Yesterday
      else if days < 7 then DaysAgo(days)
      else if days < 30 then WeeksAgo(days / 7)
      else if days < 365 then MonthsAgo(days / 30)
      else YearsAgo(days / 365)
  }

  /** The whole days elapsed: `days` days lie within `ms`, and one more does not. */
  lemma DayFloor(ms: int)
    ensures (ms / DayMs) * DayMs <= ms < (ms / DayMs + 1) * DayMs
  {
  }

  lemma MulMonotone(a: int, b: int, c: nat)
    requires a <= b
    ensures a * c <= b * c
  {
  }

  /** The whole units of `u` days elapsed, counted from the whole days. */
  lemma UnitFloor(ms: int, u: nat)
    requires u > 0
    ensures var n := (ms / DayMs) / u; n * u * DayMs <= ms < (n + 1) * u * DayMs
  {
    var d := ms / DayMs;
    var n := d / u;
    DayFloor(ms);
    MulMonotone(n * u, d, DayMs);
    MulMonotone(d + 1, (n + 1) * u, DayMs);
  }

  /** The count a label prints is the whole number of its units elapsed: a
      week is 7 days, a month 30 and a year 365. */
  lemma AgeCountsWholeUnits(diff: Option<int>)
    ensures var r := AgeOf(diff);
      && (r.DaysAgo? ==> r.days * DayMs <= diff.value < (r.days + 1) * DayMs)
      && (r.WeeksAgo? ==> r.weeks * 7 * DayMs <= diff.value < (r.weeks + 1) * 7 * DayMs)
      && (r.MonthsAgo? ==> r.months * 30 * DayMs <= diff.value < (r.months + 1) * 30 * DayMs)
      && (r.YearsAgo? ==> r.years * 365 * DayMs <= diff.value < (r.years + 1) * 365 * DayMs)
  {
    if diff.Some? {
      var ms := diff.value;
      DayFloor(ms);
      UnitFloor(ms, 7);
      UnitFloor(ms, 30);
      UnitFloor(ms, 365);
    }
  }

  function Label(age: Age): string {
    match age
    case Today => "Today"
    case Yesterday => "Yesterday"
    case DaysAgo(n) => IntToString(n) + " days ago"
    case WeeksAgo(n) => IntToString(n) + " weeks ago"
    case MonthsAgo(n) => IntToString(n) + " months ago"
    case YearsAgo(n) => IntToString(n) + " years ago"
    case NotADate => "NaN years ago"
  }

  /** `formatDate`. */
  function FormatDate(diff: Option<int>): (r: string)
    ensures r == "Today" <==> diff.Some? && 0 <= diff.value < DayMs
    ensures r == "Yesterday" <==> diff.Some? && DayMs <= diff.value < 2 * DayMs
    ensures r == "NaN years ago" <==> diff.None?
    ensures diff.Some? && (diff.value < 0 || 2 * DayMs <= diff.value) && diff.value < 7 * DayMs ==>
      exists n: int :: r == IntToString(n) + " days ago" && n * DayMs <= diff.value < (n + 1) * DayMs
    ensures diff.Some? && 7 * DayMs <= diff.value < 30 * DayMs ==>
      exists n: int :: r == IntToString(n) + " weeks ago" && n * 7 * DayMs <= diff.value < (n + 1) * 7 * DayMs
    ensures diff.Some? && 30 * DayMs <= diff.value < 365 * DayMs ==>
      exists n: int :: r == IntToString(n) + " months ago" && n * 30 * DayMs <= diff.value < (n + 1) * 30 * DayMs
    ensures diff.Some? && 365 * DayMs <= diff.value ==>
      exists n: int :: r == IntToString(n) + " years ago" && n * 365 * DayMs <= diff.value < (n + 1) * 365 * DayMs
  {
    var age := AgeOf(diff);
    AgeCountsWholeUnits(diff);
    match age
    case DaysAgo(n) =>
      var r := Label(age);
      assert r == IntToString(n) + " days ago";
      assert |r| >= 10 && r[|r| - 6] == 'y';
      r
    case WeeksAgo(n) =>
      assert Label(age) == IntToString(n) + " weeks ago";
      assert |Label(age)| >= 11;
      Label(age)
    case MonthsAgo(n) =>
      var r := Label(age);
      assert r == IntToString(n) + " months ago";
      assert |r| >= 12 && r[|r| - 6] == 'h';
      r
    case YearsAgo(n) =>
      assert Label(age) == IntToString(n) + " years ago";
      assert Label(age)[0] != 'N';
      Label(age)
    case _ => Label(age)
  }

  /** The coarseness of a label's unit. */
  function UnitRank(age: Age): nat {
    match age
    case DaysAgo(n) => if n < 0 then 0 else 2
    case Today => 0
    case Yesterday => 1
    case WeeksAgo(_) => 3
    case MonthsAgo(_) => 4
    case YearsAgo(_) => 5
    case NotADate => 6
  }

  /** An older date never gets a finer unit than a newer one. */
  lemma AgeUnitMonotone(d1: int, d2: int)
    requires 0 <= d1 <= d2
    ensures UnitRank(AgeOf(Some(d1))) <= UnitRank(AgeOf(Some(d2)))
  {
  }

  // ---------------------------------------------------------------- formatSalary

  /** `Number.prototype.toFixed(0)` below 10^21: the nearest integer, ties
      away from zero, with the sign printed apart. */
  function Fixed0(x: real): (r: string)
    ensures x >= 0.0 ==> AllDigits(r) && DigitsValue(r) == Round(x)
    ensures x < 0.0 ==> |r| >= 2 && r[0] == '-' && AllDigits(r[1..]) && DigitsValue(r[1..]) == Round(-x)
  {
    if x < 0.0 then
      DigitsValueOfNatToString(Round(-x));
      var r := "-" + NatToString(Round(-x));
      assert r[1..] == NatToString(Round(-x));
      r
    else
      DigitsValueOfNatToString(Round(x));
      NatToString(Round(x))
  }

  /** The nearest integer to a non-negative number, halves rounded up. */
  function Round(x: real): (n: nat)
    requires x >= 0.0
    ensures n as real - 0.5 <= x < n as real + 0.5
  {
    (x + 0.5).Floor
  }

  /** A JavaScript number used as a condition: `null` and 0 are false. */
  predicate TruthyNum(x: Option<real>) { x.Some? && x.value != 0.0 }

  /** `(v / 1000).toFixed(0)`; `null / 1000` is 0. */
  function Thousands(v: Option<real>): string {
    Fixed0(v.GetOr(0.0) / 1000.0)
  }

  const NotSpecified := "Not specified"

  /** `formatSalary`. */
  function FormatSalary(min: Option<real>, max: Option<real>, currency: string): (r: string)
    ensures r == NotSpecified <==> !TruthyNum(min) && !TruthyNum(max)
    ensures !TruthyNum(max) && TruthyNum(min) ==> r == currency + Thousands(min) + "k+"
    ensures TruthyNum(max) ==> r == currency + Thousands(min) + "k - " + currency + Thousands(max) + "k"
  {
    if !TruthyNum(min) && !TruthyNum(max) then NotSpecified
    else if !TruthyNum(max) then
      var r := currency + Thousands(min) + "k+";
      assert r[|r| - 1] != NotSpecified[|NotSpecified| - 1];
      r
    else
      var r := currency + Thousands(min) + "k - " + currency + Thousands(max) + "k";
      assert r[|r| - 1] != NotSpecified[|NotSpecified| - 1];
      r
  }

  /** Reading the printed thousands back gives the salary in thousands to
      within half a unit. */
  lemma ThousandsReadsBack(v: real)
    requires v >= 0.0
    ensures AllDigits(Thousands(Some(v)))
    ensures var n := DigitsValue(Thousands(Some(v))) as real;
      n - 0.5 <= v / 1000.0 < n + 0.5
  {
    DigitsValueOfNatToString(Round(v / 1000.0));
  }

  // ---------------------------------------------------------------- truncateText

  /** `truncateText`: `substring` treats a negative length as 0. */
  function TruncateText(text: string, maxLength: int): (r: string)
    ensures |text| <= maxLength ==> r == text
    ensures |text| > maxLength ==>
      && |r| == (if maxLength < 0 then 0 else maxLength) + 3
      && r[|r| - 3..] == "..." && StartsWith(text, r[..|r| - 3])
    ensures maxLength >= 0 ==> |r| <= maxLength + 3
  {
    if |text| <= maxLength then text
    else (if maxLength < 0 then "" else text[..maxLength]) + "..."
  }

  /** Cutting an already cut text changes nothing. */
  lemma TruncateIdempotent(text: string, maxLength: int)
    ensures TruncateText(TruncateText(text, maxLength), maxLength) == TruncateText(text, maxLength)
  {
    if |text| > maxLength && maxLength >= 0 {
      var once := TruncateText(text, maxLength);
      assert once[..maxLength] == text[..maxLength];
    }
  }
}
