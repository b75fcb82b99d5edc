/**
 Scheduled traffic resets (ResetDue in internal/traffic/traffic.go, resetScheduler in
 cmd/olcrtc-panel/main.go) in a zone of fixed offset.  Times are seconds of local time since
 1970-01-01; the calendar is the proleptic Gregorian one of Go's `time` package.
 */
module Calendar {
  import opened Text
  import Traffic

  const DAY := 86400

  datatype Date = Date(year: int, month: int, day: int)

  function DayOf(t: int): int {
    t / DAY
  }

  // Years and days are counted from 1 March of year 0, in eras of 400 years.
  function YearOfEra(doe: int): int {
    (doe - doe / 1460 + doe / 36524 - doe / 146096) / 365
  }

  function DaysBefore(yoe: int): int {
    365 * yoe + yoe / 4 - yoe / 100
  }

  function MonthStart(mp: int): int {
    (153 * mp + 2) / 5
  }

  /** The civil date of a day number (Time.Date). */
  function Civil(n: int): Date {
    var z := n + 719468;
    var era, doe := z / 146097, z % 146097;
    var yoe := YearOfEra(doe);
    var doy := doe - DaysBefore(yoe);
    var mp := (5 * doy + 2) / 153;
    var month := if mp < 10 then mp + 3 else mp - 9;
    Date(yoe + era * 400 + if month <= 2 then 1 else 0, month, doy - MonthStart(mp) + 1)
  }

  /** time.Date at midnight: the day number of a date whose day may lie outside its month. */
  function DayNumber(year: int, month: int, day: int): int {
    var y := if month <= 2 then year - 1 else year;
    var era, yoe := y / 400, y % 400;
    var mp := if month > 2 then month - 3 else month + 9;
    era * 146097 + DaysBefore(yoe) + MonthStart(mp) + day - 1 - 719468
  }

  // The year found is the one that contains the day: q centuries, k leap cycles and j years in.
  lemma YearOfEraBounds(doe: int)
    requires 0 <= doe < 146097
    ensures 0 <= YearOfEra(doe) < 400
    ensures 0 <= doe - DaysBefore(YearOfEra(doe)) <= 365
    ensures doe < 146096 ==> doe < DaysBefore(YearOfEra(doe) + 1)
    ensures doe == 146096 ==> YearOfEra(doe) == 399
  {
    if doe < 146096 {
      var q, r := doe / 36524, doe % 36524;
      var k, e := (24 * q + r) / 1460, (24 * q + r) % 1460;
      hide YearOfEra, DaysBefore;
      YearOfDay(doe, q, r, k, e);
    }
  }

  lemma YearOfDay(doe: int, q: int, r: int, k: int, e: int)
    requires 0 <= q <= 3 && 0 <= r < 36524 && doe == 36524 * q + r && 24 * q + r == 1460 * k + e && 0 <= e < 1460
    ensures 0 <= YearOfEra(doe) < 400 && 0 <= doe - DaysBefore(YearOfEra(doe)) <= 365
    ensures doe < DaysBefore(YearOfEra(doe) + 1)
  {
    hide YearOfEra, DaysBefore;
    YearFormula(doe, q, r, k, e);
    var j := (e - k - 24 * q) / 365;
    CycleBounds(q, r, k, e, j, (e - k - 24 * q) % 365);
    YearsWithin(q, r, k, e, j);
  }

  // The divisions of YearOfEra: 1460 days of a century are a leap cycle, counting the 24 days
  // the earlier centuries lent.
  lemma YearFormula(doe: int, q: int, r: int, k: int, e: int)
    requires 0 <= q <= 3 && 0 <= r < 36524 && doe == 36524 * q + r && 24 * q + r == 1460 * k + e && 0 <= e < 1460
    ensures YearOfEra(doe) == (doe - (25 * q + k) + q) / 365
  {
    QuotientIs(doe, 1460, 25 * q + k, e);
    QuotientIs(doe, 36524, q, r);
    QuotientIs(doe, 146096, 0, doe);
  }

  lemma QuotientIs(n: int, d: int, x: int, rest: int)
    requires (d == 1460 || d == 36524 || d == 146096) && n == d * x + rest && 0 <= rest < d
    ensures n / d == x
  {}

  lemma CycleBounds(q: int, r: int, k: int, e: int, j: int, day: int)
    requires 0 <= q <= 3 && 0 <= r < 36524 && 24 * q + r == 1460 * k + e && 0 <= e < 1460
    requires e - k - 24 * q == 365 * j + day && 0 <= day < 365
    ensures 0 <= k <= 25 && -1 <= j <= 3 && 0 <= 4 * k + j < 100
  {}

  lemma YearsWithin(q: int, r: int, k: int, e: int, j: int)
    requires 0 <= q <= 3 && 0 <= r < 36524 && 24 * q + r == 1460 * k + e && 0 <= e < 1460
    requires 0 <= k <= 25 && j == (e - k - 24 * q) / 365 && -1 <= j <= 3 && 0 <= 4 * k + j < 100
    ensures var doe := 36500 * q + 1460 * k + e;
            var year := (doe - (25 * q + k) + q) / 365;
            0 <= year < 400 && 0 <= doe - DaysBefore(year) <= 365 && doe < DaysBefore(year + 1)
  {
    YearSplit(q, 4 * k + j);
    NextYear(q, 4 * k + j);
    hide DaysBefore;
    YearDays(q, r, k, e, j, e - k - 24 * q - 365 * j);
  }

  // A leap cycle starts with its leap year's last day, so j is -1 on the day that ends one.
  lemma YearDays(q: int, r: int, k: int, e: int, j: int, day: int)
    requires 0 <= q <= 3 && 0 <= r < 36524 && 24 * q + r == 1460 * k + e && 0 <= e < 1460
    requires 0 <= k <= 25 && e == k + 24 * q + 365 * j + day && 0 <= day < 365 && -1 <= j <= 3 && 0 <= 4 * k + j < 100
    ensures (36500 * q + 1460 * k + e - (25 * q + k) + q) / 365 == 100 * q + 4 * k + j
    ensures var rest := 36500 * q + 1460 * k + e - (365 * (100 * q + 4 * k + j) + 25 * q + (4 * k + j) / 4 - q);
            0 <= rest < if (4 * k + j) % 4 == 3 && 4 * k + j < 99 then 366 else 365
  {
    assert 36500 * q + 1460 * k + e - (25 * q + k) + q == 365 * (100 * q + 4 * k + j) + day;
    assert (4 * k + j) / 4 == if j < 0 then k - 1 else k;
  }

  lemma NextYear(q: int, s: int)
    requires 0 <= q <= 3 && 0 <= s < 100
    ensures DaysBefore(100 * q + s + 1) == DaysBefore(100 * q + s) + if s % 4 == 3 && s < 99 then 366 else 365
    ensures DaysBefore(100 * q + s) == 365 * (100 * q + s) + 25 * q + s / 4 - q
  {
    YearSplit(q, s);
    if s < 99 {
      YearSplit(q, s + 1);
      QuarterStep(s);
    }
  }

  lemma QuarterStep(s: int)
    ensures (s + 1) / 4 == s / 4 + if s % 4 == 3 then 1 else 0
  {}

  lemma YearSplit(q: int, s: int)
    requires 0 <= q <= 3 && 0 <= s < 100
    ensures (100 * q + s) / 4 == 25 * q + s / 4 && (100 * q + s) / 100 == q
  {}

  /** Every day number is the number of its civil date, and the date is in range. */
  lemma CivilRoundTrip(n: int)
    ensures var d := Civil(n);
            DayNumber(d.year, d.month, d.day) == n && 1 <= d.month <= 12 && 1 <= d.day <= 31
  {
    hide *;
    CivilDay(n, (n + 719468) / 146097, (n + 719468) % 146097);
  }

  lemma CivilDay(n: int, era: int, doe: int)
    requires n + 719468 == era * 146097 + doe && 0 <= doe < 146097
    ensures var d := Civil(n);
            DayNumber(d.year, d.month, d.day) == n && 1 <= d.month <= 12 && 1 <= d.day <= 31
  {
    hide *;
    YearOfEraBounds(doe);
    var doy := doe - DaysBefore(YearOfEra(doe));
    CivilParts(n, era, doe, doy);
    MonthSplit(doy);
    DateNumber(era, YearOfEra(doe), (5 * doy + 2) / 153, doy);
  }

  lemma CivilParts(n: int, era: int, doe: int, doy: int)
    requires n + 719468 == era * 146097 + doe && 0 <= doe < 146097 && doy == doe - DaysBefore(YearOfEra(doe))
    ensures var mp := (5 * doy + 2) / 153;
            var month := if mp < 10 then mp + 3 else mp - 9;
            Civil(n) == Date(YearOfEra(doe) + era * 400 + if month <= 2 then 1 else 0, month, doy - MonthStart(mp) + 1)
  {
    hide YearOfEra, DaysBefore, MonthStart;
  }

  // The number of the date that lies `doy` days into the year `yoe` of an era.
  lemma DateNumber(era: int, yoe: int, mp: int, doy: int)
    requires 0 <= yoe < 400 && 0 <= mp <= 11
    ensures var month := if mp < 10 then mp + 3 else mp - 9;
            DayNumber(yoe + era * 400 + if month <= 2 then 1 else 0, month, doy - MonthStart(mp) + 1)
            == era * 146097 + DaysBefore(yoe) + doy - 719468
  {
    hide DaysBefore, MonthStart;
    EraSplit(era, yoe);
  }

  lemma EraSplit(era: int, yoe: int)
    requires 0 <= yoe < 400
    ensures (yoe + era * 400) / 400 == era && (yoe + era * 400) % 400 == yoe
  {}

  lemma MonthSplit(doy: int)
    requires 0 <= doy <= 365
    ensures var mp := (5 * doy + 2) / 153; 0 <= mp <= 11 && 1 <= doy - MonthStart(mp) + 1 <= 31
  {}

  // ---------- the first day of a month ----------

  lemma DaysGrow(a: int, b: int)
    requires a <= b
    ensures DaysBefore(a) <= DaysBefore(b)
  {}

  // A day belongs to one year only.
  lemma YearUnique(doe: int, y: int)
    requires 0 <= doe < 146096 && DaysBefore(y) <= doe < DaysBefore(y + 1)
    ensures YearOfEra(doe) == y
  {
    YearOfEraBounds(doe);
    hide YearOfEra, DaysBefore;
    if YearOfEra(doe) < y {
      DaysGrow(YearOfEra(doe) + 1, y);
    } else if y < YearOfEra(doe) {
      DaysGrow(y + 1, YearOfEra(doe));
    }
  }

  lemma MonthOfStart(mp: int)
    requires 0 <= mp <= 11
    ensures (5 * MonthStart(mp) + 2) / 153 == mp
  {}

  // The first day of a month lies in the same year of the era.
  lemma FirstInYear(doe: int, y: int, mp: int)
    requires 0 <= doe < 146097 && y == YearOfEra(doe) && mp == (5 * (doe - DaysBefore(y)) + 2) / 153
    ensures 0 <= mp <= 11 && 0 <= DaysBefore(y) + MonthStart(mp) <= doe
    ensures YearOfEra(DaysBefore(y) + MonthStart(mp)) == y
  {
    hide YearOfEra, DaysBefore, MonthStart;
    YearOfEraBounds(doe);
    MonthSplit(doe - DaysBefore(y));
    DaysGrow(0, y);
    MonthsStart(mp);
    EraEnds();
    YearUnique(DaysBefore(y) + MonthStart(mp), y);
  }

  lemma MonthsStart(mp: int)
    requires 0 <= mp <= 11
    ensures 0 <= MonthStart(mp) <= 337
  {}

  lemma EraEnds()
    ensures DaysBefore(0) == 0 && DaysBefore(399) == 145731 && DaysBefore(400) == 146096
  {}

  /** Going back to day 1 leaves year and month as they are. */
  lemma FirstOfMonth(n: int)
    ensures var d := Civil(n); Civil(n - d.day + 1) == Date(d.year, d.month, 1)
  {
    var era, doe := (n + 719468) / 146097, (n + 719468) % 146097;
    hide *;
    FirstCivil(n, era, doe, YearOfEra(doe));
  }

  lemma FirstCivil(n: int, era: int, doe: int, y: int)
    requires n + 719468 == era * 146097 + doe && 0 <= doe < 146097 && y == YearOfEra(doe)
    ensures var d := Civil(n); Civil(n - d.day + 1) == Date(d.year, d.month, 1)
  {
    hide *;
    var doy := doe - DaysBefore(y);
    var mp := (5 * doy + 2) / 153;
    FirstInYear(doe, y, mp);
    MonthOfStart(mp);
    CivilParts(n, era, doe, doy);
    var first := DaysBefore(y) + MonthStart(mp);
    CivilParts(n - doy + MonthStart(mp), era, first, MonthStart(mp));
  }

  // ---------- due resets ----------

  // Days since Monday: day 0 is a Thursday.
  function DaysSinceMonday(n: int): int {
    (n + 3) % 7
  }

  predicate Scheduled(policy: string) {
    policy == "daily" || policy == "weekly" || policy == "monthly"
  }

  /** The midnight that starts the current day, week or month, as ResetDue builds it. */
  function Boundary(policy: string, now: int): int {
    var n := DayOf(now);
    var d := Civil(n);
    DAY * (
      if policy == "daily" then DayNumber(d.year, d.month, d.day)
      else if policy == "weekly" then DayNumber(d.year, d.month, d.day - DaysSinceMonday(n))
      else DayNumber(d.year, d.month, 1))
  }

  predicate ResetDue(policy: string, start: int, now: int) {
    Scheduled(policy) && start < Boundary(policy, now)
  }

  /** Two moments lie in the same day, in the same week from Monday, or in the same month. */
  predicate SamePeriod(policy: string, a: int, b: int) {
    match policy
    case "daily" => DayOf(a) == DayOf(b)
    case "weekly" => (DayOf(a) + 3) / 7 == (DayOf(b) + 3) / 7
    case _ => Civil(DayOf(a)).year == Civil(DayOf(b)).year && Civil(DayOf(a)).month == Civil(DayOf(b)).month
  }

  // The day that starts the current period.
  function FirstDay(policy: string, n: int): int {
    if policy == "daily" then n else if policy == "weekly" then n - DaysSinceMonday(n) else n - Civil(n).day + 1
  }

  lemma BoundaryDay(policy: string, now: int)
    requires Scheduled(policy)
    ensures Boundary(policy, now) == DAY * FirstDay(policy, DayOf(now))
    ensures DayOf(Boundary(policy, now)) == FirstDay(policy, DayOf(now))
  {
    hide Civil, DayNumber, DaysSinceMonday, DayOf;
    var n := DayOf(now);
    var d := Civil(n);
    CivilRoundTrip(n);
    ShiftedDay(d.year, d.month, d.day, d.day - DaysSinceMonday(n));
    ShiftedDay(d.year, d.month, d.day, 1);
    WholeDays(FirstDay(policy, n));
  }

  /**
   The boundary is not after `now`; it is midnight of the same day, of that week's Monday, or
   of day 1 of the same month, and a day count that leaves the month is normalised correctly.
   */
  lemma BoundaryStartsPeriod(policy: string, now: int)
    requires Scheduled(policy)
    ensures Boundary(policy, now) <= now
    ensures policy == "daily" ==> Boundary(policy, now) == DAY * DayOf(now)
    ensures policy == "weekly" ==>
              DaysSinceMonday(DayOf(Boundary(policy, now))) == 0 && now < Boundary(policy, now) + 7 * DAY
    ensures policy == "monthly" ==>
              var d := Civil(DayOf(now));
              && Boundary(policy, now) == DAY * (DayOf(now) - d.day + 1)
              && Civil(DayOf(Boundary(policy, now))) == Date(d.year, d.month, 1)
  {
    hide Civil, DaysSinceMonday, DayOf, Boundary;
    var n := DayOf(now);
    BoundaryDay(policy, now);
    DayBounds(now);
    if policy == "weekly" {
      MondayOf(n);
    } else if policy == "monthly" {
      FirstOfMonth(n);
      CivilRoundTrip(n);
    }
  }

  lemma DayBounds(now: int)
    ensures DAY * DayOf(now) <= now < DAY * DayOf(now) + DAY
  {}

  // A day count that leaves its month moves the date by whole days.
  lemma ShiftedDay(year: int, month: int, day: int, other: int)
    ensures DayNumber(year, month, other) == DayNumber(year, month, day) + (other - day)
  {}

  lemma WholeDays(n: int)
    ensures DayOf(DAY * n) == n
  {}

  lemma MondayOf(n: int)
    ensures DaysSinceMonday(n - DaysSinceMonday(n)) == 0 && 0 <= DaysSinceMonday(n) < 7
  {}

  lemma SamePeriodSameBoundary(policy: string, a: int, b: int)
    requires Scheduled(policy) && SamePeriod(policy, a, b)
    ensures Boundary(policy, a) == Boundary(policy, b)
  {
    CivilRoundTrip(DayOf(a));
    CivilRoundTrip(DayOf(b));
    hide Civil;
    if policy == "weekly" {
      assert DayOf(a) - DaysSinceMonday(DayOf(a)) == DayOf(b) - DaysSinceMonday(DayOf(b));
    }
  }

  /** It lies in the period of `now`, and nothing of that period lies before it. */
  lemma BoundaryIsFirst(policy: string, now: int)
    requires Scheduled(policy)
    ensures SamePeriod(policy, Boundary(policy, now), now)
    ensures forall t :: SamePeriod(policy, t, now) ==> Boundary(policy, now) <= t
  {
    BoundaryStartsPeriod(policy, now);
    BoundaryDay(policy, now);
    hide Boundary, Civil;
    forall t | SamePeriod(policy, t, now) ensures Boundary(policy, now) <= t {
      SamePeriodSameBoundary(policy, t, now);
      BoundaryStartsPeriod(policy, t);
      hide SamePeriod;
    }
  }

  // ---------- the scheduler over time ----------

  // A tick of the scheduler, or a reset by hand; reading the counter or resetting it may fail.
  datatype Tick = Tick(now: int, byHand: bool, works: bool)

  predicate Resets(policy: string, start: int, tick: Tick) {
    tick.works && (tick.byHand || ResetDue(policy, start, tick.now))
  }

  /** The period start after some ticks. */
  function StartAfter(policy: string, start: int, ticks: seq<Tick>): int {
    if ticks == [] then start
    else
      var n := |ticks| - 1;
      var before := StartAfter(policy, start, ticks[..n]);
      if Resets(policy, before, ticks[n]) then ticks[n].now else before
  }

  ghost predicate Ordered(start: int, ticks: seq<Tick>) {
    && (forall i :: 0 <= i < |ticks| ==> start <= ticks[i].now)
    && (forall i, j :: 0 <= i < j < |ticks| ==> ticks[i].now <= ticks[j].now)
  }

  // Tick i resets because the schedule says so.
  predicate ScheduledReset(policy: string, start: int, ticks: seq<Tick>, i: nat)
    requires i < |ticks|
  {
    !ticks[i].byHand && Resets(policy, StartAfter(policy, start, ticks[..i]), ticks[i])
  }

  lemma {:induction false} StartBounds(policy: string, start: int, ticks: seq<Tick>)
    requires Ordered(start, ticks)
    ensures start <= StartAfter(policy, start, ticks)
    ensures ticks != [] ==> StartAfter(policy, start, ticks) <= ticks[|ticks| - 1].now
    ensures ticks == [] ==> StartAfter(policy, start, ticks) == start
  {
    hide ResetDue;
    if ticks != [] {
      var front := ticks[..|ticks| - 1];
      StartBounds(policy, start, front);
      assert front != [] ==> front[|front| - 1].now <= ticks[|ticks| - 1].now;
    }
  }

  lemma {:induction false} StartGrows(policy: string, start: int, ticks: seq<Tick>, i: nat)
    requires Ordered(start, ticks) && i <= |ticks|
    ensures StartAfter(policy, start, ticks[..i]) <= StartAfter(policy, start, ticks)
  {
    hide ResetDue;
    var n := |ticks| - 1;
    if i <= n {
      assert ticks[..n][..i] == ticks[..i];
      StartGrows(policy, start, ticks[..n], i);
      StartBounds(policy, start, ticks[..n]);
      assert n > 0 ==> ticks[..n][n - 1].now <= ticks[n].now;
    } else {
      assert ticks[..i] == ticks;
    }
  }

  /** After a tick that works, the period start is not before the tick's boundary, whatever failed before. */
  lemma {:induction false} TickCatchesUp(policy: string, start: int, ticks: seq<Tick>)
    requires Scheduled(policy) && ticks != [] && ticks[|ticks| - 1].works
    ensures StartAfter(policy, start, ticks) >= Boundary(policy, ticks[|ticks| - 1].now)
  {
    BoundaryStartsPeriod(policy, ticks[|ticks| - 1].now);
    hide Boundary;
  }

  /** Each day, week or month sees at most one scheduled reset, whatever is reset by hand in between. */
  lemma OneResetPerPeriod(policy: string, start: int, ticks: seq<Tick>, i: nat, j: nat)
    requires Ordered(start, ticks) && i < j < |ticks|
    requires ScheduledReset(policy, start, ticks, i) && ScheduledReset(policy, start, ticks, j)
    ensures !SamePeriod(policy, ticks[i].now, ticks[j].now)
  {
    hide Boundary, SamePeriod;
    if SamePeriod(policy, ticks[i].now, ticks[j].now) {
      SamePeriodSameBoundary(policy, ticks[i].now, ticks[j].now);
      assert ticks[..i + 1][..i] == ticks[..i] && ticks[..j][..i + 1] == ticks[..i + 1];
      TickCatchesUp(policy, start, ticks[..i + 1]);
      StartGrows(policy, start, ticks[..j], i + 1);
      assert false;
    }
  }

  // Entry j reset the counter, on schedule or by hand.
  predicate DidReset(policy: string, start: int, ticks: seq<Tick>, j: nat)
    requires j < |ticks|
  {
    Resets(policy, StartAfter(policy, start, ticks[..j]), ticks[j])
  }

  lemma FrontReset(policy: string, start: int, ticks: seq<Tick>, n: nat, j: nat)
    requires j < n <= |ticks|
    ensures DidReset(policy, start, ticks[..n], j) <==> DidReset(policy, start, ticks, j)
  {
    assert ticks[..n][..j] == ticks[..j];
    hide Resets, StartAfter;
  }

  lemma {:induction false} StartBefore(policy: string, start: int, ticks: seq<Tick>, time: int)
    requires Ordered(start, ticks)
    ensures StartAfter(policy, start, ticks) < time
            <==> start < time && forall j :: 0 <= j < |ticks| && DidReset(policy, start, ticks, j) ==>
                  ticks[j].now < time
  {
    hide Resets;
    if ticks != [] {
      var n := |ticks| - 1;
      var front := ticks[..n];
      StartBefore(policy, start, front, time);
      StartBounds(policy, start, front);
      hide DidReset;
      forall j | 0 <= j < n ensures DidReset(policy, start, front, j) <==> DidReset(policy, start, ticks, j) {
        FrontReset(policy, start, ticks, n, j);
      }
      assert DidReset(policy, start, ticks, n) <==> Resets(policy, StartAfter(policy, start, front), ticks[n])
          by { LastReset(policy, start, ticks); }
      assert StartAfter(policy, start, front) <= ticks[n].now;
    }
  }

  lemma LastReset(policy: string, start: int, ticks: seq<Tick>)
    requires ticks != []
    ensures var n := |ticks| - 1;
            DidReset(policy, start, ticks, n) <==> Resets(policy, StartAfter(policy, start, ticks[..n]), ticks[n])
  {}

  /**
   Exactly when a tick resets: it works, the account began before the current period, and no
   reset, scheduled or by hand, has happened in the period yet.  So a failed reset is
   made up for by the next tick that works.
   */
  lemma DueExactly(policy: string, start: int, ticks: seq<Tick>, i: nat)
    requires Scheduled(policy) && Ordered(start, ticks) && i < |ticks| && !ticks[i].byHand
    ensures var boundary := Boundary(policy, ticks[i].now);
            ScheduledReset(policy, start, ticks, i)
            <==> ticks[i].works && start < boundary
                 && forall j :: 0 <= j < i && DidReset(policy, start, ticks, j) ==> ticks[j].now < boundary
  {
    StartBefore(policy, start, ticks[..i], Boundary(policy, ticks[i].now));
    forall j | 0 <= j < i ensures DidReset(policy, start, ticks[..i], j) <==> DidReset(policy, start, ticks, j) {
      FrontReset(policy, start, ticks, i, j);
    }
    hide Boundary, DidReset, StartAfter;
  }

  // ---------- the loop over all counters ----------

  /** The counter of an instance after one tick; `fails` holds those whose counter could not be read or reset. */
  function Ticked(policies: map<int, string>, fails: set<int>, now: int, id: int, c: Traffic.Counter): Traffic.Counter {
    if id in policies && id !in fails && ResetDue(policies[id], c.periodStart, now)
        then Traffic.Counter(0, 0, 0, now, None) else c
  }

  /** One turn of resetScheduler: every due counter that does not fail is reset, no other changes, the ledger stays. */
  method ResetTick(store: Traffic.Store, ids: seq<int>, policies: map<int, string>, unread: set<int>,
      unreset: set<int>, now: int)
    requires forall i, j :: 0 <= i < j < |ids| ==> ids[i] != ids[j]
    requires (forall id :: id in ids <==> id in policies) && policies.Keys == store.counters.Keys
    modifies store
    ensures store.ledger == old(store.ledger)
    ensures store.counters == map id | id in old(store.counters) :: Ticked(policies, unread
            + unreset, now, id, old(store.counters)[id])
  {
    hide ResetDue;
    ghost var fails, before := unread + unreset, store.counters;
    assert forall i :: 0 <= i < |ids| ==> ids[i] in ids;
    for n := 0 to |ids|
      invariant store.ledger == old(store.ledger) && store.counters.Keys == before.Keys
      invariant forall i :: 0 <= i < n ==>
                  ids[i] in store.counters && store.counters[ids[i]]
                      == Ticked(policies, fails, now, ids[i], before[ids[i]])
      invariant forall i :: n <= i < |ids| ==> ids[i] in store.counters && store.counters[ids[i]] == before[ids[i]]
    {
      if ids[n] !in unread && ResetDue(policies[ids[n]], store.counters[ids[n]].periodStart, now) {
        var _ := store.ResetTraffic(ids[n], now, ids[n] !in unreset);
      }
    }
  }
}
