/** When the periodic jobs run: calendar arithmetic and the loop of one job. */
module Scheduling {
  // Instants are microseconds in UTC, counted from a Monday at midnight.
  const SECOND := 1_000_000
  const MINUTE := 60_000_000
  const HOUR := 3_600_000_000
  const DAY := 86_400_000_000
  const WEEK := 604_800_000_000

  predicate Clock(hour: int, minute: int) { 0 <= hour < 24 && 0 <= minute < 60 }

  function Offset(hour: int, minute: int): int { (60 * hour + minute) * MINUTE }

  // ----- dates -----

  function DayOf(t: int): int { t / DAY }

  function Weekday(t: int): int { DayOf(t) % 7 }

  // The same date at another time of day.
  function Replace(t: int, hour: int, minute: int): int { DayOf(t) * DAY + Offset(hour, minute) }

  function NextDailyRun(now: int, hour: int, minute: int): int
  {
    var candidate := Replace(now, hour, minute);
    if candidate > now then candidate else candidate + DAY
  }

  function NextWeeklyRun(now: int, weekday: int, hour: int, minute: int): int
  {
    var candidate := Replace(now, hour, minute) + (weekday - Weekday(now)) % 7 * DAY;
    if candidate > now then candidate else candidate + WEEK
  }

  // ----- the recurring instants -----

  // A schedule: its instants come one period apart.
  datatype Grid = Grid(start: int, period: int)

  function Instant(g: Grid, k: int): int { k * g.period + g.start }

  function DailyGrid(hour: int, minute: int): Grid { Grid(Offset(hour, minute), DAY) }

  function WeeklyGrid(weekday: int, hour: int, minute: int): Grid { Grid(weekday * DAY + Offset(hour, minute), WEEK) }

  lemma DayBounds(t: int)
    ensures DayOf(t) * DAY <= t < DayOf(t) * DAY + DAY
  {
  }

  lemma OffsetBounds(hour: int, minute: int)
    requires Clock(hour, minute)
    ensures 0 <= Offset(hour, minute) < DAY
  {
  }

  function HourOf(t: int): int { t / HOUR % 24 }

  function MinuteOf(t: int): int { t / MINUTE % 60 }

  // The clock shows the hour and the full minute.
  predicate ShowsTime(t: int, hour: int, minute: int)
  {
    HourOf(t) == hour && MinuteOf(t) == minute && t % MINUTE == 0
  }

  /** A time of day is the distance from midnight. */
  lemma {:induction false} TimeOfDay(t: int, hour: int, minute: int)
    requires Clock(hour, minute)
    ensures ShowsTime(t, hour, minute) <==> t - DayOf(t) * DAY == Offset(hour, minute)
  {
    var rest := t - DayOf(t) * DAY;
    DayBounds(t);
    assert t / HOUR == 24 * DayOf(t) + rest / HOUR;
    assert t / MINUTE == 1440 * DayOf(t) + rest / MINUTE;
    assert HourOf(t) == rest / HOUR && MinuteOf(t) == rest / MINUTE % 60 && t % MINUTE == rest % MINUTE;
  }

  /** Every full minute is shown by a time of day and a weekday that a schedule may have. */
  lemma EveryMinuteShows(t: int)
    requires t % MINUTE == 0
    ensures Proper(Daily(HourOf(t), MinuteOf(t))) && Proper(Weekly(Weekday(t), HourOf(t), MinuteOf(t)))
    ensures ShowsTime(t, HourOf(t), MinuteOf(t))
  {
  }

  /** The daily instants are exactly those that show the hour and minute. */
  lemma {:induction false} DailyShows(t: int, hour: int, minute: int)
    requires Clock(hour, minute)
    ensures ShowsTime(t, hour, minute) <==> t == Instant(DailyGrid(hour, minute), DayOf(t))
    ensures forall k :: t == Instant(DailyGrid(hour, minute), k) ==> k == DayOf(t)
  {
    DayBounds(t);
    OffsetBounds(hour, minute);
    TimeOfDay(t, hour, minute);
  }

  /** The weekly instants are exactly those that show them on the weekday. */
  lemma {:induction false} WeeklyShows(t: int, weekday: int, hour: int, minute: int)
    requires 0 <= weekday < 7 && Clock(hour, minute)
    ensures ShowsTime(t, hour, minute) && Weekday(t) == weekday
      <==> t == Instant(WeeklyGrid(weekday, hour, minute), DayOf(t) / 7)
    ensures forall k :: t == Instant(WeeklyGrid(weekday, hour, minute), k) ==> k == DayOf(t) / 7
  {
    DayBounds(t);
    OffsetBounds(hour, minute);
    TimeOfDay(t, hour, minute);
    forall k | t == Instant(WeeklyGrid(weekday, hour, minute), k)
      ensures k == DayOf(t) / 7 && Weekday(t) == weekday
    {
      assert DayOf(t) == 7 * k + weekday;
    }
  }

  predicate LeastAfter(g: Grid, now: int, r: int, k: int)
  {
    r == Instant(g, k) && now < r <= now + g.period
  }

  /** Within one period of now there is one instant, and it is the first after now. */
  lemma {:induction false} LeastIsLeast(g: Grid, now: int, r: int, k: int, n: int)
    requires g.period > 0 && LeastAfter(g, now, r, k)
    ensures Instant(g, n) > now <==> n >= k
    ensures n >= k <==> Instant(g, n) >= r
  {
    if n >= k {
      TimesMonotone(k, n, g.period);
    } else {
      TimesMonotone(n, k - 1, g.period);
      OneLess(k, g.period);
    }
  }

  lemma TimesMonotone(a: int, b: int, p: int)
    requires a <= b && p > 0
    ensures a * p <= b * p
  {
  }

  lemma OneLess(k: int, p: int)
    ensures (k - 1) * p == k * p - p
  {
  }

  /** The next daily run is the first daily slot strictly after now. */
  lemma {:induction false} NextDailyIsLeast(now: int, hour: int, minute: int)
    requires Clock(hour, minute)
    ensures exists k :: LeastAfter(DailyGrid(hour, minute), now, NextDailyRun(now, hour, minute), k)
  {
    DayBounds(now);
    OffsetBounds(hour, minute);
    var k := if Replace(now, hour, minute) > now then DayOf(now) else DayOf(now) + 1;
    assert LeastAfter(DailyGrid(hour, minute), now, NextDailyRun(now, hour, minute), k);
  }

  lemma WeekOf(day: int, weekday: int)
    requires 0 <= weekday < 7
    ensures day + (weekday - day % 7) % 7 ==
      (if weekday >= day % 7 then day / 7 else day / 7 + 1) * 7 + weekday
  {
  }

  /** The next weekly run is the first weekly slot strictly after now. */
  lemma {:induction false} NextWeeklyIsLeast(now: int, weekday: int, hour: int, minute: int)
    requires 0 <= weekday < 7 && Clock(hour, minute)
    ensures exists k :: LeastAfter(WeeklyGrid(weekday, hour, minute), now, NextWeeklyRun(now, weekday, hour, minute), k)
  {
    var d := DayOf(now);
    DayBounds(now);
    OffsetBounds(hour, minute);
    WeekOf(d, weekday);
    var w := if weekday >= d % 7 then d / 7 else d / 7 + 1;
    var ahead := (weekday - d % 7) % 7;
    var candidate := Replace(now, hour, minute) + ahead * DAY;
    assert candidate == (7 * w + weekday) * DAY + Offset(hour, minute);
    var k := if candidate > now then w else w + 1;
    assert LeastAfter(WeeklyGrid(weekday, hour, minute), now, NextWeeklyRun(now, weekday, hour, minute), k);
  }

  /** The next daily run is the first instant strictly after now that shows the hour and minute. */
  lemma {:induction false} NextDailyIsFirst(now: int, hour: int, minute: int)
    requires Clock(hour, minute)
    ensures var r := NextDailyRun(now, hour, minute);
      && now < r <= now + DAY && ShowsTime(r, hour, minute)
      && forall t :: now < t && ShowsTime(t, hour, minute) ==> r <= t
  {
    var g, r := DailyGrid(hour, minute), NextDailyRun(now, hour, minute);
    NextDailyIsLeast(now, hour, minute);
    var k :| LeastAfter(g, now, r, k);
    DailyShows(r, hour, minute);
    forall t | now < t && ShowsTime(t, hour, minute)
      ensures r <= t
    {
      DailyShows(t, hour, minute);
      LeastIsLeast(g, now, r, k, DayOf(t));
    }
  }

  /** The next weekly run is the first instant strictly after now that shows them on the weekday. */
  lemma {:induction false} NextWeeklyIsFirst(now: int, weekday: int, hour: int, minute: int)
    requires 0 <= weekday < 7 && Clock(hour, minute)
    ensures var r := NextWeeklyRun(now, weekday, hour, minute);
      && now < r <= now + WEEK && ShowsTime(r, hour, minute) && Weekday(r) == weekday
      && forall t :: now < t && ShowsTime(t, hour, minute) && Weekday(t) == weekday ==> r <= t
  {
    var g, r := WeeklyGrid(weekday, hour, minute), NextWeeklyRun(now, weekday, hour, minute);
    NextWeeklyIsLeast(now, weekday, hour, minute);
    var k :| LeastAfter(g, now, r, k);
    WeeklyShows(r, weekday, hour, minute);
    forall t | now < t && ShowsTime(t, hour, minute) && Weekday(t) == weekday
      ensures r <= t
    {
      WeeklyShows(t, weekday, hour, minute);
      LeastIsLeast(g, now, r, k, DayOf(t) / 7);
    }
  }

  // ----- the loop of one job -----

  datatype Schedule =
    | Every(seconds: nat)
    | Daily(hour: int, minute: int)
    | Weekly(weekday: int, hour: int, minute: int)

  predicate Proper(s: Schedule)
  {
    match s
    case Every(seconds) => seconds > 0
    case Daily(h, m) => Clock(h, m)
    case Weekly(d, h, m) => 0 <= d < 7 && Clock(h, m)
  }

  function UntilNext(s: Schedule, now: int): int
  {
    match s
    case Every(seconds) => seconds * SECOND
    case Daily(h, m) => NextDailyRun(now, h, m) - now
    case Weekly(d, h, m) => NextWeeklyRun(now, d, h, m) - now
  }

  function GridOf(s: Schedule): Grid
    requires !s.Every?
  {
    if s.Daily? then DailyGrid(s.hour, s.minute) else WeeklyGrid(s.weekday, s.hour, s.minute)
  }

  // How a turn ended; the task can be cancelled in the job or in the sleep before it.
  datatype Outcome = Done | Failed | Cancelled | CancelledAsleep

  // One turn of the loop: when the delay was computed, when the sleep ended, and how the turn did.
  datatype Turn = Turn(now: int, woke: int, outcome: Outcome)

  // The instant the turn was meant for.
  function Target(s: Schedule, turn: Turn): int { turn.now + UntilNext(s, turn.now) }

  // No sleep ends early, and each turn begins after the one before.
  predicate Punctual(s: Schedule, turns: seq<Turn>)
  {
    && (forall i :: 0 <= i < |turns| ==> turns[i].woke >= Target(s, turns[i]))
    && (forall i :: 0 < i < |turns| ==> turns[i].now >= turns[i - 1].woke)
  }

  lemma TargetIsLeast(s: Schedule, turn: Turn) returns (k: int)
    requires Proper(s) && !s.Every?
    ensures GridOf(s).period > 0 && LeastAfter(GridOf(s), turn.now, Target(s, turn), k)
  {
    match s
    case Daily(h, m) =>
      NextDailyIsLeast(turn.now, h, m);
      k :| LeastAfter(DailyGrid(h, m), turn.now, NextDailyRun(turn.now, h, m), k);
    case Weekly(d, h, m) =>
      NextWeeklyIsLeast(turn.now, d, h, m);
      k :| LeastAfter(WeeklyGrid(d, h, m), turn.now, NextWeeklyRun(turn.now, d, h, m), k);
  }

  /** A later turn gets a later instant if and only if it begins at or after the earlier one's: waking
      early runs the job twice for one instant. */
  lemma {:induction false} NoRepeatIff(s: Schedule, a: Turn, b: Turn)
    requires Proper(s) && !s.Every? && a.now <= b.now
    ensures Target(s, a) < Target(s, b) <==> b.now >= Target(s, a)
    ensures b.now < Target(s, a) ==> Target(s, b) == Target(s, a)
  {
    var j := TargetIsLeast(s, a);
    var k := TargetIsLeast(s, b);
    LeastIsLeast(GridOf(s), b.now, Target(s, b), k, j);
    LeastIsLeast(GridOf(s), a.now, Target(s, a), j, k);
  }

  /** Exactly the instants that pass while the job runs late are skipped. */
  lemma {:induction false} SkippedExactly(s: Schedule, a: Turn, b: Turn, n: int)
    requires Proper(s) && !s.Every? && b.now >= Target(s, a)
    ensures Target(s, a) < Instant(GridOf(s), n) < Target(s, b)
      <==> Target(s, a) < Instant(GridOf(s), n) <= b.now
  {
    var k := TargetIsLeast(s, b);
    LeastIsLeast(GridOf(s), b.now, Target(s, b), k, n);
  }

  /** For jobs of any length and outcome, punctual turns fire at strictly later instants. */
  lemma {:induction false} FiresInOrder(s: Schedule, turns: seq<Turn>, i: nat, j: nat)
    requires Proper(s) && Punctual(s, turns) && i < j < |turns|
    ensures Target(s, turns[i]) < Target(s, turns[j])
    decreases j
  {
    var a, b := turns[j - 1], turns[j];
    assert b.now >= a.woke >= Target(s, a);
    if i < j - 1 { FiresInOrder(s, turns, i, j - 1); }
    if !s.Every? { NextIsLater(s, b); }
  }

  lemma NextIsLater(s: Schedule, turn: Turn)
    requires Proper(s)
    ensures Target(s, turn) > turn.now
  {
    if !s.Every? {
      var k := TargetIsLeast(s, turn);
    }
  }

  /** The instants of an interval job lie at least the interval apart, and exactly so if every turn begins at
      the instant of the one before. */
  lemma {:induction false} IntervalApart(seconds: nat, turns: seq<Turn>, i: nat, j: nat)
    requires i <= j < |turns| && forall k :: 0 < k < |turns| ==> turns[k].now >= Target(Every(seconds), turns[k - 1])
    ensures Target(Every(seconds), turns[j]) - Target(Every(seconds), turns[i]) >= (j - i) * seconds * 1_000_000
    ensures (forall k :: i < k <= j ==> turns[k].now == Target(Every(seconds), turns[k - 1])) ==>
      Target(Every(seconds), turns[j]) - Target(Every(seconds), turns[i]) == (j - i) * seconds * 1_000_000
    decreases j
  {
    if i < j {
      IntervalApart(seconds, turns, i, j - 1);
      OneMore(j - i, seconds);
    }
  }

  lemma OneMore(n: int, seconds: nat)
    ensures n * seconds * 1_000_000 == (n - 1) * seconds * 1_000_000 + seconds * 1_000_000
  {
  }

  /** The schedules in use are proper, so all of this holds of them. */
  lemma JobsAreProper(jobs: seq<Schedule>)
    requires jobs == [Every(60), Every(600), Daily(3, 0), Daily(20, 0), Weekly(0, 0, 0), Daily(4, 0)]
    ensures forall s :: s in jobs ==> Proper(s)
  {
  }

  /** Turns that begin when the one before woke, and wake on time, are punctual. */
  lemma OnTimeIsPunctual(s: Schedule, turns: seq<Turn>)
    requires forall i :: 0 <= i < |turns| ==> turns[i].woke == Target(s, turns[i])
    requires forall i :: 0 < i < |turns| ==> turns[i].now == turns[i - 1].woke
    ensures Punctual(s, turns)
  {
  }

  // The clock does not run backwards from turn to turn.
  predicate Forward(turns: seq<Turn>)
  {
    forall i :: 0 < i < |turns| ==> turns[i - 1].now <= turns[i].now
  }

  // The turn gets a later instant than the one before: it begins at or after that one's instant, on a
  // fixed interval just later.
  predicate MovesOn(s: Schedule, before: Turn, turn: Turn)
  {
    if s.Every? then before.now < turn.now else Target(s, before) <= turn.now
  }

  predicate AllMoveOn(s: Schedule, turns: seq<Turn>)
  {
    forall i :: 0 < i < |turns| ==> MovesOn(s, turns[i - 1], turns[i])
  }

  predicate Increasing(s: Schedule, turns: seq<Turn>)
  {
    forall i, j :: 0 <= i < j < |turns| ==> Target(s, turns[i]) < Target(s, turns[j])
  }

  lemma {:induction false} StepsIncrease(s: Schedule, turns: seq<Turn>, i: nat, j: nat)
    requires forall k :: 0 < k < |turns| ==> Target(s, turns[k - 1]) < Target(s, turns[k])
    requires i < j < |turns|
    ensures Target(s, turns[i]) < Target(s, turns[j])
    decreases j
  {
    if i < j - 1 { StepsIncrease(s, turns, i, j - 1); }
  }

  /** Over a whole run the instants increase if and only if every turn moves on. */
  lemma {:induction false} IncreasingIff(s: Schedule, turns: seq<Turn>)
    requires Proper(s) && Forward(turns)
    ensures Increasing(s, turns) <==> AllMoveOn(s, turns)
  {
    forall i | 0 < i < |turns|
      ensures MovesOn(s, turns[i - 1], turns[i]) <==> Target(s, turns[i - 1]) < Target(s, turns[i])
    {
      if !s.Every? { NoRepeatIff(s, turns[i - 1], turns[i]); }
    }
    if AllMoveOn(s, turns) {
      forall i, j | 0 <= i < j < |turns|
        ensures Target(s, turns[i]) < Target(s, turns[j])
      {
        StepsIncrease(s, turns, i, j);
      }
    }
    if Increasing(s, turns) {
      forall i | 0 < i < |turns|
        ensures MovesOn(s, turns[i - 1], turns[i])
      {
        assert Target(s, turns[i - 1]) < Target(s, turns[i]);
      }
    }
  }

  /** A sleep that ends early repeats an instant when the next turn begins before it, and not otherwise. */
  lemma EarlyWakeRepeats()
    ensures var s, first := Daily(3, 0), Turn(0, 1, Done);
      && Target(s, first) > first.woke
      && Target(s, Turn(2, 3, Done)) == Target(s, first)
      && Target(s, Turn(180 * MINUTE + 1, 180 * MINUTE + 2, Done)) > Target(s, first)
  {
    var s := Daily(3, 0);
    NoRepeatIff(s, Turn(0, 1, Done), Turn(2, 3, Done));
    NoRepeatIff(s, Turn(0, 1, Done), Turn(180 * MINUTE + 1, 180 * MINUTE + 2, Done));
  }

  lemma AllInOrder(s: Schedule, turns: seq<Turn>)
    ensures Proper(s) && Forward(turns) ==> (Increasing(s, turns) <==> AllMoveOn(s, turns))
    ensures Proper(s) && Punctual(s, turns) ==>
      forall i, j :: 0 <= i < j < |turns| ==> Target(s, turns[i]) < Target(s, turns[j]) <= turns[j].woke
  {
    if Proper(s) && Forward(turns) { IncreasingIff(s, turns); }
    if Proper(s) && Punctual(s, turns) {
      forall i, j | 0 <= i < j < |turns|
        ensures Target(s, turns[i]) < Target(s, turns[j]) <= turns[j].woke
      {
        FiresInOrder(s, turns, i, j);
      }
    }
  }

  predicate Rising(instants: seq<int>)
  {
    forall i, j :: 0 <= i < j < |instants| ==> instants[i] < instants[j]
  }

  lemma FiredInOrder(s: Schedule, turns: seq<Turn>, fired: seq<int>)
    requires |fired| <= |turns| && forall i :: 0 <= i < |fired| ==> fired[i] == Target(s, turns[i])
    ensures Proper(s) && Forward(turns) ==> (Rising(fired) <==> AllMoveOn(s, turns[..|fired|]))
    ensures Proper(s) && Punctual(s, turns) ==>
      Rising(fired) && forall i :: 0 <= i < |fired| ==> fired[i] <= turns[i].woke
  {
    var ran := turns[..|fired|];
    AllInOrder(s, ran);
    assert Rising(fired) <==> Increasing(s, ran);
    if Proper(s) && Punctual(s, turns) { assert Punctual(s, ran); }
  }

  /** A failed job does not end the loop, a cancellation does, in the sleep before the job could run.  The
      job runs at the instants computed at the start of the turns; they rise exactly if every turn moves
      on, and with punctual turns none is fired before it is due. */
  method RunJob(s: Schedule, turns: seq<Turn>) returns (fired: seq<int>, taken: nat)
    ensures |fired| <= taken <= |turns|
    ensures |fired| == if taken > 0 && turns[taken - 1].outcome.CancelledAsleep? then taken - 1 else taken
    ensures forall i :: 0 <= i < taken - 1 ==> turns[i].outcome == Done || turns[i].outcome == Failed
    ensures taken < |turns| ==>
      taken > 0 && (turns[taken - 1].outcome == Cancelled || turns[taken - 1].outcome == CancelledAsleep)
    ensures forall i :: 0 <= i < |fired| ==> fired[i] == Target(s, turns[i])
    ensures Proper(s) && Forward(turns) ==> (Rising(fired) <==> AllMoveOn(s, turns[..|fired|]))
    ensures Proper(s) && Punctual(s, turns) ==>
      Rising(fired) && forall i :: 0 <= i < |fired| ==> fired[i] <= turns[i].woke
  {
    fired := [];
    for i := 0 to |turns|
      invariant |fired| == i
      invariant forall j :: 0 <= j < i ==> fired[j] == Target(s, turns[j])
      invariant forall j :: 0 <= j < i ==> turns[j].outcome == Done || turns[j].outcome == Failed
    {
      var delay := UntilNext(s, turns[i].now);
      if turns[i].outcome.CancelledAsleep? {
        FiredInOrder(s, turns, fired);
        return fired, i + 1;
      }
      fired := fired + [turns[i].now + delay];
      if turns[i].outcome.Cancelled? {
        FiredInOrder(s, turns, fired);
        return fired, i + 1;
      }
    }
    FiredInOrder(s, turns, fired);
    taken := |turns|;
  }
}
