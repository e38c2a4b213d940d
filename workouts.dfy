/** The trainer dashboard and the workout summary page of apps/views/workouts.py: the day
    streak, the integer statistics, the ten most recent sessions, and the summary that the
    session store hands out once. */
module Workouts {
  import opened Common
  import opened MyTrainer
  import opened Sorting

  const SecondsPerDay := 86400
  /** Asia/Tashkent, the configured time zone: UTC+5 all year round. */
  const LocalOffset := 5 * 3600
  /** The number of days `calculate_streak` looks at. */
  const StreakWindow := 100

  /** `timezone.now().date()`: the date of an aware UTC datetime, as a day number. */
  function UtcDay(t: int): int {
    t / SecondsPerDay
  }

  /** `started_at__date`: the date of a datetime in the configured time zone. */
  function LocalDay(t: int): int {
    (t + LocalOffset) / SecondsPerDay
  }

  /** `WorkoutSession.objects.filter(user=user, started_at__date=day, status='completed').exists()` */
  predicate HasWorkout(sessions: seq<WorkoutSession>, user: nat, day: int) {
    exists i | 0 <= i < |sessions| ::
      sessions[i].user == user && sessions[i].status == Completed && LocalDay(sessions[i].startedAt) == day
  }

  /** The number of consecutive days with a completed workout, counting back from `day`, looking
      at no more than `n` days. */
  function Run(sessions: seq<WorkoutSession>, user: nat, day: int, n: nat): (k: nat)
    ensures k <= n
    decreases n
  {
    if n == 0 || !HasWorkout(sessions, user, day) then 0
    else 1 + Run(sessions, user, day - 1, n - 1)
  }

  /** A run of `k` days is `k` days with a workout, followed, unless the window ran out, by a day
      without one. */
  lemma {:induction false} RunMeaning(sessions: seq<WorkoutSession>, user: nat, day: int, n: nat)
    ensures var k := Run(sessions, user, day, n);
      && (forall d :: day - k < d <= day ==> HasWorkout(sessions, user, d))
      && (k < n ==> !HasWorkout(sessions, user, day - k))
    decreases n
  {
    if n > 0 && HasWorkout(sessions, user, day) {
      RunMeaning(sessions, user, day - 1, n - 1);
    }
  }

  /** The streak the dashboard promises: the run of days with a completed workout that ends
      today, or yesterday when there is none today yet (today still uses one of the hundred
      looks). */
  function Streak(sessions: seq<WorkoutSession>, user: nat, today: int): (k: nat)
    ensures k <= StreakWindow
  {
    if HasWorkout(sessions, user, today) then Run(sessions, user, today, StreakWindow)
    else Run(sessions, user, today - 1, StreakWindow - 1)
  }

  /** `calculate_streak`: the bounded walk back from today's UTC date. */
  method CalculateStreak(sessions: seq<WorkoutSession>, user: nat, now: int) returns (streak: nat)
    ensures streak == Streak(sessions, user, UtcDay(now))
    ensures streak <= StreakWindow
  {
    var today := UtcDay(now);
    streak := 0;
    var current := today;
    var i := 0;
    while i < StreakWindow
      invariant 0 <= i <= StreakWindow
      invariant i == 0 ==> current == today && streak == 0
      invariant i > 0 ==> current < today
      invariant i > 0 ==> streak + Run(sessions, user, current, StreakWindow - i) == Streak(sessions, user, today)
    {
      if HasWorkout(sessions, user, current) {
        streak := streak + 1;
        current := current - 1;
      } else {
        if current != today {
          break;
        }
        current := current - 1;
      }
      i := i + 1;
    }
  }

  /** Sessions that are not completed never count: adding one leaves every streak as it was. */
  lemma {:induction false} StreakIgnoresUnfinished(sessions: seq<WorkoutSession>, s: WorkoutSession, user: nat, today: int)
    requires s.status != Completed
    ensures Streak(sessions + [s], user, today) == Streak(sessions, user, today)
  {
    forall day
      ensures HasWorkout(sessions + [s], user, day) == HasWorkout(sessions, user, day)
    {
      var t := sessions + [s];
      if HasWorkout(t, user, day) {
        var i :| 0 <= i < |t| && t[i].user == user && t[i].status == Completed && LocalDay(t[i].startedAt) == day;
        assert i < |sessions| && sessions[i] == t[i];
      }
      if HasWorkout(sessions, user, day) {
        var i :| 0 <= i < |sessions| && sessions[i].user == user && sessions[i].status == Completed &&
                 LocalDay(sessions[i].startedAt) == day;
        assert t[i] == sessions[i];
      }
    }
    RunIgnoresUnfinished(sessions, s, user, today, StreakWindow);
    RunIgnoresUnfinished(sessions, s, user, today - 1, StreakWindow - 1);
  }

  lemma {:induction false} RunIgnoresUnfinished(sessions: seq<WorkoutSession>, s: WorkoutSession, user: nat, day: int, n: nat)
    requires forall d :: HasWorkout(sessions + [s], user, d) == HasWorkout(sessions, user, d)
    ensures Run(sessions + [s], user, day, n) == Run(sessions, user, day, n)
    decreases n
  {
    if n > 0 {
      RunIgnoresUnfinished(sessions, s, user, day - 1, n - 1);
    }
  }

  /** A workout completed every day of the last hundred gives the full streak. */
  lemma {:induction false} FullStreak(sessions: seq<WorkoutSession>, user: nat, today: int)
    requires forall d :: today - StreakWindow < d <= today ==> HasWorkout(sessions, user, d)
    ensures Streak(sessions, user, today) == StreakWindow
  {
    RunFull(sessions, user, today, StreakWindow);
  }

  lemma {:induction false} RunFull(sessions: seq<WorkoutSession>, user: nat, day: int, n: nat)
    requires forall d :: day - n < d <= day ==> HasWorkout(sessions, user, d)
    ensures Run(sessions, user, day, n) == n
    decreases n
  {
    if n > 0 {
      assert HasWorkout(sessions, user, day);
      RunFull(sessions, user, day - 1, n - 1);
    }
  }

  /** The streak counts exactly the days it claims: every day of it, back from today (or from
      yesterday when today has no workout yet), has a completed workout, and the day before it
      has none unless the hundred-day window ran out. */
  lemma StreakMeaning(sessions: seq<WorkoutSession>, user: nat, today: int)
    ensures var k := Streak(sessions, user, today);
      var last := if HasWorkout(sessions, user, today) then today else today - 1;
      var window := if HasWorkout(sessions, user, today) then StreakWindow else StreakWindow - 1;
      && (forall d :: last - k < d <= last ==> HasWorkout(sessions, user, d))
      && (k < window ==> !HasWorkout(sessions, user, last - k))
  {
    RunMeaning(sessions, user, today, StreakWindow);
    RunMeaning(sessions, user, today - 1, StreakWindow - 1);
  }

  // ===== dashboard statistics =====

  /** The user's sessions, in table order. */
  function SessionsOf(sessions: seq<WorkoutSession>, user: nat): (r: seq<WorkoutSession>)
    ensures forall x :: x in r <==> x in sessions && x.user == user
    ensures |r| <= |sessions|
  {
    if sessions == [] then []
    else
      (if sessions[0].user == user then [sessions[0]] else []) + SessionsOf(sessions[1..], user)
  }

  /** The user's completed sessions. */
  function CompletedOf(sessions: seq<WorkoutSession>, user: nat): (r: seq<WorkoutSession>)
    ensures forall x :: x in r <==> x in sessions && x.user == user && x.status == Completed
    ensures |r| <= |sessions|
  {
    if sessions == [] then []
    else
      (if sessions[0].user == user && sessions[0].status == Completed then [sessions[0]] else [])
      + CompletedOf(sessions[1..], user)
  }

  function SumCalories(ss: seq<WorkoutSession>): real {
    if ss == [] then 0.0 else ss[0].totalCalories + SumCalories(ss[1..])
  }

  /** Python's `int(x)` on a Decimal: drops the fraction, rounding toward zero. */
  function TruncToInt(x: real): (t: int)
    ensures x >= 0.0 ==> t as real <= x < t as real + 1.0
    ensures x < 0.0 ==> t as real - 1.0 < x <= t as real
  {
    if x >= 0.0 then x.Floor else -((-x).Floor)
  }

  datatype UserStats = UserStats(totalWorkouts: nat, totalCalories: int, currentStreak: nat)

  /** Newest first: `order_by('-started_at')`. */
  predicate NewerFirst(a: WorkoutSession, b: WorkoutSession) {
    a.startedAt >= b.startedAt
  }

  lemma NewerFirstTotalPreorder()
    ensures TotalPreorder(NewerFirst)
  {
  }

  /** The ten most recent of the user's sessions, newest first. */
  function RecentSessions(sessions: seq<WorkoutSession>, user: nat): (r: seq<WorkoutSession>)
    ensures |r| <= 10
  {
    var sorted := SortBy(SessionsOf(sessions, user), NewerFirst);
    if |sorted| <= 10 then sorted else sorted[..10]
  }

  /** The recent list is newest first, holds only the user's sessions, holds ten of them unless
      the user has fewer, and no session of the user left out of it is newer than one in it. */
  lemma RecentSessionsAreMostRecent(sessions: seq<WorkoutSession>, user: nat)
    ensures var r := RecentSessions(sessions, user);
      && SortedBy(r, NewerFirst)
      && (forall x :: x in r ==> x in sessions && x.user == user)
      && |r| == (if |SessionsOf(sessions, user)| < 10 then |SessionsOf(sessions, user)| else 10)
      && forall x, y :: x in sessions && x.user == user && x !in r && y in r ==> x.startedAt <= y.startedAt
  {
    var own := SessionsOf(sessions, user);
    NewerFirstTotalPreorder();
    SortBySorted(own, NewerFirst);
    RecentAreOwn(sessions, user);
    RecentAreNewest(sessions, user);
  }

  lemma RecentAreOwn(sessions: seq<WorkoutSession>, user: nat)
    ensures forall x :: x in RecentSessions(sessions, user) ==> x in sessions && x.user == user
  {
    var sorted := SortBy(SessionsOf(sessions, user), NewerFirst);
    forall x | x in RecentSessions(sessions, user) ensures x in sessions && x.user == user {
      assert x in sorted;
      assert x in multiset(sorted);
    }
  }

  lemma RecentAreNewest(sessions: seq<WorkoutSession>, user: nat)
    ensures var r := RecentSessions(sessions, user);
      forall x, y :: x in sessions && x.user == user && x !in r && y in r ==> x.startedAt <= y.startedAt
  {
    var own := SessionsOf(sessions, user);
    var sorted := SortBy(own, NewerFirst);
    var r := RecentSessions(sessions, user);
    NewerFirstTotalPreorder();
    SortBySorted(own, NewerFirst);
    forall x, y | x in sessions && x.user == user && x !in r && y in r
      ensures x.startedAt <= y.startedAt
    {
      assert x in multiset(own);
      assert x in multiset(sorted);
      var j :| 0 <= j < |sorted| && sorted[j] == x;
      var k :| 0 <= k < |r| && r[k] == y;
      assert r[k] == sorted[k];
      assert NewerFirst(sorted[k], sorted[j]);
    }
  }

  /** With no completed session the calorie total is 0. */
  lemma NoCompletedNoCalories(sessions: seq<WorkoutSession>, user: nat)
    requires forall x :: x in sessions && x.user == user ==> x.status != Completed
    ensures TruncToInt(SumCalories(CompletedOf(sessions, user))) == 0
  {
  }

  /** `MyTrainerView.get_context_data`: the statistics and the recent sessions of `user`. */
  method TrainerDashboard(sessions: seq<WorkoutSession>, user: nat, now: int)
    returns (stats: UserStats, recent: seq<WorkoutSession>)
    ensures stats.totalWorkouts == |CompletedOf(sessions, user)|
    ensures stats.totalCalories == TruncToInt(SumCalories(CompletedOf(sessions, user)))
    ensures stats.currentStreak == Streak(sessions, user, UtcDay(now))
    ensures recent == RecentSessions(sessions, user)
  {
    var completed := CompletedOf(sessions, user);
    var streak := CalculateStreak(sessions, user, now);
    stats := UserStats(|completed|, TruncToInt(SumCalories(completed)), streak);
    recent := RecentSessions(sessions, user);
  }

  // ===== WorkoutCompleteView =====

  /** A value kept in the session store (the session serializer's JSON values). */
  datatype StoredValue =
    | Null
    | Int(i: int)
    | Text(s: string)
    | List(items: seq<StoredValue>)
    | Dict(entries: map<string, StoredValue>)

  const SummaryKey := "workout_summary"

  /** The summary the page shows. */
  datatype WorkoutSummary = WorkoutSummary(totalReps: StoredValue, totalWeight: StoredValue, duration: StoredValue)

  const DefaultSummary := WorkoutSummary(Int(0), Int(0), Text("0:00"))

  /** The page's context: the summary, or the exception that ends the request. */
  datatype SummaryPage = Shown(summary: WorkoutSummary) | Raised(exception: string)

  function Lookup(m: map<string, StoredValue>, key: string, default: StoredValue): StoredValue {
    if key in m then m[key] else default
  }

  /** The summary read from the store's entries: no stored summary shows the defaults, a stored
      dictionary shows its values with a default for each missing one, and any other stored value
      has no `.get` and raises `AttributeError`. */
  function SummaryOf(entries: map<string, StoredValue>): (r: SummaryPage)
    ensures r.Raised? <==> SummaryKey in entries && !entries[SummaryKey].Dict?
    ensures r.Raised? ==> r.exception == "AttributeError"
    ensures SummaryKey !in entries ==> r == Shown(DefaultSummary)
    ensures SummaryKey in entries && entries[SummaryKey].Dict? ==>
      var stored := entries[SummaryKey].entries;
      && r.Shown?
      && ("total_reps" in stored ==> r.summary.totalReps == stored["total_reps"])
      && ("total_reps" !in stored ==> r.summary.totalReps == Int(0))
      && ("total_weight" in stored ==> r.summary.totalWeight == stored["total_weight"])
      && ("total_weight" !in stored ==> r.summary.totalWeight == Int(0))
      && ("duration" in stored ==> r.summary.duration == stored["duration"])
      && ("duration" !in stored ==> r.summary.duration == Text("0:00"))
  {
    if SummaryKey !in entries then Shown(DefaultSummary)
    else match entries[SummaryKey]
      case Dict(stored) =>
        Shown(WorkoutSummary(Lookup(stored, "total_reps", Int(0)), Lookup(stored, "total_weight", Int(0)),
                             Lookup(stored, "duration", Text("0:00"))))
      case _ => Raised("AttributeError")
  }

  /** The request's session store. */
  class SessionStore {
    var entries: map<string, StoredValue>
    var modified: bool

    constructor (entries: map<string, StoredValue>)
      ensures this.entries == entries && !modified
    {
      this.entries := entries;
      modified := false;
    }

    /** `WorkoutCompleteView.get_context_data`: the stored summary, then its key deleted so the
        next visit sees the defaults; every other entry stays. A stored value that is not a
        dictionary raises before the delete, so it stays and raises again on the next visit. */
    method TakeWorkoutSummary() returns (r: SummaryPage)
      modifies this
      ensures r == SummaryOf(old(entries))
      ensures r.Raised? ==> entries == old(entries) && modified == old(modified)
      ensures r.Shown? ==> entries == old(entries) - {SummaryKey}
      ensures r.Shown? ==> modified == (old(modified) || SummaryKey in old(entries))
      ensures r.Shown? ==> SummaryOf(entries) == Shown(DefaultSummary)
    {
      r := SummaryOf(entries);
      if r.Raised? {
        return;
      }
      if SummaryKey in entries {
        entries := entries - {SummaryKey};
        modified := true;
      }
    }
  }

  /** The summary is read once: whatever was stored, reading again after the delete gives the
      defaults, and the other entries are untouched. */
  lemma SummaryReadOnce(entries: map<string, StoredValue>)
    ensures SummaryOf(entries - {SummaryKey}) == Shown(DefaultSummary)
    ensures forall k :: k in entries && k != SummaryKey ==> k in entries - {SummaryKey}
  {
  }
}
