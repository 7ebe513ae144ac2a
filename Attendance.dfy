/**
 * The attendance tab of the client detail view
 * (frontend/src/App-attendance-enhanced.jsx): the per-session
 * classification against the current time, the one badge each row shows,
 * the newest-first order of the rows, and the three insight counters.
 *
 * Instants are integers compared as `new Date(...)` values are; `now` is the
 * one clock reading the view is taken at.
 */
module Attendance {
  import opened Models
  import Sessions

  /** What the view reads of a session row. */
  datatype SessionView = SessionView(scheduledAt: int, status: SessionStatus)

  predicate IsCompleted(v: SessionView)
  {
    v.status == Completed
  }

  predicate IsPast(v: SessionView, now: int)
  {
    v.scheduledAt < now
  }

  /** Past, and neither completed nor cancelled. */
  predicate IsMissed(v: SessionView, now: int)
  {
    IsPast(v, now) && !IsCompleted(v) && v.status != Cancelled
  }

  predicate IsCancelled(v: SessionView)
  {
    v.status == Cancelled
  }

  /** The badge of a row; its colours and its icon follow the same choice. */
  datatype Badge = Attended | Missed | CancelledBadge | Upcoming

  /**
   * The first of completed, missed, cancelled that holds picks the badge;
   * otherwise the session is upcoming. So a row is ATTENDED exactly when
   * completed, MISSED exactly when past and scheduled or no-show, CANCELLED
   * exactly when cancelled (past or not), and UPCOMING exactly when it is
   * scheduled or no-show and not yet past.
   */
  function BadgeOf(v: SessionView, now: int): (b: Badge)
    ensures b == Attended <==> v.status == Completed
    ensures b == Missed <==> v.scheduledAt < now && (v.status == Scheduled || v.status == NoShow)
    ensures b == CancelledBadge <==> v.status == Cancelled
    ensures b == Upcoming <==> now <= v.scheduledAt && (v.status == Scheduled || v.status == NoShow)
  {
    if IsCompleted(v) then Attended
    else if IsMissed(v, now) then Missed
    else if IsCancelled(v) then CancelledBadge
    else Upcoming
  }

  /**
   * `mark_session_attendance` stores any attendance other than `attended`
   * as `cancelled`, so a session marked absent shows CANCELLED, never MISSED.
   */
  lemma MarkedAbsentIsNeverMissed(attendance: string, scheduledAt: int, now: int)
    requires attendance != "attended"
    ensures BadgeOf(SessionView(scheduledAt, Sessions.AttendanceStatus(attendance)), now) == CancelledBadge
  {
  }

  // ---------------------------------------------------------------------
  // Counters
  // ---------------------------------------------------------------------

  /** The number of rows with a given badge. */
  function CountBadge(ss: seq<SessionView>, now: int, b: Badge): nat
  {
    if ss == [] then 0
    else CountBadge(ss[..|ss| - 1], now, b) + (if BadgeOf(ss[|ss| - 1], now) == b then 1 else 0)
  }

  /** `completedSessions`: the number of completed sessions. */
  function CompletedCount(ss: seq<SessionView>): nat
  {
    if ss == [] then 0
    else CompletedCount(ss[..|ss| - 1]) + (if IsCompleted(ss[|ss| - 1]) then 1 else 0)
  }

  /** "Missed Total": past sessions that are neither completed nor cancelled. */
  function MissedTotal(ss: seq<SessionView>, now: int): nat
  {
    if ss == [] then 0
    else
      var v := ss[|ss| - 1];
      MissedTotal(ss[..|ss| - 1], now) + (if IsPast(v, now) && v.status != Completed && v.status != Cancelled then 1 else 0)
  }

  /**
   * "This Month": completed sessions in the calendar month of `now`;
   * `monthOf` gives the year and month (as one number) of an instant in the
   * viewer's zone.
   */
  function ThisMonth(ss: seq<SessionView>, now: int, monthOf: int -> int): nat
  {
    if ss == [] then 0
    else
      var v := ss[|ss| - 1];
      ThisMonth(ss[..|ss| - 1], now, monthOf) + (if monthOf(v.scheduledAt) == monthOf(now) && IsCompleted(v) then 1 else 0)
  }

  /** "Missed Total" counts exactly the rows whose badge is MISSED. */
  lemma {:induction false} MissedTotalCountsMissedBadges(ss: seq<SessionView>, now: int)
    ensures MissedTotal(ss, now) == CountBadge(ss, now, Missed)
  {
    if ss != [] {
      MissedTotalCountsMissedBadges(ss[..|ss| - 1], now);
    }
  }

  /** The completed count is the number of ATTENDED rows. */
  lemma {:induction false} CompletedCountsAttendedBadges(ss: seq<SessionView>, now: int)
    ensures CompletedCount(ss) == CountBadge(ss, now, Attended)
  {
    if ss != [] {
      CompletedCountsAttendedBadges(ss[..|ss| - 1], now);
    }
  }

  /** Every row carries exactly one of the four badges. */
  lemma {:induction false} BadgesPartitionRows(ss: seq<SessionView>, now: int)
    ensures CountBadge(ss, now, Attended) + CountBadge(ss, now, Missed)
          + CountBadge(ss, now, CancelledBadge) + CountBadge(ss, now, Upcoming) == |ss|
  {
    if ss != [] {
      BadgesPartitionRows(ss[..|ss| - 1], now);
    }
  }

  /** "This Month" never exceeds the completed count. */
  lemma {:induction false} ThisMonthAtMostCompleted(ss: seq<SessionView>, now: int, monthOf: int -> int)
    ensures ThisMonth(ss, now, monthOf) <= CompletedCount(ss)
  {
    if ss != [] {
      ThisMonthAtMostCompleted(ss[..|ss| - 1], now, monthOf);
    }
  }

  lemma {:induction false} CompletedCountAppend(a: seq<SessionView>, b: seq<SessionView>)
    ensures CompletedCount(a + b) == CompletedCount(a) + CompletedCount(b)
    decreases |b|
  {
    if b == [] {
      assert a + b == a;
    } else {
      assert (a + b)[..|a + b| - 1] == a + b[..|b| - 1];
      CompletedCountAppend(a, b[..|b| - 1]);
    }
  }

  /** A stretch of rows counts no more completed sessions than a longer stretch around it. */
  lemma CompletedCountWithin(s: seq<SessionView>, lo: int, hi: int, lo': int, hi': int)
    requires 0 <= lo' <= lo <= hi <= hi' <= |s|
    ensures CompletedCount(s[lo..hi]) <= CompletedCount(s[lo'..hi'])
  {
    assert s[lo'..hi'] == s[lo'..lo] + s[lo..hi] + s[hi..hi'];
    CompletedCountAppend(s[lo'..lo], s[lo..hi]);
    CompletedCountAppend(s[lo'..lo] + s[lo..hi], s[hi..hi']);
  }

  // ---------------------------------------------------------------------
  // Best Streak
  // ---------------------------------------------------------------------

  /** The filter to completed sessions: each completed session as often as in the list, no other. */
  function CompletedOnly(ss: seq<SessionView>): (r: seq<SessionView>)
    ensures |r| == CompletedCount(ss)
    ensures forall v :: v in r ==> IsCompleted(v) && v in ss
    ensures forall v :: multiset(r)[v] == if IsCompleted(v) then multiset(ss)[v] else 0
  {
    if ss == [] then []
    else
      assert ss == ss[..|ss| - 1] + [ss[|ss| - 1]];
      CompletedOnly(ss[..|ss| - 1]) + (if IsCompleted(ss[|ss| - 1]) then [ss[|ss| - 1]] else [])
  }

  /**
   * "Best Streak" as the view computes it: over the completed sessions in
   * date order it adds one to the current streak per session and keeps the
   * maximum, but never resets the current streak, so the result is the
   * number of completed sessions (their order does not matter).
   */
  method BestStreakAsWritten(sessions: seq<SessionView>) returns (maxStreak: nat)
    ensures maxStreak == CompletedCount(sessions)
  {
    var completed := CompletedOnly(sessions);
    maxStreak := 0;
    var currentStreak := 0;
    for i := 0 to |completed|
      invariant currentStreak == i && maxStreak == i
    {
      currentStreak := currentStreak + 1;
      if currentStreak > maxStreak {
        maxStreak := currentStreak;
      }
    }
  }

  /** No row of the stretch is missed. */
  ghost predicate NoMissed(s: seq<SessionView>, now: int)
  {
    forall k :: 0 <= k < |s| ==> !IsMissed(s[k], now)
  }

  /** A stretch that takes in a missed row is not free of misses. */
  lemma MissedBreaks(s: seq<SessionView>, now: int, lo: int, hi: int, k: int)
    requires 0 <= lo <= hi <= |s| && 0 <= k < |s|
    ensures lo <= k < hi && IsMissed(s[k], now) ==> !NoMissed(s[lo..hi], now)
  {
  }

  /**
   * `n` is the best streak of a list in date order: some stretch of
   * consecutive rows without a missed session holds `n` completed sessions,
   * and no such stretch holds more.
   */
  ghost predicate IsBestStreak(s: seq<SessionView>, now: int, n: int)
  {
    && (exists lo, hi :: 0 <= lo <= hi <= |s| && NoMissed(s[lo..hi], now) && CompletedCount(s[lo..hi]) == n)
    && (forall lo, hi :: 0 <= lo <= hi <= |s| && NoMissed(s[lo..hi], now) ==> CompletedCount(s[lo..hi]) <= n)
  }

  /** `IsBestStreak` of the first `i` rows. */
  ghost predicate BestUpTo(s: seq<SessionView>, now: int, i: int, best: int)
  {
    && 0 <= i <= |s|
    && (exists lo, hi :: 0 <= lo <= hi <= i && NoMissed(s[lo..hi], now) && CompletedCount(s[lo..hi]) == best)
    && (forall lo, hi :: 0 <= lo <= hi <= i && NoMissed(s[lo..hi], now) ==> CompletedCount(s[lo..hi]) <= best)
  }

  /**
   * The loop state after `i` rows: the current run starts at `runStart`
   * (just after the last missed row), has no missed row and holds `cur`
   * completed sessions; `best` is the best streak so far.
   */
  ghost predicate StreakState(s: seq<SessionView>, now: int, i: int, runStart: int, cur: int, best: int)
  {
    && 0 <= runStart <= i <= |s|
    && cur == CompletedCount(s[runStart..i]) && cur <= best
    && NoMissed(s[runStart..i], now)
    && (runStart > 0 ==> IsMissed(s[runStart - 1], now))
    && BestUpTo(s, now, i, best)
  }

  /**
   * The streak the counter is labelled with ("consecutive sessions"): over
   * the sessions in date order, a completed one extends the current streak,
   * a missed one ends it, and a cancelled or upcoming one leaves it as it is.
   */
  method BestStreak(chrono: seq<SessionView>, now: int) returns (maxStreak: nat)
    ensures IsBestStreak(chrono, now, maxStreak)
  {
    maxStreak := 0;
    var currentStreak: nat := 0;
    ghost var runStart := 0;
    StreakStart(chrono, now);
    for i := 0 to |chrono|
      invariant StreakState(chrono, now, i, runStart, currentStreak, maxStreak)
    {
      ghost var oldStart, oldCur, oldBest := runStart, currentStreak, maxStreak;
      var v := chrono[i];
      if IsMissed(v, now) {
        currentStreak := 0;
        runStart := i + 1;
      } else if IsCompleted(v) {
        currentStreak := currentStreak + 1;
        if currentStreak > maxStreak {
          maxStreak := currentStreak;
        }
      }
      StreakAdvance(chrono, now, i, oldStart, oldCur, oldBest, runStart, currentStreak, maxStreak);
    }
  }

  lemma StreakStart(s: seq<SessionView>, now: int)
    ensures StreakState(s, now, 0, 0, 0, 0)
  {
  }

  /** One row taken in by the loop body keeps the loop state. */
  lemma StreakAdvance(s: seq<SessionView>, now: int, i: int,
                      runStart: int, cur: int, best: int, runStart': int, cur': int, best': int)
    requires StreakState(s, now, i, runStart, cur, best) && i < |s|
    requires IsMissed(s[i], now) ==> runStart' == i + 1 && cur' == 0 && best' == best
    requires !IsMissed(s[i], now) && IsCompleted(s[i]) ==>
      runStart' == runStart && cur' == cur + 1 && best' == (if cur + 1 > best then cur + 1 else best)
    requires !IsMissed(s[i], now) && !IsCompleted(s[i]) ==> runStart' == runStart && cur' == cur && best' == best
    ensures StreakState(s, now, i + 1, runStart', cur', best')
  {
    RunExtends(s, now, i, runStart, runStart');
    StreakStep(s, now, i + 1, runStart, runStart', best');
    BestGrows(s, now, i + 1, best, best', runStart');
  }

  /** The current run after row `i`: empty after a missed row, one row longer otherwise. */
  lemma RunExtends(s: seq<SessionView>, now: int, i: int, runStart: int, runStart': int)
    requires 0 <= runStart <= i < |s|
    requires IsMissed(s[i], now) ==> runStart' == i + 1
    requires !IsMissed(s[i], now) ==> runStart' == runStart
    ensures CompletedCount(s[runStart'..i + 1])
         == if IsMissed(s[i], now) then 0 else CompletedCount(s[runStart..i]) + (if IsCompleted(s[i]) then 1 else 0)
  {
    if IsMissed(s[i], now) {
      assert s[runStart'..i + 1] == [];
    } else {
      assert s[runStart..i + 1][..i - runStart] == s[runStart..i];
    }
  }

  /** The best streak so far grows to cover the stretches ending at row `hi - 1`. */
  lemma BestGrows(s: seq<SessionView>, now: int, hi: int, best: int, best': int, runStart': int)
    requires 0 < hi <= |s| && BestUpTo(s, now, hi - 1, best) && best <= best'
    requires best' != best ==> 0 <= runStart' <= hi && NoMissed(s[runStart'..hi], now)
                               && CompletedCount(s[runStart'..hi]) == best'
    requires forall lo :: 0 <= lo <= hi && NoMissed(s[lo..hi], now) ==> CompletedCount(s[lo..hi]) <= best'
    ensures BestUpTo(s, now, hi, best')
  {
  }

  /** The stretches ending at `hi` stay within the bound once row `hi - 1` is taken in. */
  lemma StreakStep(s: seq<SessionView>, now: int, hi: int, oldStart: int, runStart: int, best: int)
    requires 0 <= oldStart < hi <= |s| && 0 <= best
    requires oldStart > 0 ==> IsMissed(s[oldStart - 1], now)
    requires NoMissed(s[oldStart..hi - 1], now)
    requires IsMissed(s[hi - 1], now) ==> runStart == hi
    requires !IsMissed(s[hi - 1], now) ==> runStart == oldStart && CompletedCount(s[oldStart..hi]) <= best
    ensures NoMissed(s[runStart..hi], now)
    ensures forall lo :: 0 <= lo <= hi && NoMissed(s[lo..hi], now) ==> CompletedCount(s[lo..hi]) <= best
  {
    if runStart == hi {
      assert s[runStart..hi] == [];
    } else {
      forall k | 0 <= k < hi - runStart
        ensures !IsMissed(s[runStart..hi][k], now)
      {
        if k < hi - 1 - runStart {
          assert s[runStart..hi][k] == s[runStart..hi - 1][k];
        }
      }
    }
    forall lo | 0 <= lo <= hi && NoMissed(s[lo..hi], now)
      ensures CompletedCount(s[lo..hi]) <= best
    {
      MissedBreaks(s, now, lo, hi, hi - 1);
      if oldStart > 0 {
        MissedBreaks(s, now, lo, hi, oldStart - 1);
      }
      if lo == hi {
        assert s[lo..hi] == [];
      } else if oldStart <= lo {
        CompletedCountWithin(s, lo, hi, oldStart, hi);
      }
    }
  }

  /** The labelled streak never exceeds what the view shows (the completed count). */
  lemma StreakAtMostCompleted(s: seq<SessionView>, now: int, n: int)
    requires IsBestStreak(s, now, n)
    ensures n <= CompletedCount(s)
  {
    var lo, hi :| 0 <= lo <= hi <= |s| && NoMissed(s[lo..hi], now) && CompletedCount(s[lo..hi]) == n;
    CompletedCountWithin(s, lo, hi, 0, |s|);
    assert s[0..|s|] == s;
  }

  /** With no missed session the labelled streak is the completed count, as the view shows it. */
  lemma StreakWithoutMissesIsCompletedCount(s: seq<SessionView>, now: int, n: int)
    requires NoMissed(s, now)
    requires IsBestStreak(s, now, n)
    ensures n == CompletedCount(s)
  {
    StreakAtMostCompleted(s, now, n);
    assert s[0..|s|] == s;
    assert NoMissed(s[0..|s|], now);
  }

  /**
   * Completed, missed, completed: the view shows a best streak of 2 where
   * the longest run of attended sessions is 1.
   */
  method StreakCounterexample() returns (shown: nat, labelled: nat)
    ensures shown == 2 && labelled == 1
  {
    var s0 := [SessionView(1, Completed)];
    var s1 := s0 + [SessionView(2, Scheduled)];
    var s := s1 + [SessionView(3, Completed)];
    shown := BestStreakAsWritten(s);
    labelled := BestStreak(s, 10);
    assert s0[..0] == [] && s1[..|s1| - 1] == s0 && s[..|s| - 1] == s1;
    assert CompletedCount(s0) == 1;
    assert CompletedCount(s1) == 1;
    StreakOfExample(s, labelled);
  }

  lemma StreakOfExample(s: seq<SessionView>, n: int)
    requires s == [SessionView(1, Completed), SessionView(2, Scheduled), SessionView(3, Completed)]
    requires IsBestStreak(s, 10, n)
    ensures n == 1
  {
    assert s[0..1] == [s[0]] && s[0..1][..0] == [];
    assert NoMissed(s[0..1], 10) && CompletedCount(s[0..1]) == 1;
    var lo, hi :| 0 <= lo <= hi <= |s| && NoMissed(s[lo..hi], 10) && CompletedCount(s[lo..hi]) == n;
    MissedBreaks(s, 10, lo, hi, 1);
    assert s[2..3] == [s[2]] && s[2..3][..0] == [];
    if hi <= 1 {
      CompletedCountWithin(s, lo, hi, 0, 1);
    } else if 2 <= lo {
      CompletedCountWithin(s, lo, hi, 2, 3);
    }
  }

  // ---------------------------------------------------------------------
  // Row order
  // ---------------------------------------------------------------------

  ghost predicate NewestFirst(s: seq<SessionView>)
  {
    forall x, y :: 0 <= x < y < |s| ==> s[x].scheduledAt >= s[y].scheduledAt
  }

  /** The first `n` cells of the array are in newest-first order. */
  ghost predicate NewestFirstUpTo(a: array<SessionView>, n: int)
    reads a
    requires 0 <= n <= a.Length
  {
    forall x, y :: 0 <= x < y < n ==> a[x].scheduledAt >= a[y].scheduledAt
  }

  /**
   * The in-place sort of the session list before the rows are drawn:
   * afterwards the list holds the same sessions, newest first.
   */
  method SortNewestFirst(a: array<SessionView>)
    modifies a
    ensures NewestFirst(a[..])
    ensures multiset(a[..]) == multiset(old(a[..]))
  {
    var i := 0;
    while i < a.Length
      invariant 0 <= i <= a.Length
      invariant NewestFirstUpTo(a, i)
      invariant multiset(a[..]) == multiset(old(a[..]))
    {
      InsertNewest(a, i);
      i := i + 1;
    }
  }

  /** Moves `a[i]` left past every older session, extending the sorted prefix by one. */
  method InsertNewest(a: array<SessionView>, i: int)
    requires 0 <= i < a.Length && NewestFirstUpTo(a, i)
    modifies a
    ensures NewestFirstUpTo(a, i + 1)
    ensures multiset(a[..]) == multiset(old(a[..]))
  {
    var j := i;
    while j > 0 && a[j - 1].scheduledAt < a[j].scheduledAt
      invariant 0 <= j <= i
      invariant forall x, y :: 0 <= x < y <= i && x != j && y != j ==> a[x].scheduledAt >= a[y].scheduledAt
      invariant forall y :: j < y <= i ==> a[j].scheduledAt > a[y].scheduledAt
      invariant multiset(a[..]) == multiset(old(a[..]))
    {
      Swap(a, j - 1, j);
      j := j - 1;
    }
  }

  method Swap(a: array<SessionView>, x: int, y: int)
    requires 0 <= x < y < a.Length
    modifies a
    ensures a[..] == old(a[..])[x := old(a[y])][y := old(a[x])]
    ensures multiset(a[..]) == multiset(old(a[..]))
  {
    a[x], a[y] := a[y], a[x];
  }
}
