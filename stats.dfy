/**
 * Two computations of the statistics in database.py: the streak of consecutive days with
 * entries (`_calculate_streak`, database.py:197-221) and the time-of-day bucket of an entry's
 * hour (the `CASE` of `get_weekly_summary`, database.py:258-262).
 *
 * Dates are day numbers: one more is the next calendar day. The query of `_calculate_streak`
 * yields the distinct entry dates of a user, newest first.
 */
module Stats {

  // ---------------------------------------------------------------------------------------
  // The streak
  // ---------------------------------------------------------------------------------------

  /** Newest first, no date twice: the order of `SELECT DISTINCT DATE(...) ORDER BY ... DESC`. */
  predicate StrictlyDescending(dates: seq<int>)
  {
    forall i, j :: 0 <= i < j < |dates| ==> dates[i] > dates[j]
  }

  /** The length of the run of dates, each one day before the previous, that starts the list. */
  function RunLength(dates: seq<int>): (n: nat)
    ensures dates != [] ==> 1 <= n
    ensures n <= |dates|
  {
    if |dates| <= 1 then |dates|
    else if dates[0] - dates[1] == 1 then 1 + RunLength(dates[1..])
    else 1
  }

  /** The streak the statistics show: zero unless the newest date is today or yesterday. */
  function Streak(dates: seq<int>, today: int): nat
  {
    if dates == [] then 0
    else if dates[0] != today && dates[0] != today - 1 then 0
    else RunLength(dates)
  }

  /**
   * `_calculate_streak`: no dates gives 0; a newest date older than yesterday gives 0;
   * otherwise count from 1 while each date is one day before the previous one.
   */
  method CalculateStreak(dates: seq<int>, today: int) returns (streak: nat)
    ensures streak == Streak(dates, today)
  {
    if |dates| == 0 {
      return 0;
    }
    if dates[0] != today && dates[0] != today - 1 {
      return 0;
    }
    streak := 1;
    var i := 1;
    while i < |dates|
      invariant 1 <= i <= |dates|
      invariant streak == i
      invariant RunLength(dates) == i - 1 + RunLength(dates[i - 1..])
    {
      if dates[i - 1] - dates[i] == 1 {
        streak := streak + 1;
      } else {
        break;
      }
      assert dates[i - 1..][1..] == dates[i..];
      i := i + 1;
    }
  }

  /** The first `n` dates are consecutive days going back from the newest. */
  predicate ConsecutiveFromNewest(dates: seq<int>, n: nat)
    requires n <= |dates|
  {
    forall k :: 0 <= k < n ==> dates[k] == dates[0] - k
  }

  /**
   * The run is maximal: its dates are consecutive days going back from the newest, and the
   * date after the run, if any, is not the day before the run's last day.
   */
  lemma {:induction false} RunLengthMaximal(dates: seq<int>)
    ensures ConsecutiveFromNewest(dates, RunLength(dates))
    ensures RunLength(dates) < |dates| ==> dates[RunLength(dates)] != dates[0] - RunLength(dates)
  {
    if |dates| > 1 && dates[0] - dates[1] == 1 {
      var t := dates[1..];
      RunLengthMaximal(t);
      forall k | 0 <= k < RunLength(dates)
        ensures dates[k] == dates[0] - k
      {
        if k > 0 {
          assert dates[k] == t[k - 1];
        }
      }
    }
  }

  /**
   * With the dates of the query (distinct, newest first) and a non-zero streak `n`: each of
   * the `n` days back from the newest date has an entry, the day before them has none, and
   * the streak counts at most the number of distinct dates.
   */
  lemma StreakDays(dates: seq<int>, today: int)
    requires StrictlyDescending(dates)
    ensures Streak(dates, today) <= |dates|
    ensures Streak(dates, today) > 0 <==> dates != [] && (dates[0] == today || dates[0] == today - 1)
    ensures var n := Streak(dates, today);
      n > 0 ==> (forall day :: dates[0] - n < day <= dates[0] ==> day in dates) && dates[0] - n !in dates
  {
    var n := Streak(dates, today);
    if n > 0 {
      RunLengthMaximal(dates);
      forall day | dates[0] - n < day <= dates[0]
        ensures day in dates
      {
        assert dates[dates[0] - day] == day;
      }
      NotInAfterRun(dates, n);
    }
  }

  /** In distinct newest-first dates, the day just before a maximal run is not a date. */
  lemma NotInAfterRun(dates: seq<int>, n: nat)
    requires StrictlyDescending(dates) && 0 < n <= |dates|
    requires ConsecutiveFromNewest(dates, n)
    requires n < |dates| ==> dates[n] != dates[0] - n
    ensures dates[0] - n !in dates
  {
    forall j | 0 <= j < |dates|
      ensures dates[j] != dates[0] - n
    {
      if j < n {
        assert dates[j] == dates[0] - j;
      } else if j > n {
        assert dates[n - 1] == dates[0] - (n - 1);
        assert dates[j] < dates[n] < dates[n - 1];
      }
    }
  }

  /** The cases the statistics screen promises, on concrete day numbers. */
  lemma StreakExamples(today: int)
    ensures Streak([], today) == 0
    ensures Streak([today, today - 1, today - 2], today) == 3
    ensures Streak([today - 1, today - 2, today - 4], today) == 2
    ensures Streak([today - 2, today - 3], today) == 0
  {
    assert RunLength([today - 2]) == 1;
    assert [today - 1, today - 2][1..] == [today - 2];
    assert RunLength([today - 1, today - 2]) == 2;
    assert [today, today - 1, today - 2][1..] == [today - 1, today - 2];
    assert RunLength([today, today - 1, today - 2]) == 3;
    assert [today - 2, today - 4][1..] == [today - 4];
    assert RunLength([today - 2, today - 4]) == 1;
    assert [today - 1, today - 2, today - 4][1..] == [today - 2, today - 4];
    assert RunLength([today - 1, today - 2, today - 4]) == 2;
  }

  // ---------------------------------------------------------------------------------------
  // The time of day
  // ---------------------------------------------------------------------------------------

  /** The four buckets of `time_of_day`: утро, день, вечер, ночь. */
  datatype DayPart = Morning | Afternoon | Evening | Night

  /** The `CASE` on the hour of `created_at`: the `BETWEEN` bounds are inclusive. */
  function DayPartOf(hour: int): DayPart
  {
    if 6 <= hour <= 11 then Morning
    else if 12 <= hour <= 17 then Afternoon
    else if 18 <= hour <= 22 then Evening
    else Night
  }

  /** The hours of the day that fall into one bucket. */
  function HoursOf(p: DayPart): (hours: set<int>)
    ensures forall h :: h in hours <==> 0 <= h < 24 && DayPartOf(h) == p
  {
    set h | 0 <= h < 24 && DayPartOf(h) == p
  }

  lemma MorningHours()
    ensures HoursOf(Morning) == {6, 7, 8, 9, 10, 11} && |HoursOf(Morning)| == 6
  {
    forall h ensures h in HoursOf(Morning) <==> h in {6, 7, 8, 9, 10, 11} {
    }
  }

  lemma AfternoonHours()
    ensures HoursOf(Afternoon) == {12, 13, 14, 15, 16, 17} && |HoursOf(Afternoon)| == 6
  {
    forall h ensures h in HoursOf(Afternoon) <==> h in {12, 13, 14, 15, 16, 17} {
    }
  }

  lemma EveningHours()
    ensures HoursOf(Evening) == {18, 19, 20, 21, 22} && |HoursOf(Evening)| == 5
  {
    forall h ensures h in HoursOf(Evening) <==> h in {18, 19, 20, 21, 22} {
    }
  }

  lemma NightHours()
    ensures HoursOf(Night) == {23, 0, 1, 2, 3, 4, 5} && |HoursOf(Night)| == 7
  {
    forall h ensures h in HoursOf(Night) <==> h in {23, 0, 1, 2, 3, 4, 5} {
    }
  }

  /** No hour falls into two buckets. */
  lemma DayPartsDisjoint(p: DayPart, q: DayPart)
    requires p != q
    ensures HoursOf(p) * HoursOf(q) == {}
  {
    forall h | h in HoursOf(p) ensures h !in HoursOf(q) {
      assert DayPartOf(h) == p;
    }
  }

  /** The four buckets together are exactly the hours 0 to 23. */
  lemma DayPartsCoverTheDay()
    ensures forall h :: h in HoursOf(Morning) + HoursOf(Afternoon) + HoursOf(Evening) + HoursOf(Night) <==> 0 <= h < 24
  {
    forall h | 0 <= h < 24
      ensures h in HoursOf(DayPartOf(h))
    {
    }
  }

  /**
   * The buckets split the 24 hours into four blocks of consecutive hours: 6 to 11, 12 to
   * 17, 18 to 22, and the night from 23 round to 5. Each hour is in one bucket only, and
   * the sizes 6, 6, 5 and 7 add up to the whole day.
   */
  lemma DayPartsPartitionTheDay()
    ensures |HoursOf(Morning)| + |HoursOf(Afternoon)| + |HoursOf(Evening)| + |HoursOf(Night)| == 24
  {
    MorningHours();
    AfternoonHours();
    EveningHours();
    NightHours();
  }
}
