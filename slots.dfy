/**
 * The slot arithmetic of `schedule_daily_checks` (bot.py:803-818): a reminder window
 * `[startHour, endHour)` and a count become minute offsets into the window, then local
 * wall-clock slots on today's date, then UTC instants. Instants are whole minutes counted
 * from an epoch; `today` is a day number, so local midnight is `today * MinutesPerDay`.
 */
module Slots {
  import opened Wrappers

  const MinutesPerHour := 60
  const MinutesPerDay := 1440

  /** What `schedule_daily_checks` can raise before it writes anything. */
  datatype ScheduleError =
    | ZeroDivision       // `total_minutes // count` with a count of 0
    | SampleSizeInvalid  // `random.sample` asked for a negative number of values
    | HourOutOfRange     // `time.replace(hour=...)` with an hour outside 0..23

  /** Python's floor division `a // b`. */
  function FloorDiv(a: int, b: int): int
    requires b != 0
  {
    if b > 0 then a / b else (-a) / (-b)
  }

  function Max(a: int, b: int): int { if a < b then b else a }

  /**
   * Python's `list(range(lo, stop, step))` for a positive step: the values `lo + i * step`
   * below `stop`, up to the first one that would reach it.
   */
  function RangeFrom(lo: int, stop: int, step: int): (r: seq<int>)
    requires step >= 1
    ensures forall i :: 0 <= i < |r| ==> r[i] == lo + i * step && r[i] < stop
    ensures lo + |r| * step >= stop
    decreases stop - lo
  {
    if lo >= stop then []
    else
      var rest := RangeFrom(lo + step, stop, step);
      assert lo + |[lo] + rest| * step == lo + step + |rest| * step;
      [lo] + rest
  }

  /** Python's prefix slice `s[:k]`, where a negative `k` counts from the end. */
  function TakePrefix<T>(s: seq<T>, k: int): (r: seq<T>)
    ensures |r| <= |s| && r == s[..|r|]
    ensures k >= 0 ==> |r| == if k < |s| then k else |s|
  {
    if k >= 0 then (if k < |s| then s[..k] else s)
    else if |s| + k > 0 then s[..|s| + k]
    else []
  }

  /** The list `[0, 1, ..., n - 1]`. */
  function Iota(n: nat): (r: seq<int>)
    ensures |r| == n && forall i :: 0 <= i < n ==> r[i] == i
  {
    seq(n, i => i)
  }

  /** The offsets of the narrow-window branch (bot.py:807-808). */
  function EvenOffsets(total: int, count: int): seq<int>
    requires count != 0
  {
    TakePrefix(RangeFrom(0, total, Max(1, FloorDiv(total, count))), count)
  }

  lemma {:induction false} RangeStepOne(lo: int, stop: int)
    ensures RangeFrom(lo, stop, 1) == seq(Max(0, stop - lo), i => lo + i)
    decreases stop - lo
  {
    if lo < stop {
      RangeStepOne(lo + 1, stop);
    }
  }

  /**
   * When the window holds no more minutes than the count, the step is 1 and the offsets are
   * every minute of the window: fewer than `count` of them when the window is smaller, and
   * none at all when `endHour <= startHour`.
   */
  lemma EvenOffsetsCoverWindow(total: int, count: int)
    requires count != 0 && total <= count
    ensures EvenOffsets(total, count) == Iota(Max(0, total))
  {
    var step := Max(1, FloorDiv(total, count));
    if total > 0 {
      assert count > 0 && FloorDiv(total, count) <= 1;
      assert step == 1;
      RangeStepOne(0, total);
      assert RangeFrom(0, total, step) == Iota(total);
    } else {
      assert RangeFrom(0, total, step) == [];
    }
  }

  predicate Distinct(s: seq<int>)
  {
    forall i, j :: 0 <= i < j < |s| ==> s[i] != s[j]
  }

  predicate Ascending(s: seq<int>)
  {
    forall i, j :: 0 <= i < j < |s| ==> s[i] <= s[j]
  }

  predicate StrictlyIncreasing(s: seq<int>)
  {
    forall i, j :: 0 <= i < j < |s| ==> s[i] < s[j]
  }

  /** What `random.sample(range(n), k)` promises: `k` distinct values drawn from `[0, n)`. */
  predicate IsSample(s: seq<int>, n: int, k: int)
  {
    && |s| == k
    && (forall i :: 0 <= i < |s| ==> 0 <= s[i] < n)
    && Distinct(s)
  }

  /**
   * `random.sample(range(n), k)`. The draw is left open: any `k` distinct values of the
   * population may come back, in any order. Python raises when `k` is negative or exceeds
   * the population's length `len(range(n))`, which is 0 for a negative `n`.
   */
  method RandomSample(n: int, k: int) returns (r: Result<seq<int>, ScheduleError>)
    ensures r.Failure? <==> k < 0 || Max(0, n) < k
    ensures r.Failure? ==> r.error == SampleSizeInvalid
    ensures r.Success? ==> IsSample(r.value, n, k)
  {
    if k < 0 || Max(0, n) < k {
      return Failure(SampleSizeInvalid);
    }
    assert IsSample(Iota(k), n, k);
    var s :| IsSample(s, n, k);
    return Success(s);
  }

  /** Puts `x` into `s` before the first element not smaller than it. */
  function Insert(x: int, s: seq<int>): (r: seq<int>)
    ensures |r| == |s| + 1
    ensures multiset(r) == multiset(s) + multiset{x}
  {
    if s == [] || x <= s[0] then [x] + s
    else
      assert s == [s[0]] + s[1..];
      [s[0]] + Insert(x, s[1..])
  }

  /** `[h] + t` is ascending (strictly, when `strict`) if `t` is and `h` lies below every element of `t`. */
  lemma ConsOrdered(h: int, t: seq<int>, strict: bool)
    requires if strict then StrictlyIncreasing(t) else Ascending(t)
    requires forall y :: y in t ==> if strict then h < y else h <= y
    ensures if strict then StrictlyIncreasing([h] + t) else Ascending([h] + t)
  {
    var r := [h] + t;
    forall i, j | 0 <= i < j < |r| ensures if strict then r[i] < r[j] else r[i] <= r[j] {
      assert r[j] == t[j - 1];
      if i > 0 {
        assert r[i] == t[i - 1];
      } else {
        assert t[j - 1] in t;
      }
    }
  }

  lemma {:induction false} InsertOrdered(x: int, s: seq<int>, strict: bool)
    requires if strict then StrictlyIncreasing(s) && x !in s else Ascending(s)
    ensures if strict then StrictlyIncreasing(Insert(x, s)) else Ascending(Insert(x, s))
  {
    if s == [] || x <= s[0] {
      BelowFirstBelowAll(x, s, strict);
      ConsOrdered(x, s, strict);
    } else {
      assert s == [s[0]] + s[1..];
      InsertOrdered(x, s[1..], strict);
      HeadBelowInserted(x, s, strict);
      ConsOrdered(s[0], Insert(x, s[1..]), strict);
    }
  }

  lemma BelowFirstBelowAll(x: int, s: seq<int>, strict: bool)
    requires if strict then StrictlyIncreasing(s) && x !in s else Ascending(s)
    requires s == [] || x <= s[0]
    ensures forall y :: y in s ==> if strict then x < y else x <= y
  {
    forall y | y in s ensures if strict then x < y else x <= y {
      var k :| 0 <= k < |s| && s[k] == y;
      assert k == 0 || s[0] <= s[k];
    }
  }

  lemma HeadBelowInserted(x: int, s: seq<int>, strict: bool)
    requires if strict then StrictlyIncreasing(s) && x !in s else Ascending(s)
    requires s != [] && s[0] < x
    ensures forall y :: y in Insert(x, s[1..]) ==> if strict then s[0] < y else s[0] <= y
  {
    var t := Insert(x, s[1..]);
    forall y | y in t ensures if strict then s[0] < y else s[0] <= y {
      assert y in multiset(t);
      if y != x {
        var k :| 0 <= k < |s[1..]| && s[1..][k] == y;
        assert s[k + 1] == y;
      }
    }
  }

  /** Python's `sorted(s)` on integers: an ascending permutation of `s`. */
  function Sorted(s: seq<int>): (r: seq<int>)
    ensures |r| == |s|
    ensures multiset(r) == multiset(s)
    ensures Ascending(r)
    ensures Distinct(s) ==> StrictlyIncreasing(r)
  {
    if s == [] then []
    else
      var t := Sorted(s[1..]);
      InsertHead(s, t);
      Insert(s[0], t)
  }

  /** Inserting the head of `s` into a sorted permutation of its tail sorts `s`. */
  lemma InsertHead(s: seq<int>, t: seq<int>)
    requires s != [] && multiset(t) == multiset(s[1..])
    requires Ascending(t) && (Distinct(s[1..]) ==> StrictlyIncreasing(t))
    ensures multiset(Insert(s[0], t)) == multiset(s)
    ensures Ascending(Insert(s[0], t))
    ensures Distinct(s) ==> StrictlyIncreasing(Insert(s[0], t))
  {
    assert s == [s[0]] + s[1..];
    InsertOrdered(s[0], t, false);
    if Distinct(s) {
      assert Distinct(s[1..]) by {
        forall i, j | 0 <= i < j < |s[1..]| ensures s[1..][i] != s[1..][j] {
          assert s[1..][i] == s[i + 1] && s[1..][j] == s[j + 1];
        }
      }
      assert s[0] !in t by {
        forall j | 0 <= j < |s[1..]| ensures s[1..][j] != s[0] {
          assert s[1..][j] == s[j + 1];
        }
        assert s[0] !in multiset(s[1..]);
      }
      InsertOrdered(s[0], t, true);
    }
  }

  /** `sorted(random.sample(range(total), count))` is strictly increasing and stays in the window. */
  lemma SortedSample(s: seq<int>, total: int, count: int)
    requires IsSample(s, total, count)
    ensures var r := Sorted(s);
      |r| == count && StrictlyIncreasing(r) && forall i :: 0 <= i < |r| ==> 0 <= r[i] < total
  {
    var r := Sorted(s);
    forall i | 0 <= i < |r| ensures 0 <= r[i] < total {
      assert r[i] in multiset(s);
    }
  }

  /**
   * The minute offsets into the window (bot.py:806-810): every minute of the window when it
   * is no larger than the count, otherwise `count` distinct minutes drawn at random and sorted.
   */
  method DrawOffsets(total: int, count: int) returns (r: Result<seq<int>, ScheduleError>)
    ensures total <= count ==>
      r == if count == 0 then Failure(ZeroDivision) else Success(Iota(Max(0, total)))
    ensures count < total ==> (r.Failure? <==> count < 0)
    ensures count < total && r.Failure? ==> r.error == SampleSizeInvalid
    ensures count < total && r.Success? ==>
      && |r.value| == count
      && StrictlyIncreasing(r.value)
      && forall i :: 0 <= i < |r.value| ==> 0 <= r.value[i] < total
  {
    if total <= count {
      if count == 0 {
        return Failure(ZeroDivision);
      }
      EvenOffsetsCoverWindow(total, count);
      return Success(EvenOffsets(total, count));
    }
    var sample := RandomSample(total, count);
    match sample
    case Failure(e) =>
      return Failure(e);
    case Success(s) =>
      SortedSample(s, total, count);
      return Success(Sorted(s));
  }

  /** The local hour of offset `m` (bot.py:814). */
  function SlotHour(startHour: int, m: nat): int
  {
    startHour + m / MinutesPerHour
  }

  /** The local wall-clock minute of offset `m` on day `today` (bot.py:814-816). */
  function LocalSlot(today: int, startHour: int, m: nat): int
  {
    today * MinutesPerDay + SlotHour(startHour, m) * MinutesPerHour + m % MinutesPerHour
  }

  /** The stored UTC instant: local time minus `timezone` hours (bot.py:817). */
  function UtcSlot(today: int, timezone: int, startHour: int, m: nat): int
  {
    LocalSlot(today, startHour, m) - timezone * MinutesPerHour
  }

  /**
   * An offset inside the window maps to an hour inside the window and a minute 0..59, and
   * adding the timezone back to the UTC instant gives the local slot, which is just the
   * window's start plus the offset.
   */
  lemma SlotInWindow(today: int, timezone: int, startHour: int, endHour: int, m: nat)
    requires m < (endHour - startHour) * MinutesPerHour
    ensures startHour <= SlotHour(startHour, m) < endHour
    ensures 0 <= m % MinutesPerHour < MinutesPerHour
    ensures UtcSlot(today, timezone, startHour, m) + timezone * MinutesPerHour
         == LocalSlot(today, startHour, m)
         == today * MinutesPerDay + startHour * MinutesPerHour + m
  {
    assert m / MinutesPerHour < endHour - startHour;
  }

  /** Local minute `t` lies on day `today`, inside the hours `[startHour, endHour)`. */
  predicate InWindow(t: int, today: int, startHour: int, endHour: int)
  {
    && today * MinutesPerDay <= t < (today + 1) * MinutesPerDay
    && today * MinutesPerDay + startHour * MinutesPerHour <= t < today * MinutesPerDay + endHour * MinutesPerHour
  }

  /**
   * The whole of bot.py:804-818: the UTC instants `schedule_daily_checks` hands to the
   * table, or the exception it raises first.
   */
  method PlanChecks(timezone: int, startHour: int, endHour: int, count: int, today: int)
    returns (r: Result<seq<int>, ScheduleError>)
    ensures var total := (endHour - startHour) * MinutesPerHour;
      && (r == Failure(ZeroDivision) <==> total <= count && count == 0)
      && (r == Failure(SampleSizeInvalid) <==> count < total && count < 0)
      && (r == Failure(HourOutOfRange) ==> startHour < 0 || 24 < endHour)
      && (0 < count && 0 <= startHour && endHour <= 24 ==> r.Success?)
      && (r.Success? && count < total ==> |r.value| == count)
      && (r.Success? && total <= count ==>
            r.value == seq(Max(0, total), i => today * MinutesPerDay + startHour * MinutesPerHour + i - timezone * MinutesPerHour))
    ensures r.Success? ==> StrictlyIncreasing(r.value)
    ensures r.Success? ==> forall i :: 0 <= i < |r.value| ==>
      InWindow(r.value[i] + timezone * MinutesPerHour, today, startHour, endHour)
  {
    var total := (endHour - startHour) * MinutesPerHour;
    var drawn := DrawOffsets(total, count);
    if drawn.Failure? {
      return Failure(drawn.error);
    }
    var offsets := drawn.value;
    assert forall i :: 0 <= i < |offsets| ==> 0 <= offsets[i] < total;
    var times: seq<int> := [];
    var i := 0;
    while i < |offsets|
      invariant 0 <= i <= |offsets|
      invariant |times| == i
      invariant forall j :: 0 <= j < i ==>
        times[j] == today * MinutesPerDay + startHour * MinutesPerHour + offsets[j] - timezone * MinutesPerHour
      invariant forall j :: 0 <= j < i ==> 0 <= SlotHour(startHour, offsets[j]) < 24
    {
      var m := offsets[i];
      SlotInWindow(today, timezone, startHour, endHour, m);
      var hour := startHour + m / MinutesPerHour;
      if hour < 0 || 23 < hour {
        return Failure(HourOutOfRange);
      }
      times := times + [UtcSlot(today, timezone, startHour, m)];
      i := i + 1;
    }
    forall j | 0 <= j < |times|
      ensures InWindow(times[j] + timezone * MinutesPerHour, today, startHour, endHour)
    {
      SlotInWindow(today, timezone, startHour, endHour, offsets[j]);
    }
    return Success(times);
  }
}
