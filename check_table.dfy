/**
 * The `scheduled_checks` table (database.py:294-341) as an in-memory sequence of rows in
 * insertion order, with a SERIAL id counter. Times are whole minutes from an epoch.
 */
module CheckTable {

  /** One row: `(id, user_id, scheduled_time, sent)`. */
  datatype Check = Check(id: int, userId: int, time: int, sent: bool)

  /** A row of `get_pending_checks`: only `id` and `user_id` are selected. */
  datatype PendingCheck = PendingCheck(id: int, userId: int)

  /** The row selections the table's statements make. */
  datatype Selection =
    | KeptBySave(user: int)   // NOT (user_id = user AND sent = FALSE)
    | OwnedBy(user: int)      // user_id = user
    | SentBy(user: int)       // user_id = user AND sent = TRUE
    | UnsentOf(user: int)     // user_id = user AND sent = FALSE
    | DueAt(now: int)         // sent = FALSE AND scheduled_time <= now

  predicate Selects(p: Selection, c: Check)
  {
    match p
    case KeptBySave(u) => c.userId != u || c.sent
    case OwnedBy(u) => c.userId == u
    case SentBy(u) => c.userId == u && c.sent
    case UnsentOf(u) => c.userId == u && !c.sent
    case DueAt(now) => !c.sent && c.time <= now
  }

  /** The rows of `s` that `p` selects, in their order. */
  function Filter(s: seq<Check>, p: Selection): (r: seq<Check>)
    ensures |r| <= |s|
    ensures forall c :: c in r <==> c in s && Selects(p, c)
  {
    if s == [] then []
    else (if Selects(p, s[0]) then [s[0]] else []) + Filter(s[1..], p)
  }

  lemma {:induction false} FilterConcat(a: seq<Check>, b: seq<Check>, p: Selection)
    ensures Filter(a + b, p) == Filter(a, p) + Filter(b, p)
  {
    if a == [] {
      assert a + b == b;
    } else {
      assert (a + b)[1..] == a[1..] + b;
      FilterConcat(a[1..], b, p);
    }
  }

  lemma {:induction false} FilterAll(s: seq<Check>, p: Selection)
    requires forall c :: c in s ==> Selects(p, c)
    ensures Filter(s, p) == s
  {
    if s != [] {
      FilterAll(s[1..], p);
    }
  }

  lemma {:induction false} FilterNone(s: seq<Check>, p: Selection)
    requires forall c :: c in s ==> !Selects(p, c)
    ensures Filter(s, p) == []
  {
    if s != [] {
      FilterNone(s[1..], p);
    }
  }

  /** Filtering by `p` and then by a stronger `q` is filtering by `q`. */
  lemma {:induction false} FilterNarrow(s: seq<Check>, p: Selection, q: Selection)
    requires forall c :: Selects(q, c) ==> Selects(p, c)
    ensures Filter(Filter(s, p), q) == Filter(s, q)
  {
    if s != [] {
      FilterNarrow(s[1..], p, q);
      var rest := Filter(s[1..], p);
      if Selects(p, s[0]) {
        var fp := [s[0]] + rest;
        assert Filter(s, p) == fp;
        assert fp[0] == s[0] && fp[1..] == rest;
        assert Filter(fp, q) == (if Selects(q, s[0]) then [s[0]] else []) + Filter(rest, q);
      } else {
        assert Filter(s, p) == rest;
        assert !Selects(q, s[0]);
      }
    }
  }

  /** Ids strictly increase along the table: SERIAL ids in insertion order. */
  predicate IdsIncreasing(rows: seq<Check>)
  {
    forall i, j :: 0 <= i < j < |rows| ==> rows[i].id < rows[j].id
  }

  lemma ConsIdsIncreasing(h: Check, t: seq<Check>)
    requires IdsIncreasing(t)
    requires forall c :: c in t ==> h.id < c.id
    ensures IdsIncreasing([h] + t)
  {
    var r := [h] + t;
    forall i, j | 0 <= i < j < |r| ensures r[i].id < r[j].id {
      assert r[j] == t[j - 1];
      if i == 0 { assert t[j - 1] in t; } else { assert r[i] == t[i - 1]; }
    }
  }

  lemma {:induction false} FilterKeepsIdsIncreasing(rows: seq<Check>, p: Selection)
    requires IdsIncreasing(rows)
    ensures IdsIncreasing(Filter(rows, p))
  {
    if rows != [] {
      var t := Filter(rows[1..], p);
      FilterKeepsIdsIncreasing(rows[1..], p);
      forall c | c in t ensures rows[0].id < c.id {
        var k :| 0 <= k < |rows[1..]| && rows[1..][k] == c;
        assert rows[k + 1] == c;
      }
      if Selects(p, rows[0]) {
        ConsIdsIncreasing(rows[0], t);
      }
    }
  }

  /** What the DELETE of database.py:297 keeps: every row except `user`'s unsent ones. */
  function WithoutUnsentOf(rows: seq<Check>, user: int): (r: seq<Check>)
    ensures forall c :: c in r <==> c in rows && (c.userId != user || c.sent)
  {
    Filter(rows, KeptBySave(user))
  }

  /** The rows the INSERT loop of database.py:300-304 adds, numbered from `firstId`. */
  function Inserted(firstId: int, user: int, times: seq<int>): seq<Check>
  {
    seq(|times|, i requires 0 <= i < |times| => Check(firstId + i, user, times[i], false))
  }

  /** The table after `save_scheduled_checks(user, times)`. */
  function Replaced(rows: seq<Check>, user: int, times: seq<int>, firstId: int): seq<Check>
  {
    WithoutUnsentOf(rows, user) + Inserted(firstId, user, times)
  }

  /** The rows that belong to `user`. */
  function RowsOf(rows: seq<Check>, user: int): (r: seq<Check>)
    ensures forall c :: c in r <==> c in rows && c.userId == user
  {
    Filter(rows, OwnedBy(user))
  }

  /** The sent rows of `user`. */
  function SentOf(rows: seq<Check>, user: int): (r: seq<Check>)
    ensures forall c :: c in r <==> c in rows && c.userId == user && c.sent
  {
    Filter(rows, SentBy(user))
  }

  function Times(rows: seq<Check>): (ts: seq<int>)
    ensures |ts| == |rows| && forall i :: 0 <= i < |rows| ==> ts[i] == rows[i].time
  {
    seq(|rows|, i requires 0 <= i < |rows| => rows[i].time)
  }

  /** The scheduled times of `user`'s unsent rows, in table order. */
  function UnsentTimes(rows: seq<Check>, user: int): seq<int>
  {
    Times(Filter(rows, UnsentOf(user)))
  }

  /**
   * After `save_scheduled_checks(user, times)` the unsent checks of `user` are exactly one per
   * element of `times`, in that order and with duplicates kept.
   */
  lemma SaveLeavesExactlyNewUnsent(rows: seq<Check>, user: int, times: seq<int>, firstId: int)
    ensures UnsentTimes(Replaced(rows, user, times, firstId), user) == times
  {
    var unsent := UnsentOf(user);
    var kept := WithoutUnsentOf(rows, user);
    var added := Inserted(firstId, user, times);
    FilterConcat(kept, added, unsent);
    FilterNone(kept, unsent);
    FilterAll(added, unsent);
    assert Times(added) == times;
  }

  /** `save_scheduled_checks(user, ...)` changes no row of any other user. */
  lemma SaveKeepsOtherUsers(rows: seq<Check>, user: int, times: seq<int>, firstId: int, other: int)
    requires other != user
    ensures RowsOf(Replaced(rows, user, times, firstId), other) == RowsOf(rows, other)
  {
    var mine := OwnedBy(other);
    var kept := WithoutUnsentOf(rows, user);
    var added := Inserted(firstId, user, times);
    FilterConcat(kept, added, mine);
    FilterNone(added, mine);
    FilterNarrow(rows, KeptBySave(user), mine);
  }

  /** `save_scheduled_checks(user, ...)` keeps every sent row of `user`, in order. */
  lemma SaveKeepsSent(rows: seq<Check>, user: int, times: seq<int>, firstId: int)
    ensures SentOf(Replaced(rows, user, times, firstId), user) == SentOf(rows, user)
  {
    var sentMine := SentBy(user);
    var kept := WithoutUnsentOf(rows, user);
    var added := Inserted(firstId, user, times);
    FilterConcat(kept, added, sentMine);
    FilterNone(added, sentMine);
    FilterNarrow(rows, KeptBySave(user), sentMine);
  }

  /** The rows `get_pending_checks(now)` selects (database.py:330-331). */
  function Due(rows: seq<Check>, now: int): (r: seq<Check>)
    ensures forall c :: c in r <==> c in rows && !c.sent && c.time <= now
  {
    Filter(rows, DueAt(now))
  }

  function Refs(rows: seq<Check>): (r: seq<PendingCheck>)
    ensures |r| == |rows|
    ensures forall i :: 0 <= i < |rows| ==> r[i] == PendingCheck(rows[i].id, rows[i].userId)
  {
    seq(|rows|, i requires 0 <= i < |rows| => PendingCheck(rows[i].id, rows[i].userId))
  }

  /** The rows after `UPDATE ... SET sent = TRUE WHERE id IN ids`. */
  function SetSent(rows: seq<Check>, ids: set<int>): (r: seq<Check>)
  {
    seq(|rows|, i requires 0 <= i < |rows| =>
      if rows[i].id in ids then rows[i].(sent := true) else rows[i])
  }

  /**
   * Marking sent touches only the flag of the rows named, never clears a flag, and keeps
   * the ids in order.
   */
  lemma SetSentFrame(rows: seq<Check>, ids: set<int>)
    ensures var r := SetSent(rows, ids);
      && |r| == |rows|
      && (forall i :: 0 <= i < |rows| ==>
            r[i].id == rows[i].id && r[i].userId == rows[i].userId && r[i].time == rows[i].time)
      && (forall i :: 0 <= i < |rows| ==> (r[i].sent <==> rows[i].sent || rows[i].id in ids))
      && (IdsIncreasing(rows) ==> IdsIncreasing(r))
  {
  }

  /** `mark_check_sent` is idempotent, and marking in two rounds is marking once. */
  lemma SetSentCompose(rows: seq<Check>, a: set<int>, b: set<int>)
    ensures SetSent(SetSent(rows, a), b) == SetSent(rows, a + b)
    ensures SetSent(SetSent(rows, a), a) == SetSent(rows, a)
  {
  }

  /** With distinct ids, `mark_check_sent(id)` changes at most one row. */
  lemma MarkChangesOneRow(rows: seq<Check>, id: int, i: int, j: int)
    requires IdsIncreasing(rows)
    requires 0 <= i < |rows| && 0 <= j < |rows|
    requires SetSent(rows, {id})[i] != rows[i] && SetSent(rows, {id})[j] != rows[j]
    ensures i == j
  {
  }

  function IdsOf(rows: seq<Check>): (ids: set<int>)
    ensures forall c :: c in rows ==> c.id in ids
    ensures forall k :: k in ids ==> exists c :: c in rows && c.id == k
  {
    set c | c in rows :: c.id
  }

  /** Once every due row has been marked sent, nothing is due any more. */
  lemma {:induction false} MarkingDueConsumesAll(rows: seq<Check>, now: int)
    ensures Due(SetSent(rows, IdsOf(Due(rows, now))), now) == []
  {
    var ids := IdsOf(Due(rows, now));
    var after := SetSent(rows, ids);
    forall c | c in after ensures !(!c.sent && c.time <= now) {
      var i :| 0 <= i < |after| && after[i] == c;
      assert rows[i] in rows;
    }
    FilterNone(after, DueAt(now));
  }

  /** The rows after `skip_today_checks(user)` with local midnight `todayStart` (database.py:318-324). */
  function SkipToday(rows: seq<Check>, user: int, todayStart: int): seq<Check>
  {
    seq(|rows|, i requires 0 <= i < |rows| =>
      if SkippedToday(rows[i], user, todayStart) then rows[i].(sent := true) else rows[i])
  }

  /** The WHERE clause of database.py:322-323: a day is 1440 minutes. */
  predicate SkippedToday(c: Check, user: int, todayStart: int)
  {
    c.userId == user && !c.sent && todayStart <= c.time < todayStart + 1440
  }

  /**
   * `skip_today_checks` marks sent exactly `user`'s unsent rows of today, leaves every other
   * row as it was, and afterwards `user` has no unsent row left today.
   */
  lemma SkipTodayExact(rows: seq<Check>, user: int, todayStart: int)
    ensures var r := SkipToday(rows, user, todayStart);
      && |r| == |rows|
      && (forall i :: 0 <= i < |rows| ==> r[i] == rows[i] || (SkippedToday(rows[i], user, todayStart) && r[i] == rows[i].(sent := true)))
      && (forall i :: 0 <= i < |rows| ==> (r[i].sent <==> rows[i].sent || SkippedToday(rows[i], user, todayStart)))
      && (forall c :: c in r ==> !SkippedToday(c, user, todayStart))
  {
  }

  /** A sent flag, once set, stays set through every operation of the table. */
  lemma SentSurvivesSave(rows: seq<Check>, user: int, times: seq<int>, firstId: int)
    ensures forall c :: c in rows && c.sent ==> c in Replaced(rows, user, times, firstId)
  {
  }

  /**
   * The `scheduled_checks` table. `rows` is the table in insertion order and `nextId` the
   * next value of the SERIAL id sequence.
   */
  class ScheduledChecks {
    var rows: seq<Check>
    var nextId: int

    ghost predicate Valid()
      reads this
    {
      IdsIncreasing(rows) && forall i :: 0 <= i < |rows| ==> rows[i].id < nextId
    }

    constructor ()
      ensures Valid() && rows == [] && nextId == 1
    {
      rows := [];
      nextId := 1;
    }

    /** Appends one unsent row with the next SERIAL id. */
    method Insert(user: int, time: int)
      requires Valid()
      modifies this
      ensures Valid()
      ensures rows == old(rows) + [Check(old(nextId), user, time, false)]
      ensures nextId == old(nextId) + 1
    {
      rows := rows + [Check(nextId, user, time, false)];
      nextId := nextId + 1;
    }

    /** `save_scheduled_checks` (database.py:294-304): drop `user`'s unsent rows, insert one per time. */
    method SaveScheduledChecks(user: int, times: seq<int>)
      requires Valid()
      modifies this
      ensures Valid()
      ensures rows == Replaced(old(rows), user, times, old(nextId))
      ensures nextId == old(nextId) + |times|
    {
      FilterKeepsIdsIncreasing(rows, KeptBySave(user));
      var kept := WithoutUnsentOf(rows, user);
      forall c | c in kept ensures c.id < nextId {
        var k :| 0 <= k < |rows| && rows[k] == c;
      }
      rows := kept;
      ghost var firstId := nextId;
      var i := 0;
      while i < |times|
        invariant 0 <= i <= |times|
        invariant Valid()
        invariant nextId == firstId + i
        invariant rows == kept + Inserted(firstId, user, times[..i])
      {
        Insert(user, times[i]);
        assert Inserted(firstId, user, times[..i + 1]) == Inserted(firstId, user, times[..i]) + [Check(firstId + i, user, times[i], false)];
        i := i + 1;
      }
      assert times[..i] == times;
    }

    /** `add_delayed_check` (database.py:306-313): one unsent row at `now + delayMinutes`. */
    method AddDelayedCheck(user: int, now: int, delayMinutes: int)
      requires Valid()
      modifies this
      ensures Valid()
      ensures rows == old(rows) + [Check(old(nextId), user, now + delayMinutes, false)]
      ensures nextId == old(nextId) + 1
    {
      Insert(user, now + delayMinutes);
    }

    /** `skip_today_checks` (database.py:315-325) with local midnight `todayStart`. */
    method SkipTodayChecks(user: int, todayStart: int)
      requires Valid()
      modifies this
      ensures Valid()
      ensures rows == SkipToday(old(rows), user, todayStart) && nextId == old(nextId)
    {
      rows := SkipToday(rows, user, todayStart);
    }

    /** `get_pending_checks` (database.py:327-334): the due unsent rows, in table order. */
    method GetPendingChecks(now: int) returns (pending: seq<PendingCheck>)
      ensures pending == Refs(Due(rows, now))
    {
      var due := Filter(rows, DueAt(now));
      pending := Refs(due);
    }

    /** `mark_check_sent` (database.py:336-341). */
    method MarkCheckSent(id: int)
      requires Valid()
      modifies this
      ensures Valid()
      ensures rows == SetSent(old(rows), {id}) && nextId == old(nextId)
    {
      SetSentFrame(rows, {id});
      rows := SetSent(rows, {id});
    }
  }
}
