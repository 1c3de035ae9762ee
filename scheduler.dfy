/**
 * The two jobs of bot.py that drive the `scheduled_checks` table: `schedule_daily_checks`
 * (bot.py:803-821), which plans today's slots and replaces a user's unsent checks with them,
 * and `check_and_send_notifications` (bot.py:824-847), the per-minute dispatch pass.
 */
module Scheduler {
  import opened Wrappers
  import opened Slots
  import opened CheckTable

  /**
   * One send of the reminder message to `user`. `delivered` means that `send_message`
   * returned without raising (bot.py:838-847): a message that reached the user but whose
   * call then raised counts as not delivered, exactly as `users_notified` records it.
   */
  datatype Attempt = Attempt(user: int, delivered: bool)

  /**
   * The outbound side of the messenger. Every send is recorded; whether it is delivered
   * is decided outside the bot (a blocked bot, a deleted chat, a network error) and so is
   * left open here.
   */
  class Channel {
    var log: seq<Attempt>

    constructor ()
      ensures log == []
    {
      log := [];
    }

    method Send(user: int) returns (delivered: bool)
      modifies this
      ensures log == old(log) + [Attempt(user, delivered)]
    {
      delivered :| true;
      log := log + [Attempt(user, delivered)];
    }
  }

  /**
   * `schedule_daily_checks`: plan today's slots and, unless planning raised, replace the
   * user's unsent checks with exactly those slots. Nothing is written when it raises.
   */
  method ScheduleDailyChecks(table: ScheduledChecks, user: int, timezone: int, startHour: int,
                             endHour: int, count: int, today: int)
    returns (r: Result<seq<int>, ScheduleError>)
    requires table.Valid()
    modifies table
    ensures table.Valid()
    ensures r.Success? ==> table.rows == Replaced(old(table.rows), user, r.value, old(table.nextId))
    ensures r.Success? ==> UnsentTimes(table.rows, user) == r.value
    ensures r.Failure? ==> table.rows == old(table.rows) && table.nextId == old(table.nextId)
    ensures r.Success? ==> StrictlyIncreasing(r.value)
    ensures r.Success? ==> forall i :: 0 <= i < |r.value| ==>
      InWindow(r.value[i] + timezone * MinutesPerHour, today, startHour, endHour)
    ensures 0 < count && 0 <= startHour && endHour <= 24 ==> r.Success?
    ensures var total := (endHour - startHour) * MinutesPerHour;
      && (r == Failure(ZeroDivision) <==> total <= count && count == 0)
      && (r == Failure(SampleSizeInvalid) <==> count < total && count < 0)
      && (r == Failure(HourOutOfRange) ==> startHour < 0 || 24 < endHour)
      && (r.Success? && count < total ==> |r.value| == count)
      && (r.Success? && total <= count ==>
            r.value == seq(Max(0, total), i => today * MinutesPerDay + startHour * MinutesPerHour + i - timezone * MinutesPerHour))
  {
    r := PlanChecks(timezone, startHour, endHour, count, today);
    if r.Success? {
      table.SaveScheduledChecks(user, r.value);
      SaveLeavesExactlyNewUnsent(old(table.rows), user, r.value, old(table.nextId));
    }
  }

  /** The users that own the given rows, in order. */
  function UsersOf(rows: seq<Check>): (users: seq<int>)
    ensures |users| == |rows| && forall i :: 0 <= i < |rows| ==> users[i] == rows[i].userId
  {
    seq(|rows|, i requires 0 <= i < |rows| => rows[i].userId)
  }

  /** The users a log records a delivered message to: the pass's `users_notified`. */
  function Delivered(log: seq<Attempt>): set<int>
  {
    set a | a in log && a.delivered :: a.user
  }

  /**
   * The sends of one dispatch pass over due checks owned by `users` (bot.py:829-847): the
   * check at position `i` is sent unless its user was already delivered to earlier in the
   * pass, and `oks[i]` is that send's outcome (unused for a skipped check).
   */
  function Pass(users: seq<int>, oks: seq<bool>): seq<Attempt>
    requires |oks| == |users|
    decreases |users|
  {
    if users == [] then []
    else
      var n := |users| - 1;
      var before := Pass(users[..n], oks[..n]);
      if users[n] in Delivered(before) then before else before + [Attempt(users[n], oks[n])]
  }

  /** One more due check extends the pass by one send, or by none if its user was delivered to. */
  lemma PassStep(users: seq<int>, oks: seq<bool>, u: int, ok: bool)
    requires |oks| == |users|
    ensures var before := Pass(users, oks);
      Pass(users + [u], oks + [ok])
        == if u in Delivered(before) then before else before + [Attempt(u, ok)]
  {
    assert (users + [u])[..|users|] == users;
    assert (oks + [ok])[..|oks|] == oks;
  }

  /** How often `u` occurs in `users`. */
  function CountOf(users: seq<int>, u: int): nat
  {
    multiset(users)[u]
  }

  /** How many sends to `u` a log records. */
  function SendsTo(log: seq<Attempt>, u: int): nat
  {
    multiset(seq(|log|, i requires 0 <= i < |log| => log[i].user))[u]
  }

  /** Only users with a due check are sent anything. */
  lemma {:induction false} PassSendsOnlyToDueUsers(users: seq<int>, oks: seq<bool>)
    requires |oks| == |users|
    ensures forall a :: a in Pass(users, oks) ==> a.user in users
    decreases |users|
  {
    if users != [] {
      var n := |users| - 1;
      PassSendsOnlyToDueUsers(users[..n], oks[..n]);
      assert forall u :: u in users[..n] ==> u in users;
    }
  }

  /**
   * Once a user has been delivered to, the pass sends that user nothing more; in
   * particular at most one message per user is delivered in a pass.
   */
  predicate NothingAfterDelivery(log: seq<Attempt>)
  {
    forall j, k :: 0 <= j < k < |log| && log[j].user == log[k].user ==> !log[j].delivered
  }

  lemma {:induction false} PassStopsAfterDelivery(users: seq<int>, oks: seq<bool>)
    requires |oks| == |users|
    ensures NothingAfterDelivery(Pass(users, oks))
    decreases |users|
  {
    if users != [] {
      var n := |users| - 1;
      PassStopsAfterDelivery(users[..n], oks[..n]);
      var before := Pass(users[..n], oks[..n]);
      if users[n] !in Delivered(before) {
        var log := before + [Attempt(users[n], oks[n])];
        assert Pass(users, oks) == log;
        forall j, k | 0 <= j < k < |log| && log[j].user == log[k].user
          ensures !log[j].delivered
        {
          if k == |before| {
            assert log[k].user == users[n];
            assert log[j] == before[j] && before[j] in before;
          } else {
            assert log[j] == before[j] && log[k] == before[k];
            assert NothingAfterDelivery(before);
          }
        }
      }
    }
  }

  lemma AtMostOneDeliveryPerUser(users: seq<int>, oks: seq<bool>)
    requires |oks| == |users|
    ensures var log := Pass(users, oks);
      forall j, k :: 0 <= j < k < |log| && log[j].delivered && log[k].delivered ==> log[j].user != log[k].user
  {
    PassStopsAfterDelivery(users, oks);
  }

  /**
   * A user that no send reached had every one of their due checks tried: a failed send
   * does not add the user to `users_notified`, so their next due check in the pass is
   * sent again.
   */
  lemma {:induction false} UndeliveredUserTriedForEveryCheck(users: seq<int>, oks: seq<bool>, u: int)
    requires |oks| == |users|
    requires u !in Delivered(Pass(users, oks))
    ensures SendsTo(Pass(users, oks), u) == CountOf(users, u)
    decreases |users|
  {
    if users != [] {
      var n := |users| - 1;
      var before := Pass(users[..n], oks[..n]);
      assert users == users[..n] + [users[n]];
      assert u !in Delivered(before);
      UndeliveredUserTriedForEveryCheck(users[..n], oks[..n], u);
      if users[n] !in Delivered(before) {
        var log := before + [Attempt(users[n], oks[n])];
        assert seq(|log|, i requires 0 <= i < |log| => log[i].user)
            == seq(|before|, i requires 0 <= i < |before| => before[i].user) + [users[n]];
      }
    }
  }

  /**
   * The scenarios of a pass with two due checks of one user: delivered on the first send,
   * exactly one message goes out; failed on the first send, the second check is sent too.
   */
  lemma TwoDueChecksOfOneUser(u: int, second: bool)
    ensures Pass([u, u], [true, second]) == [Attempt(u, true)]
    ensures Pass([u, u], [false, second]) == [Attempt(u, false), Attempt(u, second)]
  {
    assert [u, u][..1] == [u];
    assert [true, second][..1] == [true];
    assert [false, second][..1] == [false];
    assert Pass([u], [true]) == [Attempt(u, true)];
    assert Pass([u], [false]) == [Attempt(u, false)];
  }

  /**
   * `check_and_send_notifications` at UTC minute `now`: every due unsent check is marked
   * sent, whatever happens to the send, and the sends follow `Pass` over the owners of the
   * due checks; `outcomes` records what the messenger did with each.
   */
  method CheckAndSendNotifications(table: ScheduledChecks, channel: Channel, now: int)
    returns (ghost outcomes: seq<bool>)
    requires table.Valid()
    modifies table, channel
    ensures table.Valid() && table.nextId == old(table.nextId)
    ensures table.rows == SetSent(old(table.rows), IdsOf(Due(old(table.rows), now)))
    ensures |outcomes| == |Due(old(table.rows), now)|
    ensures channel.log == old(channel.log) + Pass(UsersOf(Due(old(table.rows), now)), outcomes)
  {
    ghost var due := Due(table.rows, now);
    var pending := table.GetPendingChecks(now);
    outcomes := DispatchAll(table, channel, pending, due);
  }

  /**
   * The loop of `check_and_send_notifications` (bot.py:831-847) over the pending checks
   * `pending`, which refer to the rows `due` of the table.
   */
  method DispatchAll(table: ScheduledChecks, channel: Channel, pending: seq<PendingCheck>, ghost due: seq<Check>)
    returns (ghost outcomes: seq<bool>)
    requires table.Valid() && pending == Refs(due)
    modifies table, channel
    ensures table.Valid() && table.nextId == old(table.nextId)
    ensures table.rows == SetSent(old(table.rows), IdsOf(due))
    ensures |outcomes| == |due|
    ensures channel.log == old(channel.log) + Pass(UsersOf(due), outcomes)
  {
    ghost var rows0 := table.rows;
    ghost var log0 := channel.log;
    var notified: set<int> := {};
    outcomes := [];
    ghost var sent: seq<Attempt> := [];
    NothingMarked(rows0, due);
    var i := 0;
    while i < |pending|
      invariant 0 <= i <= |pending| == |due|
      invariant |outcomes| == i
      invariant table.Valid() && table.nextId == old(table.nextId)
      invariant table.rows == SetSent(rows0, IdsOf(due[..i]))
      invariant PassSoFar(UsersOf(due[..i]), outcomes, sent, notified)
      invariant channel.log == log0 + sent
    {
      var ok;
      notified, ok, sent := DispatchOne(table, channel, pending[i], notified, rows0, due, i, outcomes, sent, log0);
      outcomes := outcomes + [ok];
      i := i + 1;
    }
    assert due[..i] == due;
  }

  /**
   * One round of the dispatch loop (bot.py:831-845): mark the check sent and send to its
   * user unless the user was already delivered to in this pass.
   */
  method DispatchOne(table: ScheduledChecks, channel: Channel, check: PendingCheck, notified: set<int>,
                     ghost rows0: seq<Check>, ghost due: seq<Check>, ghost i: int,
                     ghost oks: seq<bool>, ghost sent: seq<Attempt>, ghost log0: seq<Attempt>)
    returns (notified': set<int>, ok: bool, ghost sent': seq<Attempt>)
    requires 0 <= i < |due| && check == PendingCheck(due[i].id, due[i].userId)
    requires table.Valid() && table.rows == SetSent(rows0, IdsOf(due[..i]))
    requires PassSoFar(UsersOf(due[..i]), oks, sent, notified) && channel.log == log0 + sent
    modifies table, channel
    ensures table.Valid() && table.nextId == old(table.nextId)
    ensures table.rows == SetSent(rows0, IdsOf(due[..i + 1]))
    ensures PassSoFar(UsersOf(due[..i + 1]), oks + [ok], sent', notified') && channel.log == log0 + sent'
  {
    IdsStep(due, i);
    UsersStep(due, i);
    SetSentCompose(rows0, IdsOf(due[..i]), {check.id});
    table.MarkCheckSent(check.id);
    if check.userId !in notified {
      ok := channel.Send(check.userId);
      PassSoFarSent(UsersOf(due[..i]), oks, sent, notified, check.userId, ok);
      AppendAssoc(log0, sent, [Attempt(check.userId, ok)]);
      sent' := sent + [Attempt(check.userId, ok)];
      notified' := if ok then notified + {check.userId} else notified;
    } else {
      ok := false;
      PassSoFarSkipped(UsersOf(due[..i]), oks, sent, notified, check.userId);
      sent', notified' := sent, notified;
    }
  }

  /** The state the dispatch loop keeps: the sends so far and the users delivered to. */
  ghost predicate PassSoFar(users: seq<int>, oks: seq<bool>, sent: seq<Attempt>, notified: set<int>)
  {
    |oks| == |users| && sent == Pass(users, oks) && notified == Delivered(sent)
  }

  /** A send to a user not yet delivered to extends the pass by that send. */
  lemma PassSoFarSent(users: seq<int>, oks: seq<bool>, sent: seq<Attempt>, notified: set<int>, u: int, ok: bool)
    requires PassSoFar(users, oks, sent, notified) && u !in notified
    ensures PassSoFar(users + [u], oks + [ok], sent + [Attempt(u, ok)], if ok then notified + {u} else notified)
  {
    PassStep(users, oks, u, ok);
    var a := Attempt(u, ok);
    assert Delivered(sent + [a]) == Delivered(sent) + if ok then {u} else {};
  }

  /** A check of a user already delivered to extends the pass by nothing. */
  lemma PassSoFarSkipped(users: seq<int>, oks: seq<bool>, sent: seq<Attempt>, notified: set<int>, u: int)
    requires PassSoFar(users, oks, sent, notified) && u in notified
    ensures PassSoFar(users + [u], oks + [false], sent, notified)
  {
    PassStep(users, oks, u, false);
  }

  /** Prefix bookkeeping for the dispatch loop. */
  lemma UsersStep(due: seq<Check>, i: int)
    requires 0 <= i < |due|
    ensures UsersOf(due[..i + 1]) == UsersOf(due[..i]) + [due[i].userId]
  {
    assert due[..i + 1] == due[..i] + [due[i]];
  }

  lemma IdsStep(due: seq<Check>, i: int)
    requires 0 <= i < |due|
    ensures IdsOf(due[..i + 1]) == IdsOf(due[..i]) + {due[i].id}
  {
    assert due[..i + 1] == due[..i] + [due[i]];
  }

  lemma NothingMarked(rows: seq<Check>, due: seq<Check>)
    ensures IdsOf(due[..0]) == {}
    ensures SetSent(rows, {}) == rows
  {
  }

  lemma AppendAssoc<T>(a: seq<T>, b: seq<T>, c: seq<T>)
    ensures a + (b + c) == (a + b) + c
  {
  }
}
