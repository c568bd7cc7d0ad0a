/**
 * The daily-reminder job of task-service/src/services/cronService.js:
 * grouping the tasks due today by owner, sending one reminder per owner,
 * the run counters behind the overlap guard, and the clock arithmetic
 * of calculateNextRun and getTodayDateRange.
 */
module Cron {
  import opened Json

  // ---------------------------------------------------------------------
  // Local time
  // ---------------------------------------------------------------------

  const HOUR: int := 60 * 60 * 1000
  const DAY: int := 24 * HOUR
  /** The hour of day the reminder is scheduled for. */
  const REMINDER_HOUR: int := 8

  /**
   * Local midnight before `now` (epoch ms) for a process whose local time is
   * `offset` ms ahead of UTC. `Date` floors toward earlier instants, as
   * Dafny's `%` does for a positive divisor.
   */
  function LocalMidnight(now: int, offset: int): int
  {
    now - (now + offset) % DAY
  }

  /** `getHours()` of the local time. */
  function LocalHour(now: int, offset: int): int
  {
    ((now + offset) % DAY) / HOUR
  }

  /** getTodayDateRange: local midnight today and the instant exactly one day later. */
  function TodayRange(now: int, offset: int): (r: (int, int))
    ensures r.0 <= now < r.1
    ensures r.1 == r.0 + DAY
    ensures (r.0 + offset) % DAY == 0
  {
    var today := LocalMidnight(now, offset);
    (today, today + DAY)
  }

  /** There is only one local midnight in the day that ends after `now`. */
  lemma TodayRangeUnique(now: int, offset: int, t: int)
    requires t <= now < t + DAY && (t + offset) % DAY == 0
    ensures t == TodayRange(now, offset).0
  {
    var m := TodayRange(now, offset).0;
    var a := (t + offset) / DAY;
    var b := (m + offset) / DAY;
    assert t + offset == DAY * a;
    assert m + offset == DAY * b;
    assert -DAY < DAY * (a - b) < DAY;
  }

  /** calculateNextRun: 08:00 local today, or tomorrow once the local hour is 8 or later. */
  function NextRun(now: int, offset: int): (r: int)
    ensures (r + offset) % DAY == REMINDER_HOUR * HOUR
    ensures now < r <= now + DAY
    ensures r < TodayRange(now, offset).1 <==> LocalHour(now, offset) < REMINDER_HOUR
  {
    var eightToday := LocalMidnight(now, offset) + REMINDER_HOUR * HOUR;
    assert LocalHour(now, offset) < REMINDER_HOUR <==> (now + offset) % DAY < REMINDER_HOUR * HOUR;
    if LocalHour(now, offset) >= REMINDER_HOUR then eightToday + DAY else eightToday
  }

  /** NextRun is the only 08:00 local in the day that follows `now`. */
  lemma NextRunUnique(now: int, offset: int, r: int)
    requires (r + offset) % DAY == REMINDER_HOUR * HOUR && now < r <= now + DAY
    ensures r == NextRun(now, offset)
  {
    var n := NextRun(now, offset);
    var a := (r + offset) / DAY;
    var b := (n + offset) / DAY;
    assert r + offset == DAY * a + REMINDER_HOUR * HOUR;
    assert n + offset == DAY * b + REMINDER_HOUR * HOUR;
    assert -DAY < DAY * (a - b) < DAY;
  }

  // ---------------------------------------------------------------------
  // Grouping the tasks due today
  // ---------------------------------------------------------------------

  /** A task as the job sees it; `owner` is `task.user._id.toString()`. */
  datatype Task = Task(title: string, owner: string)

  /**
   * A task as the due-today query returns it, with `user` populated: the
   * owner's id, or none when the owner no longer exists (populate gives null).
   */
  datatype FetchedTask = FetchedTask(title: string, user: Option<string>)

  predicate HasOrphan(fetched: seq<FetchedTask>)
  {
    exists i | 0 <= i < |fetched| :: fetched[i].user.None?
  }

  /** The fetched tasks with their owners' ids, when every task has an owner. */
  function OwnedTasks(fetched: seq<FetchedTask>): (ts: seq<Task>)
    requires !HasOrphan(fetched)
    ensures |ts| == |fetched|
    ensures forall i | 0 <= i < |fetched| :: ts[i] == Task(fetched[i].title, fetched[i].user.value)
  {
    if fetched == [] then []
    else
      assert !HasOrphan(fetched[1..]) by {
        forall i | 0 <= i < |fetched[1..]| ensures fetched[1..][i].user.Some? {
          assert fetched[1..][i] == fetched[i + 1];
        }
      }
      [Task(fetched[0].title, fetched[0].user.value)] + OwnedTasks(fetched[1..])
  }

  /**
   * The tasks getAllTasksDueToday groups. When one of them has lost its
   * owner, `task.user._id` throws inside groupTasksByUser and the catch
   * answers `{}`: the day has no tasks at all.
   */
  function DueTasks(fetched: seq<FetchedTask>): (ts: seq<Task>)
    ensures HasOrphan(fetched) ==> ts == []
    ensures !HasOrphan(fetched) ==> |ts| == |fetched|
    ensures !HasOrphan(fetched) ==>
      forall i | 0 <= i < |fetched| :: ts[i].title == fetched[i].title && Some(ts[i].owner) == fetched[i].user
  {
    if HasOrphan(fetched) then [] else OwnedTasks(fetched)
  }

  /** The owners of `ts` in order of first appearance: the keys of the grouping, in `Object.keys` order. */
  function Owners(ts: seq<Task>): seq<string>
    decreases |ts|
  {
    if ts == [] then []
    else
      var seen := Owners(ts[..|ts| - 1]);
      var u := ts[|ts| - 1].owner;
      if u in seen then seen else seen + [u]
  }

  /** The tasks of `u`, in input order: the array groupTasksByUser builds for `u`. */
  function GroupOf(ts: seq<Task>, u: string): seq<Task>
    decreases |ts|
  {
    if ts == [] then []
    else GroupOf(ts[..|ts| - 1], u) + (if ts[|ts| - 1].owner == u then [ts[|ts| - 1]] else [])
  }

  predicate Distinct(us: seq<string>)
  {
    forall i, j | 0 <= i < j < |us| :: us[i] != us[j]
  }

  /** The owners are listed once each, and they are exactly the owners present. */
  lemma {:induction false} OwnersExact(ts: seq<Task>)
    ensures Distinct(Owners(ts))
    ensures forall u :: u in Owners(ts) <==> exists t | t in ts :: t.owner == u
    decreases |ts|
  {
    if ts != [] {
      var init := ts[..|ts| - 1];
      OwnersExact(init);
      assert ts == init + [ts[|ts| - 1]];
      forall u
        ensures u in Owners(ts) <==> exists t | t in ts :: t.owner == u
      {
        if u in Owners(ts) && u !in Owners(init) {
          assert ts[|ts| - 1] in ts;
        }
        if exists t | t in ts :: t.owner == u {
          var t :| t in ts && t.owner == u;
          if t != ts[|ts| - 1] {
            assert t in init;
          }
        }
      }
    }
  }

  /** Every task is in its owner's group and in no other, and a group keeps input order. */
  lemma {:induction false} GroupOfExact(ts: seq<Task>, u: string)
    ensures forall t :: t in GroupOf(ts, u) <==> t in ts && t.owner == u
    ensures forall i | 0 <= i < |GroupOf(ts, u)| :: GroupOf(ts, u)[i].owner == u
    decreases |ts|
  {
    if ts != [] {
      var init := ts[..|ts| - 1];
      GroupOfExact(init, u);
      assert ts == init + [ts[|ts| - 1]];
    }
  }

  /** Total size of the groups of `us`. */
  function SumSizes(ts: seq<Task>, us: seq<string>): nat
    decreases |us|
  {
    if us == [] then 0 else SumSizes(ts, us[..|us| - 1]) + |GroupOf(ts, us[|us| - 1])|
  }

  /** One more task adds one to the total of the group lists that name its owner once. */
  lemma {:induction false} SumSizesSnoc(init: seq<Task>, t: Task, us: seq<string>)
    requires Distinct(us)
    ensures SumSizes(init + [t], us) == SumSizes(init, us) + (if t.owner in us then 1 else 0)
    decreases |us|
  {
    var ts := init + [t];
    assert ts[..|ts| - 1] == init;
    if us != [] {
      var front := us[..|us| - 1];
      assert Distinct(front);
      SumSizesSnoc(init, t, front);
      assert us == front + [us[|us| - 1]];
      assert t.owner in us <==> t.owner in front || t.owner == us[|us| - 1];
    }
  }

  /** Naming one more owner adds that owner's group to the total. */
  lemma SumSizesAppend(ts: seq<Task>, us: seq<string>, u: string)
    ensures SumSizes(ts, us + [u]) == SumSizes(ts, us) + |GroupOf(ts, u)|
  {
    assert (us + [u])[..|us|] == us;
  }

  /** A user who owns none of the tasks has an empty group. */
  lemma {:induction false} GroupOfNotOwner(ts: seq<Task>, u: string)
    requires forall t | t in ts :: t.owner != u
    ensures GroupOf(ts, u) == []
    decreases |ts|
  {
    if ts != [] {
      var init := ts[..|ts| - 1];
      assert forall t | t in init :: t in ts;
      assert ts[|ts| - 1] in ts;
      GroupOfNotOwner(init, u);
    }
  }

  /** The first task of a new owner makes a group of one. */
  lemma NewOwnerGroup(init: seq<Task>, t: Task)
    requires t.owner !in Owners(init)
    ensures GroupOf(init + [t], t.owner) == [t]
  {
    OwnersExact(init);
    GroupOfNotOwner(init, t.owner);
    var ts := init + [t];
    assert ts[..|ts| - 1] == init;
  }

  /** Grouping loses and duplicates nothing: the group sizes add up to the number of tasks. */
  lemma {:induction false} GroupSizesAddUp(ts: seq<Task>)
    ensures SumSizes(ts, Owners(ts)) == |ts|
    decreases |ts|
  {
    if ts != [] {
      var init := ts[..|ts| - 1];
      var t := ts[|ts| - 1];
      assert ts == init + [t];
      GroupSizesAddUp(init);
      OwnersExact(init);
      var us := Owners(init);
      SumSizesSnoc(init, t, us);
      if t.owner in us {
        assert Owners(ts) == us;
      } else {
        assert Owners(ts) == us + [t.owner];
        SumSizesAppend(ts, us, t.owner);
        NewOwnerGroup(init, t);
      }
    }
  }

  // ---------------------------------------------------------------------
  // One reminder per owner
  // ---------------------------------------------------------------------

  /** What the job knows of a user: the lookup answer's email and name. */
  datatype UserInfo = UserInfo(email: Option<string>, name: Option<string>)

  /** sendReminderToUser's decision: skip, or hand sendWithRetry these arguments. */
  datatype Reminder = Skipped | Send(email: string, name: string, tasks: seq<Task>)

  function ReminderFor(user: Option<UserInfo>, tasks: seq<Task>): (r: Reminder)
    ensures r.Skipped? <==> user.None? || !Truthy(user.value.email) || |tasks| == 0
    ensures r.Send? ==> r.email == user.value.email.value && r.tasks == tasks
    ensures r.Send? ==> r.name == if Truthy(user.value.name) then user.value.name.value else "User"
  {
    if user.None? || !Truthy(user.value.email) then Skipped
    else if |tasks| == 0 then Skipped
    else Send(user.value.email.value, if Truthy(user.value.name) then user.value.name.value else "User", tasks)
  }

  function Lookup(found: map<string, UserInfo>, u: string): Option<UserInfo>
  {
    if u in found then Some(found[u]) else None
  }

  /**
   * Whether owner `u` counts as notified: a reminder was due and
   * sendWithRetry, whose outcome for `u` is `delivered(u)`, succeeded.
   */
  predicate Notified(ts: seq<Task>, found: map<string, UserInfo>, delivered: string -> bool, u: string)
  {
    ReminderFor(Lookup(found, u), GroupOf(ts, u)).Send? && delivered(u)
  }

  function CountNotified(ts: seq<Task>, found: map<string, UserInfo>, delivered: string -> bool, us: seq<string>): (n: nat)
    ensures n <= |us|
    decreases |us|
  {
    if us == [] then 0
    else CountNotified(ts, found, delivered, us[..|us| - 1]) + (if Notified(ts, found, delivered, us[|us| - 1]) then 1 else 0)
  }

  /** An owner the user lookup did not return is never notified. */
  lemma {:induction false} UnknownOwnersNotNotified(ts: seq<Task>, found: map<string, UserInfo>, delivered: string -> bool, us: seq<string>)
    requires forall u | u in us :: u !in found
    ensures CountNotified(ts, found, delivered, us) == 0
    decreases |us|
  {
    if us != [] {
      UnknownOwnersNotNotified(ts, found, delivered, us[..|us| - 1]);
    }
  }

  /** Counting one more owner adds one exactly when that owner is notified. */
  lemma CountNotifiedStep(ts: seq<Task>, found: map<string, UserInfo>, delivered: string -> bool, us: seq<string>, i: nat)
    requires i < |us|
    ensures CountNotified(ts, found, delivered, us[..i + 1])
         == CountNotified(ts, found, delivered, us[..i]) + (if Notified(ts, found, delivered, us[i]) then 1 else 0)
  {
    assert us[..i + 1][..i] == us[..i];
    assert us[..i + 1][i] == us[i];
  }

  /**
   * usersNotified as sendDailyReminders reports it. A user object without
   * `_id` in the lookup's answer makes the map built from it throw, and the
   * outer catch reports no one notified.
   */
  function ReportedNotified(ts: seq<Task>, found: map<string, UserInfo>, delivered: string -> bool, answerWithoutId: bool): (n: nat)
    ensures n <= |Owners(ts)|
  {
    if answerWithoutId && ts != [] then 0 else CountNotified(ts, found, delivered, Owners(ts))
  }

  /**
   * One due task whose owner was deleted empties the whole day: there are no
   * owners, no one is notified and none counts as missed, so the run counts
   * as a success.
   */
  lemma OrphanedTaskSilencesDay(fetched: seq<FetchedTask>, found: map<string, UserInfo>, delivered: string -> bool, answerWithoutId: bool)
    requires HasOrphan(fetched)
    ensures Owners(DueTasks(fetched)) == []
    ensures ReportedNotified(DueTasks(fetched), found, delivered, answerWithoutId) == |Owners(DueTasks(fetched))|
  {
  }

  /** The counters sendDailyReminders returns (its timing fields are not modelled). */
  datatype ReminderStats = ReminderStats(totalUsers: nat, usersNotified: nat, emailsSent: nat, errors: nat)

  /** One more task: its owner is appended if new, and only its owner's group grows, by that task. */
  lemma GroupStep(ts: seq<Task>, i: nat)
    requires i < |ts|
    ensures Owners(ts[..i + 1]) == if ts[i].owner in Owners(ts[..i]) then Owners(ts[..i]) else Owners(ts[..i]) + [ts[i].owner]
    ensures forall u :: GroupOf(ts[..i + 1], u) == GroupOf(ts[..i], u) + (if ts[i].owner == u then [ts[i]] else [])
    ensures ts[i].owner !in Owners(ts[..i]) ==> GroupOf(ts[..i], ts[i].owner) == []
  {
    assert ts[..i + 1][..i] == ts[..i];
    assert ts[..i + 1][i] == ts[i];
    if ts[i].owner !in Owners(ts[..i]) {
      OwnersExact(ts[..i]);
      GroupOfNotOwner(ts[..i], ts[i].owner);
    }
  }

  /** groupTasksByUser: the keys in insertion order and the array under each key. */
  method GroupTasksByUser(ts: seq<Task>) returns (userIds: seq<string>, groups: map<string, seq<Task>>)
    ensures userIds == Owners(ts)
    ensures forall u :: u in groups <==> u in userIds
    ensures forall u | u in groups :: groups[u] == GroupOf(ts, u)
  {
    userIds, groups := [], map[];
    var i := 0;
    while i < |ts|
      invariant 0 <= i <= |ts|
      invariant userIds == Owners(ts[..i])
      invariant forall u :: u in groups <==> u in userIds
      invariant forall u | u in groups :: groups[u] == GroupOf(ts[..i], u)
    {
      var task := ts[i];
      GroupStep(ts, i);
      if task.owner !in groups {
        groups := groups[task.owner := []];
        userIds := userIds + [task.owner];
      }
      groups := groups[task.owner := groups[task.owner] + [task]];
      i := i + 1;
    }
    assert ts[..|ts|] == ts;
  }

  /**
   * sendDailyReminders over the tasks the due-today query fetched, grouped
   * as DueTasks says; `found` holds the users the lookup returned, keyed by id, `delivered(u)` is sendWithRetry's outcome
   * for owner `u`, and `answerWithoutId` says whether some user object the
   * lookup returned lacks `_id`, which makes building the id map throw.
   */
  method SendDailyReminders(fetched: seq<FetchedTask>, found: map<string, UserInfo>, delivered: string -> bool, answerWithoutId: bool)
    returns (stats: ReminderStats)
    ensures stats.totalUsers == |Owners(DueTasks(fetched))|
    ensures stats.usersNotified == ReportedNotified(DueTasks(fetched), found, delivered, answerWithoutId)
    ensures stats.emailsSent == stats.usersNotified
    ensures stats.errors == 0 <==> stats.usersNotified == stats.totalUsers
    ensures !answerWithoutId ==> stats.usersNotified + stats.errors == stats.totalUsers
    ensures answerWithoutId && fetched != [] && !HasOrphan(fetched) ==>
      stats == ReminderStats(|Owners(DueTasks(fetched))|, 0, 0, 1)
    ensures fetched == [] || HasOrphan(fetched) ==> stats == ReminderStats(0, 0, 0, 0)
  {
    var dueToday := DueTasks(fetched);
    var userIds, tasksByUser := GroupTasksByUser(dueToday);
    if dueToday != [] {
      OwnersExact(dueToday);
      assert dueToday[0] in dueToday;
      assert dueToday[0].owner in userIds;
    }
    stats := ReminderStats(|userIds|, 0, 0, 0);
    if |userIds| == 0 {
      return;
    }
    if answerWithoutId {
      // `user._id.toString()` throws; the catch counts one error.
      stats := stats.(errors := stats.errors + 1);
      return;
    }
    var notified, errors := NotifyOwners(dueToday, found, delivered, userIds, tasksByUser);
    stats := ReminderStats(|userIds|, notified, notified, errors);
  }

  /** The per-owner part of sendDailyReminders: each owner counts as notified or as an error. */
  method NotifyOwners(dueToday: seq<Task>, found: map<string, UserInfo>, delivered: string -> bool,
                      userIds: seq<string>, tasksByUser: map<string, seq<Task>>)
    returns (notified: nat, errors: nat)
    requires forall u | u in userIds :: u in tasksByUser && tasksByUser[u] == GroupOf(dueToday, u)
    ensures notified == CountNotified(dueToday, found, delivered, userIds)
    ensures notified + errors == |userIds|
  {
    notified, errors := 0, 0;
    var i := 0;
    while i < |userIds|
      invariant 0 <= i <= |userIds|
      invariant notified == CountNotified(dueToday, found, delivered, userIds[..i])
      invariant notified + errors == i
    {
      var userId := userIds[i];
      CountNotifiedStep(dueToday, found, delivered, userIds, i);
      var reminder := ReminderFor(Lookup(found, userId), tasksByUser[userId]);
      var success := reminder.Send? && delivered(userId);
      if success {
        notified := notified + 1;
      } else {
        errors := errors + 1;
      }
      i := i + 1;
    }
    assert userIds[..|userIds|] == userIds;
  }

  // ---------------------------------------------------------------------
  // The job object
  // ---------------------------------------------------------------------

  /** The job's run state and counters (averageExecutionTime is not modelled). */
  class CronService {
    var isRunning: bool
    var lastRun: Option<int>
    var nextRun: Option<int>
    var totalRuns: nat
    var successfulRuns: nat
    var failedRuns: nat
    var totalEmailsSent: nat
    var totalUsersNotified: nat

    /** Every started run is counted once: finished ones as a success or a failure, the current one as running. */
    predicate Valid()
      reads this
    {
      totalRuns == successfulRuns + failedRuns + (if isRunning then 1 else 0)
    }

    /** The constructor; scheduling computes the first nextRun at `now`. */
    constructor(now: int, offset: int)
      ensures Valid() && !isRunning && lastRun == None && nextRun == Some(NextRun(now, offset))
      ensures totalRuns == 0 && successfulRuns == 0 && failedRuns == 0
      ensures totalEmailsSent == 0 && totalUsersNotified == 0
    {
      isRunning, lastRun, nextRun := false, None, Some(NextRun(now, offset));
      totalRuns, successfulRuns, failedRuns := 0, 0, 0;
      totalEmailsSent, totalUsersNotified := 0, 0;
    }

    method CalculateNextRun(now: int, offset: int)
      modifies this
      ensures nextRun == Some(NextRun(now, offset))
      ensures isRunning == old(isRunning) && lastRun == old(lastRun) && totalRuns == old(totalRuns)
      ensures successfulRuns == old(successfulRuns) && failedRuns == old(failedRuns)
      ensures totalEmailsSent == old(totalEmailsSent) && totalUsersNotified == old(totalUsersNotified)
    {
      nextRun := Some(NextRun(now, offset));
    }

    /** The part of executeDailyReminders before its await: the overlap guard and the run count. */
    method BeginRun(now: int) returns (started: bool)
      requires Valid()
      modifies this
      ensures Valid()
      ensures started == !old(isRunning)
      ensures !started ==> unchanged(this)
      ensures started ==> isRunning && lastRun == Some(now) && totalRuns == old(totalRuns) + 1
      ensures started ==> nextRun == old(nextRun) && successfulRuns == old(successfulRuns) && failedRuns == old(failedRuns)
      ensures started ==> totalEmailsSent == old(totalEmailsSent) && totalUsersNotified == old(totalUsersNotified)
    {
      if isRunning {
        return false;
      }
      isRunning := true;
      lastRun := Some(now);
      totalRuns := totalRuns + 1;
      started := true;
    }

    /** The part after the await, with sendDailyReminders' result; `now` is when it finishes. */
    method FinishRun(result: ReminderStats, now: int, offset: int)
      requires Valid() && isRunning
      modifies this
      ensures Valid() && !isRunning
      ensures result.errors == 0 ==> successfulRuns == old(successfulRuns) + 1 && failedRuns == old(failedRuns)
      ensures result.errors != 0 ==> failedRuns == old(failedRuns) + 1 && successfulRuns == old(successfulRuns)
      ensures totalEmailsSent == old(totalEmailsSent) + result.emailsSent
      ensures totalUsersNotified == old(totalUsersNotified) + result.usersNotified
      ensures totalRuns == old(totalRuns) && lastRun == old(lastRun) && nextRun == Some(NextRun(now, offset))
    {
      if result.errors == 0 {
        successfulRuns := successfulRuns + 1;
      } else {
        failedRuns := failedRuns + 1;
      }
      totalEmailsSent := totalEmailsSent + result.emailsSent;
      totalUsersNotified := totalUsersNotified + result.usersNotified;
      CalculateNextRun(now, offset);
      isRunning := false;
    }

    /**
     * executeDailyReminders run to completion: started at `startedAt`,
     * finished at `finishedAt`. A call made while a run is in progress
     * changes nothing.
     */
    method ExecuteDailyReminders(fetched: seq<FetchedTask>, found: map<string, UserInfo>, delivered: string -> bool,
                                 answerWithoutId: bool, startedAt: int, finishedAt: int, offset: int)
      requires Valid()
      modifies this
      ensures Valid()
      ensures old(isRunning) ==> unchanged(this)
      ensures !old(isRunning) ==>
        var owners := Owners(DueTasks(fetched));
        var notified := ReportedNotified(DueTasks(fetched), found, delivered, answerWithoutId);
        && !isRunning && totalRuns == old(totalRuns) + 1 && lastRun == Some(startedAt)
        && (notified == |owners| ==> successfulRuns == old(successfulRuns) + 1 && failedRuns == old(failedRuns))
        && (notified < |owners| ==> failedRuns == old(failedRuns) + 1 && successfulRuns == old(successfulRuns))
        && totalEmailsSent == old(totalEmailsSent) + notified
        && totalUsersNotified == old(totalUsersNotified) + notified
        && nextRun == Some(NextRun(finishedAt, offset))
    {
      var started := BeginRun(startedAt);
      if !started {
        return;
      }
      var result := SendDailyReminders(fetched, found, delivered, answerWithoutId);
      FinishRun(result, finishedAt, offset);
    }
  }
}
