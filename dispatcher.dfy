/** The once-a-minute dispatcher: a recurrence rule for the current UTC day,
  * one lock file per (account, UTC date) in the logs directory, and a sweep
  * that removes lock files older than seven days. */
module Dispatcher {
  import opened Common

  /** The single clock reading taken at start-up (UTC): "HH:MM", weekday
    * (0 = Monday), day of the year, "YYYY-MM-DD" and seconds since the epoch. */
  datatype Clock = Clock(hhmm: string, weekday: int, yday: int, date: string, stamp: int)

  /** One entry of the "accounts" object of the schedule file. */
  datatype Account = Account(name: string, enabled: Option<bool>, timeUtc: Option<string>)

  /** The schedule file as far as the dispatcher reads it; `otherKeys` records
    * whether the object has any key besides the three it looks up. */
  datatype Config = Config(
    frequency: Option<string>,
    daysOfWeek: Option<seq<int>>,
    accounts: Option<seq<Account>>,
    otherKeys: bool)

  /** What a lock file holds: the ISO time stamp written when it was taken,
    * read back as seconds, or text that does not parse. */
  datatype LockFile = Stamp(seconds: int) | Unreadable

  const EmptyConfig := Config(None, None, None, false)
  const SevenDays := 7 * 24 * 60 * 60

  predicate IsEmpty(c: Config)
  {
    c == EmptyConfig
  }

  /** A missing schedule file reads as the empty object. */
  function LoadConfig(file: Option<Config>): (c: Config)
    ensures file.None? ==> IsEmpty(c)
    ensures file.Some? ==> c == file.value
  {
    if file.Some? then file.value else EmptyConfig
  }

  function Frequency(c: Config): string
  {
    if c.frequency.Some? then c.frequency.value else "daily"
  }

  function DaysOfWeek(c: Config): seq<int>
  {
    if c.daysOfWeek.Some? then c.daysOfWeek.value else [0, 1, 2, 3, 4, 5, 6]
  }

  function Accounts(c: Config): seq<Account>
  {
    if c.accounts.Some? then c.accounts.value else []
  }

  /** The recurrence rule for today. */
  predicate ShouldRunToday(freq: string, days: seq<int>, now: Clock)
  {
    if freq == "daily" then true
    else if freq == "weekdays" then now.weekday < 5
    else if freq == "every_2_days" then now.yday % 2 == 0
    else if freq == "custom" then now.weekday in days
    else true
  }

  /** The recurrence rule, frequency by frequency. */
  lemma RecurrenceRule(days: seq<int>, now: Clock, other: string)
    requires other !in {"daily", "weekdays", "every_2_days", "custom"}
    ensures ShouldRunToday("daily", days, now)
    ensures ShouldRunToday("weekdays", days, now) <==> now.weekday < 5
    ensures ShouldRunToday("every_2_days", days, now) <==> now.yday % 2 == 0
    ensures ShouldRunToday("custom", days, now) <==> now.weekday in days
    ensures ShouldRunToday(other, days, now)
  {
  }

  /** "every_2_days" runs on exactly one of two consecutive days of the year. */
  lemma EveryTwoDaysAlternates(days: seq<int>, now: Clock, next: Clock)
    requires next.yday == now.yday + 1
    ensures ShouldRunToday("every_2_days", days, now) != ShouldRunToday("every_2_days", days, next)
  {
  }

  /** With the default day list, "custom" agrees with "daily" on every weekday. */
  lemma DefaultCustomIsDaily(c: Config, now: Clock)
    requires c.daysOfWeek.None? && 0 <= now.weekday <= 6
    ensures ShouldRunToday("custom", DaysOfWeek(c), now) == ShouldRunToday("daily", DaysOfWeek(c), now)
  {
    assert DaysOfWeek(c)[now.weekday] == now.weekday;
  }

  /** The lock file name for an account on a date. */
  function LockName(key: string, date: string): (r: string)
    ensures MatchesLockGlob(r)
  {
    ".dispatch_" + key + "_" + date + ".lock"
  }

  /** Lock names are keyed by both the account and the date: two different
    * (account, date) pairs whose dates have the same length never share a
    * lock file. */
  lemma LockNameInjective(k1: string, d1: string, k2: string, d2: string)
    requires |d1| == |d2|
    requires LockName(k1, d1) == LockName(k2, d2)
    ensures k1 == k2 && d1 == d2
  {
    var n := LockName(k1, d1);
    assert |k1| == |k2|;
    assert k1 == n[10..10 + |k1|];
    assert k2 == n[10..10 + |k2|];
    assert d1 == n[11 + |k1|..11 + |k1| + |d1|];
    assert d2 == n[11 + |k2|..11 + |k2| + |d2|];
  }

  /** `.dispatch_*.lock` */
  predicate MatchesLockGlob(name: string)
  {
    |name| >= 15 && StartsWith(name, ".dispatch_") && EndsWith(name, ".lock")
  }

  /** An account is due when it is enabled (by default) and its "time_utc"
    * (by default "06:30") is exactly the current "HH:MM". */
  predicate Due(a: Account, now: Clock)
  {
    (a.enabled.None? || a.enabled.value)
    && (if a.timeUtc.Some? then a.timeUtc.value else "06:30") == now.hhmm
  }

  /** Visiting the accounts in order: a due account whose lock is absent gets
    * its lock and is fired; the result is the fired names and the lock files. */
  function Visit(accounts: seq<Account>, now: Clock, locks: map<string, LockFile>): (r: (seq<string>, map<string, LockFile>))
    decreases |accounts|
  {
    if accounts == [] then ([], locks)
    else
      var a := accounts[0];
      var lock := LockName(a.name, now.date);
      if Due(a, now) && lock !in locks then
        var rest := Visit(accounts[1..], now, locks[lock := Stamp(now.stamp)]);
        ([a.name] + rest.0, rest.1)
      else
        Visit(accounts[1..], now, locks)
  }

  /** A lock file the sweep deletes: it matches the glob and holds a stamp
    * older than now minus seven days. */
  predicate Stale(locks: map<string, LockFile>, name: string, now: Clock)
    requires name in locks
  {
    MatchesLockGlob(name) && locks[name].Stamp? && locks[name].seconds < now.stamp - SevenDays
  }

  function SweepSpec(locks: map<string, LockFile>, now: Clock): map<string, LockFile>
  {
    map n | n in locks && !Stale(locks, n, now) :: locks[n]
  }

  /** One run of `main`: the accounts fired and the lock files afterwards. */
  function TickSpec(config: Config, now: Clock, locks: map<string, LockFile>): (r: (seq<string>, map<string, LockFile>))
  {
    if IsEmpty(config) then ([], locks)
    else if !ShouldRunToday(Frequency(config), DaysOfWeek(config), now) then ([], SweepSpec(locks, now))
    else
      var v := Visit(Accounts(config), now, locks);
      (v.0, SweepSpec(v.1, now))
  }

  /** The command line launched for an account. */
  function FireCommand(python: string, autopilot: string, account: string): seq<string>
  {
    [python, autopilot, "--account", account]
  }

  function FireCommands(python: string, autopilot: string, names: seq<string>): (r: seq<seq<string>>)
    ensures |r| == |names|
    ensures forall i :: 0 <= i < |names| ==> r[i] == FireCommand(python, autopilot, names[i])
  {
    if names == [] then [] else [FireCommand(python, autopilot, names[0])] + FireCommands(python, autopilot, names[1..])
  }

  /** The lock directory and the processes launched so far. */
  class LockDir {
    var locks: map<string, LockFile>
    var launched: seq<seq<string>>

    constructor (initial: map<string, LockFile>)
      ensures locks == initial && launched == []
    {
      locks := initial;
      launched := [];
    }

    /** `is_locked` */
    function IsLocked(key: string, now: Clock): (b: bool)
      reads this
      ensures b <==> LockName(key, now.date) in locks
    {
      LockName(key, now.date) in locks
    }

    /** `acquire_lock`: writes the current time into the account's lock file. */
    method AcquireLock(key: string, now: Clock)
      modifies this
      ensures locks == old(locks)[LockName(key, now.date) := Stamp(now.stamp)]
      ensures launched == old(launched)
    {
      locks := locks[LockName(key, now.date) := Stamp(now.stamp)];
    }

    /** `cleanup_old_locks(7)`: visits the lock files one by one, deleting the
      * stale ones and leaving unreadable ones alone. */
    method CleanupOldLocks(now: Clock)
      modifies this
      ensures locks == SweepSpec(old(locks), now)
      ensures launched == old(launched)
    {
      var start := locks;
      var pending := locks.Keys;
      while pending != {}
        invariant pending <= start.Keys
        invariant launched == old(launched)
        invariant locks == map n | n in start && (n in pending || !Stale(start, n, now)) :: start[n]
        decreases pending
      {
        var n :| n in pending;
        if Stale(start, n, now) {
          locks := locks - {n};
        }
        pending := pending - {n};
      }
    }

    /** `main`: one dispatcher run at `now`. */
    method Tick(config: Config, now: Clock, python: string, autopilot: string) returns (fired: seq<string>)
      modifies this
      ensures (fired, locks) == TickSpec(config, now, old(locks))
      ensures launched == old(launched) + FireCommands(python, autopilot, fired)
    {
      fired := [];
      if IsEmpty(config) {
        return;
      }
      if !ShouldRunToday(Frequency(config), DaysOfWeek(config), now) {
        CleanupOldLocks(now);
        return;
      }
      var accounts := Accounts(config);
      ghost var start := locks;
      ghost var launchedBefore := launched;
      var i := 0;
      assert accounts[0..] == accounts;
      assert fired + Visit(accounts, now, locks).0 == Visit(accounts, now, locks).0;
      while i < |accounts|
        invariant 0 <= i <= |accounts|
        invariant Visit(accounts, now, start) == (fired + Visit(accounts[i..], now, locks).0, Visit(accounts[i..], now, locks).1)
        invariant launched == launchedBefore + FireCommands(python, autopilot, fired)
      {
        var a := accounts[i];
        assert accounts[i..][1..] == accounts[i + 1..];
        assert accounts[i..][0] == a;
        if Due(a, now) && !IsLocked(a.name, now) {
          ghost var before := locks;
          AcquireLock(a.name, now);
          assert Visit(accounts[i..], now, before).0 == [a.name] + Visit(accounts[i + 1..], now, locks).0;
          assert fired + ([a.name] + Visit(accounts[i + 1..], now, locks).0) == (fired + [a.name]) + Visit(accounts[i + 1..], now, locks).0;
          launched := launched + [FireCommand(python, autopilot, a.name)];
          FireCommandsAppend(python, autopilot, fired, a.name);
          fired := fired + [a.name];
        }
        i := i + 1;
      }
      assert accounts[i..] == [];
      assert fired + [] == fired;
      CleanupOldLocks(now);
    }
  }

  lemma {:induction false} FireCommandsAppend(python: string, autopilot: string, names: seq<string>, n: string)
    ensures FireCommands(python, autopilot, names + [n]) == FireCommands(python, autopilot, names) + [FireCommand(python, autopilot, n)]
  {
    if names != [] {
      assert (names + [n])[1..] == names[1..] + [n];
      FireCommandsAppend(python, autopilot, names[1..], n);
    }
  }

  /** A missing schedule file, or one holding the empty object, makes the
    * run a complete no-op; a schedule without accounts fires nothing. */
  lemma EmptyConfigIsNoOp(file: Option<Config>, now: Clock, locks: map<string, LockFile>)
    ensures file.None? || file == Some(EmptyConfig) ==> TickSpec(LoadConfig(file), now, locks) == ([], locks)
    ensures Accounts(LoadConfig(file)) == [] ==> TickSpec(LoadConfig(file), now, locks).0 == []
  {
  }

  /** On a day the rule excludes, nothing fires and no lock is taken, but
    * the sweep still runs. */
  lemma OffDayOnlySweeps(config: Config, now: Clock, locks: map<string, LockFile>)
    requires !IsEmpty(config)
    requires !ShouldRunToday(Frequency(config), DaysOfWeek(config), now)
    ensures TickSpec(config, now, locks) == ([], SweepSpec(locks, now))
  {
  }

  /** Visiting only adds locks, and every lock it adds is stamped `now`. */
  lemma {:induction false} VisitGrows(accounts: seq<Account>, now: Clock, locks: map<string, LockFile>)
    ensures forall n :: n in locks ==> n in Visit(accounts, now, locks).1 && Visit(accounts, now, locks).1[n] == locks[n]
    ensures forall n :: n in Visit(accounts, now, locks).1 && n !in locks ==> Visit(accounts, now, locks).1[n] == Stamp(now.stamp)
    decreases |accounts|
  {
    if accounts != [] {
      var a := accounts[0];
      var lock := LockName(a.name, now.date);
      if Due(a, now) && lock !in locks {
        VisitGrows(accounts[1..], now, locks[lock := Stamp(now.stamp)]);
      } else {
        VisitGrows(accounts[1..], now, locks);
      }
    }
  }

  /** Every fired account was due, had no lock when the run began, and holds
    * a lock stamped `now` afterwards. */
  lemma {:induction false} FiredWereDueAndUnlocked(accounts: seq<Account>, now: Clock, locks: map<string, LockFile>, name: string)
    requires name in Visit(accounts, now, locks).0
    ensures exists a :: a in accounts && a.name == name && Due(a, now)
    ensures LockName(name, now.date) !in locks
    ensures LockName(name, now.date) in Visit(accounts, now, locks).1
    ensures Visit(accounts, now, locks).1[LockName(name, now.date)] == Stamp(now.stamp)
    decreases |accounts|
  {
    var a := accounts[0];
    var lock := LockName(a.name, now.date);
    if Due(a, now) && lock !in locks {
      var l2 := locks[lock := Stamp(now.stamp)];
      if name == a.name {
        VisitGrows(accounts[1..], now, l2);
      } else {
        FiredWereDueAndUnlocked(accounts[1..], now, l2, name);
        var b :| b in accounts[1..] && b.name == name && Due(b, now);
        assert b in accounts;
      }
    } else {
      FiredWereDueAndUnlocked(accounts[1..], now, locks, name);
      var b :| b in accounts[1..] && b.name == name && Due(b, now);
      assert b in accounts;
    }
  }

  /** Within one run each account name is fired at most once. */
  lemma {:induction false} FiredDistinct(accounts: seq<Account>, now: Clock, locks: map<string, LockFile>)
    ensures forall i, j :: 0 <= i < j < |Visit(accounts, now, locks).0| ==> Visit(accounts, now, locks).0[i] != Visit(accounts, now, locks).0[j]
    decreases |accounts|
  {
    if accounts != [] {
      var a := accounts[0];
      var lock := LockName(a.name, now.date);
      if Due(a, now) && lock !in locks {
        var l2 := locks[lock := Stamp(now.stamp)];
        FiredDistinct(accounts[1..], now, l2);
        var rest := Visit(accounts[1..], now, l2).0;
        forall k | 0 <= k < |rest| ensures rest[k] != a.name {
          FiredWereDueAndUnlocked(accounts[1..], now, l2, rest[k]);
        }
      } else {
        FiredDistinct(accounts[1..], now, locks);
      }
    }
  }

  /** A lock taken at `now` survives a sweep at any time less than seven
    * days later. */
  lemma FreshLockSurvivesSweep(locks: map<string, LockFile>, name: string, taken: int, later: Clock)
    requires name in locks && locks[name] == Stamp(taken)
    requires later.stamp - taken <= SevenDays
    ensures name in SweepSpec(locks, later) && SweepSpec(locks, later)[name] == Stamp(taken)
  {
  }

  /** Repeated runs on the same UTC date fire each account at most once: an
    * account fired by one run is not fired by any later run that day. */
  lemma SameDateFiresOnce(c1: Config, c2: Config, now1: Clock, now2: Clock, locks: map<string, LockFile>, name: string)
    requires now1.date == now2.date
    requires now1.stamp <= now2.stamp <= now1.stamp + SevenDays
    requires name in TickSpec(c1, now1, locks).0
    ensures name !in TickSpec(c2, now2, TickSpec(c1, now1, locks).1).0
  {
    var v := Visit(Accounts(c1), now1, locks);
    var lock := LockName(name, now1.date);
    FiredWereDueAndUnlocked(Accounts(c1), now1, locks, name);
    var after := SweepSpec(v.1, now1);
    FreshLockSurvivesSweep(v.1, lock, now1.stamp, now1);
    assert lock in after;
    if name in TickSpec(c2, now2, after).0 {
      FiredWereDueAndUnlocked(Accounts(c2), now2, after, name);
    }
  }

  /** A lock for another account or another date never suppresses a fire:
    * an account that is due and whose own lock is absent is fired, provided
    * the account names are distinct (they are keys of one JSON object). */
  lemma {:induction false} DueUnlockedFires(accounts: seq<Account>, now: Clock, locks: map<string, LockFile>, a: Account)
    requires forall i, j :: 0 <= i < j < |accounts| ==> accounts[i].name != accounts[j].name
    requires a in accounts && Due(a, now)
    requires LockName(a.name, now.date) !in locks
    ensures a.name in Visit(accounts, now, locks).0
    decreases |accounts|
  {
    var b := accounts[0];
    var lock := LockName(b.name, now.date);
    if b == a {
    } else {
      assert a in accounts[1..];
      assert b.name != a.name by {
        var j :| 0 <= j < |accounts| && accounts[j] == a;
        assert j != 0;
      }
      if Due(b, now) && lock !in locks {
        if LockName(a.name, now.date) == lock {
          LockNameInjective(a.name, now.date, b.name, now.date);
        }
        DueUnlockedFires(accounts[1..], now, locks[lock := Stamp(now.stamp)], a);
      } else {
        DueUnlockedFires(accounts[1..], now, locks, a);
      }
    }
  }
}
