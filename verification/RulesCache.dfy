/**
  The rules cache: entries that expire, and a lock per team that lets one load through at a
  time. One step is the code between two awaits; the clock never runs backwards.
 */
module RulesCache {
  import opened Wrappers

  type Team = string
  type Task = nat
  type Rules = nat

  datatype Entry = Entry(rules: Rules, expiresAt: real)

  /** The cache, and the team locks with who holds them. */
  datatype Cache = Cache(entries: map<Team, Entry>, locks: map<Team, Option<Task>>)

  predicate Live(c: Cache, team: Team, now: real) {
    team in c.entries && c.entries[team].expiresAt > now
  }

  predicate Free(c: Cache, team: Team) { team in c.locks && c.locks[team].None? }

  // ---- the segments of `load`

  /** No live entry: the team's lock is fetched, and made if there is none. */
  function LockFetched(c: Cache, team: Team): Cache {
    if team in c.locks then c else c.(locks := c.locks[team := None])
  }

  function Acquired(c: Cache, team: Team, task: Task): Cache { c.(locks := c.locks[team := Some(task)]) }

  function Released(c: Cache, team: Team): Cache { c.(locks := c.locks[team := None]) }

  function Stored(c: Cache, team: Team, rules: Rules, expiresAt: real): Cache {
    Released(c.(entries := c.entries[team := Entry(rules, expiresAt)]), team)
  }

  class CachedRulesLoader {
    const ttl: real
    var cache: map<Team, Entry>
    var teamLocks: map<Team, Option<Task>>

    constructor (ttl: real)
      ensures this.ttl == ttl && Abs() == Cache(map[], map[])
    {
      this.ttl, cache, teamLocks := ttl, map[], map[];
    }

    ghost function Abs(): Cache
      reads this
    {
      Cache(cache, teamLocks)
    }

    /** A call: served from the cache, or on to the team's lock. */
    method Call(team: Team, now: real) returns (hit: Option<Rules>)
      modifies this
      ensures hit.Some? <==> Live(old(Abs()), team, now)
      ensures hit.Some? ==> Abs() == old(Abs()) && hit.value == old(Abs()).entries[team].rules
      ensures hit.None? ==> Abs() == LockFetched(old(Abs()), team)
    {
      if team in cache && cache[team].expiresAt > now {
        return Some(cache[team].rules);
      }
      if team !in teamLocks {
        teamLocks := teamLocks[team := None];
      }
      hit := None;
    }

    /** The lock is free and taken: the second check, then either it is given back at once or
        the load begins. */
    method LockTaken(task: Task, team: Team, now: real) returns (hit: Option<Rules>)
      requires Free(Abs(), team)
      modifies this
      ensures hit.Some? <==> Live(old(Abs()), team, now)
      ensures hit.Some? ==> Abs() == old(Abs()) && hit.value == old(Abs()).entries[team].rules
      ensures hit.None? ==> Abs() == Acquired(old(Abs()), team, task)
    {
      teamLocks := teamLocks[team := Some(task)];
      if team in cache && cache[team].expiresAt > now {
        hit := Some(cache[team].rules);
        teamLocks := teamLocks[team := None];
      } else {
        hit := None;
      }
    }

    method LoadEnded(team: Team, rules: Rules, now: real)
      modifies this
      ensures Abs() == Stored(old(Abs()), team, rules, now + ttl)
    {
      cache := cache[team := Entry(rules, now + ttl)];
      teamLocks := teamLocks[team := None];
    }

    /** The load failed or was cancelled. */
    method LoadFailed(team: Team)
      modifies this
      ensures Abs() == Released(old(Abs()), team)
    {
      teamLocks := teamLocks[team := None];
    }
  }

  // ---- runs

  /** Where a call is between two segments. */
  datatype Place = AtLock(team: Team) | Loading(team: Team)

  datatype Event =
    | Began(team: Team, at: real)
    | Finished(team: Team, rules: Rules, at: real)
    | Served(team: Team, rules: Rules, at: real)

  datatype System = System(cache: Cache, tasks: map<Task, Place>, clock: real, log: seq<Event>)

  datatype Action =
    | Calls(task: Task, team: Team, now: real)
    | Takes(task: Task, now: real)
    | Finishes(task: Task, rules: Rules, now: real)
    | Fails(task: Task, now: real)        // the inner load raises, or the call is cancelled in it
    | GivesUp(task: Task, now: real)      // the call is cancelled at the lock

  predicate Enabled(s: System, a: Action) {
    && s.clock <= a.now
    && match a
       case Calls(task, _, _) => task !in s.tasks
       case Takes(task, _) => task in s.tasks && s.tasks[task].AtLock? && Free(s.cache, s.tasks[task].team)
       case Finishes(task, _, _) => task in s.tasks && s.tasks[task].Loading?
       case Fails(task, _) => task in s.tasks && s.tasks[task].Loading?
       case GivesUp(task, _) => task in s.tasks && s.tasks[task].AtLock?
  }

  function ServedNow(s: System, task: Task, team: Team, now: real): System
    requires Live(s.cache, team, now)
  {
    s.(tasks := s.tasks - {task}, clock := now, log := s.log + [Served(team, s.cache.entries[team].rules, now)])
  }

  function Next(ttl: real, s: System, a: Action): System
    requires Enabled(s, a)
  {
    match a
    case Calls(task, team, now) =>
      if Live(s.cache, team, now) then ServedNow(s, task, team, now)
      else s.(cache := LockFetched(s.cache, team), tasks := s.tasks[task := AtLock(team)], clock := now)
    case Takes(task, now) =>
      var team := s.tasks[task].team;
      if Live(s.cache, team, now) then ServedNow(s, task, team, now)
      else System(Acquired(s.cache, team, task), s.tasks[task := Loading(team)], now, s.log + [Began(team, now)])
    case Finishes(task, rules, now) =>
      var team := s.tasks[task].team;
      System(Stored(s.cache, team, rules, now + ttl), s.tasks - {task}, now, s.log + [Finished(team, rules, now)])
    case Fails(task, now) =>
      s.(cache := Released(s.cache, s.tasks[task].team), tasks := s.tasks - {task}, clock := now)
    case GivesUp(task, now) => s.(tasks := s.tasks - {task}, clock := now)
  }

  // ---- what every step keeps

  /** The holders of the locks are the tasks that load, each that of its own team. */
  ghost predicate LocksHeld(s: System) {
    && (forall task :: task in s.tasks ==> s.tasks[task].team in s.cache.locks)
    && (forall task :: task in s.tasks && s.tasks[task].Loading? ==> s.cache.locks[s.tasks[task].team] == Some(task))
    && (forall team :: team in s.cache.locks && s.cache.locks[team].Some? ==>
          s.cache.locks[team].value in s.tasks && s.tasks[s.cache.locks[team].value] == Loading(team))
  }

  /** An entry is what a load of the team finished with, `ttl` before it expires. */
  ghost predicate EntryFrom(ttl: real, s: System, team: Team, n: nat)
    requires team in s.cache.entries
  {
    n < |s.log| && s.log[n] == Finished(team, s.cache.entries[team].rules, s.cache.entries[team].expiresAt - ttl)
  }

  ghost predicate EntriesFrom(ttl: real, s: System) {
    forall team :: team in s.cache.entries ==> exists n :: EntryFrom(ttl, s, team, n)
  }

  /** No load that finished would keep an entry longer than the one there is. */
  ghost predicate EntriesNewest(ttl: real, s: System) {
    forall n :: 0 <= n < |s.log| && s.log[n].Finished? ==>
      s.log[n].team in s.cache.entries && s.cache.entries[s.log[n].team].expiresAt >= s.log[n].at + ttl
  }

  ghost predicate LogOk(s: System) {
    forall n :: 0 <= n < |s.log| ==> s.log[n].at <= s.clock
  }

  /** A value served comes from a load of the team that finished less than `ttl` before. */
  ghost predicate ServedFrom(ttl: real, log: seq<Event>, n: nat, m: nat)
    requires n < |log| && log[n].Served?
  {
    m < n && log[m].Finished? && log[m].team == log[n].team && log[m].rules == log[n].rules
      && log[n].at < log[m].at + ttl
  }

  ghost predicate ServedFresh(ttl: real, log: seq<Event>) {
    forall n :: 0 <= n < |log| && log[n].Served? ==> exists m :: ServedFrom(ttl, log, n, m)
  }

  /** No load begins within `ttl` of the finish of one before it. */
  ghost predicate LoadsApart(ttl: real, log: seq<Event>) {
    forall m, n :: 0 <= m < n < |log| && log[m].Finished? && log[n].Began? && log[m].team == log[n].team ==>
      log[n].at >= log[m].at + ttl
  }

  ghost predicate Invariant(ttl: real, s: System) {
    && LocksHeld(s) && EntriesFrom(ttl, s) && EntriesNewest(ttl, s) && LogOk(s)
    && ServedFresh(ttl, s.log) && LoadsApart(ttl, s.log)
  }

  lemma {:induction false} LocksStep(ttl: real, s: System, a: Action)
    requires LocksHeld(s) && Enabled(s, a)
    ensures LocksHeld(Next(ttl, s, a))
  {
    if a.Finishes? || a.Fails? {
      LockFreed(ttl, s, a);
    }
  }

  lemma {:induction false} LockFreed(ttl: real, s: System, a: Action)
    requires LocksHeld(s) && Enabled(s, a) && (a.Finishes? || a.Fails?)
    ensures LocksHeld(Next(ttl, s, a))
  {
    var team := s.tasks[a.task].team;
    assert Next(ttl, s, a).cache.locks == s.cache.locks[team := None] && Next(ttl, s, a).tasks == s.tasks - {a.task};
  }

  lemma {:induction false} LogGrows(ttl: real, log: seq<Event>, e: Event)
    requires ServedFresh(ttl, log) && LoadsApart(ttl, log)
    requires e.Served? ==> exists m :: ServedFrom(ttl, log + [e], |log|, m)
    requires e.Began? ==> forall m :: 0 <= m < |log| && log[m].Finished? && log[m].team == e.team ==>
      e.at >= log[m].at + ttl
    ensures ServedFresh(ttl, log + [e]) && LoadsApart(ttl, log + [e])
  {
    var more := log + [e];
    forall n | 0 <= n < |more| && more[n].Served?
      ensures exists m :: ServedFrom(ttl, more, n, m)
    {
      if n < |log| {
        var m :| ServedFrom(ttl, log, n, m);
        assert ServedFrom(ttl, more, n, m);
      }
    }
  }

  lemma {:induction false} ServedStep(ttl: real, s: System, task: Task, team: Team, now: real)
    requires EntriesFrom(ttl, s) && EntriesNewest(ttl, s) && LogOk(s) && ServedFresh(ttl, s.log)
      && LoadsApart(ttl, s.log)
    requires s.clock <= now && Live(s.cache, team, now)
    ensures var t := ServedNow(s, task, team, now);
      EntriesFrom(ttl, t) && EntriesNewest(ttl, t) && LogOk(t) && ServedFresh(ttl, t.log) && LoadsApart(ttl, t.log)
  {
    ServedLog(ttl, s, team, now);
    EntriesStay(ttl, s, ServedNow(s, task, team, now));
    EntriesStayNewest(ttl, s, ServedNow(s, task, team, now), Served(team, s.cache.entries[team].rules, now));
  }

  /** An event that is no finish, now. */
  lemma {:induction false} EntriesStayNewest(ttl: real, s: System, t: System, e: Event)
    requires EntriesNewest(ttl, s) && LogOk(s) && s.clock <= t.clock == e.at && !e.Finished?
    requires t.cache.entries == s.cache.entries && t.log == s.log + [e]
    ensures EntriesNewest(ttl, t) && LogOk(t)
  {
  }

  lemma {:induction false} ServedLog(ttl: real, s: System, team: Team, now: real)
    requires EntriesFrom(ttl, s) && ServedFresh(ttl, s.log) && LoadsApart(ttl, s.log) && Live(s.cache, team, now)
    ensures var log := s.log + [Served(team, s.cache.entries[team].rules, now)];
      ServedFresh(ttl, log) && LoadsApart(ttl, log)
  {
    var e := Served(team, s.cache.entries[team].rules, now);
    var m :| EntryFrom(ttl, s, team, m);
    assert ServedFrom(ttl, s.log + [e], |s.log|, m);
    LogGrows(ttl, s.log, e);
  }

  lemma {:induction false} EntriesStay(ttl: real, s: System, t: System)
    requires EntriesFrom(ttl, s) && t.cache.entries == s.cache.entries && s.log <= t.log
    ensures EntriesFrom(ttl, t)
  {
    forall team | team in t.cache.entries
      ensures exists n :: EntryFrom(ttl, t, team, n)
    {
      var n: nat :| EntryFrom(ttl, s, team, n);
      assert EntryFrom(ttl, t, team, n);
    }
  }

  lemma {:induction false} BeganStep(ttl: real, s: System, task: Task, now: real)
    requires Invariant(ttl, s) && Enabled(s, Takes(task, now)) && !Live(s.cache, s.tasks[task].team, now)
    ensures Invariant(ttl, Next(ttl, s, Takes(task, now)))
  {
    var t := Next(ttl, s, Takes(task, now));
    LogGrows(ttl, s.log, Began(s.tasks[task].team, now));
    EntriesStay(ttl, s, t);
    LocksStep(ttl, s, Takes(task, now));
  }

  lemma {:induction false} FinishedStep(ttl: real, s: System, task: Task, rules: Rules, now: real)
    requires Invariant(ttl, s) && Enabled(s, Finishes(task, rules, now))
    ensures Invariant(ttl, Next(ttl, s, Finishes(task, rules, now)))
  {
    var t := Next(ttl, s, Finishes(task, rules, now));
    LogGrows(ttl, s.log, Finished(s.tasks[task].team, rules, now));
    FinishedEntries(ttl, s, t, s.tasks[task].team, rules, now);
    LocksStep(ttl, s, Finishes(task, rules, now));
  }

  lemma {:induction false} FinishedEntries(ttl: real, s: System, t: System, team: Team, rules: Rules, now: real)
    requires EntriesFrom(ttl, s) && EntriesNewest(ttl, s) && LogOk(s) && s.clock <= now
    requires t.cache.entries == s.cache.entries[team := Entry(rules, now + ttl)]
    requires t.log == s.log + [Finished(team, rules, now)] && t.clock == now
    ensures EntriesFrom(ttl, t) && EntriesNewest(ttl, t) && LogOk(t)
  {
    forall x | x in t.cache.entries
      ensures exists n :: EntryFrom(ttl, t, x, n)
    {
      if x == team {
        assert EntryFrom(ttl, t, x, |s.log|);
      } else {
        var n :| EntryFrom(ttl, s, x, n);
        assert EntryFrom(ttl, t, x, n);
      }
    }
  }

  lemma {:induction false} StepKeeps(ttl: real, s: System, a: Action)
    requires Invariant(ttl, s) && Enabled(s, a)
    ensures Invariant(ttl, Next(ttl, s, a))
  {
    LocksStep(ttl, s, a);
    if a.Calls? && Live(s.cache, a.team, a.now) {
      ServedStep(ttl, s, a.task, a.team, a.now);
    } else if a.Takes? && Live(s.cache, s.tasks[a.task].team, a.now) {
      ServedStep(ttl, s, a.task, s.tasks[a.task].team, a.now);
    } else if a.Takes? {
      BeganStep(ttl, s, a.task, a.now);
    } else if a.Finishes? {
      FinishedStep(ttl, s, a.task, a.rules, a.now);
    } else {
      EntriesStay(ttl, s, Next(ttl, s, a));
    }
  }

  // ---- over every run

  ghost predicate Step(ttl: real, s: System, a: Action, t: System) { Enabled(s, a) && t == Next(ttl, s, a) }

  ghost predicate IsRun(ttl: real, states: seq<System>, actions: seq<Action>) {
    && |states| == |actions| + 1
    && states[0].cache == Cache(map[], map[]) && states[0].tasks == map[] && states[0].log == []
    && forall i, j :: 0 <= i < |actions| && j == i + 1 ==> Step(ttl, states[i], actions[i], states[j])
  }

  lemma {:induction false} RunInvariant(ttl: real, states: seq<System>, actions: seq<Action>, i: nat)
    requires IsRun(ttl, states, actions) && i < |states|
    ensures Invariant(ttl, states[i])
  {
    if i > 0 {
      RunInvariant(ttl, states, actions, i - 1);
      assert Step(ttl, states[i - 1], actions[i - 1], states[i - 1 + 1]);
      StepKeeps(ttl, states[i - 1], actions[i - 1]);
    }
  }

  /** At no point of any run are two loads of a team under way. */
  lemma {:induction false} OneLoadPerTeam(
    ttl: real, states: seq<System>, actions: seq<Action>, i: nat, one: Task, other: Task)
    requires IsRun(ttl, states, actions) && i < |states|
    requires one in states[i].tasks && other in states[i].tasks
    requires states[i].tasks[one].Loading? && states[i].tasks[one] == states[i].tasks[other]
    ensures one == other
  {
    RunInvariant(ttl, states, actions, i);
  }

  /** A value from the cache is that of a load of the same team that finished less than `ttl`
      before, and a load begins `ttl` or more after every earlier finish of its team. */
  lemma {:induction false} ServedFreshLoadsApart(ttl: real, states: seq<System>, actions: seq<Action>, i: nat)
    requires IsRun(ttl, states, actions) && i < |states|
    ensures ServedFresh(ttl, states[i].log) && LoadsApart(ttl, states[i].log)
  {
    RunInvariant(ttl, states, actions, i);
  }

  /** A load that fails or is cancelled changes no entry and leaves its lock free, so that
      whoever waits for it can take it. */
  lemma {:induction false} FailureFreesTheLock(
    ttl: real, states: seq<System>, actions: seq<Action>, i: nat, team: Team, waiter: Task)
    requires IsRun(ttl, states, actions) && i < |actions| && actions[i].Fails?
    requires actions[i].task in states[i].tasks && states[i].tasks[actions[i].task] == Loading(team)
    ensures states[i + 1].cache.entries == states[i].cache.entries && Free(states[i + 1].cache, team)
    ensures waiter in states[i + 1].tasks && states[i + 1].tasks[waiter] == AtLock(team) ==>
      Enabled(states[i + 1], Takes(waiter, states[i + 1].clock))
  {
    assert Step(ttl, states[i], actions[i], states[i + 1]);
  }

  /** No lock is lost: a call waits only while a load of its team is under way. */
  lemma {:induction false} WaitsOnlyForALoad(ttl: real, states: seq<System>, actions: seq<Action>, i: nat, waiter: Task)
    requires IsRun(ttl, states, actions) && i < |states|
    requires waiter in states[i].tasks && states[i].tasks[waiter].AtLock?
    ensures Enabled(states[i], Takes(waiter, states[i].clock)) <==>
      forall task :: task in states[i].tasks ==> states[i].tasks[task] != Loading(states[i].tasks[waiter].team)
  {
    RunInvariant(ttl, states, actions, i);
  }

  /** A load of the team finished less than `ttl` ago. */
  ghost predicate LoadedLately(ttl: real, log: seq<Event>, team: Team, now: real) {
    exists m :: 0 <= m < |log| && log[m].Finished? && log[m].team == team && now < log[m].at + ttl
  }

  lemma {:induction false} LiveIsLoadedLately(ttl: real, s: System, team: Team, now: real)
    requires EntriesFrom(ttl, s) && EntriesNewest(ttl, s)
    ensures Live(s.cache, team, now) <==> LoadedLately(ttl, s.log, team, now)
  {
    if Live(s.cache, team, now) {
      var n: nat :| EntryFrom(ttl, s, team, n);
      assert s.log[n].Finished? && now < s.log[n].at + ttl;
    }
  }

  /** In every run, a call is served at once, and one that gets the lock when it gets it, if and only
      if a load of its team finished less than `ttl` ago; else the one goes to the lock and the other
      begins a load. */
  lemma {:induction false} CallDecides(ttl: real, states: seq<System>, actions: seq<Action>, i: nat)
    requires IsRun(ttl, states, actions) && i < |actions| && (actions[i].Calls? || actions[i].Takes?)
    requires actions[i].Takes? ==> actions[i].task in states[i].tasks
    ensures var s, s', a := states[i], states[i + 1], actions[i];
            var team := if a.Calls? then a.team else s.tasks[a.task].team;
            if LoadedLately(ttl, s.log, team, a.now) then
              && a.task !in s'.tasks && |s'.log| == |s.log| + 1 && s'.log[..|s.log|] == s.log
              && s'.log[|s.log|].Served? && s'.log[|s.log|].team == team && s'.log[|s.log|].at == a.now
            else
              && a.task in s'.tasks && s'.tasks[a.task] == (if a.Calls? then AtLock(team) else Loading(team))
              && s'.log == if a.Calls? then s.log else s.log + [Began(team, a.now)]
  {
    RunInvariant(ttl, states, actions, i);
    assert Step(ttl, states[i], actions[i], states[i + 1]);
    var a := actions[i];
    LiveIsLoadedLately(ttl, states[i], if a.Calls? then a.team else states[i].tasks[a.task].team, a.now);
  }
}
