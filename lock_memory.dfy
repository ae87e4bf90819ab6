/** The in-memory locker (pkg/executor/lock/memory.go): a map from resource
    ID to its lease. A lease is held while `now < ExpiresAt`; an expired entry
    stays in the map until it is replaced or released. */
module MemoryLock {
  import opened Wrappers
  import opened Lock

  /** Acquire as a step on the table: the error it returns and the new table. */
  function AcquireStep(t: Table, r: int, task: string, now: int, expire: int): (Option<string>, Table) {
    if Held(t, r, now) then (Some(LockedError(r, t[r].taskId)), t)
    else (None, t[r := NewLease(r, task, now, expire)])
  }

  class MemoryLocker {
    var locks: Table
    const config: Config

    /** NewMemoryLocker: a nil config means the default 30-minute lease. */
    constructor (config: Option<Config>)
      ensures this.config == ResolveConfig(config) && locks == map[]
    {
      this.config := ResolveConfig(config);
      locks := map[];
    }

    method Acquire(r: int, task: string, now: int) returns (err: Option<string>)
      modifies this`locks
      ensures (err, locks) == AcquireStep(old(locks), r, task, now, config.expireTime)
    {
      if r in locks && now < locks[r].expiresAt {
        return Some(LockedError(r, locks[r].taskId));
      }
      locks := locks[r := NewLease(r, task, now, config.expireTime)];
      err := None;
    }

    /** Deletes unconditionally and never fails. */
    method Release(r: int) returns (err: Option<string>)
      modifies this`locks
      ensures err == None && locks == old(locks) - {r}
    {
      locks := locks - {r};
      err := None;
    }

    /** The stored entry, live or expired, or none; never an error. */
    method GetStatus(r: int) returns (s: Option<LockStatus>, err: Option<string>)
      ensures err == None
      ensures s.Some? <==> r in locks
      ensures s.Some? ==> s.value == locks[r]
    {
      if r in locks {
        s := Some(locks[r]);
      } else {
        s := None;
      }
      err := None;
    }

    method IsLocked(r: int, now: int) returns (b: bool)
      ensures b <==> Held(locks, r, now)
    {
      b := Held(locks, r, now);
    }
  }

  /** Acquire fails exactly when a live lease exists; the error names its
      holder and the table is unchanged. On success the entry becomes the
      new lease, replacing any expired one. */
  lemma AcquireOutcome(t: Table, r: int, task: string, now: int, expire: int)
    ensures AcquireStep(t, r, task, now, expire).0.Some? <==> r in t && now < t[r].expiresAt
    ensures AcquireStep(t, r, task, now, expire).0.Some? ==>
      AcquireStep(t, r, task, now, expire) == (Some(LockedError(r, t[r].taskId)), t)
    ensures AcquireStep(t, r, task, now, expire).0.None? ==>
      AcquireStep(t, r, task, now, expire).1[r] == LockStatus(r, task, "running", now, now + expire)
  {
  }

  /** Acquire on `r` leaves every other resource's entry as it was. */
  lemma AcquireKeepsOthers(t: Table, r: int, task: string, now: int, expire: int, other: int)
    requires other != r
    ensures other in AcquireStep(t, r, task, now, expire).1 <==> other in t
    ensures other in t ==> AcquireStep(t, r, task, now, expire).1[other] == t[other]
  {
  }

  /** Mutual exclusion: while the lease of a successful Acquire runs, every
      other Acquire on the resource fails naming the first holder; once it has
      run out, the next Acquire succeeds and takes the lease over. */
  lemma LeaseExclusive(t: Table, r: int, a: string, b: string, now: int, later: int, expire: int)
    requires AcquireStep(t, r, a, now, expire).0 == None
    requires now <= later
    ensures var t1 := AcquireStep(t, r, a, now, expire).1;
      if later < now + expire then AcquireStep(t1, r, b, later, expire) == (Some(LockedError(r, a)), t1)
      else AcquireStep(t1, r, b, later, expire).0 == None && AcquireStep(t1, r, b, later, expire).1[r].taskId == b
  {
  }

  /** Release is idempotent, and after it the resource can be taken again. */
  lemma ReleaseThenAcquire(t: Table, r: int, task: string, now: int, expire: int)
    ensures (t - {r}) - {r} == t - {r}
    ensures !Held(t - {r}, r, now)
    ensures AcquireStep(t - {r}, r, task, now, expire).0 == None
  {
  }

  /** The scenarios of the locker's tests, with a 5-second lease: task-2 is
      refused while task-1 holds resource 1, a different resource is free,
      and task-2 gets resource 1 after a release or after the lease ran out. */
  method Scenario() returns (first: Option<string>, second: Option<string>, other: Option<string>,
                              afterRelease: Option<string>, afterExpiry: Option<string>)
    ensures first == None && other == None
    ensures second == Some(LockedError(1, "task-1"))
    ensures afterRelease == None && afterExpiry == None
  {
    var locker := new MemoryLocker(Some(Config(LockTypeMemory, 5 * Second)));
    first := locker.Acquire(1, "task-1", 0);
    second := locker.Acquire(1, "task-2", Second);
    other := locker.Acquire(2, "task-3", Second);
    var _ := locker.Release(1);
    afterRelease := locker.Acquire(1, "task-2", 2 * Second);
    afterExpiry := locker.Acquire(1, "task-4", 8 * Second);
  }
}
