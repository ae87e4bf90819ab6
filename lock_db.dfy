/** The row-table locker (pkg/executor/lock/db.go) over the
    `execution_lock` table, whose `resource_id` column is unique
    (pkg/model/execution_lock.go:8); the table is therefore a map from
    resource ID to its row. A row is live while `expires_at > now`. */
module DbLock {
  import opened Wrappers
  import opened Lock
  import MemoryLock

  /** The first statement of Acquire: delete every row, of any resource,
      with `expires_at < now`. */
  function PurgeExpired(t: Table, now: int): (p: Table)
    ensures forall k :: k in p <==> k in t && !(t[k].expiresAt < now)
    ensures forall k :: k in p ==> p[k] == t[k]
  {
    map k | k in t && !(t[k].expiresAt < now) :: t[k]
  }

  /** Acquire as a step on the table: purge, refuse when a live row remains,
      otherwise upsert the new lease by resource ID. The purge stands even
      when Acquire is refused. */
  function AcquireStep(t: Table, r: int, task: string, now: int, expire: int): (Option<string>, Table) {
    var p := PurgeExpired(t, now);
    if Held(p, r, now) then (Some(LockedError(r, p[r].taskId)), p)
    else (None, p[r := NewLease(r, task, now, expire)])
  }

  class DbLocker {
    var rows: Table
    const config: Config

    /** NewDBLocker: a nil config means the default 30-minute lease. The
        schema migration has no effect on the rows. */
    constructor (rows: Table, config: Option<Config>)
      ensures this.config == ResolveConfig(config) && this.rows == rows
    {
      this.config := ResolveConfig(config);
      this.rows := rows;
    }

    method Acquire(r: int, task: string, now: int) returns (err: Option<string>)
      modifies this`rows
      ensures (err, rows) == AcquireStep(old(rows), r, task, now, config.expireTime)
    {
      rows := PurgeExpired(rows, now);
      if r in rows && rows[r].expiresAt > now {
        return Some(LockedError(r, rows[r].taskId));
      }
      rows := rows[r := NewLease(r, task, now, config.expireTime)];
      err := None;
    }

    /** Deletes the rows of `r`; deleting nothing is no error. */
    method Release(r: int) returns (err: Option<string>)
      modifies this`rows
      ensures err == None && rows == old(rows) - {r}
    {
      rows := rows - {r};
      err := None;
    }

    /** A snapshot of the row, with no expiry filter; no row is no lock and
        no error. */
    method GetStatus(r: int) returns (s: Option<LockStatus>, err: Option<string>)
      ensures err == None
      ensures s.Some? <==> r in rows
      ensures s.Some? ==> s.value == rows[r]
    {
      if r in rows {
        var row := rows[r];
        s := Some(LockStatus(row.resourceId, row.taskId, row.status, row.lockedAt, row.expiresAt));
      } else {
        s := None;
      }
      err := None;
    }

    method IsLocked(r: int, now: int) returns (b: bool)
      ensures b <==> Held(rows, r, now)
    {
      b := r in rows && rows[r].expiresAt > now;
    }
  }

  /** Acquire fails exactly when a live row for `r` exists, naming its holder.
      On success exactly one row for `r` exists afterwards and it is the new
      lease, even when a row expiring exactly at `now` was present. */
  lemma AcquireOutcome(t: Table, r: int, task: string, now: int, expire: int)
    ensures AcquireStep(t, r, task, now, expire).0.Some? <==> r in t && t[r].expiresAt > now
    ensures AcquireStep(t, r, task, now, expire).0.Some? ==>
      AcquireStep(t, r, task, now, expire).0 == Some(LockedError(r, t[r].taskId))
    ensures AcquireStep(t, r, task, now, expire).0.None? ==>
      AcquireStep(t, r, task, now, expire).1[r] == LockStatus(r, task, "running", now, now + expire)
  {
  }

  /** Every other resource keeps its row unless that row had expired before
      `now`, in which case Acquire has deleted it. */
  lemma AcquireOthers(t: Table, r: int, task: string, now: int, expire: int, other: int)
    requires other != r
    ensures other in AcquireStep(t, r, task, now, expire).1 <==> other in t && t[other].expiresAt >= now
    ensures other in AcquireStep(t, r, task, now, expire).1 ==>
      AcquireStep(t, r, task, now, expire).1[other] == t[other]
  {
  }

  /** Against the same table, the row-table locker admits and refuses exactly
      as the in-memory locker does, names the same holder, and grants the
      same lease. */
  lemma AgreesWithMemory(t: Table, r: int, task: string, now: int, expire: int)
    ensures AcquireStep(t, r, task, now, expire).0 == MemoryLock.AcquireStep(t, r, task, now, expire).0
    ensures AcquireStep(t, r, task, now, expire).0.None? ==>
      AcquireStep(t, r, task, now, expire).1[r] == MemoryLock.AcquireStep(t, r, task, now, expire).1[r]
  {
  }

  /** Mutual exclusion over the rows: while a granted lease runs every other
      Acquire on the resource is refused naming the holder, and afterwards
      the resource can be taken over. */
  lemma LeaseExclusive(t: Table, r: int, a: string, b: string, now: int, later: int, expire: int)
    requires AcquireStep(t, r, a, now, expire).0 == None
    requires now <= later
    ensures var t1 := AcquireStep(t, r, a, now, expire).1;
      if later < now + expire then AcquireStep(t1, r, b, later, expire).0 == Some(LockedError(r, a))
      else AcquireStep(t1, r, b, later, expire).0 == None && AcquireStep(t1, r, b, later, expire).1[r].taskId == b
  {
    var t1 := AcquireStep(t, r, a, now, expire).1;
    var p := PurgeExpired(t1, later);
    if later < now + expire {
      assert r in p;
    }
  }
}
