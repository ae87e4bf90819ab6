/** The older lock DAO (pkg/dao/execution_lock.go) over the same
    `execution_lock` table. Its Acquire deletes only this resource's expired
    row and then inserts; the unique index on `resource_id`
    (pkg/model/execution_lock.go:8) is what refuses a second lease. */
module LockDao {
  import opened Wrappers
  import opened Lock

  /** gorm's error for a query that finds no row. */
  const RecordNotFound: string := "record not found"

  /** The driver's error for an insert that breaks the unique index on
      `execution_lock.resource_id`. The real text depends on the driver. */
  const DuplicateResource: string := "duplicate key value violates unique index execution_lock.resource_id"

  /** The expiry the DAO keeps: zero means 30 minutes, anything else is kept. */
  function EffectiveExpire(expireTime: int): (e: int)
    ensures expireTime == 0 ==> e == 30 * Minute
    ensures expireTime != 0 ==> e == expireTime
  {
    if expireTime == 0 then 30 * Minute else expireTime
  }

  /** Delete this resource's row if it expired before `now`. */
  function PurgeResource(t: Table, r: int, now: int): (p: Table)
    ensures r in p <==> r in t && t[r].expiresAt >= now
    ensures forall k :: k != r ==> (k in p <==> k in t)
    ensures forall k :: k in p ==> p[k] == t[k]
  {
    if r in t && t[r].expiresAt < now then t - {r} else t
  }

  /** Acquire as a step on the table: the purge, then the insert, which the
      unique index refuses while a row for `r` remains. */
  function AcquireStep(t: Table, r: int, task: string, now: int, expire: int): (Option<string>, Table) {
    var p := PurgeResource(t, r, now);
    if r in p then (Some(DuplicateResource), p) else (None, p[r := NewLease(r, task, now, expire)])
  }

  /** The rows with `expires_at < now` deleted, across all resources. */
  function CleanExpiredStep(t: Table, now: int): (p: Table)
    ensures forall k :: k in p <==> k in t && t[k].expiresAt >= now
    ensures forall k :: k in p ==> p[k] == t[k]
  {
    map k | k in t && t[k].expiresAt >= now :: t[k]
  }

  /** The table after an update of the status of `r`'s row; updating no
      row is no error. */
  function SetStatus(t: Table, r: int, status: string): Table {
    if r in t then t[r := t[r].(status := status)] else t
  }

  /** The table after an update of the expiry of `r`'s row. */
  function SetExpiry(t: Table, r: int, expiresAt: int): Table {
    if r in t then t[r := t[r].(expiresAt := expiresAt)] else t
  }

  class ExecutionLockDao {
    var rows: Table
    const expireTime: int

    /** NewExecutionLockDAO: an expiry time of zero means 30 minutes. */
    constructor (rows: Table, expireTime: int)
      ensures this.expireTime == EffectiveExpire(expireTime) && this.rows == rows
    {
      this.expireTime := EffectiveExpire(expireTime);
      this.rows := rows;
    }

    method Acquire(r: int, task: string, now: int) returns (err: Option<string>)
      modifies this`rows
      ensures (err, rows) == AcquireStep(old(rows), r, task, now, expireTime)
    {
      if r in rows && rows[r].expiresAt < now {
        rows := rows - {r};
      }
      if r in rows {
        return Some(DuplicateResource);
      }
      rows := rows[r := NewLease(r, task, now, expireTime)];
      err := None;
    }

    method Release(r: int) returns (err: Option<string>)
      modifies this`rows
      ensures err == None && rows == old(rows) - {r}
    {
      rows := rows - {r};
      err := None;
    }

    /** The row of `r`, or gorm's not-found error. */
    method Get(r: int) returns (res: Result<LockStatus>)
      ensures res.Ok? <==> r in rows
      ensures res.Ok? ==> res.value == rows[r]
      ensures res.Err? ==> res.error == RecordNotFound
    {
      if r in rows {
        res := Ok(rows[r]);
      } else {
        res := Err(RecordNotFound);
      }
    }

    method IsLocked(r: int, now: int) returns (b: bool)
      ensures b <==> Held(rows, r, now)
    {
      b := r in rows && rows[r].expiresAt > now;
    }

    /** Sets the status of the row of `r` and nothing else. */
    method UpdateStatus(r: int, status: string) returns (err: Option<string>)
      modifies this`rows
      ensures err == None
      ensures rows == SetStatus(old(rows), r, status)
    {
      if r in rows {
        rows := rows[r := rows[r].(status := status)];
      }
      err := None;
    }

    /** Moves the expiry of the row of `r` to `now` plus the DAO's expiry
        time and changes nothing else. */
    method Extend(r: int, now: int) returns (err: Option<string>)
      modifies this`rows
      ensures err == None
      ensures rows == SetExpiry(old(rows), r, now + expireTime)
    {
      if r in rows {
        rows := rows[r := rows[r].(expiresAt := now + expireTime)];
      }
      err := None;
    }

    method CleanExpired(now: int) returns (err: Option<string>)
      modifies this`rows
      ensures err == None && rows == CleanExpiredStep(old(rows), now)
    {
      rows := map k | k in rows && rows[k].expiresAt >= now :: rows[k];
      err := None;
    }
  }

  /** Acquire fails exactly when a row for `r` survives the purge, that is
      when `expires_at >= now`; other resources' rows, expired or not, are
      never touched; a successful Acquire stores the new lease. */
  lemma AcquireOutcome(t: Table, r: int, task: string, now: int, expire: int)
    ensures AcquireStep(t, r, task, now, expire).0.Some? <==> r in t && t[r].expiresAt >= now
    ensures AcquireStep(t, r, task, now, expire).0.None? ==>
      AcquireStep(t, r, task, now, expire).1[r] == LockStatus(r, task, "running", now, now + expire)
    ensures forall k :: k != r ==> (k in AcquireStep(t, r, task, now, expire).1 <==> k in t)
    ensures forall k :: k != r && k in t ==> AcquireStep(t, r, task, now, expire).1[k] == t[k]
  {
  }

  /** Unlike the lockers, the DAO refuses a resource whose lease ends exactly
      at `now`, although IsLocked already reports it as free. */
  lemma RefusesAtExpiryInstant(r: int, a: string, b: string, now: int, expire: int)
    ensures var t := map[r := NewLease(r, a, now - expire, expire)];
      !(r in t && t[r].expiresAt > now) && AcquireStep(t, r, b, now, expire).0 == Some(DuplicateResource)
  {
  }

  /** UpdateStatus changes only the status of the row, Extend only its expiry. */
  lemma UpdatesTouchOneField(t: Table, r: int, status: string, now: int, expire: int)
    ensures SetStatus(t, r, status).Keys == t.Keys && SetExpiry(t, r, now + expire).Keys == t.Keys
    ensures forall k :: k in t && k != r ==> SetStatus(t, r, status)[k] == t[k] && SetExpiry(t, r, now + expire)[k] == t[k]
    ensures r in t ==> var u := SetStatus(t, r, status)[r];
      u.status == status && u.(status := t[r].status) == t[r]
    ensures r in t ==> var u := SetExpiry(t, r, now + expire)[r];
      u.expiresAt == now + expire && u.(expiresAt := t[r].expiresAt) == t[r]
  {
  }
}
