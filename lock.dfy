/** The lock package's shared vocabulary (pkg/executor/lock/locker.go): the
    lease record, the locker configuration and its default. Every locker keeps
    at most one lease per resource, so a lock table is a map from resource ID
    to its lease. Times are integers in nanoseconds. */
module Lock {
  import opened Wrappers
  import Text

  const Millisecond: int := 1_000_000
  const Second: int := 1_000 * Millisecond
  const Minute: int := 60 * Second

  datatype LockType = LockTypeMemory | LockTypeDB

  datatype Config = Config(lockType: LockType, expireTime: int)

  datatype LockStatus = LockStatus(
    resourceId: int,
    taskId: string,
    status: string,    // running/completed/failed
    lockedAt: int,
    expiresAt: int)

  type Table = map<int, LockStatus>

  /** A memory locker with a 30-minute lease. */
  function DefaultConfig(): (c: Config)
    ensures c.lockType == LockTypeMemory && c.expireTime == 30 * Minute
  {
    Config(LockTypeMemory, 30 * Minute)
  }

  /** The configuration a locker constructor keeps: a nil config falls back
      to the default, any other is kept as given (even a zero lease). */
  function ResolveConfig(config: Option<Config>): (c: Config)
    ensures config.None? ==> c.expireTime == 30 * Minute
    ensures config.Some? ==> c == config.value
  {
    config.GetOr(DefaultConfig())
  }

  /** The lease a successful Acquire stores. */
  function NewLease(resourceId: int, taskId: string, now: int, expire: int): (l: LockStatus)
    ensures l.resourceId == resourceId && l.taskId == taskId && l.status == "running"
    ensures l.lockedAt == now && l.expiresAt - l.lockedAt == expire
  {
    LockStatus(resourceId, taskId, "running", now, now + expire)
  }

  /** Whether the table holds a live lease on `r` at `now`: one that expires
      after `now`. Every IsLocked of the package answers this. */
  predicate Held(t: Table, r: int, now: int) {
    r in t && now < t[r].expiresAt
  }

  /** The error an Acquire on a held resource returns, naming the holder. */
  function LockedError(resourceId: int, holder: string): string {
    "resource " + Text.IntToString(resourceId) + " is locked by task " + holder
  }

  /** The table with `r` removed and every other entry kept. */
  lemma RemoveKeepsOthers(t: Table, r: int)
    ensures r !in t - {r}
    ensures forall k :: k != r ==> (k in t - {r} <==> k in t)
    ensures forall k :: k in t && k != r ==> (t - {r})[k] == t[k]
  {
  }
}
