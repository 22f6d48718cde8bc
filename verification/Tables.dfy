/** The workspace tables of crates/common/migrations/workspace_v1.sql, together with the
    pg_cron entries of the workspace, and the row updates of crates/common/src/db. */
module Tables {
  import opened Wrappers

  type JobId = nat
  type ExecutionId = nat

  datatype Trigger = Immediate | Delayed | Cron

  datatype JobStatus = Active | Retired

  datatype Job = Job(
    endpoint: string,
    internal: bool,
    trigger: Trigger,
    status: JobStatus,
    version: int,
    previous: Option<JobId>,
    replacedBy: Option<JobId>,
    key: Option<string>,
    startsAt: Option<int>,
    endsAt: Option<int>)

  datatype Status = Pending | Queued | Running | Retrying | Succeeded | Failed | Cancelled

  /** A client's idempotency key, or the millisecond of a cron tick. */
  datatype ExecutionKey = Given(key: string) | TickAt(millisecond: int)

  datatype Execution = Execution(
    job: JobId,
    key: ExecutionKey,
    internal: bool,
    status: Status,
    attempts: int,
    limit: int,
    runAt: int)

  /** The unique key of the attempts table. */
  datatype Attempt = Attempt(execution: ExecutionId, number: int)

  /** Rows by primary key; an attempt row carries whether it succeeded.  `schedule` holds the
      pg_cron entries: a key mapped to false has no entry. */
  datatype Tables = Tables(
    jobs: map<JobId, Job>,
    executions: map<ExecutionId, Execution>,
    attempts: map<Attempt, bool>,
    schedule: map<JobId, bool>)

  const NOTHING := Tables(map[], map[], map[], map[])

  /** What a transaction sees: its own writes laid over the committed rows. */
  function Over(base: Tables, writes: Tables): Tables {
    Tables(base.jobs + writes.jobs, base.executions + writes.executions,
           base.attempts + writes.attempts, base.schedule + writes.schedule)
  }

  predicate Scheduled(t: Tables, job: JobId) {
    job in t.schedule && t.schedule[job]
  }

  /** The statuses `claim` selects. */
  predicate Claimable(s: Status) {
    s == Queued || s == Retrying || s == Pending
  }

  /** The statuses `cancel` and `cancel_pending_for_job` update. */
  predicate Cancellable(s: Status) {
    s == Pending || s == Queued
  }

  predicate Terminal(s: Status) {
    s == Succeeded || s == Failed || s == Cancelled
  }

  // Row updates.  Each completion is guarded by `status = 'RUNNING'`.

  function Claimed(row: Execution): Execution {
    row.(status := Running, attempts := row.attempts + 1)
  }

  function CompleteSuccess(row: Execution): Execution {
    if row.status == Running then row.(status := Succeeded) else row
  }

  function CompleteFailed(row: Execution): Execution {
    if row.status == Running then row.(status := Failed) else row
  }

  function CompleteRetry(row: Execution, runAt: int): Execution {
    if row.status != Running then row
    else if row.attempts >= row.limit then row.(status := Failed)
    else row.(status := Retrying, runAt := runAt)
  }

  function Cancel(row: Execution): Execution {
    if Cancellable(row.status) then row.(status := Cancelled) else row
  }

  /** `jobs::cancel` */
  function Retire(row: Job): Job {
    if row.status == Active then row.(status := Retired) else row
  }

  /** The first statement of `retire_and_replace`.  The row passed in is a copy of the old
      one, so the link it stores is the old job's own id. */
  function RetireReplaced(row: Job, job: JobId): Job {
    if row.status == Active then row.(status := Retired, replacedBy := Some(job)) else row
  }

  /** The rows `retire_expired_cron_jobs` selects. */
  predicate Expired(row: Job, now: int) {
    row.trigger == Cron && row.status == Active && row.endsAt.Some? && row.endsAt.value <= now
  }

  /** Rows that would collide in the unique index on endpoint and idempotency key. */
  predicate SameKey(a: Job, b: Job) {
    a.key.Some? && a.key == b.key && a.endpoint == b.endpoint
  }
}
