/** What every reachable state satisfies: the committed tables, each open transaction, and how
    open transactions keep out of each other's way. */
module Invariant {
  import opened Basics
  import opened Tables
  import opened Protocol

  // The committed tables

  /** The number of attempts the attempts table holds for an execution. */
  function Recorded(row: Execution, unloaded: bool): int {
    if unloaded then row.attempts - 1 else row.attempts
  }

  predicate RowOk(row: Execution) {
    match row.status
    case Running => false
    case Retrying => 1 <= row.attempts < row.limit
    case Succeeded => 1 <= row.attempts <= Max(1, row.limit)
    case Failed => 1 <= row.attempts <= Max(1, row.limit)
    case _ => row.attempts == 0
  }

  ghost predicate Ledger(attempts: map<Attempt, bool>, x: ExecutionId, row: Execution, unloaded: bool) {
    && (unloaded ==> row.status == Failed)
    && (forall n: int :: Attempt(x, n) in attempts <==> 1 <= n <= Recorded(row, unloaded))
    && (forall n: int :: Attempt(x, n) in attempts ==>
          (attempts[Attempt(x, n)] <==> row.status == Succeeded && n == row.attempts))
  }

  ghost predicate ExecutionOk(db: Tables, unloaded: set<ExecutionId>, x: ExecutionId)
    requires x in db.executions
  {
    && db.executions[x].job in db.jobs
    && RowOk(db.executions[x])
    && Ledger(db.attempts, x, db.executions[x], x in unloaded)
  }

  ghost predicate ChainOk(jobs: map<JobId, Job>, row: Job) {
    match row.previous
    case None => row.version == 1
    case Some(p) =>
      p in jobs && jobs[p].status == Retired && jobs[p].trigger == Cron && row.version == jobs[p].version + 1 > 1
  }

  ghost predicate JobOk(db: Tables, j: JobId)
    requires j in db.jobs
  {
    var row := db.jobs[j];
    && (Scheduled(db, j) <==> row.status == Active && row.trigger == Cron)
    && ChainOk(db.jobs, row)
    && (row.replacedBy.Some? ==> row.replacedBy.value == j && row.status == Retired)
    && (row.internal && row.trigger == Cron && row.endsAt.None? ==> row.status == Active)
    && (row.trigger != Cron ==> row.key.Some?)
  }

  ghost predicate JobsOk(db: Tables) {
    && (forall j <- db.jobs :: JobOk(db, j))
    && (forall j: JobId :: Scheduled(db, j) ==> j in db.jobs)
  }

  ghost predicate ExecutionsOk(db: Tables, unloaded: set<ExecutionId>) {
    && (forall x <- db.executions :: ExecutionOk(db, unloaded, x))
    && (forall a <- db.attempts :: a.execution in db.executions)
    && unloaded <= db.executions.Keys
  }

  ghost predicate KeysOk(jobs: map<JobId, Job>) {
    forall i <- jobs, j <- jobs :: i != j ==> !SameKey(jobs[i], jobs[j])
  }

  predicate Collide(a: Execution, b: Execution, jobs: map<JobId, Job>) {
    a.job == b.job && a.job in jobs && (jobs[a.job].trigger != Cron || a.key == b.key)
  }

  /** One execution per one-shot job, and one per tick of a CRON job. */
  ghost predicate DistinctOk(db: Tables) {
    forall x <- db.executions, y <- db.executions :: x != y ==> !Collide(db.executions[x], db.executions[y], db.jobs)
  }

  ghost predicate HasExecution(executions: map<ExecutionId, Execution>, j: JobId) {
    exists x <- executions :: executions[x].job == j
  }

  ghost predicate OneShotOk(db: Tables, bare: map<JobId, Request>) {
    && (forall j <- db.jobs :: db.jobs[j].trigger != Cron ==> j in bare || HasExecution(db.executions, j))
    && (forall j <- bare :: j in db.jobs && db.jobs[j].trigger != Cron && bare[j].key.Some? && !HasExecution(db.executions, j))
  }

  /** A retired one-shot job has nothing left to claim for the first time. */
  predicate Settled(row: Execution, jobs: map<JobId, Job>, late: set<JobId>) {
    Cancellable(row.status) && row.job in jobs && jobs[row.job].trigger != Cron && jobs[row.job].status == Retired
    ==> row.job in late
  }

  ghost predicate SettledOk(db: Tables, late: set<JobId>) {
    forall x <- db.executions :: Settled(db.executions[x], db.jobs, late)
  }

  ghost predicate DbOk(s: State) {
    && JobsOk(s.db)
    && ExecutionsOk(s.db, s.unloaded)
    && KeysOk(s.db.jobs)
    && DistinctOk(s.db)
    && OneShotOk(s.db, s.bare)
    && SettledOk(s.db, s.late)
  }

  // Open transactions

  /** How a claimed row comes out of an attempt that made its call: a failed call is tried
      again exactly while attempts are left. */
  predicate Outcome(row: Execution, out: Execution, delivered: bool) {
    out == if delivered then row.(status := Succeeded, attempts := row.attempts + 1)
           else if row.attempts + 1 < row.limit then row.(status := Retrying, attempts := row.attempts + 1, runAt := out.runAt)
           else row.(status := Failed, attempts := row.attempts + 1)
  }

  /** How it comes out of an attempt that could not make its call: there is no other. */
  predicate GivenUp(row: Execution, out: Execution) {
    out == row.(status := Failed, attempts := row.attempts + 1)
  }

  predicate Ended(row: Execution, out: Execution, a: Attempt, ending: Ending, attempts: map<Attempt, bool>) {
    match ending
    case Unloaded => attempts == map[] && GivenUp(row, out)
    case Rejected => attempts == map[a := false] && GivenUp(row, out)
    case Called => attempts.Keys == {a} && Outcome(row, out, attempts[a])
  }

  /** What a worker has written to the row it claimed and to the attempts table. */
  ghost predicate WorkerRows(row: Execution, x: ExecutionId, at: WorkerPoint, w: Tables)
    requires w.executions.Keys == {x}
  {
    var out := w.executions[x];
    var a := Attempt(x, row.attempts + 1);
    match at
    case GiveUp => true
    case RecordRejected => w.attempts == map[] && GivenUp(row, out)
    case Complete(delivered) => w.attempts == map[a := delivered] && out == Claimed(row)
    case LogOutcome(ending) => Ended(row, out, a, ending, w.attempts)
    case Finish(ending) => Ended(row, out, a, ending, w.attempts)
    case _ => w.attempts == map[] && out == Claimed(row)
  }

  /** What a sweep has written: retired rows, and which of their entries are gone. */
  ghost predicate Reaped(db: Tables, w: Tables, began: int) {
    forall j <- w.jobs :: j in db.jobs && Expired(db.jobs[j], began) && w.jobs[j] == Retire(db.jobs[j])
  }

  ghost predicate Unlisted(w: Tables, entries: set<JobId>) {
    && w.schedule.Keys == w.jobs.Keys - entries
    && forall j <- w.schedule :: !w.schedule[j]
  }

  ghost predicate SweepAt(at: WorkerPoint, w: Tables) {
    match at
    case ReapRows(_, retired) => retired == w.jobs.Keys && w.schedule == map[]
    case Unschedule(entries) => entries <= w.jobs.Keys && Unlisted(w, entries)
    case RecordAttempt(_) => Unlisted(w, {})
    case Complete(_) => Unlisted(w, {})
    case LogOutcome(_) => Unlisted(w, {})
    case Finish(_) => Unlisted(w, {})
    case _ => w.jobs == map[] && w.schedule == map[]
  }

  ghost predicate WorkerOk(s: State, tx: Tx)
    requires tx.program.Worker?
  {
    var p := tx.program;
    && (tx.aborted ==> tx.writes == NOTHING)
    && (!tx.aborted ==>
          && tx.writes.executions.Keys == {p.execution}
          && p.execution in s.db.executions
          && var row := s.db.executions[p.execution];
             && Claimable(row.status) && row.attempts + 1 == p.attempt && row.limit == p.limit
             && WorkerRows(row, p.execution, p.at, tx.writes)
             && Reaped(s.db, tx.writes, tx.began) && SweepAt(p.at, tx.writes))
  }

  ghost predicate CreateOk(s: State, tx: Tx)
    requires tx.program.Create?
  {
    var r, w := tx.program.request, tx.writes;
    && !tx.aborted && !r.internal && (r.trigger != Cron ==> r.key.Some?)
    && match tx.program.step
       case InsertJob => w == NOTHING
       case InsertExecution(j) => r.trigger != Cron && j !in s.db.jobs && w == NOTHING.(jobs := map[j := NewJob(r)])
       case Register(j) => r.trigger == Cron && j !in s.db.jobs && w == NOTHING.(jobs := map[j := NewJob(r)])
       case CreateDone(j) =>
         && j !in s.db.jobs
         && if r.trigger == Cron then w == NOTHING.(jobs := map[j := NewJob(r)], schedule := map[j := true])
            else exists x: ExecutionId :: x !in s.db.executions && w == Created(r, j, x)
  }

  function Created(r: Request, j: JobId, x: ExecutionId): Tables
    requires r.key.Some?
  {
    NOTHING.(jobs := map[j := NewJob(r)], executions := map[x := NewExecution(r, j)])
  }

  /** The row an update was built from, as it may have changed since. */
  predicate Evolves(a: Job, b: Job) {
    && b == a.(status := b.status, replacedBy := b.replacedBy)
    && (a.status == Retired ==> b == a)
  }

  /** What the first statement of an update writes. */
  function RetiredPrior(db: Tables, p: JobId): map<JobId, Job> {
    if p in db.jobs && db.jobs[p].status == Active then map[p := RetireReplaced(db.jobs[p], p)] else map[]
  }

  function UnlistedPrior(db: Tables, p: JobId): map<JobId, bool> {
    if p in db.jobs && db.jobs[p].status == Active then map[p := false] else map[]
  }

  ghost predicate UpdateOk(s: State, tx: Tx)
    requires tx.program.Update?
  {
    var p, w := tx.program, tx.writes;
    var retired, gone := RetiredPrior(s.db, p.prior), UnlistedPrior(s.db, p.prior);
    && !tx.aborted
    && p.prior in s.db.jobs && Evolves(p.seen, s.db.jobs[p.prior])
    && p.seen.trigger == Cron && !p.seen.internal
    && match p.phase
       case RetireOld => w == NOTHING
       case InsertNew => w == NOTHING.(jobs := retired)
       case UnregisterOld(n) => n !in s.db.jobs && w == NOTHING.(jobs := retired[n := NextVersion(p)])
       case RegisterNew(n) => n !in s.db.jobs && w == NOTHING.(jobs := retired[n := NextVersion(p)], schedule := gone)
       case UpdateDone(n) => n !in s.db.jobs && w == NOTHING.(jobs := retired[n := NextVersion(p)], schedule := gone[n := true])
  }

  /** Rows a cancel has written so far. */
  ghost predicate CancelledRows(db: Tables, executions: map<ExecutionId, Execution>, job: JobId) {
    forall x <- executions ::
      && x in db.executions && db.executions[x].job == job
      && Cancellable(db.executions[x].status) && executions[x] == Cancel(db.executions[x])
  }

  /** Every execution the cancel must reach is cancelled or still to be visited. */
  ghost predicate Covered(s: State, job: JobId, rows: set<ExecutionId>, w: Tables) {
    && (forall x <- s.db.executions :: s.db.executions[x].job == job && Cancellable(s.db.executions[x].status) ==>
          x in rows || x in w.executions || job in s.late)
  }

  ghost predicate CancelOk(s: State, tx: Tx)
    requires tx.program.CancelJob?
  {
    var p, w := tx.program, tx.writes;
    && !tx.aborted && w.attempts == map[]
    && (p.stage != ReadJob ==> p.target in s.db.jobs && s.db.jobs[p.target].trigger == p.trigger && !s.db.jobs[p.target].internal)
    && (p.trigger == Cron ==> w.executions == map[])
    && CancelledRows(s.db, w.executions, p.target)
    && match p.stage
       case ReadJob => w == NOTHING
       case SelectRows => w == NOTHING && p.trigger != Cron
       case CancelRows(rows) => p.trigger != Cron && w.jobs == map[] && w.schedule == map[] && Covered(s, p.target, rows, w)
       case RetireJob =>
         w.jobs == map[] && w.schedule == map[] && (p.trigger != Cron ==> Covered(s, p.target, {}, w))
       case UnregisterJob =>
         && p.trigger == Cron && s.db.jobs[p.target].status == Active
         && w.jobs == map[p.target := Retire(s.db.jobs[p.target])] && w.schedule == map[]
       case CancelDone =>
         && s.db.jobs[p.target].status == Active
         && w.jobs == map[p.target := Retire(s.db.jobs[p.target])]
         && if p.trigger == Cron then w.schedule == map[p.target := false]
            else w.schedule == map[] && Covered(s, p.target, {}, w)
  }

  ghost predicate LibraryOk(s: State, tx: Tx)
    requires tx.program.LibraryCancel?
  {
    var p, w := tx.program, tx.writes;
    && !tx.aborted && w == NOTHING.(executions := w.executions)
    && p.target in s.db.jobs && s.db.jobs[p.target].trigger != Cron
    && CancelledRows(s.db, w.executions, p.target)
    && match p.rest
       case LibrarySelect => w == NOTHING
       case LibraryRows(rows) => Covered(s, p.target, rows, w)
       case LibraryRetire => w == NOTHING && Covered(s, p.target, {}, w)
  }

  ghost predicate TxOk(s: State, tx: Tx) {
    match tx.program
    case Worker(_, _, _, _, _) => WorkerOk(s, tx)
    case Create(_, _) => CreateOk(s, tx)
    case Update(_, _, _, _, _) => UpdateOk(s, tx)
    case CancelJob(_, _, _) => CancelOk(s, tx)
    case LibraryCancel(_, _) => LibraryOk(s, tx)
  }

  /** Row locks: no two open transactions have written one row, or rows with one key. */
  ghost predicate Apart(a: Tables, b: Tables) {
    && a.jobs.Keys !! b.jobs.Keys
    && a.executions.Keys !! b.executions.Keys
    && (forall i <- a.jobs, j <- b.jobs :: !SameKey(a.jobs[i], b.jobs[j]))
  }

  ghost predicate Locked(txs: map<nat, Tx>) {
    forall t <- txs, u <- txs :: t != u ==> Apart(txs[t].writes, txs[u].writes)
  }

  /** Rows inserted by an open transaction do not collide with committed ones. */
  ghost predicate FreshKeys(db: Tables, w: Tables) {
    forall j <- w.jobs, i <- db.jobs :: i != j ==> !SameKey(w.jobs[j], db.jobs[i])
  }

  ghost predicate TxsOk(s: State) {
    forall t <- s.txs :: TxOk(s, s.txs[t]) && FreshKeys(s.db, s.txs[t].writes)
  }

  ghost predicate AnswersOk(s: State) {
    forall a <- s.answers :: a.job in s.db.jobs && s.db.jobs[a.job].endpoint == a.endpoint && s.db.jobs[a.job].key == a.key
  }

  ghost predicate Inv(s: State) {
    && DbOk(s) && TxsOk(s) && Locked(s.txs) && AnswersOk(s)
  }
}
