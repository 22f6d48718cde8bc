/** The service as a transition system: every worker, API handler, library call and cron tick
    is a transaction that advances one SQL statement at a time, interleaved with all others.
    Transactions run under PostgreSQL's READ COMMITTED isolation with row locks. */
module Protocol {
  import opened Wrappers
  import opened Tables

  /** Where `claim_and_process` and `process_execution` stand. */
  datatype WorkerPoint =
    | LoadJob
    | CompleteOrphan
    | LoadEndpoint
    | CompleteUnloaded(logs: bool)
    | LoadConfig
    | LoadSecrets
    | ResolveSpec
    | CompleteRejected
    | RecordRejected
    | LogDispatch
    | Dispatch
    | ReapRows(rows: set<JobId>, retired: set<JobId>)
    | Unschedule(entries: set<JobId>)
    | RecordAttempt(delivered: bool)
    | Complete(delivered: bool)
    | LogOutcome(ending: Ending)
    | Finish(ending: Ending)
    | GiveUp

  /** How an execution's attempt came to its end: without an endpoint, without a spec to
      send, or with a call. */
  datatype Ending = Unloaded | Rejected | Called

  datatype CreatePoint = InsertJob | InsertExecution(job: JobId) | Register(job: JobId) | CreateDone(job: JobId)

  datatype UpdatePoint =
    | RetireOld
    | InsertNew
    | UnregisterOld(next: JobId)
    | RegisterNew(next: JobId)
    | UpdateDone(next: JobId)

  datatype CancelPoint =
    | ReadJob
    | SelectRows
    | CancelRows(rows: set<ExecutionId>)
    | RetireJob
    | UnregisterJob
    | CancelDone

  datatype LibraryPoint = LibrarySelect | LibraryRows(rows: set<ExecutionId>) | LibraryRetire

  /** What a transaction is running. */
  datatype Program =
    | Worker(execution: ExecutionId, attempt: int, limit: int, internal: bool, at: WorkerPoint)
    | Create(request: Request, step: CreatePoint)
    | Update(prior: JobId, seen: Job, startsAt: Option<int>, endsAt: Option<int>, phase: UpdatePoint)
    | CancelJob(target: JobId, trigger: Trigger, stage: CancelPoint)
    | LibraryCancel(target: JobId, rest: LibraryPoint)

  /** A validated `POST /jobs` body. */
  datatype Request = Request(
    endpoint: string,
    internal: bool,
    trigger: Trigger,
    key: Option<string>,
    limit: int,
    runAt: int,
    startsAt: Option<int>,
    endsAt: Option<int>)

  /** A failed statement aborts the transaction: its writes and locks are gone at once, later
      statements fail too, and a commit only ends it. */
  datatype Tx = Tx(program: Program, writes: Tables, aborted: bool, began: int)

  /** What a client was told: the job its request led to. */
  datatype Answer = Answer(endpoint: string, key: Option<string>, job: JobId)

  /** `dispatches` logs the calls made to endpoints, which no rollback undoes, and `answers`
      what clients were told.  `unloaded` are the executions finalised without an endpoint,
      `uncalled` those finalised without a call, and `lost` the calls whose transaction was
      rolled back.
      `bare` are the jobs the library has inserted without their execution yet, and `late`
      those whose execution came when a cancel had already looked for it. */
  datatype State = State(
    db: Tables,
    txs: map<nat, Tx>,
    now: int,
    dispatches: seq<ExecutionId>,
    answers: set<Answer>,
    unloaded: set<ExecutionId>,
    uncalled: set<ExecutionId>,
    lost: seq<ExecutionId>,
    bare: map<JobId, Request>,
    late: set<JobId>)

  /** What the database or an endpoint answers to one statement. */
  datatype Reply =
    | Ok
    | Missing
    | Undecodable
    | SqlError
    | Delivered(ok: bool)
    | Sweep
    | Backoff(ms: int)
    | Row(id: nat)

  datatype Event =
    | Wait(until: int)
    | Claim(tx: nat, execution: ExecutionId)
    | Begin(tx: nat, program: Program)
    | Statement(tx: nat, reply: Reply)
    | Commit(tx: nat)
    | Vanish(tx: nat)
    | Tick(job: JobId, execution: ExecutionId, limit: int)
    | CancelExecution(execution: ExecutionId)
    | LibraryJob(request: Request, job: JobId)
    | LibraryExecution(job: JobId, execution: ExecutionId)
    | AnswerExisting(endpoint: string, key: string, job: JobId)

  // New rows

  function NewJob(r: Request): Job {
    Job(r.endpoint, r.internal, r.trigger, Active, 1, None, None, r.key, r.startsAt, r.endsAt)
  }

  function NewExecution(r: Request, job: JobId): Execution
    requires r.key.Some?
  {
    Execution(job, Given(r.key.value), r.internal, if r.trigger == Immediate then Queued else Pending, 0, r.limit, r.runAt)
  }

  function Or<T>(a: Option<T>, b: Option<T>): Option<T> {
    if a.Some? then a else b
  }

  /** The row `update` inserts: built from the job as it was read before the transaction. */
  function NextVersion(p: Program): Job
    requires p.Update?
  {
    Job(p.seen.endpoint, p.seen.internal, Cron, Active, p.seen.version + 1, Some(p.prior), None, None,
        Or(p.startsAt, p.seen.startsAt), Or(p.endsAt, p.seen.endsAt))
  }

  // Statements

  /** The effect of one SQL statement on the transaction that runs it. */
  function Sql(tx: Tx, reply: Reply, writes: Tables): Tx {
    if tx.aborted || reply == SqlError then tx.(aborted := true, writes := NOTHING)
    else tx.(writes := writes)
  }

  function SetExecution(w: Tables, x: ExecutionId, row: Execution): Tables {
    w.(executions := w.executions[x := row])
  }

  function SetJob(w: Tables, j: JobId, row: Job): Tables {
    w.(jobs := w.jobs[j := row])
  }

  /** `register_pg_cron_conn` */
  function Schedule(w: Tables, j: JobId): Tables {
    w.(schedule := w.schedule[j := true])
  }

  /** `unregister_pg_cron_conn`: an absent entry is a no-op. */
  function Unscheduled(db: Tables, w: Tables, j: JobId): Tables {
    if Scheduled(Over(db, w), j) then w.(schedule := w.schedule[j := false]) else w
  }

  function Goto(tx: Tx, at: WorkerPoint): Tx
    requires tx.program.Worker?
  {
    tx.(program := tx.program.(at := at))
  }

  /** A completion of the claimed row by `outcome`, where the row is still visible. */
  function Completed(tx: Tx, reply: Reply, outcome: Execution -> Execution): (r: Tx)
    requires tx.program.Worker?
    ensures r.program == tx.program
  {
    var x := tx.program.execution;
    Sql(tx, reply, if x in tx.writes.executions then SetExecution(tx.writes, x, outcome(tx.writes.executions[x])) else tx.writes)
  }

  function AttemptAdded(tx: Tx, reply: Reply, ok: bool): (r: Tx)
    requires tx.program.Worker?
    ensures r.program == tx.program
  {
    var a := Attempt(tx.program.execution, tx.program.attempt);
    Sql(tx, reply, tx.writes.(attempts := tx.writes.attempts[a := ok]))
  }

  /** The worker's control flow, one statement at a time. */
  function WorkerStep(db: Tables, tx: Tx, reply: Reply): (r: Tx)
    requires tx.program.Worker?
    ensures r.program.Worker? && r.program == tx.program.(at := r.program.at) && r.began == tx.began
  {
    var p := tx.program;
    match p.at
    case LoadJob =>
      if reply.Missing? then Goto(tx, GiveUp)
      else if reply.Undecodable? then Goto(tx, CompleteOrphan)
      else
        var tx' := Sql(tx, reply, tx.writes);
        Goto(tx', if tx'.aborted then CompleteOrphan else LoadEndpoint)
    case CompleteOrphan =>
      Goto(Completed(tx, reply, CompleteFailed), GiveUp)
    case LoadEndpoint =>
      if reply.Missing? then Goto(tx, CompleteUnloaded(true))
      else if reply.Undecodable? then Goto(tx, CompleteUnloaded(false))
      else
        var tx' := Sql(tx, reply, tx.writes);
        Goto(tx', if tx'.aborted then CompleteUnloaded(false) else LoadConfig)
    case CompleteUnloaded(logs) =>
      Goto(Completed(tx, reply, CompleteFailed), if logs then LogOutcome(Unloaded) else Finish(Unloaded))
    case LoadConfig =>
      if reply.Missing? || reply.Undecodable? then Goto(tx, CompleteRejected)
      else
        var tx' := Sql(tx, reply, tx.writes);
        Goto(tx', if tx'.aborted then CompleteRejected else LoadSecrets)
    case LoadSecrets =>
      if reply.Missing? || reply.Undecodable? then Goto(tx, CompleteRejected)
      else
        var tx' := Sql(tx, reply, tx.writes);
        Goto(tx', if tx'.aborted then CompleteRejected else ResolveSpec)
    case ResolveSpec =>
      Goto(tx, if reply.Missing? then CompleteRejected else LogDispatch)
    case CompleteRejected =>
      Goto(Completed(tx, reply, CompleteFailed), RecordRejected)
    case RecordRejected =>
      Goto(AttemptAdded(tx, reply, false), LogOutcome(Rejected))
    case LogDispatch =>
      Goto(Sql(tx, reply, tx.writes), Dispatch)
    case Dispatch =>
      if reply.Sweep? && p.internal then
        if tx.aborted then Goto(tx, RecordAttempt(false))
        else Goto(tx, ReapRows(set j | j in db.jobs && Expired(db.jobs[j], tx.began), {}))
      else
        Goto(tx, RecordAttempt(reply.Delivered? && reply.ok))
    case ReapRows(rows, retired) =>
      if reply.SqlError? then Goto(Sql(tx, reply, tx.writes), RecordAttempt(false))
      else if reply.Row? then
        if reply.id in db.jobs && Expired(db.jobs[reply.id], tx.began) then
          Goto(Sql(tx, reply, SetJob(tx.writes, reply.id, Retire(db.jobs[reply.id]))), ReapRows(rows - {reply.id}, retired + {reply.id}))
        else
          Goto(tx, ReapRows(rows - {reply.id}, retired))
      else
        Goto(tx, Unschedule(retired))
    case Unschedule(entries) =>
      if reply.SqlError? then Goto(Sql(tx, reply, tx.writes), RecordAttempt(false))
      else if reply.Row? then
        Goto(Sql(tx, reply, Unscheduled(db, tx.writes, reply.id)), Unschedule(entries - {reply.id}))
      else
        Goto(tx, RecordAttempt(true))
    case RecordAttempt(delivered) =>
      Goto(AttemptAdded(tx, reply, delivered), Complete(delivered))
    case Complete(delivered) =>
      Goto(Completed(tx, reply,
                     if delivered then CompleteSuccess
                     else if p.attempt < p.limit then
                       (row: Execution) => CompleteRetry(row, tx.began + if reply.Backoff? then reply.ms else 0)
                     else CompleteFailed),
           LogOutcome(Called))
    case LogOutcome(ending) =>
      Goto(Sql(tx, reply, tx.writes), Finish(ending))
    case Finish(_) => tx
    case GiveUp => tx
  }

  /** `create`: the job row, then its execution or its pg_cron entry. */
  function CreateStep(tx: Tx, reply: Reply): Tx
    requires tx.program.Create?
  {
    var p := tx.program;
    match p.step
    case InsertJob =>
      if !reply.Row? then tx
      else
        var next := if p.request.trigger == Cron then Register(reply.id) else InsertExecution(reply.id);
        tx.(program := p.(step := next), writes := SetJob(tx.writes, reply.id, NewJob(p.request)))
    case InsertExecution(j) =>
      if !reply.Row? || p.request.key.None? then tx
      else
        tx.(program := p.(step := CreateDone(j)),
            writes := SetExecution(tx.writes, reply.id, NewExecution(p.request, j)))
    case Register(j) =>
      tx.(program := p.(step := CreateDone(j)), writes := Schedule(tx.writes, j))
    case CreateDone(_) => tx
  }

  /** `update`: the number of rows the first statement matched is never looked at. */
  function UpdateStep(db: Tables, tx: Tx, reply: Reply): Tx
    requires tx.program.Update?
  {
    var p := tx.program;
    match p.phase
    case RetireOld =>
      tx.(program := p.(phase := InsertNew),
          writes := if p.prior in db.jobs && db.jobs[p.prior].status == Active
                    then SetJob(tx.writes, p.prior, RetireReplaced(db.jobs[p.prior], p.prior)) else tx.writes)
    case InsertNew =>
      if !reply.Row? then tx
      else tx.(program := p.(phase := UnregisterOld(reply.id)), writes := SetJob(tx.writes, reply.id, NextVersion(p)))
    case UnregisterOld(n) =>
      tx.(program := p.(phase := RegisterNew(n)), writes := Unscheduled(db, tx.writes, p.prior))
    case RegisterNew(n) =>
      tx.(program := p.(phase := UpdateDone(n)), writes := Schedule(tx.writes, n))
    case UpdateDone(_) => tx
  }

  /** The executions a multi-row cancel selects when its statement starts. */
  function PendingOf(db: Tables, job: JobId): set<ExecutionId> {
    set x | x in db.executions && db.executions[x].job == job && Cancellable(db.executions[x].status)
  }

  /** One row of the multi-row cancel: its condition is evaluated again under the row lock. */
  function CancelRow(db: Tables, w: Tables, x: ExecutionId, job: JobId): Tables {
    if x in db.executions && db.executions[x].job == job && Cancellable(db.executions[x].status)
    then SetExecution(w, x, Cancel(db.executions[x])) else w
  }

  /** `cancel` of handlers/jobs.rs */
  function CancelStep(db: Tables, tx: Tx, reply: Reply): Tx
    requires tx.program.CancelJob?
  {
    var p := tx.program;
    match p.stage
    case ReadJob =>
      if p.target !in db.jobs then tx
      else
        var row := db.jobs[p.target];
        tx.(program := p.(trigger := row.trigger, stage := if row.trigger == Cron then RetireJob else SelectRows))
    case SelectRows =>
      tx.(program := p.(stage := CancelRows(PendingOf(db, p.target))))
    case CancelRows(rows) =>
      if reply.Row? then
        tx.(program := p.(stage := CancelRows(rows - {reply.id})), writes := CancelRow(db, tx.writes, reply.id, p.target))
      else
        tx.(program := p.(stage := RetireJob))
    case RetireJob =>
      if p.target !in db.jobs then tx
      else
        tx.(program := p.(stage := if p.trigger == Cron then UnregisterJob else CancelDone),
            writes := SetJob(tx.writes, p.target, Retire(db.jobs[p.target])))
    case UnregisterJob =>
      tx.(program := p.(stage := CancelDone), writes := Unscheduled(db, tx.writes, p.target))
    case CancelDone => tx
  }

  /** The multi-row statement of the library's `cancel_job`, which commits on its own. */
  function LibraryStep(db: Tables, tx: Tx, reply: Reply): Tx
    requires tx.program.LibraryCancel?
  {
    var p := tx.program;
    match p.rest
    case LibrarySelect => tx.(program := p.(rest := LibraryRows(PendingOf(db, p.target))))
    case LibraryRows(rows) =>
      if !reply.Row? then tx
      else tx.(program := p.(rest := LibraryRows(rows - {reply.id})), writes := CancelRow(db, tx.writes, reply.id, p.target))
    case LibraryRetire =>
      if p.target !in db.jobs || db.jobs[p.target].status != Active then tx
      else tx.(writes := SetJob(tx.writes, p.target, Retire(db.jobs[p.target])))
  }

  function Advance(db: Tables, tx: Tx, reply: Reply): Tx {
    match tx.program
    case Worker(_, _, _, _, _) => WorkerStep(db, tx, reply)
    case Create(_, _) => CreateStep(tx, reply)
    case Update(_, _, _, _, _) => UpdateStep(db, tx, reply)
    case CancelJob(_, _, _) => CancelStep(db, tx, reply)
    case LibraryCancel(_, _) => LibraryStep(db, tx, reply)
  }

  // Locks

  ghost predicate ExecutionFree(s: State, t: nat, x: ExecutionId) {
    forall u <- s.txs :: u != t ==> x !in s.txs[u].writes.executions
  }

  ghost predicate JobFree(s: State, t: nat, j: JobId) {
    forall u <- s.txs :: u != t ==> j !in s.txs[u].writes.jobs
  }

  /** A generated job id is new everywhere. */
  ghost predicate NewJobId(s: State, j: JobId) {
    j !in s.db.jobs && forall u <- s.txs :: j !in s.txs[u].writes.jobs
  }

  ghost predicate NewExecutionId(s: State, x: ExecutionId) {
    x !in s.db.executions && forall u <- s.txs :: x !in s.txs[u].writes.executions
  }

  /** The unique index admits the row: no committed job has its key, and no open
      transaction, which would be waited for, has written one. */
  ghost predicate KeyFree(s: State, row: Job) {
    && (forall i <- s.db.jobs :: !SameKey(row, s.db.jobs[i]))
    && (forall u <- s.txs, i <- s.txs[u].writes.jobs :: !SameKey(row, s.txs[u].writes.jobs[i]))
  }

  /** When a statement may run and get this reply.  A statement that must write a row locked
      by another transaction waits, so it has no reply until the lock is gone. */
  ghost predicate StatementEnabled(s: State, t: nat, reply: Reply)
    requires t in s.txs
  {
    var tx := s.txs[t];
    match tx.program
    case Worker(x, n, _, _, at) =>
      (match at
       case RecordAttempt(_) => tx.aborted || Attempt(x, n) !in s.db.attempts || reply == SqlError
       case RecordRejected => tx.aborted || Attempt(x, n) !in s.db.attempts || reply == SqlError
       case ReapRows(rows, _) => if reply.Row? then reply.id in rows && JobFree(s, t, reply.id) else rows == {} || reply == SqlError
       case Unschedule(entries) => if reply.Row? then reply.id in entries else entries == {} || reply == SqlError
       case Finish(_) => false
       case GiveUp => false
       case _ => true)
    case Create(request, step) =>
      (match step
       case InsertJob => reply.Row? && NewJobId(s, reply.id) && KeyFree(s, NewJob(request))
       case InsertExecution(_) => reply.Row? && NewExecutionId(s, reply.id)
       case Register(_) => true
       case CreateDone(_) => false)
    case Update(prior, _, _, _, phase) =>
      (match phase
       case RetireOld => JobFree(s, t, prior)
       case InsertNew => reply.Row? && NewJobId(s, reply.id)
       case UnregisterOld(_) => true
       case RegisterNew(_) => true
       case UpdateDone(_) => false)
    case CancelJob(j, _, stage) =>
      (match stage
       case ReadJob => j in s.db.jobs && s.db.jobs[j].status == Active && !s.db.jobs[j].internal
       case SelectRows => true
       case CancelRows(rows) => if reply.Row? then reply.id in rows && ExecutionFree(s, t, reply.id) else rows == {}
       case RetireJob => j in s.db.jobs && s.db.jobs[j].status == Active && JobFree(s, t, j)
       case UnregisterJob => true
       case CancelDone => false)
    case LibraryCancel(_, rest) =>
      (match rest
       case LibrarySelect => true
       case LibraryRows(rows) => reply.Row? && reply.id in rows && ExecutionFree(s, t, reply.id)
       case LibraryRetire => false)
  }

  /** Programs that may be started, with the reads and checks made before their transaction. */
  ghost predicate BeginEnabled(s: State, p: Program) {
    match p
    case Worker(_, _, _, _, _) => false
    case Create(r, step) =>
      && step == InsertJob
      && !r.internal
      && (r.trigger != Cron ==> r.key.Some?)
      && forall i <- s.db.jobs :: !SameKey(NewJob(r), s.db.jobs[i])
    case Update(prior, seen, _, _, phase) =>
      && phase == RetireOld
      && prior in s.db.jobs && s.db.jobs[prior] == seen
      && seen.trigger == Cron && seen.status == Active && !seen.internal
    case CancelJob(_, _, stage) => stage == ReadJob
    case LibraryCancel(j, rest) => rest == LibrarySelect && j in s.db.jobs && s.db.jobs[j].trigger != Cron
  }

  /** Programs whose last statement has run. */
  predicate Ready(p: Program) {
    match p
    case Worker(_, _, _, _, at) => at.Finish?
    case Create(_, step) => step.CreateDone?
    case Update(_, _, _, _, phase) => phase.UpdateDone?
    case CancelJob(_, _, stage) => stage.CancelDone?
    case LibraryCancel(_, rest) => rest == LibraryRows({}) || rest == LibraryRetire
  }

  function TickRow(job: JobId, row: Job, now: int, limit: int): Execution {
    Execution(job, TickAt(now), row.internal, Queued, 0, limit, now)
  }

  /** The guards of `build_cron_command`. */
  ghost predicate TickEnabled(s: State, job: JobId, x: ExecutionId) {
    && Scheduled(s.db, job) && job in s.db.jobs
    && s.db.jobs[job].status == Active
    && (s.db.jobs[job].startsAt.Some? ==> s.db.jobs[job].startsAt.value <= s.now)
    && (s.db.jobs[job].endsAt.Some? ==> s.db.jobs[job].endsAt.value > s.now)
    && (forall y <- s.db.executions :: s.db.executions[y].job == job ==> s.db.executions[y].key != TickAt(s.now))
    && NewExecutionId(s, x)
  }

  ghost predicate Enabled(s: State, e: Event) {
    match e
    case Wait(until) => s.now <= until
    case Claim(t, x) =>
      && t !in s.txs && x in s.db.executions && ExecutionFree(s, t, x)
      && Claimable(s.db.executions[x].status) && s.db.executions[x].runAt <= s.now
    case Begin(t, p) => t !in s.txs && BeginEnabled(s, p)
    case Statement(t, reply) => t in s.txs && StatementEnabled(s, t, reply)
    case Commit(t) =>
      && t in s.txs && Ready(s.txs[t].program)
      && (s.txs[t].program.LibraryCancel? && s.txs[t].program.rest == LibraryRetire ==>
            JobFree(s, t, s.txs[t].program.target))
    case Vanish(t) => t in s.txs
    case Tick(j, x, _) => TickEnabled(s, j, x)
    case CancelExecution(x) =>
      x in s.db.executions && Cancellable(s.db.executions[x].status) && forall u <- s.txs :: x !in s.txs[u].writes.executions
    case LibraryJob(r, j) => r.trigger != Cron && r.key.Some? && NewJobId(s, j) && KeyFree(s, NewJob(r))
    case LibraryExecution(j, x) => j in s.bare && s.bare[j].key.Some? && NewExecutionId(s, x)
    case AnswerExisting(endpoint, key, j) =>
      j in s.db.jobs && s.db.jobs[j].endpoint == endpoint && s.db.jobs[j].key == Some(key)
  }

  /** What a commit makes durable: the writes, unless a statement had failed.  The library's
      retirement is a statement that commits by itself. */
  function CommittedWrites(db: Tables, tx: Tx): Tables {
    if tx.aborted then NOTHING
    else if tx.program.LibraryCancel? && tx.program.rest == LibraryRetire then LibraryStep(db, tx, Ok).writes
    else tx.writes
  }

  /** A worker that has called its endpoint and has not committed. */
  predicate HasCalled(p: Program) {
    p.Worker?
    && match p.at
       case ReapRows(_, _) => true
       case Unschedule(_) => true
       case RecordAttempt(_) => true
       case Complete(_) => true
       case LogOutcome(ending) => ending.Called?
       case Finish(ending) => ending.Called?
       case _ => false
  }

  /** The call that is forgotten when such a worker's transaction is rolled back. */
  function LostCall(p: Program): seq<ExecutionId> {
    if HasCalled(p) then [p.execution] else []
  }

  function AfterCommit(s: State, t: nat): State
    requires t in s.txs
  {
    var tx := s.txs[t];
    var p := tx.program;
    var s' := s.(db := Over(s.db, CommittedWrites(s.db, tx)), txs := s.txs - {t});
    if tx.aborted then s'.(lost := s.lost + LostCall(p))
    else
      match p
      case Create(r, CreateDone(j)) => s'.(answers := s.answers + {Answer(r.endpoint, r.key, j)})
      case Update(_, seen, _, _, UpdateDone(j)) => s'.(answers := s.answers + {Answer(seen.endpoint, None, j)})
      case Worker(x, _, _, _, Finish(ending)) =>
        s'.(unloaded := if ending.Unloaded? then s.unloaded + {x} else s.unloaded,
            uncalled := if ending.Called? then s.uncalled else s.uncalled + {x})
      case LibraryCancel(j, LibraryRows(_)) =>
        s'.(txs := s.txs[t := tx.(program := LibraryCancel(j, LibraryRetire), writes := NOTHING)])
      case _ => s'
  }

  /** Some cancel of the job has selected the executions it will cancel. */
  predicate Selected(p: Program, job: JobId) {
    match p
    case CancelJob(j, _, stage) => j == job && (stage.CancelRows? || stage.RetireJob? || stage.CancelDone?)
    case LibraryCancel(j, rest) => j == job && !rest.LibrarySelect?
    case _ => false
  }

  ghost predicate CancelUnderway(s: State, job: JobId) {
    || (job in s.db.jobs && s.db.jobs[job].status == Retired)
    || exists t <- s.txs :: Selected(s.txs[t].program, job)
  }

  ghost function Apply(s: State, e: Event): State
    requires Enabled(s, e)
  {
    match e
    case Wait(until) => s.(now := until)
    case Claim(t, x) =>
      var row := s.db.executions[x];
      s.(txs := s.txs[t := Tx(Worker(x, row.attempts + 1, row.limit, row.internal, LoadJob),
                              NOTHING.(executions := map[x := Claimed(row)]), false, s.now)])
    case Begin(t, p) => s.(txs := s.txs[t := Tx(p, NOTHING, false, s.now)])
    case Statement(t, reply) =>
      var tx := s.txs[t];
      s.(txs := s.txs[t := Advance(s.db, tx, reply)],
         dispatches := if tx.program.Worker? && tx.program.at.Dispatch? then s.dispatches + [tx.program.execution] else s.dispatches)
    case Commit(t) => AfterCommit(s, t)
    case Vanish(t) => s.(txs := s.txs - {t}, lost := s.lost + LostCall(s.txs[t].program))
    case Tick(j, x, limit) =>
      s.(db := Over(s.db, NOTHING.(executions := map[x := TickRow(j, s.db.jobs[j], s.now, limit)])))
    case CancelExecution(x) =>
      s.(db := Over(s.db, NOTHING.(executions := map[x := Cancel(s.db.executions[x])])))
    case LibraryJob(r, j) =>
      s.(db := Over(s.db, NOTHING.(jobs := map[j := NewJob(r)])), bare := s.bare[j := r])
    case LibraryExecution(j, x) =>
      s.(db := Over(s.db, NOTHING.(executions := map[x := NewExecution(s.bare[j], j)])),
         bare := s.bare - {j},
         late := if CancelUnderway(s, j) then s.late + {j} else s.late)
    case AnswerExisting(endpoint, key, j) => s.(answers := s.answers + {Answer(endpoint, Some(key), j)})
  }

  /** A freshly provisioned workspace: only the reaper's job, and its pg_cron entry. */
  ghost predicate Init(s: State) {
    && s.txs == map[] && s.dispatches == [] && s.answers == {} && s.unloaded == {} && s.uncalled == {} && s.lost == [] && s.bare == map[] && s.late == {}
    && s.db.executions == map[] && s.db.attempts == map[]
    && exists reaper: JobId ::
         && s.db.jobs == map[reaper := Job("invokr.reaper", true, Cron, Active, 1, None, None, None, None, None)]
         && s.db.schedule == map[reaper := true]
  }

  ghost predicate Next(s: State, s': State) {
    exists e: Event :: Enabled(s, e) && s' == Apply(s, e)
  }

  /** A finite run: consecutive states are related by `Next`. */
  ghost predicate Run(states: seq<State>) {
    states != [] && forall i | 0 < i < |states| :: Next(states[i - 1], states[i])
  }
}
