/** The worker's code, statement by statement, on a connection whose answers are the
    database's to choose. */
module Pipeline {
  import opened Wrappers
  import opened Tables
  import opened Protocol
  import opened Traces

  /** The worker's transaction right after its claim. */
  function Claiming(x: ExecutionId, row: Execution, now: int): Tx {
    Tx(Worker(x, row.attempts + 1, row.limit, row.internal, LoadJob), NOTHING.(executions := map[x := Claimed(row)]), false, now)
  }

  /** What a query that wants one row returns. */
  datatype Lookup = Found | Absent | Broken

  /** The claimed row is finalised, and the attempts row goes with it.  Without an endpoint it
      has FAILED and there is no attempts row; without a spec to send it has FAILED and the
      attempt with it; after a call it has succeeded with the attempt, or else waits for the
      next attempt until `retryAt`, or has FAILED because there is no next. */
  predicate Finalised(row: Execution, x: ExecutionId, w: Tables, ending: Ending, retryAt: int) {
    && w.executions.Keys == {x}
    && var out, a, failed := w.executions[x], Attempt(x, row.attempts + 1), row.(status := Failed, attempts := row.attempts + 1);
       match ending
       case Unloaded => w.attempts == map[] && out == failed
       case Rejected => w.attempts == map[a := false] && out == failed
       case Called =>
         && w.attempts.Keys == {a}
         && (w.attempts[a] ==> out == row.(status := Succeeded, attempts := row.attempts + 1))
         && (!w.attempts[a] && row.attempts + 1 < row.limit ==> out == row.(status := Retrying, attempts := row.attempts + 1, runAt := retryAt))
         && (!w.attempts[a] && row.attempts + 1 >= row.limit ==> out == failed)
  }

  /** A worker's transaction.  On a reliable connection no statement fails.  `program` is where the worker of the transition system
      stands, and `trace` the statements that brought it there from `start`. */
  class Connection {
    var writes: Tables
    var aborted: bool
    const began: int
    const reliable: bool
    ghost var program: Program
    ghost var trace: seq<Turn>
    ghost const start: Tx

    ghost predicate Valid()
      reads this
    {
      && start.program.Worker? && program.Worker?
      && Tx(program, writes, aborted, began) == Advances(start, trace)
      && (aborted ==> writes == NOTHING && !reliable)
    }

    /** A transaction that has claimed an execution. */
    constructor (x: ExecutionId, row: Execution, now: int, reliable: bool)
      ensures this.reliable == reliable
      ensures Valid() && !aborted && trace == [] && began == now && start == Claiming(x, row, now)
      ensures program == Worker(x, row.attempts + 1, row.limit, row.internal, LoadJob)
      ensures writes == NOTHING.(executions := map[x := Claimed(row)])
    {
      writes := NOTHING.(executions := map[x := Claimed(row)]);
      aborted := false;
      began := now;
      this.reliable := reliable;
      program := Worker(x, row.attempts + 1, row.limit, row.internal, LoadJob);
      trace := [];
      start := Claiming(x, row, now);
    }

    /** The worker of the transition system takes the same statement. */
    ghost method Follow(view: Tables, reply: Reply, before: Tx)
      requires program.Worker? && start.program.Worker? && before.program.Worker? && before == Advances(start, trace)
      requires WorkerStep(view, before, reply).writes == writes && WorkerStep(view, before, reply).aborted == aborted
      requires WorkerStep(view, before, reply).began == began
      requires aborted ==> writes == NOTHING && !reliable
      modifies this`program, this`trace
      ensures Valid() && program == WorkerStep(view, before, reply).program
      ensures trace == old(trace) + [Turn(view, reply)]
    {
      AdvancesAppend(start, trace, Turn(view, reply));
      program := WorkerStep(view, before, reply).program;
      trace := trace + [Turn(view, reply)];
    }

    /** A statement that fails takes the whole transaction with it. */
    method Abort()
      modifies this`writes, this`aborted
      ensures aborted && writes == NOTHING
    {
      aborted := true;
      writes := NOTHING;
    }

    /** What the database answers next. */
    method NextReply() returns (reply: Reply)
      ensures reliable ==> !reply.SqlError?
    {
      reply := *;
      if reliable && reply.SqlError? {
        reply := Ok;
      }
    }

    /** Whether the next statement fails. */
    method Fails() returns (fails: bool)
      ensures reliable ==> !fails
    {
      fails := *;
      fails := fails && !reliable;
    }

    /** A query for one row: found, no row, a row that does not decode, or an error. */
    method Query(reply: Reply) returns (r: Lookup)
      requires Valid() && (reliable ==> !reply.SqlError?)
      modifies this`writes, this`aborted
      ensures r == if reply.Missing? then Absent else if reply.Undecodable? || reply.SqlError? || old(aborted) then Broken else Found
      ensures r.Broken? && !reply.Undecodable? ==> aborted && writes == NOTHING
      ensures (r.Broken? && !reply.Undecodable?) || (aborted == old(aborted) && writes == old(writes))
    {
      if reply.Missing? {
        r := Absent;
      } else if reply.Undecodable? {
        r := Broken;
      } else if aborted || reply.SqlError? {
        Abort();
        r := Broken;
      } else {
        r := Found;
      }
    }

    /** `jobs::get` */
    method GetJob(reply: Reply) returns (r: Lookup)
      requires Valid() && program.at.LoadJob? && !aborted && (reliable ==> !reply.SqlError?)
      modifies this
      ensures Valid() && if r.Found? || r.Absent? then aborted == old(aborted) && writes == old(writes) else aborted || writes == old(writes)
      ensures program == old(program).(at := match r case Found => LoadEndpoint case Absent => GiveUp case Broken => CompleteOrphan)
      ensures r.Found? <==> !reply.Missing? && !reply.Undecodable? && !reply.SqlError?
    {
      ghost var before := Tx(program, writes, aborted, began);
      r := Query(reply);
      Follow(NOTHING, reply, before);
    }

    /** `endpoints::get` */
    method GetEndpoint() returns (r: Lookup)
      requires Valid() && program.at.LoadEndpoint?
      modifies this
      ensures Valid() && if r.Found? || r.Absent? then aborted == old(aborted) && writes == old(writes) else aborted || writes == old(writes)
      ensures program == old(program).(at := match r case Found => LoadConfig case Absent => CompleteUnloaded(true) case Broken => CompleteUnloaded(false))
    {
      ghost var before := Tx(program, writes, aborted, began);
      var reply := NextReply();
      r := Query(reply);
      Follow(NOTHING, reply, before);
    }

    /** `load_config` and then `load_secrets`. */
    method Load(ghost next: WorkerPoint) returns (ok: bool)
      requires Valid() && if program.at.LoadConfig? then next == LoadSecrets else program.at.LoadSecrets? && next == ResolveSpec
      modifies this
      ensures Valid() && if ok then aborted == old(aborted) && writes == old(writes) else aborted || writes == old(writes)
      ensures program == old(program).(at := if ok then next else CompleteRejected)
    {
      ghost var before := Tx(program, writes, aborted, began);
      var reply := NextReply();
      var r := Query(reply);
      ok := r == Found;
      Follow(NOTHING, reply, before);
    }

    /** `template::resolve`, which runs no statement. */
    method Resolve() returns (ok: bool)
      requires Valid() && program.at.ResolveSpec?
      modifies this
      ensures Valid() && aborted == old(aborted) && writes == old(writes)
      ensures program == old(program).(at := if ok then LogDispatch else CompleteRejected)
    {
      ghost var before := Tx(program, writes, aborted, began);
      ok := *;
      Follow(NOTHING, if ok then Ok else Missing, before);
    }

    /** `execution_logs::insert` */
    method Log()
      requires Valid() && (program.at.LogDispatch? || program.at.LogOutcome?)
      modifies this
      ensures Valid() && (aborted || (!old(aborted) && writes == old(writes)))
      ensures program == old(program).(at := if old(program.at).LogDispatch? then Dispatch else WorkerPoint.Finish(old(program.at).ending))
    {
      ghost var before := Tx(program, writes, aborted, began);
      var fails := Fails();
      if aborted || fails {
        Abort();
      }
      Follow(NOTHING, if fails then SqlError else Ok, before);
    }

    /** `attempts::insert` */
    method InsertAttempt(x: ExecutionId, number: int, delivered: bool)
      requires Valid() && x == program.execution && number == program.attempt
      requires program.at == RecordAttempt(delivered) || (program.at.RecordRejected? && !delivered)
      modifies this
      ensures Valid()
      ensures aborted || (!old(aborted) && writes == old(writes).(attempts := old(writes).attempts[Attempt(x, number) := delivered]))
      ensures program == old(program).(at := if old(program.at).RecordAttempt? then Complete(delivered) else LogOutcome(Rejected))
    {
      ghost var before := Tx(program, writes, aborted, began);
      var fails := Fails();
      if aborted || fails {
        Abort();
      } else {
        writes := writes.(attempts := writes.attempts[Attempt(x, number) := delivered]);
      }
      Follow(NOTHING, if fails then SqlError else Ok, before);
    }

    /** `executions::complete_failed` */
    method Fail(x: ExecutionId)
      requires Valid() && x == program.execution
      requires program.at.CompleteOrphan? || program.at.CompleteUnloaded? || program.at.CompleteRejected?
               || (program.at == Complete(false) && program.attempt >= program.limit)
      modifies this
      ensures Valid()
      ensures aborted || (!old(aborted) && writes == Settle(old(writes), x, CompleteFailed))
      ensures program == old(program).(at := AfterFail(old(program.at)))
    {
      ghost var before := Tx(program, writes, aborted, began);
      var fails := Finalise(x, CompleteFailed);
      Follow(NOTHING, if fails then SqlError else Ok, before);
    }

    /** `executions::complete_success` */
    method Succeed(x: ExecutionId)
      requires Valid() && x == program.execution && program.at == Complete(true)
      modifies this
      ensures Valid()
      ensures aborted || (!old(aborted) && writes == Settle(old(writes), x, CompleteSuccess))
      ensures program == old(program).(at := LogOutcome(Called))
    {
      ghost var before := Tx(program, writes, aborted, began);
      var fails := Finalise(x, CompleteSuccess);
      Follow(NOTHING, if fails then SqlError else Ok, before);
    }

    /** `executions::complete_retry`: the row waits `ms` from the start of the transaction. */
    method Retry(x: ExecutionId, ms: int)
      requires Valid() && x == program.execution && program.at == Complete(false) && program.attempt < program.limit
      modifies this
      ensures Valid()
      ensures aborted || (!old(aborted) && writes == Settle(old(writes), x, (row: Execution) => CompleteRetry(row, began + ms)))
      ensures program == old(program).(at := LogOutcome(Called))
    {
      ghost var before := Tx(program, writes, aborted, began);
      var fails := Finalise(x, (row: Execution) => CompleteRetry(row, began + ms));
      Follow(NOTHING, if fails then SqlError else Backoff(ms), before);
    }

    /** An update of the claimed row. */
    method Finalise(x: ExecutionId, outcome: Execution -> Execution) returns (fails: bool)
      modifies this`writes, this`aborted
      ensures reliable ==> !fails
      ensures if old(aborted) || fails then aborted && writes == NOTHING
              else !aborted && writes == Settle(old(writes), x, outcome)
    {
      fails := Fails();
      if aborted || fails {
        Abort();
      } else if x in writes.executions {
        writes := SetExecution(writes, x, outcome(writes.executions[x]));
      }
    }

    /** The call to an HTTP, Kafka or Redis endpoint.  Nothing in the transaction can undo it. */
    method Deliver() returns (ok: bool)
      requires Valid() && program.at.Dispatch?
      modifies this
      ensures Valid() && aborted == old(aborted) && writes == old(writes)
      ensures program == old(program).(at := RecordAttempt(ok))
    {
      ghost var before := Tx(program, writes, aborted, began);
      ok := *;
      Follow(NOTHING, Delivered(ok), before);
    }

    /** `retire_expired_cron_jobs`: one UPDATE over the expired rows of its snapshot.  It waits
        for each row and looks at it again, at `seen`, and retires exactly those that are then
        still expired. */
    method RetireExpired(snapshot: Tables, seen: JobId -> Tables) returns (retired: seq<JobId>, ok: bool)
      requires Valid() && program.at.Dispatch? && program.internal && writes.jobs == map[]
      modifies this
      ensures Valid()
      ensures !ok ==> aborted && program == old(program).(at := RecordAttempt(false))
      ensures ok ==> !aborted && !old(aborted) && program == old(program).(at := Unschedule(Ids(retired)))
      ensures ok ==> writes == old(writes).(jobs := Swept(snapshot, seen, began)) && writes.jobs.Keys == Ids(retired)
      ensures ok ==> Distinct(retired)
      ensures ok ==> forall j: JobId :: j in writes.jobs <==> HasEnded(snapshot, j, began) && HasEnded(seen(j), j, began)
    {
      hide WorkerStep, Advances, ExpiredRows, SweptOf, SweepAt;
      var rows := StartSweep(snapshot);
      ghost var all, done := rows, {};
      retired, ok := [], !aborted;
      NothingSwept(seen, this);
      while ok && rows != {}
        invariant Valid() && ok == !aborted && (ok ==> !old(aborted)) && rows !! done && rows + done == all
        invariant program == old(program).(at := if ok then ReapRows(rows, Ids(retired)) else RecordAttempt(false))
        invariant ok ==> SweepAt(old(writes), done, retired, seen)
        decreases |rows|, ok
      {
        var j :| j in rows;
        retired, ok := SweepRow(old(writes), done, retired, j, seen);
        rows, done := rows - {j}, done + {j};
      }
      if ok {
        assert done == all;
        SweptAll(old(writes), done, retired, seen);
        SweptHaveEnded(snapshot, seen, began);
        EndSweep();
      }
    }

    /** The sweep has visited the rows `done` and retired those it found still expired. */
    ghost predicate SweepAt(w: Tables, done: set<JobId>, retired: seq<JobId>, seen: JobId -> Tables)
      reads this
    {
      && writes == w.(jobs := SweptOf(done, seen, began)) && writes.jobs.Keys == Ids(retired)
      && Distinct(retired) && Ids(retired) <= done
    }

    lemma SweptAll(w: Tables, done: set<JobId>, retired: seq<JobId>, seen: JobId -> Tables)
      requires SweepAt(w, done, retired, seen)
      ensures writes == w.(jobs := SweptOf(done, seen, began)) && writes.jobs.Keys == Ids(retired) && Distinct(retired)
    {
    }

    method SweepRow(ghost w: Tables, ghost done: set<JobId>, retired: seq<JobId>, j: JobId, seen: JobId -> Tables)
      returns (more: seq<JobId>, ok: bool)
      requires Valid() && program.at.ReapRows? && !aborted && SweepAt(w, done, retired, seen) && j !in done
      requires program.at.retired == Ids(retired)
      modifies this
      ensures Valid() && ok == !aborted && (ok ==> SweepAt(w, done + {j}, more, seen))
      ensures program == old(program).(at := if ok then ReapRows(old(program.at.rows) - {j}, Ids(more)) else RecordAttempt(false))
    {
      hide WorkerStep, Advances, Expired, SweptOf, StillExpired, Retire;
      var hit;
      ok, hit := RetireRow(j, seen(j));
      SweptNext(done, j, seen, began);
      more := retired;
      if hit {
        DistinctAppend(retired, j);
        more := retired + [j];
      }
    }

    ghost method EndSweep()
      requires Valid() && program.at.ReapRows? && !aborted
      modifies this`program, this`trace
      ensures Valid() && program == old(program).(at := Unschedule(old(program.at).retired))
    {
      Follow(NOTHING, Ok, Tx(program, writes, aborted, began));
    }

    method StartSweep(snapshot: Tables) returns (rows: set<JobId>)
      requires Valid() && program.at.Dispatch? && program.internal
      modifies this`program, this`trace
      ensures Valid() && program == old(program).(at := if aborted then RecordAttempt(false) else ReapRows(rows, {}))
      ensures rows == ExpiredRows(snapshot, began)
    {
      ghost var before := Tx(program, writes, aborted, began);
      rows := ExpiredRows(snapshot, began);
      Follow(snapshot, Sweep, before);
    }

    /** One row of that UPDATE, as it is when its lock is granted. */
    method RetireRow(j: JobId, view: Tables) returns (ok: bool, hit: bool)
      requires Valid() && program.at.ReapRows? && !aborted
      modifies this
      ensures Valid() && ok == !aborted
      ensures hit <==> ok && StillExpired(view, j, began)
      ensures var at := old(program.at);
              program == old(program).(at := if !ok then RecordAttempt(false)
                                             else ReapRows(at.rows - {j}, if hit then at.retired + {j} else at.retired))
      ensures ok ==> writes == if hit then SetJob(old(writes), j, Retire(view.jobs[j])) else old(writes)
    {
      ghost var before := Tx(program, writes, aborted, began);
      var fails := Fails();
      ok, hit := !fails, false;
      if fails {
        Abort();
        Follow(view, SqlError, before);
      } else {
        if j in view.jobs && Expired(view.jobs[j], began) {
          writes := SetJob(writes, j, Retire(view.jobs[j]));
          hit := true;
        }
        Follow(view, Row(j), before);
      }
    }

    ghost method EndUnschedule()
      requires Valid() && program.at == Unschedule({}) && !aborted
      modifies this`program, this`trace
      ensures Valid() && program == old(program).(at := RecordAttempt(true))
    {
      Follow(NOTHING, Ok, Tx(program, writes, aborted, began));
    }

    /** `unregister_pg_cron_conn`: the entry is gone afterwards, and its absence is no error. */
    method Unregister(j: JobId, view: Tables) returns (ok: bool)
      requires Valid() && program.at.Unschedule? && j in program.at.entries && !aborted
      modifies this
      ensures Valid()
      ensures ok ==> !aborted && program == old(program).(at := Unschedule(old(program.at.entries) - {j}))
      ensures ok ==> !Scheduled(Over(view, writes), j)
      ensures ok ==> writes == old(writes).(schedule := writes.schedule)
      ensures ok ==> writes.schedule == if Scheduled(Over(view, old(writes)), j) then old(writes).schedule[j := false] else old(writes).schedule
      ensures !ok ==> aborted && program == old(program).(at := RecordAttempt(false))
    {
      ghost var before := Tx(program, writes, aborted, began);
      var fails := Fails();
      ok := !fails;
      if fails {
        Abort();
        Follow(view, SqlError, before);
      } else {
        writes := Unscheduled(view, writes, j);
        Follow(view, Row(j), before);
      }
    }
  }

  /** The job is an ACTIVE CRON job whose end date has passed. */
  predicate HasEnded(t: Tables, j: JobId, now: int) {
    && j in t.jobs && t.jobs[j].trigger == Cron && t.jobs[j].status == Active
    && t.jobs[j].endsAt.Some? && t.jobs[j].endsAt.value <= now
  }

  lemma SweptHaveEnded(snapshot: Tables, seen: JobId -> Tables, now: int)
    ensures forall j: JobId :: j in Swept(snapshot, seen, now) <==> HasEnded(snapshot, j, now) && HasEnded(seen(j), j, now)
  {
  }

  /** The job is still to be retired when its row is looked at again. */
  predicate StillExpired(view: Tables, j: JobId, now: int) {
    j in view.jobs && Expired(view.jobs[j], now)
  }

  function ExpiredRows(t: Tables, now: int): set<JobId> {
    set j | j in t.jobs && Expired(t.jobs[j], now)
  }

  function SweptOf(rows: set<JobId>, seen: JobId -> Tables, now: int): map<JobId, Job> {
    map j | j in rows && StillExpired(seen(j), j, now) :: Retire(seen(j).jobs[j])
  }

  /** What the sweep's UPDATE does: the rows expired in its snapshot and still so when seen. */
  function Swept(snapshot: Tables, seen: JobId -> Tables, now: int): map<JobId, Job> {
    SweptOf(ExpiredRows(snapshot, now), seen, now)
  }

  lemma SweptRetires(snapshot: Tables, seen: JobId -> Tables, now: int)
    ensures AllRetired(Swept(snapshot, seen, now))
  {
  }

  lemma NothingSwept(seen: JobId -> Tables, db: Connection)
    ensures Ids([]) == {} && (db.writes.jobs == map[] ==> db.SweepAt(db.writes, {}, [], seen))
  {
  }

  lemma SweptNext(rows: set<JobId>, j: JobId, seen: JobId -> Tables, now: int)
    requires j !in rows
    ensures SweptOf(rows + {j}, seen, now) ==
              if StillExpired(seen(j), j, now) then SweptOf(rows, seen, now)[j := Retire(seen(j).jobs[j])] else SweptOf(rows, seen, now)
  {
  }

  predicate AllRetired(jobs: map<JobId, Job>) {
    forall j <- jobs :: jobs[j].status == Retired && jobs[j].trigger == Cron
  }

  predicate Distinct(list: seq<JobId>) {
    forall a, b | 0 <= a < b < |list| :: list[a] != list[b]
  }

  lemma DistinctAppend(list: seq<JobId>, j: JobId)
    requires j !in Ids(list) && Distinct(list)
    ensures Ids(list + [j]) == Ids(list) + {j} && Distinct(list + [j])
  {
  }

  /** The identifiers in a list. */
  function Ids(list: seq<JobId>): set<JobId> {
    set j | j in list
  }

  /** A completion of the row `x`, where it is still visible. */
  function Settle(w: Tables, x: ExecutionId, outcome: Execution -> Execution): Tables {
    if x in w.executions then SetExecution(w, x, outcome(w.executions[x])) else w
  }

  function AfterFail(at: WorkerPoint): WorkerPoint {
    match at
    case CompleteOrphan => GiveUp
    case CompleteUnloaded(logs) => if logs then LogOutcome(Unloaded) else WorkerPoint.Finish(Unloaded)
    case CompleteRejected => RecordRejected
    case _ => LogOutcome(Called)
  }

  /** Sweeps and their schedules go together: on one transaction, exactly the expired rows are
      retired and none of them has a pg_cron entry afterwards, or the transaction fails.
      `entries` is what is committed when each entry is looked for. */
  method ReapSchema(db: Connection, snapshot: Tables, seen: JobId -> Tables, entries: JobId -> Tables) returns (ok: bool)
    requires db.Valid() && db.program.at.Dispatch? && db.program.internal && db.writes.jobs == map[] && db.writes.schedule == map[]
    modifies db
    ensures db.Valid() && db.program == old(db.program).(at := RecordAttempt(ok))
    ensures !ok ==> db.aborted
    ensures ok ==> !old(db.aborted) && !db.aborted
    ensures ok ==> db.writes == old(db.writes).(jobs := Swept(snapshot, seen, db.began), schedule := db.writes.schedule)
    ensures ok ==> forall j: JobId :: j in db.writes.jobs <==> HasEnded(snapshot, j, db.began) && HasEnded(seen(j), j, db.began)
    ensures ok ==> forall j <- db.writes.jobs :: !Scheduled(Over(entries(j), db.writes), j)
    ensures ok ==> db.writes.schedule.Keys <= db.writes.jobs.Keys && forall j <- db.writes.schedule :: !db.writes.schedule[j]
  {
    hide WorkerStep, Advances, Swept, Scheduled, Over;
    var retired;
    retired, ok := db.RetireExpired(snapshot, seen);
    if !ok {
      return;
    }
    ghost var jobs := db.writes.jobs;
    var i := 0;
    while i < |retired|
      invariant i <= |retired| && db.Valid() && !db.aborted && ok
      invariant db.program == old(db.program).(at := Unschedule(Ids(retired[i..])))
      invariant db.writes == old(db.writes).(jobs := jobs, schedule := db.writes.schedule)
      invariant forall j <- db.writes.schedule :: j in Ids(retired) && !db.writes.schedule[j]
      invariant forall k | 0 <= k < i :: !Scheduled(Over(entries(retired[k]), db.writes), retired[k])
    {
      assert retired[i] in Ids(retired[i..]) && retired[i] in Ids(retired);
      IdsRest(retired, i);
      ghost var before := db.writes;
      ok := db.Unregister(retired[i], entries(retired[i]));
      if !ok {
        return;
      }
      forall k | 0 <= k < i ensures !Scheduled(Over(entries(retired[k]), db.writes), retired[k]) {
        StaysUnscheduled(entries(retired[k]), before, db.writes, retired[i], retired[k]);
      }
      i := i + 1;
    }
    assert Ids(retired[i..]) == {};
    forall j <- db.writes.jobs ensures !Scheduled(Over(entries(j), db.writes), j) {
      assert j in Ids(retired);
      var k :| 0 <= k < |retired| && retired[k] == j;
    }
    db.EndUnschedule();
  }

  lemma IdsRest(list: seq<JobId>, i: nat)
    requires i < |list| && Distinct(list)
    ensures Ids(list[i..]) - {list[i]} == Ids(list[i + 1..])
  {
  }

  lemma StaysUnscheduled(view: Tables, before: Tables, w: Tables, removed: JobId, j: JobId)
    requires w.schedule == before.schedule || w.schedule == before.schedule[removed := false]
    requires !Scheduled(Over(view, before), j)
    ensures !Scheduled(Over(view, w), j)
  {
  }

  /** The last step of `process_execution`: the attempt row, then the outcome.  `backoff` is
      what `compute_backoff` returns. */
  method RecordAndFinalise(db: Connection, x: ExecutionId, ghost row: Execution, attempt: int, limit: int, delivered: bool, backoff: int)
    requires db.Valid() && Claimable(row.status) && attempt == row.attempts + 1 && limit == row.limit
    requires db.program.execution == x && db.program.attempt == attempt && db.program.limit == limit
    requires db.program.at == RecordAttempt(delivered)
    requires !db.aborted ==> db.writes.executions == map[x := Claimed(row)] && db.writes.attempts == map[]
    modifies db
    ensures db.Valid() && db.program == old(db.program).(at := WorkerPoint.Finish(Called))
    ensures !db.aborted ==> !old(db.aborted) && Finalised(row, x, db.writes, Called, db.began + backoff)
    ensures !db.aborted ==> db.writes.attempts == map[Attempt(x, attempt) := delivered]
    ensures !db.aborted ==> var out := db.writes.executions[x];
                            && (delivered ==> out.status == Succeeded)
                            && (!delivered && attempt < limit ==> out.status == Retrying && out.runAt == db.began + backoff)
                            && (!delivered && attempt >= limit ==> out.status == Failed)
    ensures !db.aborted ==> db.writes.jobs == old(db.writes.jobs) && db.writes.schedule == old(db.writes.schedule)
  {
    hide WorkerStep, Advances;
    db.InsertAttempt(x, attempt, delivered);
    if delivered {
      db.Succeed(x);
    } else if attempt < limit {
      db.Retry(x, backoff);
    } else {
      db.Fail(x);
    }
    db.Log();
  }

  /** A spec that cannot be resolved ends the execution, whatever attempts remain. */
  method Reject(db: Connection, x: ExecutionId, ghost row: Execution, attempt: int)
    requires db.Valid() && Claimable(row.status) && attempt == row.attempts + 1
    requires db.program.execution == x && db.program.attempt == attempt && db.program.at == CompleteRejected
    requires !db.aborted ==> db.writes == NOTHING.(executions := map[x := Claimed(row)])
    modifies db
    ensures db.Valid() && db.program == old(db.program).(at := WorkerPoint.Finish(Rejected))
    ensures !db.aborted ==> !old(db.aborted) && Finalised(row, x, db.writes, Rejected, db.began)
    ensures !db.aborted ==> db.writes.jobs == map[] && db.writes.schedule == map[]
    ensures !db.aborted ==> db.writes.executions[x].status == Failed && db.writes.attempts == map[Attempt(x, attempt) := false]
  {
    hide WorkerStep, Advances;
    db.Fail(x);
    db.InsertAttempt(x, attempt, false);
    db.Log();
  }

  /** `process_execution`.  Every path through it finalises the claimed row, unless a
      statement has failed and with it the whole transaction; and it takes the steps of the
      worker in the transition system, no more and no fewer. */
  method ProcessExecution(db: Connection, x: ExecutionId, ghost row: Execution, attempt: int, limit: int, internal: bool, backoff: int)
    requires db.Valid() && !db.aborted && Claimable(row.status)
    requires db.program == Worker(x, attempt, limit, internal, LoadEndpoint) && attempt == row.attempts + 1 && limit == row.limit
    requires db.writes == NOTHING.(executions := map[x := Claimed(row)])
    modifies db
    ensures db.Valid() && db.program == old(db.program).(at := db.program.at) && db.program.at.Finish?
    ensures !db.aborted ==> Finalised(row, x, db.writes, db.program.at.ending, db.began + backoff)
    ensures !db.aborted ==> AllRetired(db.writes.jobs) && db.writes.schedule.Keys <= db.writes.jobs.Keys
    ensures !db.aborted && !internal ==> db.writes.jobs == map[]
  {
    hide WorkerStep, Advances;
    var endpoint := db.GetEndpoint();
    if endpoint == Absent {
      db.Fail(x);
      db.Log();
      return;
    }
    if endpoint == Broken {
      db.Fail(x);
      return;
    }
    var ready := db.Load(LoadSecrets);
    if ready {
      ready := db.Load(ResolveSpec);
    }
    if ready {
      ready := db.Resolve();
    }
    if !ready {
      Reject(db, x, row, attempt);
      return;
    }
    db.Log();
    var delivered;
    if internal {
      var snapshot: Tables := *;
      var seen: JobId -> Tables := *;
      var entries: JobId -> Tables := *;
      delivered := ReapSchema(db, snapshot, seen, entries);
      SweptRetires(snapshot, seen, db.began);
    } else {
      delivered := db.Deliver();
    }
    RecordAndFinalise(db, x, row, attempt, limit, delivered, backoff);
  }

  /** The writes one worker has made durable: which schema, and what. */
  datatype Committed = Committed(schema: string, execution: ExecutionId, writes: Tables)

  /** How one schema answers: whether a transaction begins, the row it would offer `claim`
      first, the time, what `jobs::get` says of its job, the backoff should it be needed, and
      whether the commit goes through. */
  datatype SchemaAnswer = SchemaAnswer(
    begins: bool,
    offer: Option<(ExecutionId, Execution)>,
    now: int,
    job: Reply,
    backoff: int,
    commits: bool)

  /** The schema has an execution to process: one that is QUEUED, RETRYING or PENDING, and
      whose time has come. */
  predicate Processable(a: SchemaAnswer) {
    && a.begins && a.offer.Some?
    && (a.offer.value.1.status == Queued || a.offer.value.1.status == Retrying || a.offer.value.1.status == Pending)
    && a.offer.value.1.runAt <= a.now
    && !a.job.Missing? && !a.job.Undecodable? && !a.job.SqlError?
  }

  /** `claim`: the row offered, if its status and its time allow. */
  method ClaimRow(a: SchemaAnswer) returns (claimed: Option<(ExecutionId, Execution)>)
    ensures claimed.Some? ==> claimed == a.offer
    ensures claimed.Some? <==> a.offer.Some? && a.offer.value.1.runAt <= a.now
                               && a.offer.value.1.status in {Queued, Retrying, Pending}
  {
    if a.offer.Some? && Claimable(a.offer.value.1.status) && a.offer.value.1.runAt <= a.now {
      return a.offer;
    }
    return None;
  }

  class Workspaces {
    var commits: seq<Committed>

    constructor ()
      ensures commits == []
    {
      commits := [];
    }

    /** `tx.commit()`: a commit may fail, and the commit of an aborted transaction is a
        rollback that reports no error. */
    method Commit(db: Connection, schema: string, x: ExecutionId, goesThrough: bool)
      modifies this
      ensures commits == if goesThrough && !db.aborted then old(commits) + [Committed(schema, x, db.writes)] else old(commits)
    {
      if goesThrough && !db.aborted {
        commits := commits + [Committed(schema, x, db.writes)];
      }
    }
  }

  /** A commit that finalises the one execution it claimed, and is what the worker of the
      transition system has written when it reaches its end. */
  ghost predicate FinalisesOne(c: Committed, row: Execution, now: int, backoff: int) {
    exists ending: Ending, trace: seq<Turn> ::
      && Finalised(row, c.execution, c.writes, ending, now + backoff)
      && ReachesEnd(Advances(Claiming(c.execution, row, now), trace), c.writes, ending)
  }

  predicate ReachesEnd(tx: Tx, writes: Tables, ending: Ending) {
    tx.program.Worker? && tx.program.at == WorkerPoint.Finish(ending) && !tx.aborted && tx.writes == writes
  }

  /** One more commit, of the execution the schema offered. */
  ghost predicate CommitsOffered(before: seq<Committed>, after: seq<Committed>, schema: string, a: SchemaAnswer)
    requires a.offer.Some?
  {
    exists c: Committed ::
      && after == before + [c] && c.schema == schema && c.execution == a.offer.value.0
      && FinalisesOne(c, a.offer.value.1, a.now, a.backoff)
  }

  /** `claim_and_process` tries the schemas in turn and stops at the first that has an
      execution to process; it says whether there was one.  Into that schema it makes one
      commit, which finalises that execution, unless the commit or a statement fails.  Nothing
      else changes, not even where it had tentatively failed an execution whose job could not
      be read. */
  method ClaimAndProcess(workspaces: Workspaces, schemas: seq<string>, answers: seq<SchemaAnswer>, reliable: bool)
    returns (found: bool, ghost at: nat)
    requires |answers| == |schemas|
    requires reliable ==> forall i | 0 <= i < |answers| :: !answers[i].job.SqlError?
    modifies workspaces
    ensures found <==> exists i | 0 <= i < |schemas| :: Processable(answers[i])
    ensures found ==> at < |schemas| && Processable(answers[at]) && forall i | 0 <= i < at :: !Processable(answers[i])
    ensures found ==> answers[at].offer.Some? && answers[at].offer.value.1.runAt <= answers[at].now
                      && answers[at].offer.value.1.status in {Queued, Retrying, Pending}
    ensures (forall i | 0 <= i < |schemas| :: answers[i].offer.Some? ==> answers[i].offer.value.1.runAt > answers[i].now) ==> !found
    ensures !found || !answers[at].commits ==> workspaces.commits == old(workspaces.commits)
    ensures found && answers[at].commits ==>
              || CommitsOffered(old(workspaces.commits), workspaces.commits, schemas[at], answers[at])
              || (!reliable && workspaces.commits == old(workspaces.commits))
  {
    hide WorkerStep, Advances, Finalised;
    at := 0;
    for i := 0 to |schemas|
      invariant workspaces.commits == old(workspaces.commits)
      invariant forall k | 0 <= k < i :: !Processable(answers[k])
    {
      var answer := answers[i];
      if !answer.begins {
        continue;
      }
      var claimed := ClaimRow(answer);
      if claimed.None? {
        continue;
      }
      var (x, row) := claimed.value;
      var db := new Connection(x, row, answer.now, reliable);
      var job := db.GetJob(answer.job);
      if job == Absent {
        continue;
      }
      if job == Broken {
        db.Fail(x);
        continue;
      }
      ProcessExecution(db, x, row, row.attempts + 1, row.limit, row.internal, answer.backoff);
      assert !db.aborted ==> ReachesEnd(Advances(Claiming(x, row, answer.now), db.trace), db.writes, db.program.at.ending);
      assert !db.aborted ==> FinalisesOne(Committed(schemas[i], x, db.writes), row, answer.now, answer.backoff);
      workspaces.Commit(db, schemas[i], x, answer.commits);
      return true, i;
    }
    return false, at;
  }
}
