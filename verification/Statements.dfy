/** One SQL statement of an open transaction: it keeps that transaction's part of the
    invariant, and takes only locks nobody else holds. */
module Statements {
  import opened Tables
  import opened Protocol
  import opened Invariant

  // The transaction itself

  lemma CompletedOutcome(row: Execution, out: Execution, runAt: int)
    requires Claimable(row.status) && out == Claimed(row)
    ensures Outcome(row, CompleteSuccess(out), true)
    ensures GivenUp(row, CompleteFailed(out))
    ensures Outcome(row, if row.attempts + 1 < row.limit then CompleteRetry(out, runAt) else CompleteFailed(out), false)
  {
  }

  /** A doomed transaction stays empty. */
  lemma AbortedStatement(s: State, tx: Tx, reply: Reply)
    requires tx.program.Worker? && tx.aborted && tx.writes == NOTHING
    ensures WorkerStep(s.db, tx, reply).writes == NOTHING && WorkerStep(s.db, tx, reply).aborted
  {
  }

  lemma ReapStatement(s: State, tx: Tx, reply: Reply)
    requires tx.program.Worker? && WorkerOk(s, tx) && !tx.aborted && tx.program.at.ReapRows?
    ensures WorkerOk(s, WorkerStep(s.db, tx, reply))
  {
    var w := tx.writes;
    if reply.Row? && reply.id in s.db.jobs && Expired(s.db.jobs[reply.id], tx.began) {
      assert WorkerStep(s.db, tx, reply).writes.jobs.Keys == w.jobs.Keys + {reply.id};
    }
  }

  lemma UnscheduleStatement(s: State, tx: Tx, reply: Reply)
    requires tx.program.Worker? && WorkerOk(s, tx) && !tx.aborted && tx.program.at.Unschedule? && JobsOk(s.db)
    requires if reply.Row? then reply.id in tx.program.at.entries else tx.program.at.entries == {} || reply == SqlError
    ensures WorkerOk(s, WorkerStep(s.db, tx, reply))
  {
    var w, entries := tx.writes, tx.program.at.entries;
    if reply.Row? {
      var j := reply.id;
      assert j in w.jobs && JobOk(s.db, j);
      assert j !in w.schedule;
      assert Scheduled(Over(s.db, w), j);
      assert w.schedule[j := false].Keys == w.jobs.Keys - (entries - {j});
    }
  }

  /** Points whose statement writes no row. */
  predicate Reads(at: WorkerPoint) {
    at.LoadJob? || at.LoadEndpoint? || at.LoadConfig? || at.LoadSecrets? || at.ResolveSpec? || at.LogDispatch? || at.Dispatch?
    || at.LogOutcome? || at.Finish? || at.GiveUp?
  }

  lemma ReadStatement(s: State, tx: Tx, reply: Reply)
    requires tx.program.Worker? && WorkerOk(s, tx) && !tx.aborted && Reads(tx.program.at)
    ensures WorkerOk(s, WorkerStep(s.db, tx, reply))
  {
    hide Outcome, Claimed, Reaped, Expired;
  }

  lemma RecordStatement(s: State, tx: Tx, reply: Reply)
    requires tx.program.Worker? && WorkerOk(s, tx) && !tx.aborted && (tx.program.at.RecordAttempt? || tx.program.at.RecordRejected?)
    ensures WorkerOk(s, WorkerStep(s.db, tx, reply))
  {
    var a := Attempt(tx.program.execution, tx.program.attempt);
    var ok := tx.program.at.RecordAttempt? && tx.program.at.delivered;
    assert tx.writes.attempts[a := ok] == map[a := ok];
    hide Outcome, Claimed, Reaped, Expired;
  }

  lemma CompleteEarly(s: State, tx: Tx, reply: Reply)
    requires tx.program.Worker? && WorkerOk(s, tx) && !tx.aborted
    requires tx.program.at.CompleteOrphan? || tx.program.at.CompleteUnloaded? || tx.program.at.CompleteRejected?
    ensures WorkerOk(s, WorkerStep(s.db, tx, reply))
  {
    var p := tx.program;
    var row := s.db.executions[p.execution];
    CompletedOutcome(row, Claimed(row), 0);
    assert WorkerStep(s.db, tx, reply).aborted ||
           WorkerStep(s.db, tx, reply).writes == SetExecution(tx.writes, p.execution, CompleteFailed(Claimed(row)));
    hide Outcome, GivenUp, CompleteFailed, Claimed, Reaped, Expired;
  }

  function Final(p: Program, row: Execution, runAt: int): Execution
    requires p.Worker? && p.at.Complete?
  {
    if p.at.delivered then CompleteSuccess(row)
    else if p.attempt < p.limit then CompleteRetry(row, runAt) else CompleteFailed(row)
  }

  lemma DeliveredStep(db: Tables, tx: Tx, reply: Reply) returns (runAt: int)
    requires tx.program.Worker? && !tx.aborted && tx.program.at.Complete? && tx.program.execution in tx.writes.executions
    ensures var x, tx' := tx.program.execution, WorkerStep(db, tx, reply);
            && tx'.program == tx.program.(at := LogOutcome(Called)) && tx'.began == tx.began
            && tx'.writes == if tx'.aborted then NOTHING
                             else SetExecution(tx.writes, x, Final(tx.program, tx.writes.executions[x], runAt))
  {
    runAt := tx.began + if reply.Backoff? then reply.ms else 0;
  }

  lemma FinalOutcome(p: Program, row: Execution, runAt: int)
    requires p.Worker? && p.at.Complete? && Claimable(row.status) && row.attempts + 1 == p.attempt && row.limit == p.limit
    ensures Outcome(row, Final(p, Claimed(row), runAt), p.at.delivered)
  {
  }

  lemma CompleteDelivered(s: State, tx: Tx, reply: Reply)
    requires tx.program.Worker? && WorkerOk(s, tx) && !tx.aborted && tx.program.at.Complete?
    ensures WorkerOk(s, WorkerStep(s.db, tx, reply))
  {
    var runAt := DeliveredStep(s.db, tx, reply);
    FinalOutcome(tx.program, s.db.executions[tx.program.execution], runAt);
    hide WorkerStep, Final, Outcome, Claimed, Reaped, Expired;
  }

  lemma WorkerStatement(s: State, t: nat, reply: Reply)
    requires t in s.txs && s.txs[t].program.Worker? && WorkerOk(s, s.txs[t]) && StatementEnabled(s, t, reply) && JobsOk(s.db)
    ensures WorkerStep(s.db, s.txs[t], reply).program.Worker? && WorkerOk(s, WorkerStep(s.db, s.txs[t], reply))
  {
    var tx := s.txs[t];
    if tx.aborted {
      AbortedStatement(s, tx, reply);
    } else if Reads(tx.program.at) {
      ReadStatement(s, tx, reply);
    } else {
      match tx.program.at
      case ReapRows(_, _) => ReapStatement(s, tx, reply);
      case Unschedule(_) => UnscheduleStatement(s, tx, reply);
      case RecordAttempt(_) => RecordStatement(s, tx, reply);
      case RecordRejected => RecordStatement(s, tx, reply);
      case Complete(_) => CompleteDelivered(s, tx, reply);
      case _ => CompleteEarly(s, tx, reply);
    }
    hide WorkerStep, WorkerOk;
  }

  lemma CreateStatement(s: State, t: nat, reply: Reply)
    requires t in s.txs && s.txs[t].program.Create? && CreateOk(s, s.txs[t]) && StatementEnabled(s, t, reply)
    ensures CreateStep(s.txs[t], reply).program.Create? && CreateOk(s, CreateStep(s.txs[t], reply))
  {
    var tx := s.txs[t];
    var p := tx.program;
    match p.step
    case InsertExecution(j) =>
      assert CreateStep(tx, reply).writes == Created(p.request, j, reply.id);
    case _ =>
  }

  lemma UpdateStatement(s: State, t: nat, reply: Reply)
    requires t in s.txs && s.txs[t].program.Update? && UpdateOk(s, s.txs[t]) && StatementEnabled(s, t, reply) && JobsOk(s.db)
    ensures UpdateStep(s.db, s.txs[t], reply).program.Update? && UpdateOk(s, UpdateStep(s.db, s.txs[t], reply))
  {
    var tx := s.txs[t];
    var p, w := tx.program, tx.writes;
    assert JobOk(s.db, p.prior);
    match p.phase
    case UnregisterOld(n) =>
      assert n != p.prior;
      assert Scheduled(Over(s.db, w), p.prior) <==> Scheduled(s.db, p.prior);
    case _ =>
  }

  lemma CancelStatement(s: State, t: nat, reply: Reply)
    requires t in s.txs && s.txs[t].program.CancelJob? && CancelOk(s, s.txs[t]) && StatementEnabled(s, t, reply) && JobsOk(s.db)
    ensures CancelStep(s.db, s.txs[t], reply).program.CancelJob? && CancelOk(s, CancelStep(s.db, s.txs[t], reply))
  {
    var tx := s.txs[t];
    var p, w := tx.program, tx.writes;
    match p.stage
    case UnregisterJob =>
      assert JobOk(s.db, p.target);
      assert Scheduled(Over(s.db, w), p.target);
    case _ =>
  }

  lemma LibraryStatement(s: State, t: nat, reply: Reply)
    requires t in s.txs && s.txs[t].program.LibraryCancel? && LibraryOk(s, s.txs[t]) && StatementEnabled(s, t, reply)
    ensures LibraryStep(s.db, s.txs[t], reply).program.LibraryCancel? && LibraryOk(s, LibraryStep(s.db, s.txs[t], reply))
  {
  }

  lemma StatementKeepsTx(s: State, t: nat, reply: Reply)
    requires Inv(s) && t in s.txs && StatementEnabled(s, t, reply)
    ensures TxOk(s, Advance(s.db, s.txs[t], reply))
  {
    hide JobsOk, ExecutionsOk, KeysOk, DistinctOk, OneShotOk, SettledOk, StatementEnabled, Locked, FreshKeys, AnswersOk;
    hide WorkerOk, CreateOk, UpdateOk, CancelOk, LibraryOk, WorkerStep, CreateStep, UpdateStep, CancelStep, LibraryStep;
    var tx := s.txs[t];
    assert TxOk(s, tx);
    match tx.program
    case Worker(_, _, _, _, at) => WorkerStatement(s, t, reply);
    case Create(_, _) => CreateStatement(s, t, reply);
    case Update(_, _, _, _, _) => UpdateStatement(s, t, reply);
    case CancelJob(_, _, _) => CancelStatement(s, t, reply);
    case LibraryCancel(_, _) => LibraryStatement(s, t, reply);
  }

  // Its locks

  /** What one statement may add to the rows a transaction has written. */
  ghost predicate Takes(s: State, t: nat, w: Tables, w': Tables) {
    && (forall x <- w'.executions :: x in w.executions || ExecutionFree(s, t, x))
    && (forall j <- w'.jobs ::
          if j in w.jobs then SameColumns(w.jobs[j], w'.jobs[j])
          else JobFree(s, t, j)
               && if j in s.db.jobs then SameColumns(s.db.jobs[j], w'.jobs[j])
                  else w'.jobs[j].key.None? || KeyFree(s, w'.jobs[j]))
  }

  predicate SameColumns(a: Job, b: Job) {
    a.key == b.key && a.endpoint == b.endpoint
  }

  lemma CompletedFrame(tx: Tx, reply: Reply, outcome: Execution -> Execution)
    requires tx.program.Worker?
    ensures Completed(tx, reply, outcome).writes.executions.Keys <= tx.writes.executions.Keys
    ensures Completed(tx, reply, outcome).writes.jobs == tx.writes.jobs || Completed(tx, reply, outcome).writes == NOTHING
  {
  }

  lemma CompleteFrame(db: Tables, tx: Tx, reply: Reply)
    requires tx.program.Worker? && tx.program.at.Complete?
    ensures WorkerStep(db, tx, reply).writes.executions.Keys <= tx.writes.executions.Keys
    ensures WorkerStep(db, tx, reply).writes.jobs == tx.writes.jobs || WorkerStep(db, tx, reply).writes == NOTHING
  {
    var outcome := if tx.program.at.delivered then CompleteSuccess
                   else if tx.program.attempt < tx.program.limit then
                     (row: Execution) => CompleteRetry(row, tx.began + if reply.Backoff? then reply.ms else 0)
                   else CompleteFailed;
    CompletedFrame(tx, reply, outcome);
    assert WorkerStep(db, tx, reply) == Goto(Completed(tx, reply, outcome), LogOutcome(Called));
    hide WorkerStep, Completed;
  }

  lemma ReadFrame(db: Tables, tx: Tx, reply: Reply)
    requires tx.program.Worker? && Reads(tx.program.at)
    ensures WorkerStep(db, tx, reply).writes == tx.writes || WorkerStep(db, tx, reply).writes == NOTHING
  {
  }

  lemma EarlyFrame(db: Tables, tx: Tx, reply: Reply)
    requires tx.program.Worker?
    requires tx.program.at.CompleteOrphan? || tx.program.at.CompleteUnloaded? || tx.program.at.CompleteRejected?
    ensures WorkerStep(db, tx, reply).writes.executions.Keys <= tx.writes.executions.Keys
    ensures WorkerStep(db, tx, reply).writes.jobs == tx.writes.jobs || WorkerStep(db, tx, reply).writes == NOTHING
  {
    CompletedFrame(tx, reply, CompleteFailed);
    hide Completed, CompleteFailed;
  }

  lemma OtherFrame(db: Tables, tx: Tx, reply: Reply)
    requires tx.program.Worker? && (tx.program.at.RecordAttempt? || tx.program.at.RecordRejected? || tx.program.at.Unschedule?)
    ensures WorkerStep(db, tx, reply).writes.executions.Keys <= tx.writes.executions.Keys
    ensures WorkerStep(db, tx, reply).writes.jobs == tx.writes.jobs || WorkerStep(db, tx, reply).writes == NOTHING
  {
  }

  /** Outside a sweep, a worker writes no row but the one it claimed. */
  lemma WorkerFrame(db: Tables, tx: Tx, reply: Reply)
    requires tx.program.Worker? && !tx.program.at.ReapRows?
    ensures WorkerStep(db, tx, reply).writes.executions.Keys <= tx.writes.executions.Keys
    ensures WorkerStep(db, tx, reply).writes.jobs == tx.writes.jobs || WorkerStep(db, tx, reply).writes == NOTHING
  {
    hide WorkerStep;
    if Reads(tx.program.at) {
      ReadFrame(db, tx, reply);
    } else {
      match tx.program.at
      case Complete(_) => CompleteFrame(db, tx, reply);
      case RecordAttempt(_) => OtherFrame(db, tx, reply);
      case RecordRejected => OtherFrame(db, tx, reply);
      case Unschedule(_) => OtherFrame(db, tx, reply);
      case _ => EarlyFrame(db, tx, reply);
    }
  }

  lemma WorkerTakes(s: State, t: nat, reply: Reply)
    requires t in s.txs && s.txs[t].program.Worker? && WorkerOk(s, s.txs[t]) && StatementEnabled(s, t, reply)
    ensures Takes(s, t, s.txs[t].writes, WorkerStep(s.db, s.txs[t], reply).writes)
  {
    if !s.txs[t].program.at.ReapRows? {
      WorkerFrame(s.db, s.txs[t], reply);
      hide WorkerStep, WorkerOk, StatementEnabled, ExecutionFree, JobFree, KeyFree;
    }
  }

  lemma CreateTakes(s: State, t: nat, reply: Reply)
    requires t in s.txs && s.txs[t].program.Create? && CreateOk(s, s.txs[t]) && StatementEnabled(s, t, reply)
    ensures Takes(s, t, s.txs[t].writes, CreateStep(s.txs[t], reply).writes)
  {
  }

  lemma UpdateTakes(s: State, t: nat, reply: Reply)
    requires t in s.txs && s.txs[t].program.Update? && UpdateOk(s, s.txs[t]) && StatementEnabled(s, t, reply)
    ensures Takes(s, t, s.txs[t].writes, UpdateStep(s.db, s.txs[t], reply).writes)
  {
  }

  lemma CancelTakes(s: State, t: nat, reply: Reply)
    requires t in s.txs && s.txs[t].program.CancelJob? && CancelOk(s, s.txs[t]) && StatementEnabled(s, t, reply)
    ensures Takes(s, t, s.txs[t].writes, CancelStep(s.db, s.txs[t], reply).writes)
  {
  }

  lemma LibraryTakes(s: State, t: nat, reply: Reply)
    requires t in s.txs && s.txs[t].program.LibraryCancel? && LibraryOk(s, s.txs[t]) && StatementEnabled(s, t, reply)
    ensures Takes(s, t, s.txs[t].writes, LibraryStep(s.db, s.txs[t], reply).writes)
  {
  }

  lemma StatementTakes(s: State, t: nat, reply: Reply)
    requires t in s.txs && TxOk(s, s.txs[t]) && StatementEnabled(s, t, reply)
    ensures Takes(s, t, s.txs[t].writes, Advance(s.db, s.txs[t], reply).writes)
  {
    hide StatementEnabled, WorkerOk, CreateOk, UpdateOk, CancelOk, LibraryOk, Takes;
    hide WorkerStep, CreateStep, UpdateStep, CancelStep, LibraryStep;
    match s.txs[t].program
    case Worker(_, _, _, _, _) => WorkerTakes(s, t, reply);
    case Create(_, _) => CreateTakes(s, t, reply);
    case Update(_, _, _, _, _) => UpdateTakes(s, t, reply);
    case CancelJob(_, _, _) => CancelTakes(s, t, reply);
    case LibraryCancel(_, _) => LibraryTakes(s, t, reply);
  }

  lemma TakesKeepsLocks(s: State, t: nat, w': Tables)
    requires t in s.txs && Locked(s.txs) && TxsOk(s) && KeysOk(s.db.jobs) && Takes(s, t, s.txs[t].writes, w')
    ensures forall u <- s.txs :: u != t ==> Apart(w', s.txs[u].writes)
    ensures FreshKeys(s.db, w')
  {
    hide TxOk;
    assert FreshKeys(s.db, s.txs[t].writes);
    forall u <- s.txs | u != t ensures Apart(w', s.txs[u].writes) {
      assert Apart(s.txs[t].writes, s.txs[u].writes);
      assert FreshKeys(s.db, s.txs[u].writes);
    }
  }
}
