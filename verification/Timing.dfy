/** When things may happen: claims, sweeps and ticks against the times the rows give. */
module Timing {
  import opened Tables
  import opened Protocol
  import opened Invariant
  import opened Reachable
  import opened Runs
  import opened Delivery

  // Claims and calls

  /** Every open transaction began in the past. */
  ghost predicate BeganOk(s: State) {
    forall t <- s.txs :: s.txs[t].began <= s.now
  }

  /** At this state the execution waits and its time has come. */
  ghost predicate DueAt(s: State, x: ExecutionId) {
    && x in s.db.executions
    && s.db.executions[x].status in {Pending, Queued, Retrying}
    && s.db.executions[x].runAt <= s.now
  }

  /** The worker's transaction began at an earlier state in which its execution was due, and it
      is about the next attempt of that state. */
  ghost predicate ClaimedWhenDue(states: seq<State>, k: nat, tx: Tx)
    requires tx.program.Worker?
  {
    exists i: nat ::
      && i <= k && i < |states| && DueAt(states[i], tx.program.execution) && tx.began == states[i].now
      && tx.program.attempt == states[i].db.executions[tx.program.execution].attempts + 1
  }

  ghost predicate WorkersDue(states: seq<State>, k: nat)
    requires k < |states|
  {
    forall t <- states[k].txs :: states[k].txs[t].program.Worker? ==> ClaimedWhenDue(states, k, states[k].txs[t])
  }

  /** An open worker after an event was one before, or has just claimed a due execution. */
  lemma WorkerCameFrom(s: State, e: Event, t: nat)
    requires Enabled(s, e) && t in Apply(s, e).txs && Apply(s, e).txs[t].program.Worker?
    ensures var tx := Apply(s, e).txs[t];
            || (t in s.txs && s.txs[t].program.Worker? && s.txs[t].began == tx.began
                && s.txs[t].program.execution == tx.program.execution && s.txs[t].program.attempt == tx.program.attempt)
            || (DueAt(s, tx.program.execution) && tx.began == s.now
                && tx.program.attempt == s.db.executions[tx.program.execution].attempts + 1)
  {
    hide AfterCommit, StatementEnabled, TickEnabled, KeyFree, CancelUnderway, WorkerStep, CreateStep, UpdateStep, CancelStep, LibraryStep;
    match e
    case Commit(u) => AfterCommitTxs(s, u);
    case Statement(u, reply) =>
      if !s.txs[u].program.Worker? {
        OthersStay(s.db, s.txs[u], reply);
      }
    case _ =>
  }

  lemma EventBegan(s: State, e: Event)
    requires BeganOk(s) && Enabled(s, e)
    ensures BeganOk(Apply(s, e))
  {
    hide AfterCommit, StatementEnabled, TickEnabled, KeyFree, CancelUnderway, Advance;
    match e
    case Commit(u) =>
      AfterCommitTxs(s, u);
      CommitKeepsTime(s, u);
    case Statement(u, reply) => StatementBegan(s.db, s.txs[u], reply);
    case _ =>
  }

  lemma CommitKeepsTime(s: State, t: nat)
    requires t in s.txs
    ensures AfterCommit(s, t).now == s.now
  {
    hide CommittedWrites, Over;
  }

  lemma StatementBegan(db: Tables, tx: Tx, reply: Reply)
    ensures Advance(db, tx, reply).began == tx.began
  {
    hide WorkerStep;
  }

  lemma {:induction false} HistoryBegan(states: seq<State>, k: nat)
    requires History(states) && k < |states|
    ensures BeganOk(states[k])
  {
    if k > 0 {
      HistoryBegan(states, k - 1);
      assert Next(states[k - 1], states[k]);
      hide BeganOk;
      NextBegan(states[k - 1], states[k]);
    }
  }

  lemma NextBegan(s: State, s': State)
    requires BeganOk(s) && Next(s, s')
    ensures BeganOk(s')
  {
    hide BeganOk;
    var e: Event :| Enabled(s, e) && s' == Apply(s, e);
    EventBegan(s, e);
  }

  lemma {:induction false} HistoryWorkersDue(states: seq<State>, k: nat)
    requires History(states) && k < |states|
    ensures WorkersDue(states, k)
  {
    if k > 0 {
      HistoryWorkersDue(states, k - 1);
      assert Next(states[k - 1], states[k]);
      StepWorkersDue(states, k);
    } else {
      InitNoWorkers(states[0]);
    }
  }

  lemma InitNoWorkers(s: State)
    requires Init(s)
    ensures s.txs == map[]
  {
  }

  lemma StepWorkersDue(states: seq<State>, k: nat)
    requires 0 < k < |states| && Next(states[k - 1], states[k]) && WorkersDue(states, k - 1)
    ensures WorkersDue(states, k)
  {
    var e: Event :| Enabled(states[k - 1], e) && states[k] == Apply(states[k - 1], e);
    hide Apply, Enabled, DueAt;
    forall t <- states[k].txs | states[k].txs[t].program.Worker? ensures ClaimedWhenDue(states, k, states[k].txs[t]) {
      WorkerCameFrom(states[k - 1], e, t);
      if t in states[k - 1].txs && states[k - 1].txs[t].program.Worker? {
        assert ClaimedWhenDue(states, k - 1, states[k - 1].txs[t]);
      }
    }
  }

  /** No execution is called before its time: a worker makes its call only for an execution that
      waited, with its time come, at the earlier moment at which the worker began. */
  lemma CallsAreDue(states: seq<State>, k: nat, x: ExecutionId)
    requires History(states) && k + 1 < |states| && states[k + 1].dispatches == states[k].dispatches + [x]
    ensures exists i: nat :: i <= k && DueAt(states[i], x) && states[i].now <= states[k].now
  {
    HistoryWorkersDue(states, k);
    HistoryBegan(states, k);
    assert Next(states[k + 1 - 1], states[k + 1]);
    var t := Caller(states[k], states[k + 1], x);
    hide History;
    assert ClaimedWhenDue(states, k, states[k].txs[t]);
  }

  lemma Caller(s: State, s': State, x: ExecutionId) returns (t: nat)
    requires Next(s, s') && s'.dispatches == s.dispatches + [x]
    ensures t in s.txs && s.txs[t].program.Worker? && s.txs[t].program.execution == x
  {
    var e: Event :| Enabled(s, e) && s' == Apply(s, e);
    hide AfterCommit, StatementEnabled, BeginEnabled, TickEnabled, KeyFree, CancelUnderway, Advance;
    assert s.dispatches != s.dispatches + [x];
    match e
    case Statement(u, _) =>
      t := u;
      assert (s.dispatches + [x])[|s.dispatches|] == x;
    case Commit(u) =>
      AfterCommitDispatches(s, u);
      assert false;
    case _ => assert false;
  }

  // Sweeps

  /** A worker's commit retires a job only if it is a CRON job whose end date has passed. */
  lemma SweptOnlyAfterTheirEnd(states: seq<State>, k: nat, t: nat, j: JobId)
    requires History(states) && k < |states| && Enabled(states[k], Commit(t)) && states[k].txs[t].program.Worker?
    requires j in states[k].db.jobs && j in AfterCommit(states[k], t).db.jobs
    requires states[k].db.jobs[j].status == Active && AfterCommit(states[k], t).db.jobs[j].status == Retired
    ensures var row := states[k].db.jobs[j];
            row.trigger == Cron && row.endsAt.Some? && row.endsAt.value <= states[k].now
  {
    var s := states[k];
    HistoryInv(states, k);
    HistoryBegan(states, k);
    hide History, DbOk, Locked, AnswersOk;
    AfterCommitTables(s, t);
    assert TxOk(s, s.txs[t]);
    hide AfterCommit;
  }

  // Ticks

  /** The execution of a tick lies in the window of its job. */
  ghost predicate InWindow(s: State, x: ExecutionId)
    requires x in s.db.executions
  {
    var row := s.db.executions[x];
    row.key.TickAt? ==>
      && row.key.millisecond <= s.now && row.job in s.db.jobs
      && var job := s.db.jobs[row.job];
         && job.trigger == Cron
         && (job.startsAt.Some? ==> job.startsAt.value <= row.key.millisecond)
         && (job.endsAt.Some? ==> row.key.millisecond < job.endsAt.value)
  }

  ghost predicate WindowsOk(s: State) {
    forall x <- s.db.executions :: InWindow(s, x)
  }

  lemma CommitInsertsGiven(s: State, t: nat, x: ExecutionId)
    requires Inv(s) && Enabled(s, Commit(t)) && !s.txs[t].aborted
    ensures x in CommittedWrites(s.db, s.txs[t]).executions && x !in s.db.executions ==>
              CommittedWrites(s.db, s.txs[t]).executions[x].key.Given?
  {
    hide DbOk, Locked, AnswersOk, FreshKeys, StatementEnabled;
    assert TxOk(s, s.txs[t]);
  }

  lemma InsertedInWindow(s: State, e: Event, x: ExecutionId)
    requires Inv(s) && Enabled(s, e) && x in Apply(s, e).db.executions && x !in s.db.executions
    ensures InWindow(Apply(s, e), x)
  {
    hide Inv, AfterCommit, Advance, StatementEnabled, BeginEnabled, KeyFree, CancelUnderway;
    match e
    case Commit(t) =>
      AfterCommitTables(s, t);
      if !s.txs[t].aborted {
        CommitInsertsGiven(s, t, x);
      }
    case Tick(j, y, limit) => ScheduledIsCron(s, j);
    case _ =>
  }

  lemma ScheduledIsCron(s: State, j: JobId)
    requires Inv(s) && Scheduled(s.db, j)
    ensures j in s.db.jobs && s.db.jobs[j].trigger == Cron && s.db.jobs[j].status == Active
  {
    hide TxsOk, Locked, AnswersOk, ExecutionsOk, KeysOk, DistinctOk, OneShotOk, SettledOk;
    assert JobOk(s.db, j);
  }

  lemma NextInWindow(s: State, s': State)
    requires Inv(s) && WindowsOk(s) && Next(s, s')
    ensures WindowsOk(s')
  {
    NextProgress(s, s');
    var e: Event :| Enabled(s, e) && s' == Apply(s, e);
    TimeRuns(s, e);
    hide Inv, Enabled, Apply;
    forall x <- s'.db.executions ensures InWindow(s', x) {
      if x in s.db.executions {
        assert InWindow(s, x);
      } else {
        InsertedInWindow(s, e, x);
      }
    }
  }

  lemma TimeRuns(s: State, e: Event)
    requires Enabled(s, e)
    ensures s.now <= Apply(s, e).now
  {
    hide StatementEnabled, BeginEnabled, TickEnabled, KeyFree, CancelUnderway, Advance;
    if e.Commit? {
      CommitKeepsTime(s, e.tx);
    }
    hide AfterCommit;
  }

  /** A CRON job gets executions only between its start and its end: the end date is obeyed
      tick by tick, however late the sweep comes. */
  lemma {:induction false} TicksStayInWindow(states: seq<State>, k: nat)
    requires History(states) && k < |states|
    ensures WindowsOk(states[k])
  {
    hide Inv, WindowsOk;
    if k == 0 {
      InitWindows(states[0]);
    } else {
      TicksStayInWindow(states, k - 1);
      HistoryInv(states, k - 1);
      assert Next(states[k - 1], states[k]);
      NextInWindow(states[k - 1], states[k]);
    }
  }

  lemma InitWindows(s: State)
    requires Init(s)
    ensures WindowsOk(s)
  {
  }
}
