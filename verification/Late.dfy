/** Exactly when a retired one-shot job keeps an execution that can still be claimed: when the
    library inserts the execution while a cancel of its job is under way, or after it. */
module Late {
  import opened Tables
  import opened Protocol
  import opened Invariant
  import opened Commits
  import opened Reachable
  import opened Runs
  import opened Safety
  import opened Witnesses

  /** A RETIRED job with an execution that a worker can still claim for the first time. */
  predicate Orphan(s: State, j: JobId, x: ExecutionId) {
    && j in s.db.jobs && s.db.jobs[j].status == Retired
    && x in s.db.executions && s.db.executions[x].job == j && Cancellable(s.db.executions[x].status)
  }

  /** The executions a cancel has selected and not yet looked at. */
  function RowsOf(p: Program): set<ExecutionId> {
    if p.CancelJob? && p.stage.CancelRows? then p.stage.rows
    else if p.LibraryCancel? && p.rest.LibraryRows? then p.rest.rows
    else {}
  }

  ghost predicate LateOk(s: State) {
    && (forall t <- s.txs :: RowsOf(s.txs[t].program) <= s.db.executions.Keys)
    && (forall j <- s.late :: j in s.db.jobs && j !in s.bare)
  }

  lemma StatementRows(db: Tables, tx: Tx, reply: Reply)
    requires RowsOf(tx.program) <= db.executions.Keys
    ensures RowsOf(Advance(db, tx, reply).program) <= db.executions.Keys
  {
    hide WorkerStep;
  }

  lemma EventRows(s: State, e: Event)
    requires LateOk(s) && Enabled(s, e) && s.db.executions.Keys <= Apply(s, e).db.executions.Keys
    ensures forall t <- Apply(s, e).txs :: RowsOf(Apply(s, e).txs[t].program) <= Apply(s, e).db.executions.Keys
  {
    hide AfterCommit, Advance, StatementEnabled, TickEnabled, KeyFree, CancelUnderway;
    match e
    case Commit(t) => AfterCommitTxs(s, t);
    case Statement(t, reply) => StatementRows(s.db, s.txs[t], reply);
    case _ =>
  }

  lemma EventLate(s: State, e: Event)
    requires LateOk(s) && Inv(s) && Enabled(s, e) && s.db.jobs.Keys <= Apply(s, e).db.jobs.Keys
    ensures forall j <- Apply(s, e).late :: j in Apply(s, e).db.jobs && j !in Apply(s, e).bare
  {
    hide AfterCommit, Advance, StatementEnabled, TickEnabled, KeyFree, CancelUnderway;
    hide JobsOk, ExecutionsOk, KeysOk, DistinctOk, SettledOk, TxsOk, Locked, AnswersOk, RowsOf, HasExecution;
    if e.Commit? {
      AfterCommitTables(s, e.tx);
    }
  }

  lemma NextLate(s: State, s': State)
    requires LateOk(s) && Inv(s) && Next(s, s')
    ensures LateOk(s')
  {
    NextProgress(s, s');
    hide Inv;
    var e: Event :| Enabled(s, e) && s' == Apply(s, e);
    hide Enabled, Apply, RowsOf;
    EventRows(s, e);
    EventLate(s, e);
  }

  lemma {:induction false} HistoryLate(states: seq<State>, i: nat)
    requires History(states) && i < |states|
    ensures LateOk(states[i])
  {
    hide LateOk, Inv;
    if i == 0 {
      InitLate(states[0]);
    } else {
      HistoryLate(states, i - 1);
      HistoryInv(states, i - 1);
      assert Next(states[i - 1], states[i]);
      NextLate(states[i - 1], states[i]);
    }
  }

  lemma InitLate(s: State)
    requires Init(s)
    ensures LateOk(s)
  {
  }

  // Where no cancel is under way

  /** The job's execution has been inserted in time. */
  ghost predicate InTime(s: State, j: JobId) {
    j in s.db.jobs && j !in s.bare && j !in s.late
  }

  lemma EventInTime(s: State, e: Event, j: JobId)
    requires Enabled(s, e) && InTime(s, j)
    ensures j !in Apply(s, e).bare && j !in Apply(s, e).late
  {
    hide AfterCommit, Advance, StatementEnabled, BeginEnabled, TickEnabled, KeyFree, CancelUnderway;
    if e.Commit? {
      AfterCommitTables(s, e.tx);
    }
  }

  lemma StaysInTime(s: State, s': State, j: JobId)
    requires Inv(s) && Next(s, s') && InTime(s, j)
    ensures InTime(s', j)
  {
    hide Inv, ExecutionsProgress, Evolves;
    NextProgress(s, s');
    var e: Event :| Enabled(s, e) && s' == Apply(s, e);
    hide Enabled, Apply;
    EventInTime(s, e, j);
  }

  lemma {:induction false} RunInTime(states: seq<State>, n: nat, j: JobId, x: ExecutionId)
    requires Run(states) && Inv(states[0]) && n < |states| && InTime(states[0], j) && IsOneShot(states[0].db.jobs, j)
    ensures Inv(states[n]) && InTime(states[n], j) && IsOneShot(states[n].db.jobs, j)
  {
    hide Inv, InTime;
    RunKeepsFrom(states, n);
    if n > 0 {
      RunInTime(states, n - 1, j, x);
      assert Next(states[n - 1], states[n]);
      StaysInTime(states[n - 1], states[n], j);
      NextProgress(states[n - 1], states[n]);
      hide Next, Run, ExecutionsProgress;
    }
  }

  lemma InTimeIsSettled(s: State, j: JobId, x: ExecutionId)
    requires Inv(s) && InTime(s, j) && IsOneShot(s.db.jobs, j)
    ensures !Orphan(s, j, x)
  {
    hide TxsOk, Locked, AnswersOk, JobsOk, ExecutionsOk, KeysOk, DistinctOk, OneShotOk;
    assert x in s.db.executions ==> Settled(s.db.executions[x], s.db.jobs, s.late);
  }

  lemma NeverOrphan(s: State, s': State, j: JobId, x: ExecutionId)
    requires Inv(s) && InTime(s, j) && IsOneShot(s.db.jobs, j) && Reaches(s, s')
    ensures !Orphan(s', j, x)
  {
    hide Inv, InTime, Orphan;
    var states :| Run(states) && states[0] == s && states[|states| - 1] == s';
    RunInTime(states, |states| - 1, j, x);
    InTimeIsSettled(s', j, x);
  }

  // Where one is

  /** Every other transaction may vanish. */
  lemma ClearOthers(s: State, s1: State, t: nat) returns (s': State)
    requires Reaches(s, s1) && t in s1.txs
    ensures Reaches(s, s') && s'.db == s1.db && s'.txs == map[t := s1.txs[t]]
    decreases |s1.txs.Keys - {t}|
  {
    if s1.txs.Keys == {t} {
      assert s1.txs == map[t := s1.txs[t]];
      s' := s1;
    } else {
      assert exists u <- s1.txs :: u != t;
      var u :| u in s1.txs && u != t;
      var s2 := VanishNow(s, s1, u);
      assert s2.txs.Keys - {t} == (s1.txs.Keys - {t}) - {u};
      hide Reaches;
      s' := ClearOthers(s, s2, t);
    }
  }

  lemma VanishNow(s: State, s1: State, u: nat) returns (s': State)
    requires Reaches(s, s1) && u in s1.txs
    ensures Reaches(s, s') && s'.db == s1.db && s'.txs == s1.txs - {u} && s'.now == s1.now
  {
    hide Reaches, AfterCommit, Advance;
    s' := Apply(s1, Vanish(u));
    assert Enabled(s1, Vanish(u));
    hide Enabled, Apply;
    ReachesNext(s, s1, Vanish(u));
  }

  /** A cancel alone with its selected rows, none of which is `x`. */
  ghost predicate Alone(s1: State, t: nat, tx: Tx, x: ExecutionId) {
    s1.txs.Keys <= {t} && !tx.aborted && x !in RowsOf(tx.program) && x !in tx.writes.executions
  }

  lemma CancelOneRow(s: State, s1: State, t: nat, tx: Tx, x: ExecutionId, id: ExecutionId) returns (tx': Tx)
    requires Reaches(s, With(s1, t, tx)) && Alone(s1, t, tx, x) && id in RowsOf(tx.program)
    ensures Reaches(s, With(s1, t, tx')) && Alone(s1, t, tx', x) && tx'.writes.jobs == tx.writes.jobs
    ensures RowsOf(tx'.program) == RowsOf(tx.program) - {id}
    ensures tx.program.CancelJob? ==> tx'.program == tx.program.(stage := CancelRows(RowsOf(tx'.program)))
    ensures tx.program.LibraryCancel? ==> tx'.program == tx.program.(rest := LibraryRows(RowsOf(tx'.program)))
  {
    hide Reaches, WorkerStep, CreateStep, UpdateStep;
    assert StatementEnabled(With(s1, t, tx), t, Row(id));
    StepTx(s, s1, t, tx, Row(id));
    tx' := Advance(s1.db, tx, Row(id));
  }

  lemma CancelAllRows(s: State, s1: State, t: nat, tx: Tx, x: ExecutionId) returns (tx': Tx)
    requires Reaches(s, With(s1, t, tx)) && Alone(s1, t, tx, x)
    requires (tx.program.CancelJob? && tx.program.stage.CancelRows?) || (tx.program.LibraryCancel? && tx.program.rest.LibraryRows?)
    ensures Reaches(s, With(s1, t, tx')) && Alone(s1, t, tx', x) && tx'.writes.jobs == tx.writes.jobs
    ensures tx'.program == if tx.program.CancelJob? then tx.program.(stage := CancelRows({})) else tx.program.(rest := LibraryRows({}))
    decreases |RowsOf(tx.program)|
  {
    hide Reaches, Alone;
    if RowsOf(tx.program) == {} {
      tx' := tx;
    } else {
      var id :| id in RowsOf(tx.program);
      var next := CancelOneRow(s, s1, t, tx, x, id);
      tx' := CancelAllRows(s, s1, t, next, x);
    }
  }

  lemma SelectedDone(s: State, s1: State, t: nat, tx: Tx, x: ExecutionId) returns (tx': Tx)
    requires Reaches(s, With(s1, t, tx)) && Alone(s1, t, tx, x)
    requires tx.program.CancelJob? && tx.program.stage == CancelRows({})
    ensures Reaches(s, With(s1, t, tx')) && Alone(s1, t, tx', x) && tx'.writes == tx.writes
    ensures tx'.program == tx.program.(stage := RetireJob)
  {
    hide Reaches, WorkerStep, CreateStep, UpdateStep, LibraryStep;
    StepTx(s, s1, t, tx, Ok);
    tx' := Advance(s1.db, tx, Ok);
  }

  lemma RetireDone(s: State, s1: State, t: nat, tx: Tx, x: ExecutionId) returns (tx': Tx)
    requires Reaches(s, With(s1, t, tx)) && Alone(s1, t, tx, x)
    requires tx.program.CancelJob? && tx.program.stage == RetireJob && tx.program.trigger != Cron
    requires tx.program.target in s1.db.jobs && s1.db.jobs[tx.program.target].status == Active
    ensures Reaches(s, With(s1, t, tx')) && Alone(s1, t, tx', x) && tx'.program == tx.program.(stage := CancelDone)
    ensures tx.program.target in tx'.writes.jobs && tx'.writes.jobs[tx.program.target].status == Retired
  {
    hide Reaches, WorkerStep, CreateStep, UpdateStep, LibraryStep;
    StepTx(s, s1, t, tx, Ok);
    tx' := Advance(s1.db, tx, Ok);
  }

  /** A cancel of an ACTIVE one-shot job that has selected its rows runs to its end, and
      leaves an execution it has not selected as it is. */
  lemma FinishCancel(s: State, s1: State, t: nat, tx: Tx, j: JobId, x: ExecutionId) returns (s': State)
    requires Reaches(s, With(s1, t, tx)) && Alone(s1, t, tx, x) && Selected(tx.program, j) && tx.program.CancelJob?
    requires tx.program.trigger != Cron && j in s1.db.jobs && s1.db.jobs[j].status == Active
    requires tx.program.stage.CancelDone? ==> j in tx.writes.jobs && tx.writes.jobs[j].status == Retired
    requires x in s1.db.executions
    ensures Reaches(s, s') && j in s'.db.jobs && s'.db.jobs[j].status == Retired
    ensures x in s'.db.executions && s'.db.executions[x] == s1.db.executions[x]
  {
    hide Reaches;
    var last := tx;
    if last.program.stage.CancelRows? {
      last := CancelAllRows(s, s1, t, last, x);
      last := SelectedDone(s, s1, t, last, x);
    }
    if last.program.stage.RetireJob? {
      last := RetireDone(s, s1, t, last, x);
    }
    s' := CommitTx(s, s1, t, last);
  }

  lemma FinishLibraryCancel(s: State, s1: State, t: nat, tx: Tx, j: JobId, x: ExecutionId) returns (s': State)
    requires Reaches(s, With(s1, t, tx)) && Alone(s1, t, tx, x) && Selected(tx.program, j) && tx.program.LibraryCancel?
    requires j in s1.db.jobs && s1.db.jobs[j].status == Active && tx.writes.jobs == map[] && x in s1.db.executions
    ensures Reaches(s, s') && j in s'.db.jobs && s'.db.jobs[j].status == Retired
    ensures x in s'.db.executions && s'.db.executions[x] == s1.db.executions[x]
  {
    hide Reaches;
    if tx.program.rest.LibraryRows? {
      var done := CancelAllRows(s, s1, t, tx, x);
      var s2 := CommitTx(s, s1, t, done);
      RowsCommitted(s1.db, done, x);
      var rest := done.(program := LibraryCancel(j, LibraryRetire), writes := NOTHING);
      assert s2 == With(s2, t, rest);
      s' := FinishLibraryRetire(s, s2, t, rest, j, x);
    } else {
      s' := FinishLibraryRetire(s, s1, t, tx, j, x);
    }
  }

  lemma RowsCommitted(db: Tables, tx: Tx, x: ExecutionId)
    requires Remains(tx) && !tx.aborted && tx.writes.jobs == map[] && x !in tx.writes.executions
    ensures Over(db, CommittedWrites(db, tx)).jobs == db.jobs
    ensures x in db.executions ==> x in Over(db, CommittedWrites(db, tx)).executions
                                   && Over(db, CommittedWrites(db, tx)).executions[x] == db.executions[x]
  {
  }

  lemma FinishLibraryRetire(s: State, s1: State, t: nat, tx: Tx, j: JobId, x: ExecutionId) returns (s': State)
    requires Reaches(s, With(s1, t, tx)) && Alone(s1, t, tx, x) && tx.program == LibraryCancel(j, LibraryRetire)
    requires j in s1.db.jobs && s1.db.jobs[j].status == Active && x in s1.db.executions
    ensures Reaches(s, s') && j in s'.db.jobs && s'.db.jobs[j].status == Retired
    ensures x in s'.db.executions && s'.db.executions[x] == s1.db.executions[x]
  {
    hide Reaches;
    s' := CommitTx(s, s1, t, tx);
  }

  /** What the invariant says of a cancel that has selected its rows. */
  lemma SelectedFacts(s: State, t: nat, j: JobId)
    requires Inv(s) && t in s.txs && Selected(s.txs[t].program, j) && IsOneShot(s.db.jobs, j)
    ensures var tx := s.txs[t];
            && !tx.aborted && (tx.program.CancelJob? ==> tx.program.trigger != Cron)
            && (tx.program.LibraryCancel? ==> tx.writes.jobs == map[])
            && (tx.program.CancelJob? && tx.program.stage.CancelDone? ==> j in tx.writes.jobs && tx.writes.jobs[j].status == Retired)
  {
    hide DbOk, Locked, AnswersOk, Covered;
    assert TxOk(s, s.txs[t]);
  }

  lemma OrphanReached(s: State, t: nat, j: JobId, x: ExecutionId) returns (s': State)
    requires Inv(s) && t in s.txs && Selected(s.txs[t].program, j) && IsOneShot(s.db.jobs, j)
    requires s.db.jobs[j].status == Active && x in s.db.executions && s.db.executions[x].job == j
    requires Cancellable(s.db.executions[x].status)
    requires x !in RowsOf(s.txs[t].program) && x !in s.txs[t].writes.executions
    ensures Reaches(s, s') && Orphan(s', j, x)
  {
    hide Inv, Reaches, Orphan, Alone, RowsOf, Cancellable;
    SelectedFacts(s, t, j);
    ReachesSelf(s);
    var tx := s.txs[t];
    var s1 := ClearOthers(s, s, t);
    assert s1 == With(s1, t, tx);
    IsAlone(s1, t, tx, x);
    assert tx.program.CancelJob? || tx.program.LibraryCancel?;
    hide Selected, IsOneShot;
    if tx.program.CancelJob? {
      s' := FinishCancel(s, s1, t, tx, j, x);
    } else {
      s' := FinishLibraryCancel(s, s1, t, tx, j, x);
    }
    IsOrphan(s, s', j, x);
  }

  lemma IsAlone(s1: State, t: nat, tx: Tx, x: ExecutionId)
    requires s1.txs == map[t := tx] && !tx.aborted && x !in RowsOf(tx.program) && x !in tx.writes.executions
    ensures Alone(s1, t, tx, x)
  {
  }

  lemma IsOrphan(s: State, s': State, j: JobId, x: ExecutionId)
    requires x in s.db.executions && s.db.executions[x].job == j && Cancellable(s.db.executions[x].status)
    requires j in s'.db.jobs && s'.db.jobs[j].status == Retired
    requires x in s'.db.executions && s'.db.executions[x] == s.db.executions[x]
    ensures Orphan(s', j, x)
  {
  }

  // The two together

  ghost predicate CanBeOrphan(s: State, j: JobId, x: ExecutionId) {
    exists s': State :: Reaches(s, s') && Orphan(s', j, x)
  }

  /** After the library has inserted the execution of a job, a state in which the job is
      RETIRED and that execution still claimable can be reached if and only if, at the insert,
      the job was already RETIRED or a cancel of it had selected its rows. */
  lemma OrphanExactly(states: seq<State>, i: nat, j: JobId, x: ExecutionId)
    requires History(states) && i < |states| && Enabled(states[i], LibraryExecution(j, x))
    ensures CanBeOrphan(Apply(states[i], LibraryExecution(j, x)), j, x) <==> CancelUnderway(states[i], j)
  {
    var s := states[i];
    hide Inv, LateOk;
    HistoryInv(states, i);
    HistoryLate(states, i);
    hide History;
    EventKeeps(s, LibraryExecution(j, x));
    BareFacts(s, j);
    var s1 := Apply(s, LibraryExecution(j, x));
    Inserted(s, j, x);
    if CancelUnderway(s, j) {
      UnderwayOrphans(s, s1, j, x);
    } else if CanBeOrphan(s1, j, x) {
      hide Apply, Enabled, Orphan;
      var s' :| Reaches(s1, s') && Orphan(s', j, x);
      NeverOrphan(s1, s', j, x);
    }
  }

  lemma BareFacts(s: State, j: JobId)
    requires Inv(s) && LateOk(s) && j in s.bare
    ensures IsOneShot(s.db.jobs, j) && j !in s.late
  {
    hide TxsOk, Locked, AnswersOk, JobsOk, ExecutionsOk, KeysOk, DistinctOk, SettledOk, RowsOf;
  }

  lemma Inserted(s: State, j: JobId, x: ExecutionId)
    requires Enabled(s, LibraryExecution(j, x))
    ensures var s1 := Apply(s, LibraryExecution(j, x));
            && s1.txs == s.txs && s1.db.jobs == s.db.jobs && j !in s1.bare
            && x in s1.db.executions && s1.db.executions[x].job == j && Cancellable(s1.db.executions[x].status)
            && (!CancelUnderway(s, j) ==> s1.late == s.late)
  {
    hide CancelUnderway;
  }

  lemma UnderwayOrphans(s: State, s1: State, j: JobId, x: ExecutionId)
    requires Inv(s1) && LateOk(s) && CancelUnderway(s, j) && IsOneShot(s1.db.jobs, j) && NewExecutionId(s, x)
    requires s1.txs == s.txs && s1.db.jobs == s.db.jobs && x in s1.db.executions
    requires s1.db.executions[x].job == j && Cancellable(s1.db.executions[x].status)
    ensures CanBeOrphan(s1, j, x)
  {
    hide Inv, Reaches;
    if s1.db.jobs[j].status == Retired {
      ReachesSelf(s1);
      assert Orphan(s1, j, x);
    } else {
      var t :| t in s.txs && Selected(s.txs[t].program, j);
      var s' := OrphanReached(s1, t, j, x);
    }
  }

  /** And there is no other way: when a RETIRED one-shot job has a PENDING or QUEUED execution,
      the library inserted an execution of that job earlier in the run, with a cancel under
      way or done. */
  lemma {:induction false} LateWasInserted(states: seq<State>, i: nat, j: JobId)
    requires History(states) && i < |states| && j in states[i].late
    ensures exists k: nat, y: ExecutionId :: k < i && InsertedLate(states, k, j, y)
  {
    hide History, Inv;
    if i > 0 && j in states[i - 1].late {
      LateWasInserted(states, i - 1, j);
    } else {
      FirstLate(states, i, j);
    }
  }

  ghost predicate InsertedLate(states: seq<State>, k: nat, j: JobId, y: ExecutionId) {
    && k + 1 < |states| && Enabled(states[k], LibraryExecution(j, y))
    && states[k + 1] == Apply(states[k], LibraryExecution(j, y)) && CancelUnderway(states[k], j)
  }

  lemma FirstLate(states: seq<State>, i: nat, j: JobId)
    requires History(states) && i < |states| && j in states[i].late && (i > 0 ==> j !in states[i - 1].late)
    ensures exists k: nat, y: ExecutionId :: k < i && InsertedLate(states, k, j, y)
  {
    assert i > 0;
    assert Next(states[i - 1], states[i]);
    var e: Event :| Enabled(states[i - 1], e) && states[i] == Apply(states[i - 1], e);
    LateOnlyByLibrary(states[i - 1], e);
    LateIs(states[i - 1], e, j);
    assert InsertedLate(states, i - 1, j, e.execution);
  }

  lemma LateIs(s: State, e: Event, j: JobId)
    requires Enabled(s, e) && e.LibraryExecution? && j in Apply(s, e).late && j !in s.late
    ensures j == e.job
  {
    hide CancelUnderway;
  }

  lemma OrphanWasInsertedLate(states: seq<State>, i: nat, j: JobId, x: ExecutionId)
    requires History(states) && i < |states| && Orphan(states[i], j, x) && states[i].db.jobs[j].trigger != Cron
    ensures exists k: nat :: k < i && InsertedLate(states, k, j, x)
  {
    hide History;
    RetiredHasNothingPending(states, i, x);
    LateWasInserted(states, i, j);
    var k: nat, y: ExecutionId :| k < i && InsertedLate(states, k, j, y);
    Inserted(states[k], j, y);
    hide Enabled, Apply, CancelUnderway;
    ExecutionHistory(states, k + 1, i, y);
    ExactlyOneExecution(states, i, j);
    assert InsertedLate(states, k, j, x);
  }
}
