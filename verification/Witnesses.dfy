/** Runs that show what the service does not promise. */
module Witnesses {
  import opened Wrappers
  import opened Tables
  import opened Protocol
  import opened Invariant
  import opened Reachable
  import opened Runs
  import opened Versions

  /** The state in which transaction `t` stands at `tx`. */
  function With(s: State, t: nat, tx: Tx): State {
    s.(txs := s.txs[t := tx])
  }

  lemma StepTx(s: State, s1: State, t: nat, tx: Tx, reply: Reply)
    requires Reaches(s, With(s1, t, tx)) && StatementEnabled(With(s1, t, tx), t, reply)
    requires tx.program.Worker? ==> !tx.program.at.Dispatch?
    ensures Reaches(s, With(s1, t, Advance(s1.db, tx, reply)))
  {
    hide Reaches, StatementEnabled, Advance, AfterCommit;
    var a := With(s1, t, tx);
    assert Enabled(a, Statement(t, reply));
    assert a.txs[t := Advance(s1.db, tx, reply)] == s1.txs[t := Advance(s1.db, tx, reply)];
    assert Apply(a, Statement(t, reply)) == With(s1, t, Advance(s1.db, tx, reply));
    ReachesNext(s, a, Statement(t, reply));
  }

  predicate Remains(tx: Tx) {
    tx.program.LibraryCancel? && tx.program.rest.LibraryRows?
  }

  lemma CommitTx(s: State, s1: State, t: nat, tx: Tx) returns (s': State)
    requires Reaches(s, With(s1, t, tx)) && !tx.aborted && Ready(tx.program)
    requires tx.program.LibraryCancel? ==> JobFree(s1, t, tx.program.target)
    ensures Reaches(s, s') && s'.db == Over(s1.db, CommittedWrites(s1.db, tx)) && s'.bare == s1.bare
    ensures s'.txs == if Remains(tx) then s1.txs[t := tx.(program := LibraryCancel(tx.program.target, LibraryRetire), writes := NOTHING)]
                      else s1.txs - {t}
    ensures s'.now == s1.now
  {
    hide Reaches, AfterCommit, Advance, CommittedWrites, Over;
    var a := With(s1, t, tx);
    assert Enabled(a, Commit(t));
    s' := Apply(a, Commit(t));
    ReachesNext(s, a, Commit(t));
    AfterCommitTables(a, t);
    AfterCommitTxs(a, t);
    AfterCommitNow(a, t);
    assert a.txs - {t} == s1.txs - {t};
  }

  lemma AfterCommitNow(s: State, t: nat)
    requires t in s.txs
    ensures AfterCommit(s, t).now == s.now
  {
    hide CommittedWrites, Over;
  }

  // Two updates of one version

  /** What an update leaves behind when it commits. */
  ghost predicate Updated(s: State, s': State, t: nat, p: JobId, n: JobId, row: Job) {
    && s'.txs == s.txs - {t}
    && s'.db.jobs == s.db.jobs + RetiredPrior(s.db, p)[n := row]
  }

  function UpdateTx(p: Program, phase: UpdatePoint, w: Tables, began: int): Tx
    requires p.Update?
  {
    Tx(p.(phase := phase), w, false, began)
  }

  /** An update that has read the job before now runs to its commit, whatever became of the
      job in between. */
  lemma RunUpdate(s: State, t: nat, tx: Tx, n: JobId) returns (s': State)
    requires t in s.txs && s.txs[t] == tx && tx.program.Update? && tx.program.phase.RetireOld?
    requires tx.writes == NOTHING && !tx.aborted && tx.program.prior in s.db.jobs
    requires JobFree(s, t, tx.program.prior) && NewJobId(s, n)
    ensures Reaches(s, s') && Updated(s, s', t, tx.program.prior, n, NextVersion(tx.program))
  {
    hide Reaches;
    var p := tx.program;
    ReachesSelf(s);
    assert s == With(s, t, tx);
    StepTx(s, s, t, tx, Ok);
    var tx1 := Advance(s.db, tx, Ok);
    assert tx1 == UpdateTx(p, InsertNew, NOTHING.(jobs := RetiredPrior(s.db, p.prior)), tx.began);
    assert NewJobId(With(s, t, tx1), n) by { OwnRowsFree(s, t, tx1, n, p.prior); }
    s' := RunUpdateRest(s, t, p, tx1, n);
  }

  lemma OwnRowsFree(s: State, t: nat, tx: Tx, n: JobId, p: JobId)
    requires NewJobId(s, n) && p in s.db.jobs && tx.writes.jobs.Keys <= {p}
    ensures NewJobId(With(s, t, tx), n)
  {
  }

  lemma RunUpdateRest(s: State, t: nat, p: Program, tx1: Tx, n: JobId) returns (s': State)
    requires p.Update? && p.prior in s.db.jobs && NewJobId(With(s, t, tx1), n)
    requires tx1 == UpdateTx(p, InsertNew, NOTHING.(jobs := RetiredPrior(s.db, p.prior)), tx1.began)
    requires Reaches(s, With(s, t, tx1))
    ensures Reaches(s, s') && Updated(s, s', t, p.prior, n, NextVersion(p))
  {
    hide Reaches, NewJobId, RetiredPrior;
    StepTx(s, s, t, tx1, Row(n));
    var tx2 := Advance(s.db, tx1, Row(n));
    StepTx(s, s, t, tx2, Ok);
    var tx3 := Advance(s.db, tx2, Ok);
    StepTx(s, s, t, tx3, Ok);
    var tx4 := Advance(s.db, tx3, Ok);
    assert tx4.program == p.(phase := UpdateDone(n)) && !tx4.aborted && tx4.writes.jobs == RetiredPrior(s.db, p.prior)[n := NextVersion(p)];
    hide Advance;
    s' := CommitTx(s, s, t, tx4);
  }

  lemma BeginTx(s: State, s1: State, t: nat, p: Program)
    requires Reaches(s, s1) && t !in s1.txs && BeginEnabled(s1, p)
    ensures Reaches(s, With(s1, t, Tx(p, NOTHING, false, s1.now)))
  {
    hide Reaches, BeginEnabled, Advance, AfterCommit;
    assert Enabled(s1, Begin(t, p));
    ReachesNext(s, s1, Begin(t, p));
  }

  function Unchanged(s: State, p: JobId): Program
    requires p in s.db.jobs
  {
    Update(p, s.db.jobs[p], None, None, RetireOld)
  }

  predicate Updatable(s: State, p: JobId) {
    p in s.db.jobs && s.db.jobs[p].trigger == Cron && s.db.jobs[p].status == Active && !s.db.jobs[p].internal
  }

  /** Two updates that read one version before either commits both succeed: the chain forks,
      and both new versions are ACTIVE under one version number. */
  lemma ConcurrentUpdatesFork(s: State, p: JobId, t: nat, u: nat, m: JobId, n: JobId)
    requires Updatable(s, p) && JobFree(s, t, p) && t !in s.txs && u !in s.txs && t != u
    requires NewJobId(s, m) && NewJobId(s, n) && m != n
    ensures exists s': State ::
              && Reaches(s, s') && !Linear(s'.db.jobs)
              && m in s'.db.jobs && n in s'.db.jobs && s'.db.jobs[m].previous == s'.db.jobs[n].previous == Some(p)
              && s'.db.jobs[m].status == s'.db.jobs[n].status == Active
              && s'.db.jobs[m].version == s'.db.jobs[n].version
  {
    hide Reaches, Linear;
    var tx := Tx(Unchanged(s, p), NOTHING, false, s.now);
    var s1 := With(s, t, tx);
    var s2 := With(s1, u, tx);
    ReachesSelf(s);
    BeginTx(s, s, t, Unchanged(s, p));
    BeginTx(s, s1, u, Unchanged(s, p));
    var s3 := RunUpdate(s2, t, tx, m);
    ReachesThrough(s, s2, s3);
    assert p in s3.db.jobs && n !in s3.db.jobs;
    var s4 := RunUpdate(s3, u, tx, n);
    ReachesThrough(s, s3, s4);
    Forked(s4, m, n);
  }

  lemma Forked(s: State, m: JobId, n: JobId)
    requires m in s.db.jobs && n in s.db.jobs && m != n && s.db.jobs[m].previous.Some?
    requires s.db.jobs[m].previous == s.db.jobs[n].previous
    ensures !Linear(s.db.jobs)
  {
  }

  lemma RunCancelReads(s: State, s1: State, t: nat, p: JobId) returns (tx: Tx)
    requires Reaches(s, s1) && Updatable(s1, p) && t !in s1.txs
    ensures Reaches(s, With(s1, t, tx)) && tx.program == CancelJob(p, Cron, RetireJob) && !tx.aborted && tx.writes == NOTHING
  {
    hide Reaches;
    var first := Tx(CancelJob(p, Cron, ReadJob), NOTHING, false, s1.now);
    BeginTx(s, s1, t, first.program);
    StepTx(s, s1, t, first, Ok);
    tx := Advance(s1.db, first, Ok);
  }

  /** The cancel of a CRON job, statement by statement. */
  lemma RunCancel(s: State, s1: State, t: nat, p: JobId) returns (s': State)
    requires Reaches(s, s1) && Updatable(s1, p) && t !in s1.txs && JobFree(s1, t, p)
    ensures Reaches(s, s') && s'.txs == s1.txs && s'.db.jobs == s1.db.jobs[p := Retire(s1.db.jobs[p])]
  {
    hide Reaches;
    var tx1 := RunCancelReads(s, s1, t, p);
    StepTx(s, s1, t, tx1, Ok);
    var tx2 := Advance(s1.db, tx1, Ok);
    assert tx2.program == CancelJob(p, Cron, UnregisterJob) && !tx2.aborted;
    StepTx(s, s1, t, tx2, Ok);
    var tx3 := Advance(s1.db, tx2, Ok);
    assert tx3.program == CancelJob(p, Cron, CancelDone) && !tx3.aborted && tx3.writes.jobs == map[p := Retire(s1.db.jobs[p])];
    hide Advance, JobFree;
    s' := CommitTx(s, s1, t, tx3);
  }

  /** An update that read the job before it was cancelled brings the job back. */
  lemma CancelledJobRevived(s: State, p: JobId, t: nat, u: nat, n: JobId)
    requires Updatable(s, p) && JobFree(s, t, p) && t !in s.txs && u !in s.txs && t != u && NewJobId(s, n)
    ensures exists a: State, b: State ::
              && Reaches(s, a) && Reaches(a, b)
              && p in a.db.jobs && a.db.jobs[p].status == Retired
              && n in b.db.jobs && b.db.jobs[n].previous == Some(p) && b.db.jobs[n].status == Active
  {
    hide Reaches;
    var tx := Tx(Unchanged(s, p), NOTHING, false, s.now);
    var s1 := With(s, u, tx);
    ReachesSelf(s);
    BeginTx(s, s, u, Unchanged(s, p));
    var a := RunCancel(s, s1, t, p);
    var b := RunUpdate(a, u, tx, n);
  }

  // The library's two inserts

  /** A library create interrupted between its inserts by a library cancel leaves a RETIRED
      job with an execution waiting to be claimed. */
  lemma CancelledJobStillRuns(s: State, r: Request, j: JobId, t: nat, x: ExecutionId)
    requires Enabled(s, LibraryJob(r, j)) && t !in s.txs && NewExecutionId(s, x)
    requires forall y <- s.db.executions :: s.db.executions[y].job != j
    ensures exists s': State ::
              && Reaches(s, s') && j in s'.db.jobs && s'.db.jobs[j].status == Retired
              && x in s'.db.executions && s'.db.executions[x].job == j && Cancellable(s'.db.executions[x].status)
  {
    hide Reaches, AfterCommit;
    ReachesSelf(s);
    ReachesNext(s, s, LibraryJob(r, j));
    var s1 := Apply(s, LibraryJob(r, j));
    hide KeyFree;
    assert s1.txs == s.txs && s1.db.jobs == s.db.jobs[j := NewJob(r)] && s1.bare == s.bare[j := r];
    assert s1.db.executions == s.db.executions;
    var s2 := RunLibraryCancel(s, s1, t, j);
    assert Enabled(s2, LibraryExecution(j, x));
    ReachesNext(s, s2, LibraryExecution(j, x));
  }

  lemma RunLibraryCancel(s: State, s1: State, t: nat, j: JobId) returns (s': State)
    requires Reaches(s, s1) && t !in s1.txs && j in s1.db.jobs && s1.db.jobs[j].status == Active && s1.db.jobs[j].trigger != Cron
    requires JobFree(s1, t, j) && forall y <- s1.db.executions :: s1.db.executions[y].job != j
    ensures Reaches(s, s') && s'.txs == s1.txs && s'.bare == s1.bare
    ensures s'.db.jobs == s1.db.jobs[j := Retire(s1.db.jobs[j])] && s'.db.executions == s1.db.executions
  {
    hide Reaches, CommittedWrites, JobFree;
    var rows := LibraryTx(j, LibraryRows({}), s1.now);
    LibraryNothingSelected(s, s1, t, j);
    var s2 := CommitTx(s, s1, t, rows);
    NothingCommitted(s1.db, rows);
    assert s2 == With(s2, t, LibraryTx(j, LibraryRetire, s1.now));
    hide BeginEnabled;
    LibraryFreeStays(s1, s2, t, j, rows);
    s' := CommitTx(s, s2, t, LibraryTx(j, LibraryRetire, s1.now));
    RetireCommitted(s1.db, j, s1.now);
    assert s'.txs == s1.txs;
  }

  function LibraryTx(j: JobId, rest: LibraryPoint, began: int): Tx {
    Tx(LibraryCancel(j, rest), NOTHING, false, began)
  }

  lemma LibraryNothingSelected(s: State, s1: State, t: nat, j: JobId)
    requires Reaches(s, s1) && t !in s1.txs && j in s1.db.jobs && s1.db.jobs[j].trigger != Cron
    requires forall y <- s1.db.executions :: s1.db.executions[y].job != j
    ensures Reaches(s, With(s1, t, LibraryTx(j, LibraryRows({}), s1.now)))
  {
    hide Reaches;
    var tx := LibraryTx(j, LibrarySelect, s1.now);
    BeginTx(s, s1, t, tx.program);
    StepTx(s, s1, t, tx, Ok);
    assert PendingOf(s1.db, j) == {};
  }

  lemma NothingCommitted(db: Tables, tx: Tx)
    requires Remains(tx) && tx.writes == NOTHING
    ensures Over(db, CommittedWrites(db, tx)) == db
  {
  }

  lemma RetireCommitted(db: Tables, j: JobId, began: int)
    requires j in db.jobs && db.jobs[j].status == Active
    ensures var after := Over(db, CommittedWrites(db, LibraryTx(j, LibraryRetire, began)));
            after.jobs == db.jobs[j := Retire(db.jobs[j])] && after.executions == db.executions
  {
  }

  lemma LibraryFreeStays(s1: State, s2: State, t: nat, j: JobId, tx: Tx)
    requires JobFree(s1, t, j) && s2.txs.Keys <= s1.txs.Keys + {t} && forall u <- s1.txs :: u != t && u in s2.txs ==> s2.txs[u] == s1.txs[u]
    ensures JobFree(s2, t, j)
  {
  }
}
