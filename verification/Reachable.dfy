/** The invariant holds in every reachable state, under every interleaving. */
module Reachable {
  import opened Wrappers
  import opened Tables
  import opened Protocol
  import opened Invariant
  import opened Commits
  import opened Statements

  // Each commit is sound

  /** What a commit may do to job rows: retire ACTIVE ones, and insert one. */
  ghost predicate RowChanges(db: Tables, w: Tables, inserted: JobId) {
    forall j <- w.jobs ::
      if j in db.jobs then db.jobs[j].status == Active && w.jobs[j].status == Retired && Evolves(db.jobs[j], w.jobs[j])
      else j == inserted && w.jobs[j].status == Active
  }

  lemma RowsSound(s: State, w: Tables, inserted: JobId, s': State)
    requires s'.db == Over(s.db, w) && FreshKeys(s.db, w) && w.schedule.Keys <= w.jobs.Keys
    requires forall j <- w.jobs :: JobOk(s'.db, j)
    requires RowChanges(s.db, w, inserted)
    ensures SoundJobs(s, w, s')
  {
    hide JobOk, FreshKeys, Evolves;
  }

  lemma NoJobsSound(s: State, w: Tables, s': State)
    requires w.jobs == map[] && w.schedule == map[] && s'.db == Over(s.db, w)
    ensures SoundJobs(s, w, s')
  {
  }

  lemma NoExecutionsSound(s: State, w: Tables, s': State)
    requires w.executions == map[] && w.attempts == map[] && s'.db == Over(s.db, w) && s'.unloaded == s.unloaded
    ensures SoundExecutions(s, w, s')
  {
  }

  lemma ActiveUnreplaced(db: Tables, j: JobId)
    requires JobsOk(db) && j in db.jobs && db.jobs[j].status == Active
    ensures db.jobs[j].replacedBy.None?
  {
    assert JobOk(db, j);
  }

  /** Retiring a job leaves the chain behind it as it was. */
  lemma RetiredJobOk(db: Tables, w: Tables, j: JobId)
    requires JobsOk(db) && w.schedule.Keys <= w.jobs.Keys && j in w.jobs && j in db.jobs
    requires forall i <- w.jobs :: i in db.jobs ==> db.jobs[i].status == Active
    requires db.jobs[j].status == Active && w.jobs[j].status == Retired && Evolves(db.jobs[j], w.jobs[j])
    requires w.jobs[j].replacedBy.Some? ==> w.jobs[j].replacedBy.value == j
    requires if db.jobs[j].trigger == Cron then j in w.schedule && !w.schedule[j] else j !in w.schedule
    requires !(db.jobs[j].internal && db.jobs[j].trigger == Cron && db.jobs[j].endsAt.None?)
    ensures JobOk(Over(db, w), j)
  {
    assert JobOk(db, j);
    var row := db.jobs[j];
    if row.previous.Some? {
      assert row.previous.value !in w.jobs;
    }
  }

  lemma SweepSound(s: State, w: Tables, began: int, s': State)
    requires JobsOk(s.db) && FreshKeys(s.db, w) && Reaped(s.db, w, began) && Unlisted(w, {})
    requires s'.db == Over(s.db, w)
    ensures SoundJobs(s, w, s')
  {
    forall j <- w.jobs ensures JobOk(s'.db, j) {
      RetiredJobOk(s.db, w, j);
    }
    hide JobOk, JobsOk, FreshKeys;
  }

  lemma SettledLedger(before: map<Attempt, bool>, w: map<Attempt, bool>, x: ExecutionId, row: Execution, out: Execution, ending: Ending)
    requires Ledger(before, x, row, false) && Claimable(row.status) && row.attempts >= 0
    requires Ended(row, out, Attempt(x, row.attempts + 1), ending, w)
    ensures Ledger(before + w, x, out, ending.Unloaded?)
  {
    var after, unloaded := before + w, ending.Unloaded?;
    forall n: int ensures Attempt(x, n) in after <==> 1 <= n <= Recorded(out, unloaded) {
      assert Attempt(x, n) in before <==> 1 <= n <= row.attempts;
      assert Attempt(x, n) in w <==> !unloaded && n == row.attempts + 1;
    }
  }

  lemma EndedMoves(row: Execution, out: Execution, a: Attempt, ending: Ending, attempts: map<Attempt, bool>)
    requires RowOk(row) && Claimable(row.status) && Ended(row, out, a, ending, attempts)
    ensures Moves(row, out) && RowOk(out) && out.job == row.job
  {
  }

  lemma SettleSound(s: State, x: ExecutionId, w: Tables, ending: Ending, s': State)
    requires x in s.db.executions && ExecutionOk(s.db, s.unloaded, x) && Claimable(s.db.executions[x].status)
    requires w.executions.Keys == {x}
    requires Ended(s.db.executions[x], w.executions[x], Attempt(x, s.db.executions[x].attempts + 1), ending, w.attempts)
    requires s'.db == Over(s.db, w) && s'.unloaded == if ending.Unloaded? then s.unloaded + {x} else s.unloaded
    ensures SoundExecutions(s, w, s')
  {
    SettledExecution(s, x, w, ending, s');
    EndedOnlyIts(x, s.db.executions[x], w, ending);
    hide ExecutionOk, Moves, Collide, Ended;
  }

  lemma EndedOnlyIts(x: ExecutionId, row: Execution, w: Tables, ending: Ending)
    requires w.executions.Keys == {x} && Ended(row, w.executions[x], Attempt(x, row.attempts + 1), ending, w.attempts)
    ensures forall a <- w.attempts :: a.execution in w.executions
  {
  }

  lemma SettledExecution(s: State, x: ExecutionId, w: Tables, ending: Ending, s': State)
    requires x in s.db.executions && ExecutionOk(s.db, s.unloaded, x) && Claimable(s.db.executions[x].status)
    requires w.executions.Keys == {x}
    requires Ended(s.db.executions[x], w.executions[x], Attempt(x, s.db.executions[x].attempts + 1), ending, w.attempts)
    requires s'.db == Over(s.db, w) && s'.unloaded == if ending.Unloaded? then s.unloaded + {x} else s.unloaded
    ensures x in s'.db.executions && ExecutionOk(s'.db, s'.unloaded, x) && Moves(s.db.executions[x], w.executions[x])
  {
    var row, out := s.db.executions[x], w.executions[x];
    assert x !in s.unloaded;
    SettledLedger(s.db.attempts, w.attempts, x, row, out, ending);
    EndedMoves(row, out, Attempt(x, row.attempts + 1), ending, w.attempts);
    hide Ledger, Moves, RowOk, Outcome, GivenUp, Ended;
  }

  lemma WorkerSettled(s: State, w: Tables, s': State)
    requires s'.db == Over(s.db, w) && s'.late == s.late
    requires forall x <- w.executions :: x in s.db.executions && !Cancellable(w.executions[x].status)
    requires forall j <- w.jobs :: w.jobs[j].trigger == Cron
    ensures SoundSettled(s, w, s')
  {
    hide Cancellable;
  }

  lemma ExistingOneShot(s: State, w: Tables, s': State)
    requires s'.bare == s.bare && w.jobs.Keys <= s.db.jobs.Keys && w.executions.Keys <= s.db.executions.Keys
    ensures SoundOneShot(s, w, s')
  {
  }

  lemma AfterCommitTables(s: State, t: nat)
    requires t in s.txs
    ensures AfterCommit(s, t).db == Over(s.db, CommittedWrites(s.db, s.txs[t]))
    ensures AfterCommit(s, t).late == s.late && AfterCommit(s, t).bare == s.bare
  {
    hide CommittedWrites, Over;
  }

  lemma AfterCommitUnloaded(s: State, t: nat)
    requires t in s.txs
    ensures var tx := s.txs[t];
            AfterCommit(s, t).unloaded ==
              if !tx.aborted && tx.program.Worker? && tx.program.at.Finish? && tx.program.at.ending.Unloaded?
              then s.unloaded + {tx.program.execution} else s.unloaded
  {
    hide CommittedWrites, Over;
  }

  lemma TxFacts(s: State, t: nat)
    requires TxsOk(s) && t in s.txs
    ensures TxOk(s, s.txs[t]) && FreshKeys(s.db, s.txs[t].writes)
  {
    hide TxOk, FreshKeys;
  }

  /** What is known of a worker about to commit. */
  lemma WorkerFinished(s: State, tx: Tx)
    requires tx.program.Worker? && tx.program.at.Finish? && !tx.aborted && WorkerOk(s, tx)
    requires ExecutionsOk(s.db, s.unloaded)
    ensures Reaped(s.db, tx.writes, tx.began) && Unlisted(tx.writes, {}) && tx.writes.jobs.Keys <= s.db.jobs.Keys
    ensures var x := tx.program.execution;
            && x in s.db.executions && ExecutionOk(s.db, s.unloaded, x) && Claimable(s.db.executions[x].status)
            && tx.writes.executions.Keys == {x}
            && WorkerRows(s.db.executions[x], x, tx.program.at, tx.writes)
            && !Cancellable(tx.writes.executions[x].status)
    ensures forall j <- tx.writes.jobs :: tx.writes.jobs[j].trigger == Cron
  {
    hide ExecutionOk, Unlisted;
  }

  lemma WorkerSound(s: State, t: nat)
    requires Inv(s) && t in s.txs && s.txs[t].program.Worker? && s.txs[t].program.at.Finish? && !s.txs[t].aborted
    ensures Sound(s, s.txs[t].writes, AfterCommit(s, t))
  {
    hide AfterCommit, SoundJobs, SoundExecutions, SoundSettled, SoundOneShot, WorkerOk, TxsOk;
    hide JobsOk, ExecutionsOk, KeysOk, DistinctOk, OneShotOk, SettledOk, FreshKeys, ExecutionOk, Locked, AnswersOk, Ended;
    hide Reaped, Unlisted, Claimable;
    var s', tx := AfterCommit(s, t), s.txs[t];
    var w := tx.writes;
    TxFacts(s, t);
    AfterCommitTables(s, t);
    AfterCommitUnloaded(s, t);
    WorkerFinished(s, tx);
    SweepSound(s, w, tx.began, s');
    SettleSound(s, tx.program.execution, w, tx.program.at.ending, s');
    WorkerSettled(s, w, s');
    ExistingOneShot(s, w, s');
  }

  // Inserted rows

  lemma FreshExecution(s: State, w: Tables, x: ExecutionId, row: Execution, s': State)
    requires ExecutionsOk(s.db, s.unloaded) && s'.db == Over(s.db, w) && s'.unloaded == s.unloaded
    requires w.executions == map[x := row] && w.attempts == map[] && x !in s.db.executions
    requires row.attempts == 0 && Cancellable(row.status) && row.job in s'.db.jobs
    requires forall y <- s.db.executions :: !Collide(row, s.db.executions[y], s'.db.jobs)
    ensures SoundExecutions(s, w, s')
  {
    forall n: int ensures Attempt(x, n) !in s'.db.attempts {
    }
    assert Ledger(s'.db.attempts, x, row, false);
    hide Ledger, Collide;
  }

  lemma FreshJob(s: State, w: Tables, j: JobId, row: Job, s': State)
    requires JobsOk(s.db) && s'.db == Over(s.db, w) && FreshKeys(s.db, w)
    requires w.jobs == map[j := row] && j !in s.db.jobs
    requires w.schedule == if row.trigger == Cron then map[j := true] else map[]
    requires row.status == Active && row.previous.None? && row.version == 1 && row.replacedBy.None?
    requires row.trigger != Cron ==> row.key.Some?
    ensures SoundJobs(s, w, s')
  {
    hide FreshKeys, JobOk, SoundJobs, Evolves;
    assert !Scheduled(s.db, j);
    hide JobsOk;
    assert Scheduled(s'.db, j) <==> row.trigger == Cron;
    FreshJobOk(s'.db, j);
    RowsSound(s, w, j, s');
  }

  lemma FreshJobOk(db: Tables, j: JobId)
    requires j in db.jobs && (Scheduled(db, j) <==> db.jobs[j].trigger == Cron)
    requires db.jobs[j].status == Active && db.jobs[j].previous.None? && db.jobs[j].version == 1 && db.jobs[j].replacedBy.None?
    requires db.jobs[j].trigger != Cron ==> db.jobs[j].key.Some?
    ensures JobOk(db, j)
  {
  }

  lemma NothingSettled(s: State, w: Tables, s': State)
    requires s'.late == s.late
    requires forall x <- w.executions :: x !in s.db.executions && w.executions[x].job !in s.db.jobs
    requires forall x <- w.executions :: Settled(w.executions[x], s'.db.jobs, s'.late)
    requires forall x <- s.db.executions :: s.db.executions[x].job !in w.jobs
    ensures SoundSettled(s, w, s')
  {
  }

  lemma CreatedOneShot(s: State, w: Tables, j: JobId, x: ExecutionId, s': State)
    requires OneShotOk(s.db, s.bare) && s'.bare == s.bare && j !in s.db.jobs
    requires w.jobs.Keys == {j} && w.executions.Keys == {x} && w.executions[x].job == j
    ensures SoundOneShot(s, w, s')
  {
    assert HasExecution(w.executions, j);
  }

  lemma CreateOneShot(s: State, w: Tables, r: Request, j: JobId, x: ExecutionId, s': State)
    requires DbOk(s) && FreshKeys(s.db, w) && r.trigger != Cron && r.key.Some? && j !in s.db.jobs && x !in s.db.executions
    requires w == Created(r, j, x) && s'.db == Over(s.db, w) && s'.unloaded == s.unloaded && s'.late == s.late && s'.bare == s.bare
    ensures Sound(s, w, s')
  {
    hide JobsOk, KeysOk, DistinctOk, SettledOk, FreshKeys, SoundJobs, SoundExecutions, SoundSettled, SoundOneShot;
    assert forall y <- s.db.executions :: ExecutionOk(s.db, s.unloaded, y) && s.db.executions[y].job != j;
    hide ExecutionsOk;
    FreshJob(s, w, j, NewJob(r), s');
    FreshExecution(s, w, x, NewExecution(r, j), s');
    NothingSettled(s, w, s');
    assert w.executions[x].job == j;
    assert HasExecution(w.executions, j);
    CreatedOneShot(s, w, j, x, s');
  }

  lemma CronJobOneShot(s: State, w: Tables, j: JobId, s': State)
    requires OneShotOk(s.db, s.bare) && s'.bare == s.bare
    requires w.jobs.Keys == {j} && w.jobs[j].trigger == Cron && w.executions == map[]
    ensures SoundOneShot(s, w, s')
  {
  }

  lemma CreateCron(s: State, w: Tables, r: Request, j: JobId, s': State)
    requires DbOk(s) && FreshKeys(s.db, w) && r.trigger == Cron && j !in s.db.jobs
    requires w == NOTHING.(jobs := map[j := NewJob(r)], schedule := map[j := true])
    requires s'.db == Over(s.db, w) && s'.unloaded == s.unloaded && s'.late == s.late && s'.bare == s.bare
    ensures Sound(s, w, s')
  {
    hide JobsOk, KeysOk, DistinctOk, SettledOk, FreshKeys, SoundJobs, SoundExecutions, SoundSettled, SoundOneShot;
    assert forall y <- s.db.executions :: ExecutionOk(s.db, s.unloaded, y) && s.db.executions[y].job != j;
    hide ExecutionsOk;
    FreshJob(s, w, j, NewJob(r), s');
    NoExecutionsSound(s, w, s');
    NothingSettled(s, w, s');
    CronJobOneShot(s, w, j, s');
  }

  lemma CreateSound(s: State, t: nat)
    requires Inv(s) && t in s.txs && s.txs[t].program.Create? && s.txs[t].program.step.CreateDone?
    ensures Sound(s, s.txs[t].writes, AfterCommit(s, t))
  {
    hide AfterCommit, Sound, DbOk, FreshKeys, Locked, AnswersOk, Created;
    var tx := s.txs[t];
    var r, j, w := tx.program.request, tx.program.step.job, tx.writes;
    assert TxOk(s, tx) && FreshKeys(s.db, w);
    AfterCommitTables(s, t);
    AfterCommitUnloaded(s, t);
    if r.trigger == Cron {
      CreateCron(s, w, r, j, AfterCommit(s, t));
    } else {
      var x: ExecutionId :| x !in s.db.executions && w == Created(r, j, x);
      CreateOneShot(s, w, r, j, x, AfterCommit(s, t));
    }
  }

  // Updates

  lemma UpdateJobs(s: State, w: Tables, p: JobId, n: JobId, row: Job, s': State)
    requires JobsOk(s.db) && s'.db == Over(s.db, w) && FreshKeys(s.db, w)
    requires p in s.db.jobs && n !in s.db.jobs
    requires w.jobs == RetiredPrior(s.db, p)[n := row] && w.schedule == UnlistedPrior(s.db, p)[n := true]
    requires s.db.jobs[p].trigger == Cron && !s.db.jobs[p].internal
    requires row.status == Active && row.trigger == Cron && row.replacedBy.None?
    requires row.previous == Some(p) && row.version == s.db.jobs[p].version + 1
    ensures SoundJobs(s, w, s')
  {
    hide FreshKeys, SoundJobs, RowChanges;
    VersionPositive(s.db, p);
    hide JobOk, JobsOk, Over;
    PriorRows(s, w, p, n, row);
    forall j <- w.jobs ensures JobOk(s'.db, j) {
      if j == n { InsertedNextOk(s, w, p, n, row, s'); } else { RetiredPriorOk(s, w, p, n, row, s'); }
    }
    hide RetiredPrior, UnlistedPrior;
    RowsSound(s, w, n, s');
  }

  lemma VersionPositive(db: Tables, j: JobId)
    requires JobsOk(db) && j in db.jobs
    ensures db.jobs[j].version >= 1
  {
    assert JobOk(db, j);
  }

  lemma PriorRows(s: State, w: Tables, p: JobId, n: JobId, row: Job)
    requires p in s.db.jobs && n !in s.db.jobs && row.status == Active
    requires w.jobs == RetiredPrior(s.db, p)[n := row] && w.schedule == UnlistedPrior(s.db, p)[n := true]
    ensures w.jobs.Keys == (if s.db.jobs[p].status == Active then {p, n} else {n}) && w.schedule.Keys == w.jobs.Keys
    ensures RowChanges(s.db, w, n)
  {
    PriorKeys(s.db, p, n, row);
    hide Evolves;
  }

  lemma PriorKeys(db: Tables, p: JobId, n: JobId, row: Job)
    requires p in db.jobs && n != p
    ensures RetiredPrior(db, p)[n := row].Keys == if db.jobs[p].status == Active then {p, n} else {n}
    ensures UnlistedPrior(db, p)[n := true].Keys == if db.jobs[p].status == Active then {p, n} else {n}
    ensures db.jobs[p].status == Active ==>
              Evolves(db.jobs[p], RetiredPrior(db, p)[n := row][p]) && RetiredPrior(db, p)[n := row][p].status == Retired
  {
  }

  lemma InsertedNextOk(s: State, w: Tables, p: JobId, n: JobId, row: Job, s': State)
    requires s'.db == Over(s.db, w) && p in s.db.jobs && n !in s.db.jobs && s.db.jobs[p].trigger == Cron && s.db.jobs[p].version >= 1
    requires w.jobs == RetiredPrior(s.db, p)[n := row] && w.schedule == UnlistedPrior(s.db, p)[n := true]
    requires row.status == Active && row.trigger == Cron && row.replacedBy.None?
    requires row.previous == Some(p) && row.version == s.db.jobs[p].version + 1
    ensures JobOk(s'.db, n)
  {
    hide JobOk;
    NextVersionOk(s'.db, p, n);
  }

  lemma RetiredPriorOk(s: State, w: Tables, p: JobId, n: JobId, row: Job, s': State)
    requires JobsOk(s.db) && s'.db == Over(s.db, w) && p in s.db.jobs && n !in s.db.jobs
    requires s.db.jobs[p].status == Active && s.db.jobs[p].trigger == Cron && !s.db.jobs[p].internal
    requires w.jobs == RetiredPrior(s.db, p)[n := row] && w.schedule == UnlistedPrior(s.db, p)[n := true]
    ensures JobOk(s'.db, p)
  {
    ActiveUnreplaced(s.db, p);
    hide JobsOk, JobOk;
    PriorKeys(s.db, p, n, row);
    assert w.jobs[p] == RetireReplaced(s.db.jobs[p], p) && !w.schedule[p];
    hide RetiredPrior, UnlistedPrior;
    RetiredJobOk(s.db, w, p);
  }

  lemma NextVersionOk(db: Tables, p: JobId, n: JobId)
    requires n in db.jobs && p in db.jobs && Scheduled(db, n)
    requires db.jobs[p].trigger == Cron && db.jobs[p].status == Retired && db.jobs[p].version >= 1
    requires var row := db.jobs[n];
             row.status == Active && row.trigger == Cron && row.replacedBy.None? && row.previous == Some(p)
             && row.version == db.jobs[p].version + 1
    ensures JobOk(db, n)
  {
  }

  lemma UpdateSettled(s: State, w: Tables, s': State)
    requires s'.db == Over(s.db, w) && w.executions == map[] && s'.late == s.late
    requires forall x <- s.db.executions :: s.db.executions[x].job in s.db.jobs
    requires forall j <- w.jobs :: w.jobs[j].trigger == Cron
    ensures SoundSettled(s, w, s')
  {
  }

  lemma UpdateOneShot(s: State, w: Tables, s': State)
    requires s'.bare == s.bare && w.executions == map[] && forall j <- w.jobs :: w.jobs[j].trigger == Cron
    ensures SoundOneShot(s, w, s')
  {
  }

  lemma UpdateSound(s: State, t: nat)
    requires Inv(s) && t in s.txs && s.txs[t].program.Update? && s.txs[t].program.phase.UpdateDone?
    ensures Sound(s, s.txs[t].writes, AfterCommit(s, t))
  {
    hide AfterCommit, SoundJobs, SoundExecutions, SoundSettled, SoundOneShot, FreshKeys, Locked, AnswersOk, TxsOk;
    hide JobsOk, KeysOk, DistinctOk, OneShotOk, SettledOk;
    var s', tx := AfterCommit(s, t), s.txs[t];
    var p, w := tx.program, tx.writes;
    TxFacts(s, t);
    AfterCommitTables(s, t);
    AfterCommitUnloaded(s, t);
    assert forall x <- s.db.executions :: ExecutionOk(s.db, s.unloaded, x);
    hide ExecutionsOk;
    UpdateJobs(s, w, p.prior, p.phase.next, NextVersion(p), s');
    NoExecutionsSound(s, w, s');
    UpdateSettled(s, w, s');
    UpdateOneShot(s, w, s');
  }

  // Cancels

  lemma CancelledLedger(attempts: map<Attempt, bool>, x: ExecutionId, row: Execution, unloaded: bool)
    requires Ledger(attempts, x, row, unloaded) && RowOk(row) && Cancellable(row.status)
    ensures Ledger(attempts, x, Cancel(row), unloaded) && RowOk(Cancel(row)) && Moves(row, Cancel(row))
  {
  }

  lemma CancelledSound(s: State, w: Tables, job: JobId, s': State)
    requires ExecutionsOk(s.db, s.unloaded) && s'.db == Over(s.db, w) && s'.unloaded == s.unloaded
    requires CancelledRows(s.db, w.executions, job) && w.attempts == map[]
    ensures SoundExecutions(s, w, s')
  {
    forall x <- w.executions ensures ExecutionOk(s'.db, s'.unloaded, x) && Moves(s.db.executions[x], w.executions[x]) {
      assert ExecutionOk(s.db, s.unloaded, x);
      CancelledLedger(s.db.attempts, x, s.db.executions[x], x in s.unloaded);
    }
    hide ExecutionOk, Moves;
  }

  lemma CancelledSettled(s: State, w: Tables, job: JobId, s': State)
    requires s'.db == Over(s.db, w) && s'.late == s.late
    requires CancelledRows(s.db, w.executions, job) && w.jobs.Keys <= {job}
    requires job in s.db.jobs && s.db.jobs[job].trigger != Cron && job in w.jobs ==> Covered(s, job, {}, w)
    requires job in w.jobs ==> job in s.db.jobs && w.jobs[job].trigger == s.db.jobs[job].trigger
    ensures SoundSettled(s, w, s')
  {
  }

  lemma RetireChanges(db: Tables, w: Tables, j: JobId)
    requires j in db.jobs && db.jobs[j].status == Active && w.jobs == map[j := Retire(db.jobs[j])]
    ensures RowChanges(db, w, j) && Evolves(db.jobs[j], w.jobs[j])
  {
  }

  lemma CancelJobs(s: State, w: Tables, j: JobId, s': State)
    requires JobsOk(s.db) && s'.db == Over(s.db, w) && FreshKeys(s.db, w)
    requires j in s.db.jobs && s.db.jobs[j].status == Active
    requires s.db.jobs[j].trigger == Cron ==> !s.db.jobs[j].internal
    requires w.jobs == map[j := Retire(s.db.jobs[j])]
    requires w.schedule == if s.db.jobs[j].trigger == Cron then map[j := false] else map[]
    ensures SoundJobs(s, w, s')
  {
    hide FreshKeys, JobOk, JobsOk, SoundJobs, Over, Evolves, RowChanges;
    ActiveUnreplaced(s.db, j);
    RetireChanges(s.db, w, j);
    RetiredJobOk(s.db, w, j);
    RowsSound(s, w, j, s');
  }

  lemma CancelSound(s: State, t: nat)
    requires Inv(s) && t in s.txs && s.txs[t].program.CancelJob? && s.txs[t].program.stage.CancelDone?
    ensures Sound(s, s.txs[t].writes, AfterCommit(s, t))
  {
    hide AfterCommit, SoundJobs, SoundExecutions, SoundSettled, SoundOneShot, FreshKeys, Locked, AnswersOk;
    hide JobsOk, KeysOk, DistinctOk, OneShotOk, SettledOk, ExecutionsOk;
    var s', tx := AfterCommit(s, t), s.txs[t];
    var p, w := tx.program, tx.writes;
    assert TxOk(s, tx) && FreshKeys(s.db, w);
    AfterCommitTables(s, t);
    AfterCommitUnloaded(s, t);
    CancelJobs(s, w, p.target, s');
    CancelledSound(s, w, p.target, s');
    CancelledSettled(s, w, p.target, s');
    ExistingOneShot(s, w, s');
  }

  lemma LibraryRowsSound(s: State, t: nat)
    requires Inv(s) && t in s.txs && s.txs[t].program.LibraryCancel? && s.txs[t].program.rest.LibraryRows?
    ensures Sound(s, s.txs[t].writes, AfterCommit(s, t))
  {
    hide AfterCommit, SoundJobs, SoundExecutions, SoundSettled, SoundOneShot, FreshKeys, Locked, AnswersOk;
    hide JobsOk, KeysOk, DistinctOk, OneShotOk, SettledOk, ExecutionsOk, Covered;
    var s', tx := AfterCommit(s, t), s.txs[t];
    var p, w := tx.program, tx.writes;
    assert TxOk(s, tx);
    AfterCommitTables(s, t);
    AfterCommitUnloaded(s, t);
    NoJobsSound(s, w, s');
    CancelledSound(s, w, p.target, s');
    CancelledSettled(s, w, p.target, s');
    ExistingOneShot(s, w, s');
  }

  lemma LibraryRetireApart(s: State, t: nat, u: nat)
    requires t in s.txs && s.txs[t].program.LibraryCancel? && s.txs[t].program.rest.LibraryRetire?
    requires LibraryOk(s, s.txs[t]) && TxsOk(s)
    requires u in s.txs && u != t && JobFree(s, t, s.txs[t].program.target)
    ensures Apart(CommittedWrites(s.db, s.txs[t]), s.txs[u].writes)
  {
    hide TxOk;
    var j, w := s.txs[t].program.target, s.txs[u].writes;
    assert FreshKeys(s.db, w);
    forall i <- w.jobs ensures !SameKey(Retire(s.db.jobs[j]), w.jobs[i]) {
      assert !SameKey(w.jobs[i], s.db.jobs[j]);
    }
  }

  lemma LibraryRetireSound(s: State, t: nat)
    requires Inv(s) && t in s.txs && s.txs[t].program.LibraryCancel? && s.txs[t].program.rest.LibraryRetire?
    ensures Sound(s, CommittedWrites(s.db, s.txs[t]), AfterCommit(s, t))
  {
    hide AfterCommit, SoundJobs, SoundExecutions, SoundSettled, SoundOneShot, Locked, AnswersOk;
    hide KeysOk, DistinctOk, OneShotOk, SettledOk, ExecutionsOk, JobsOk;
    var s', tx := AfterCommit(s, t), s.txs[t];
    var p, w := tx.program, CommittedWrites(s.db, tx);
    assert TxOk(s, tx);
    AfterCommitTables(s, t);
    AfterCommitUnloaded(s, t);
    assert w.executions == map[] && w.attempts == map[];
    RetireKeysFresh(s, p.target);
    if s.db.jobs[p.target].status == Active {
      CancelJobs(s, w, p.target, s');
    } else {
      NoJobsSound(s, w, s');
    }
    NoExecutionsSound(s, w, s');
    CancelledSettled(s, w, p.target, s');
    ExistingOneShot(s, w, s');
  }

  lemma RetireKeysFresh(s: State, j: JobId)
    requires KeysOk(s.db.jobs) && j in s.db.jobs
    ensures FreshKeys(s.db, NOTHING.(jobs := map[j := Retire(s.db.jobs[j])]))
  {
    forall i <- s.db.jobs | i != j ensures !SameKey(Retire(s.db.jobs[j]), s.db.jobs[i]) {
      assert !SameKey(s.db.jobs[j], s.db.jobs[i]);
    }
  }

  // Statements that commit by themselves

  lemma CancelExecutionSound(s: State, x: ExecutionId, w: Tables, s': State)
    requires DbOk(s) && x in s.db.executions && Cancellable(s.db.executions[x].status)
    requires w == NOTHING.(executions := map[x := Cancel(s.db.executions[x])])
    requires s'.db == Over(s.db, w) && s'.unloaded == s.unloaded && s'.late == s.late && s'.bare == s.bare
    ensures Sound(s, w, s')
  {
    hide SoundJobs, SoundExecutions, SoundSettled, SoundOneShot;
    hide JobsOk, KeysOk, DistinctOk, OneShotOk, SettledOk, ExecutionsOk;
    NoJobsSound(s, w, s');
    CancelledSound(s, w, s.db.executions[x].job, s');
    CancelledSettled(s, w, s.db.executions[x].job, s');
    ExistingOneShot(s, w, s');
  }

  lemma TickSound(s: State, j: JobId, x: ExecutionId, limit: int, w: Tables, s': State)
    requires DbOk(s) && TickEnabled(s, j, x)
    requires w == NOTHING.(executions := map[x := TickRow(j, s.db.jobs[j], s.now, limit)])
    requires s'.db == Over(s.db, w) && s'.unloaded == s.unloaded && s'.late == s.late && s'.bare == s.bare
    ensures Sound(s, w, s')
  {
    hide SoundJobs, SoundExecutions, SoundSettled, SoundOneShot;
    hide KeysOk, DistinctOk, SettledOk, ExecutionsOk;
    assert JobOk(s.db, j);
    hide JobsOk;
    NoJobsSound(s, w, s');
    FreshExecution(s, w, x, w.executions[x], s');
    CronSettled(s, w, j, x, s');
    CronOneShot(s, w, j, x, s');
  }

  lemma CronSettled(s: State, w: Tables, j: JobId, x: ExecutionId, s': State)
    requires s'.db == Over(s.db, w) && s'.late == s.late && w.jobs == map[] && w.executions.Keys == {x}
    requires w.executions[x].job == j && j in s.db.jobs && s.db.jobs[j].trigger == Cron
    ensures SoundSettled(s, w, s')
  {
  }

  lemma CronOneShot(s: State, w: Tables, j: JobId, x: ExecutionId, s': State)
    requires OneShotOk(s.db, s.bare) && s'.bare == s.bare && w.jobs == map[] && w.executions.Keys == {x}
    requires w.executions[x].job == j && j in s.db.jobs && s.db.jobs[j].trigger == Cron
    ensures SoundOneShot(s, w, s')
  {
  }

  lemma LibraryJobSound(s: State, r: Request, j: JobId, w: Tables, s': State)
    requires DbOk(s) && r.trigger != Cron && r.key.Some? && j !in s.db.jobs
    requires forall i <- s.db.jobs :: !SameKey(NewJob(r), s.db.jobs[i])
    requires w == NOTHING.(jobs := map[j := NewJob(r)])
    requires s'.db == Over(s.db, w) && s'.unloaded == s.unloaded && s'.late == s.late && s'.bare == s.bare[j := r]
    ensures Sound(s, w, s')
  {
    hide SoundJobs, SoundExecutions, SoundSettled, SoundOneShot, OneShotOk;
    hide KeysOk, DistinctOk, SettledOk, JobsOk;
    assert forall y <- s.db.executions :: ExecutionOk(s.db, s.unloaded, y) && s.db.executions[y].job != j;
    hide ExecutionsOk;
    FreshJob(s, w, j, NewJob(r), s');
    NoExecutionsSound(s, w, s');
    NothingSettled(s, w, s');
    BareOneShot(s, w, r, j, s');
  }

  lemma BareOneShot(s: State, w: Tables, r: Request, j: JobId, s': State)
    requires OneShotOk(s.db, s.bare) && s'.bare == s.bare[j := r] && j !in s.db.jobs
    requires w.jobs == map[j := NewJob(r)] && w.executions == map[] && r.trigger != Cron && r.key.Some?
    requires forall y <- s.db.executions :: s.db.executions[y].job != j
    ensures SoundOneShot(s, w, s')
  {
  }

  lemma LibraryExecutionSound(s: State, j: JobId, x: ExecutionId, w: Tables, s': State)
    requires DbOk(s) && j in s.bare && s.bare[j].key.Some? && x !in s.db.executions
    requires w == NOTHING.(executions := map[x := NewExecution(s.bare[j], j)])
    requires s'.db == Over(s.db, w) && s'.unloaded == s.unloaded && s'.bare == s.bare - {j}
    requires s'.late == if CancelUnderway(s, j) then s.late + {j} else s.late
    ensures Sound(s, w, s')
  {
    hide SoundJobs, SoundExecutions, SoundSettled, SoundOneShot;
    hide KeysOk, DistinctOk, SettledOk, JobsOk, ExecutionsOk, CancelUnderway;
    NoJobsSound(s, w, s');
    assert forall y <- s.db.executions :: s.db.executions[y].job != j;
    FreshExecution(s, w, x, w.executions[x], s');
    LateSettled(s, w, j, x, s');
    FilledOneShot(s, w, j, x, s');
  }

  lemma LateSettled(s: State, w: Tables, j: JobId, x: ExecutionId, s': State)
    requires s'.db == Over(s.db, w) && w.jobs == map[] && w.executions.Keys == {x} && w.executions[x].job == j
    requires j in s.db.jobs
    requires s'.late == if CancelUnderway(s, j) then s.late + {j} else s.late
    ensures SoundSettled(s, w, s')
  {
  }

  lemma FilledOneShot(s: State, w: Tables, j: JobId, x: ExecutionId, s': State)
    requires OneShotOk(s.db, s.bare) && s'.bare == s.bare - {j} && w.jobs == map[] && w.executions.Keys == {x}
    requires w.executions[x].job == j
    ensures SoundOneShot(s, w, s')
  {
    assert HasExecution(w.executions, j);
  }

  // Every event

  lemma TxOkOnTables(s: State, s': State, tx: Tx)
    requires TxOk(s, tx) && s'.db == s.db && s'.late == s.late
    ensures TxOk(s', tx)
  {
  }

  /** One transaction replaced or added, the tables unchanged. */
  lemma TxReplaced(s: State, t: nat, tx: Tx, s': State)
    requires Inv(s) && s'.db == s.db && s'.late == s.late && s'.bare == s.bare && s'.unloaded == s.unloaded
    requires s'.answers == s.answers && s'.txs == s.txs[t := tx]
    requires TxOk(s, tx) && FreshKeys(s.db, tx.writes)
    requires forall u <- s.txs :: u != t ==> Apart(tx.writes, s.txs[u].writes)
    ensures Inv(s')
  {
    hide JobsOk, ExecutionsOk, KeysOk, DistinctOk, OneShotOk, SettledOk, TxOk, FreshKeys;
    forall u <- s'.txs ensures TxOk(s', s'.txs[u]) && FreshKeys(s'.db, s'.txs[u].writes) {
      assert u != t ==> TxOk(s, s.txs[u]) && FreshKeys(s.db, s.txs[u].writes);
      TxOkOnTables(s, s', s'.txs[u]);
    }
    forall u <- s'.txs, v <- s'.txs | u != v ensures Apart(s'.txs[u].writes, s'.txs[v].writes) {
      if u == t {
        assert Apart(tx.writes, s.txs[v].writes);
      } else if v == t {
        assert Apart(tx.writes, s.txs[u].writes);
      } else {
        assert Apart(s.txs[u].writes, s.txs[v].writes);
      }
    }
  }

  lemma StatementKeeps(s: State, t: nat, reply: Reply)
    requires Inv(s) && Enabled(s, Statement(t, reply))
    ensures Inv(Apply(s, Statement(t, reply)))
  {
    hide JobsOk, ExecutionsOk, KeysOk, DistinctOk, OneShotOk, SettledOk, FreshKeys, Advance, StatementEnabled, Takes, TxOk, AfterCommit;
    assert TxOk(s, s.txs[t]);
    StatementKeepsTx(s, t, reply);
    StatementTakes(s, t, reply);
    TakesKeepsLocks(s, t, Advance(s.db, s.txs[t], reply).writes);
    TxReplaced(s, t, Advance(s.db, s.txs[t], reply), Apply(s, Statement(t, reply)));
  }

  lemma ClaimKeeps(s: State, t: nat, x: ExecutionId)
    requires Inv(s) && Enabled(s, Claim(t, x))
    ensures Inv(Apply(s, Claim(t, x)))
  {
    hide JobsOk, ExecutionsOk, KeysOk, DistinctOk, OneShotOk, SettledOk, Advance, StatementEnabled, AfterCommit;
    var s' := Apply(s, Claim(t, x));
    var tx := s'.txs[t];
    assert WorkerOk(s, tx);
    TxReplaced(s, t, tx, s');
  }

  lemma BeginKeeps(s: State, t: nat, p: Program)
    requires Inv(s) && Enabled(s, Begin(t, p))
    ensures Inv(Apply(s, Begin(t, p)))
  {
    hide JobsOk, ExecutionsOk, KeysOk, DistinctOk, OneShotOk, SettledOk, Advance, StatementEnabled, AfterCommit;
    TxReplaced(s, t, Tx(p, NOTHING, false, s.now), Apply(s, Begin(t, p)));
  }

  /** Removing a transaction, its writes discarded. */
  lemma VanishKeeps(s: State, t: nat, s': State)
    requires Inv(s) && s' == s.(txs := s.txs - {t}, lost := s'.lost)
    ensures Inv(s')
  {
    hide JobsOk, ExecutionsOk, KeysOk, DistinctOk, OneShotOk, SettledOk, TxOk, FreshKeys, Apart;
    forall u <- s'.txs ensures TxOk(s', s'.txs[u]) && FreshKeys(s'.db, s'.txs[u].writes) {
      assert TxOk(s, s.txs[u]) && FreshKeys(s.db, s.txs[u].writes);
      TxOkOnTables(s, s', s.txs[u]);
    }
  }

  lemma AloneKeeps(s: State, w: Tables, s': State)
    requires Inv(s) && Sound(s, w, s') && s'.txs == s.txs && s'.answers == s.answers
    requires forall t <- s.txs :: Apart(w, s.txs[t].writes)
    ensures Inv(s')
  {
    hide Inv, Sound, Apart;
    CommitKeeps(s, w, s');
  }

  /** The commit of a transaction that ends. */
  lemma EndingKeeps(s: State, t: nat, w: Tables, s': State)
    requires Inv(s) && t in s.txs && Sound(s, w, s') && s'.txs == s.txs - {t}
    requires forall u <- s.txs :: u != t ==> Apart(w, s.txs[u].writes)
    requires forall a <- s'.answers :: a in s.answers
              || (a.job in s'.db.jobs && s'.db.jobs[a.job].endpoint == a.endpoint && s'.db.jobs[a.job].key == a.key)
    ensures Inv(s')
  {
    var s1 := s'.(answers := s.answers);
    assert Sound(s, w, s1) by { hide SoundJobs, SoundExecutions, SoundSettled, SoundOneShot; SoundAnswers(s, w, s', s1); }
    hide Sound, Apart;
    CommitKeeps(s, w, s1);
    InvAnswers(s1, s');
  }

  lemma SoundAnswers(s: State, w: Tables, s': State, s1: State)
    requires Sound(s, w, s') && s1 == s'.(answers := s1.answers)
    ensures Sound(s, w, s1)
  {
  }

  lemma InvAnswers(s: State, s': State)
    requires Inv(s) && s' == s.(answers := s'.answers)
    requires forall a <- s'.answers :: a in s.answers
              || (a.job in s'.db.jobs && s'.db.jobs[a.job].endpoint == a.endpoint && s'.db.jobs[a.job].key == a.key)
    ensures Inv(s')
  {
    hide JobsOk, ExecutionsOk, KeysOk, DistinctOk, OneShotOk, SettledOk, TxOk, FreshKeys, Apart;
    forall u <- s'.txs ensures TxOk(s', s'.txs[u]) && FreshKeys(s'.db, s'.txs[u].writes) {
      assert TxOk(s, s.txs[u]) && FreshKeys(s.db, s.txs[u].writes);
      TxOkOnTables(s, s', s.txs[u]);
    }
  }

  lemma AfterCommitTxs(s: State, t: nat)
    requires t in s.txs
    ensures var tx := s.txs[t];
            AfterCommit(s, t).txs ==
              if !tx.aborted && tx.program.LibraryCancel? && tx.program.rest.LibraryRows?
              then s.txs[t := tx.(program := LibraryCancel(tx.program.target, LibraryRetire), writes := NOTHING)]
              else s.txs - {t}
  {
    hide CommittedWrites, Over;
  }

  lemma AfterCommitAnswers(s: State, t: nat)
    requires t in s.txs
    ensures var p := s.txs[t].program;
            AfterCommit(s, t).answers ==
              if s.txs[t].aborted then s.answers
              else if p.Create? && p.step.CreateDone? then s.answers + {Answer(p.request.endpoint, p.request.key, p.step.job)}
              else if p.Update? && p.phase.UpdateDone? then s.answers + {Answer(p.seen.endpoint, None, p.phase.next)}
              else s.answers
  {
    hide CommittedWrites, Over;
  }

  lemma AbortedKeeps(s: State, t: nat)
    requires Inv(s) && t in s.txs && s.txs[t].aborted
    ensures Inv(AfterCommit(s, t))
  {
    hide Inv;
    assert Over(s.db, NOTHING) == s.db;
    VanishKeeps(s, t, AfterCommit(s, t));
  }

  lemma ApartOthers(s: State, t: nat)
    requires Locked(s.txs) && t in s.txs
    ensures forall u <- s.txs :: u != t ==> Apart(s.txs[t].writes, s.txs[u].writes)
  {
    hide Apart;
  }

  lemma PlainKeeps(s: State, t: nat)
    requires Inv(s) && t in s.txs && !s.txs[t].aborted && Ready(s.txs[t].program)
    requires s.txs[t].program.Worker? || s.txs[t].program.CancelJob?
    ensures Inv(AfterCommit(s, t))
  {
    hide AfterCommit, Sound, DbOk, TxsOk, AnswersOk, Locked;
    AfterCommitTxs(s, t);
    AfterCommitAnswers(s, t);
    ApartOthers(s, t);
    if s.txs[t].program.Worker? { WorkerSound(s, t); } else { CancelSound(s, t); }
    hide Inv, Apart;
    EndingKeeps(s, t, s.txs[t].writes, AfterCommit(s, t));
  }

  lemma CreateKeeps(s: State, t: nat)
    requires Inv(s) && t in s.txs && Ready(s.txs[t].program) && s.txs[t].program.Create? && !s.txs[t].aborted
    ensures Inv(AfterCommit(s, t))
  {
    hide AfterCommit, Sound, DbOk, AnswersOk, Locked, FreshKeys;
    var tx, s' := s.txs[t], AfterCommit(s, t);
    assert TxOk(s, tx);
    AfterCommitTables(s, t);
    AfterCommitTxs(s, t);
    AfterCommitAnswers(s, t);
    ApartOthers(s, t);
    CreateSound(s, t);
    assert tx.writes.jobs == map[tx.program.step.job := NewJob(tx.program.request)];
    hide Inv, Apart, CreateOk, TxOk;
    EndingKeeps(s, t, tx.writes, s');
  }

  lemma UpdateKeeps(s: State, t: nat)
    requires Inv(s) && t in s.txs && Ready(s.txs[t].program) && s.txs[t].program.Update? && !s.txs[t].aborted
    ensures Inv(AfterCommit(s, t))
  {
    hide AfterCommit, Sound, DbOk, AnswersOk, Locked, FreshKeys;
    var tx, s' := s.txs[t], AfterCommit(s, t);
    assert TxOk(s, tx);
    AfterCommitTables(s, t);
    AfterCommitTxs(s, t);
    AfterCommitAnswers(s, t);
    ApartOthers(s, t);
    UpdateSound(s, t);
    assert tx.program.phase.next in tx.writes.jobs && tx.writes.jobs[tx.program.phase.next] == NextVersion(tx.program);
    hide Inv, Apart, UpdateOk, TxOk;
    EndingKeeps(s, t, tx.writes, s');
  }

  lemma RowsCovered(s: State, t: nat, s': State)
    requires t in s.txs && s.txs[t].program.LibraryCancel? && s.txs[t].program.rest == LibraryRows({}) && LibraryOk(s, s.txs[t])
    requires s'.db == Over(s.db, s.txs[t].writes) && s'.late == s.late
    ensures LibraryOk(s', s.txs[t].(program := LibraryCancel(s.txs[t].program.target, LibraryRetire), writes := NOTHING))
  {
  }

  lemma LibraryRowsKeeps(s: State, t: nat)
    requires Inv(s) && t in s.txs && !s.txs[t].aborted
    requires s.txs[t].program.LibraryCancel? && s.txs[t].program.rest == LibraryRows({})
    ensures Inv(AfterCommit(s, t))
  {
    hide AfterCommit, Sound, SoundJobs, SoundExecutions, SoundSettled, SoundOneShot, DbOk, AnswersOk, Locked, FreshKeys;
    var tx, s' := s.txs[t], AfterCommit(s, t);
    assert TxOk(s, tx);
    AfterCommitTables(s, t);
    AfterCommitTxs(s, t);
    AfterCommitAnswers(s, t);
    ApartOthers(s, t);
    LibraryRowsSound(s, t);
    RowsCovered(s, t, s');
    hide Inv, Apart, LibraryOk, Covered;
    var s1 := s'.(txs := s.txs - {t});
    SoundTxs(s, tx.writes, s', s1);
    EndingKeeps(s, t, tx.writes, s1);
    var next := tx.(program := LibraryCancel(tx.program.target, LibraryRetire), writes := NOTHING);
    assert s'.txs == s1.txs[t := next];
    NothingApart(s1);
    TxOkOnTables(s', s1, next);
    TxReplaced(s1, t, next, s');
  }

  lemma SoundTxs(s: State, w: Tables, s': State, s1: State)
    requires Sound(s, w, s') && s1 == s'.(txs := s1.txs)
    ensures Sound(s, w, s1)
  {
  }

  lemma NothingApart(s: State)
    ensures FreshKeys(s.db, NOTHING) && forall u <- s.txs :: Apart(NOTHING, s.txs[u].writes)
  {
  }

  lemma LibraryRetireKeeps(s: State, t: nat)
    requires Inv(s) && t in s.txs && !s.txs[t].aborted
    requires s.txs[t].program.LibraryCancel? && s.txs[t].program.rest == LibraryRetire
    requires JobFree(s, t, s.txs[t].program.target)
    ensures Inv(AfterCommit(s, t))
  {
    hide AfterCommit, Sound, DbOk, AnswersOk, Locked, FreshKeys, CommittedWrites, JobFree;
    var tx, s' := s.txs[t], AfterCommit(s, t);
    assert TxOk(s, tx);
    forall u <- s.txs | u != t ensures Apart(CommittedWrites(s.db, tx), s.txs[u].writes) {
      LibraryRetireApart(s, t, u);
    }
    AfterCommitTxs(s, t);
    AfterCommitAnswers(s, t);
    LibraryRetireSound(s, t);
    hide Inv, Apart;
    EndingKeeps(s, t, CommittedWrites(s.db, tx), s');
  }

  lemma CommitEventKeeps(s: State, t: nat)
    requires Inv(s) && Enabled(s, Commit(t))
    ensures Inv(AfterCommit(s, t))
  {
    hide Inv, AfterCommit;
    if s.txs[t].aborted {
      AbortedKeeps(s, t);
    } else {
      match s.txs[t].program
      case Worker(_, _, _, _, _) => PlainKeeps(s, t);
      case CancelJob(_, _, _) => PlainKeeps(s, t);
      case Create(_, _) => CreateKeeps(s, t);
      case Update(_, _, _, _, _) => UpdateKeeps(s, t);
      case LibraryCancel(_, rest) =>
        if rest.LibraryRetire? { LibraryRetireKeeps(s, t); } else { LibraryRowsKeeps(s, t); }
    }
  }

  lemma TickKeeps(s: State, j: JobId, x: ExecutionId, limit: int)
    requires Inv(s) && Enabled(s, Tick(j, x, limit))
    ensures Inv(Apply(s, Tick(j, x, limit)))
  {
    hide AfterCommit, Advance, StatementEnabled, DbOk, TxsOk, AnswersOk, Locked, Sound;
    var w := NOTHING.(executions := map[x := TickRow(j, s.db.jobs[j], s.now, limit)]);
    var s' := Apply(s, Tick(j, x, limit));
    TickSound(s, j, x, limit, w, s');
    AloneKeeps(s, w, s');
  }

  lemma CancelExecutionKeeps(s: State, x: ExecutionId)
    requires Inv(s) && Enabled(s, CancelExecution(x))
    ensures Inv(Apply(s, CancelExecution(x)))
  {
    hide AfterCommit, Advance, StatementEnabled, DbOk, TxsOk, AnswersOk, Locked, Sound;
    var w := NOTHING.(executions := map[x := Cancel(s.db.executions[x])]);
    var s' := Apply(s, CancelExecution(x));
    CancelExecutionSound(s, x, w, s');
    AloneKeeps(s, w, s');
  }

  lemma LibraryJobKeeps(s: State, r: Request, j: JobId)
    requires Inv(s) && Enabled(s, LibraryJob(r, j))
    ensures Inv(Apply(s, LibraryJob(r, j)))
  {
    hide AfterCommit, Advance, StatementEnabled, DbOk, TxsOk, AnswersOk, Locked, Sound;
    var w := NOTHING.(jobs := map[j := NewJob(r)]);
    var s' := Apply(s, LibraryJob(r, j));
    LibraryJobSound(s, r, j, w, s');
    AloneKeeps(s, w, s');
  }

  lemma LibraryExecutionKeeps(s: State, j: JobId, x: ExecutionId)
    requires Inv(s) && Enabled(s, LibraryExecution(j, x))
    ensures Inv(Apply(s, LibraryExecution(j, x)))
  {
    hide AfterCommit, Advance, StatementEnabled, DbOk, TxsOk, AnswersOk, Locked, Sound, CancelUnderway;
    var w := NOTHING.(executions := map[x := NewExecution(s.bare[j], j)]);
    var s' := Apply(s, LibraryExecution(j, x));
    LibraryExecutionSound(s, j, x, w, s');
    AloneKeeps(s, w, s');
  }

  lemma WaitKeeps(s: State, now: int)
    requires Inv(s)
    ensures Inv(s.(now := now))
  {
    hide JobsOk, ExecutionsOk, KeysOk, DistinctOk, OneShotOk, SettledOk, TxOk, FreshKeys, Apart;
    var s' := s.(now := now);
    forall u <- s'.txs ensures TxOk(s', s'.txs[u]) && FreshKeys(s'.db, s'.txs[u].writes) {
      assert TxOk(s, s.txs[u]) && FreshKeys(s.db, s.txs[u].writes);
      TxOkOnTables(s, s', s.txs[u]);
    }
  }

  /** Whatever happens next, the invariant holds. */
  lemma EventKeeps(s: State, e: Event)
    requires Inv(s) && Enabled(s, e)
    ensures Inv(Apply(s, e))
  {
    hide Inv, AfterCommit, Advance, StatementEnabled;
    match e
    case Wait(until) => WaitKeeps(s, until);
    case Claim(t, x) => ClaimKeeps(s, t, x);
    case Begin(t, p) => BeginKeeps(s, t, p);
    case Statement(t, reply) => StatementKeeps(s, t, reply);
    case Commit(t) => CommitEventKeeps(s, t);
    case Vanish(t) => VanishKeeps(s, t, Apply(s, e));
    case Tick(j, x, limit) => TickKeeps(s, j, x, limit);
    case CancelExecution(x) => CancelExecutionKeeps(s, x);
    case LibraryJob(r, j) => LibraryJobKeeps(s, r, j);
    case LibraryExecution(j, x) => LibraryExecutionKeeps(s, j, x);
    case AnswerExisting(_, _, _) => InvAnswers(s, Apply(s, e));
  }

  lemma NextKeeps(s: State, s': State)
    requires Inv(s) && Next(s, s')
    ensures Inv(s')
  {
    var e: Event :| Enabled(s, e) && s' == Apply(s, e);
    EventKeeps(s, e);
  }

  lemma InitHolds(s: State)
    requires Init(s)
    ensures Inv(s)
  {
    var reaper: JobId :|
      && s.db.jobs == map[reaper := Job("invokr.reaper", true, Cron, Active, 1, None, None, None, None, None)]
      && s.db.schedule == map[reaper := true];
    assert JobOk(s.db, reaper);
  }

  /** Every state of every run satisfies the invariant. */
  lemma {:induction false} RunKeeps(states: seq<State>, i: nat)
    requires Run(states) && Init(states[0]) && i < |states|
    ensures Inv(states[i])
  {
    hide Inv, Init;
    if i == 0 {
      InitHolds(states[0]);
    } else {
      assert Next(states[i - 1], states[i]);
      RunKeeps(states, i - 1);
      NextKeeps(states[i - 1], states[i]);
    }
  }
}
