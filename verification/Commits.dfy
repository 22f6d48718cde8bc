/** Making a set of writes durable: what the writes must satisfy for the committed tables to
    stay consistent, and why the other open transactions do not notice. */
module Commits {
  import opened Tables
  import opened Protocol
  import opened Invariant

  /** The moves one commit may make on one execution row. */
  predicate Moves(a: Execution, b: Execution) {
    && b == a.(status := b.status, attempts := b.attempts, runAt := b.runAt)
    && ((Claimable(a.status) && b.attempts == a.attempts + 1
         && ((b.status == Succeeded && b.runAt == a.runAt) || (b.status == Failed && b.runAt == a.runAt)
             || (b.status == Retrying && b.attempts < b.limit)))
        || (Cancellable(a.status) && b == a.(status := Cancelled)))
  }

  predicate IsOneShot(jobs: map<JobId, Job>, j: JobId) {
    j in jobs && jobs[j].trigger != Cron
  }

  ghost predicate SoundJobs(s: State, w: Tables, s': State) {
    && w.schedule.Keys <= w.jobs.Keys
    && (forall j <- w.jobs :: j in s'.db.jobs && JobOk(s'.db, j))
    && (forall j <- w.jobs :: j in s.db.jobs ==>
          s.db.jobs[j].status == Active && w.jobs[j].status == Retired && Evolves(s.db.jobs[j], w.jobs[j]))
    && (forall i <- w.jobs, j <- w.jobs :: i !in s.db.jobs && j !in s.db.jobs ==> i == j)
    && (forall j <- w.jobs :: j !in s.db.jobs ==> w.jobs[j].status == Active)
    && FreshKeys(s.db, w)
  }

  ghost predicate SoundExecutions(s: State, w: Tables, s': State) {
    && (forall a <- w.attempts :: a.execution in w.executions)
    && (forall x <- w.executions :: x in s'.db.executions && ExecutionOk(s'.db, s'.unloaded, x))
    && (forall x <- w.executions :: x in s.db.executions ==> Moves(s.db.executions[x], w.executions[x]))
    && (forall x <- w.executions, y <- s'.db.executions :: x !in s.db.executions && x != y ==>
          !Collide(w.executions[x], s'.db.executions[y], s'.db.jobs))
    && s.unloaded <= s'.unloaded <= s.unloaded + w.executions.Keys
  }

  /** Nothing claimable is left behind when a one-shot job is retired. */
  ghost predicate SoundSettled(s: State, w: Tables, s': State) {
    && s.late <= s'.late
    && (forall x <- w.executions :: Settled(w.executions[x], s'.db.jobs, s'.late))
    && (forall x <- s.db.executions :: x !in w.executions && s.db.executions[x].job in w.jobs ==>
          Settled(s.db.executions[x], s'.db.jobs, s'.late))
    && (forall x <- w.executions ::
          x !in s.db.executions && IsOneShot(s.db.jobs, w.executions[x].job) && CancelUnderway(s, w.executions[x].job)
          ==> w.executions[x].job in s'.late)
  }

  ghost predicate SoundOneShot(s: State, w: Tables, s': State) {
    && (forall j <- w.jobs :: j !in s.db.jobs && w.jobs[j].trigger != Cron ==> j in s'.bare || HasExecution(w.executions, j))
    && (forall j <- s.bare :: j in s'.bare || HasExecution(w.executions, j))
    && (forall j <- s'.bare :: if j in s.bare then s'.bare[j] == s.bare[j]
                               else j !in s.db.jobs && j in w.jobs && w.jobs[j].trigger != Cron && s'.bare[j].key.Some?)
    && (forall j <- s'.bare :: j !in s.bare ==> !HasExecution(s.db.executions, j))
    && (forall x <- w.executions :: x !in s.db.executions ==> w.executions[x].job !in s'.bare)
  }

  ghost predicate Sound(s: State, w: Tables, s': State) {
    && s'.db == Over(s.db, w)
    && SoundJobs(s, w, s') && SoundExecutions(s, w, s') && SoundSettled(s, w, s') && SoundOneShot(s, w, s')
  }

  // The committed tables stay consistent

  lemma JobsStay(s: State, w: Tables, s': State)
    requires JobsOk(s.db) && s'.db == Over(s.db, w) && SoundJobs(s, w, s')
    ensures JobsOk(s'.db)
  {
    forall j <- s'.db.jobs ensures JobOk(s'.db, j) {
      if j !in w.jobs {
        assert JobOk(s.db, j);
      }
    }
    forall j: JobId | Scheduled(s'.db, j) ensures j in s'.db.jobs {
      assert j in w.schedule || Scheduled(s.db, j);
    }
  }

  lemma KeysStay(s: State, w: Tables, s': State)
    requires KeysOk(s.db.jobs) && s'.db == Over(s.db, w) && SoundJobs(s, w, s')
    ensures KeysOk(s'.db.jobs)
  {
    forall i <- s'.db.jobs, j <- s'.db.jobs | i != j ensures !SameKey(s'.db.jobs[i], s'.db.jobs[j]) {
      if i in s.db.jobs && j in s.db.jobs {
        assert !SameKey(s.db.jobs[i], s.db.jobs[j]);
      }
    }
  }

  lemma ExecutionsStay(s: State, w: Tables, s': State)
    requires ExecutionsOk(s.db, s.unloaded) && s'.db == Over(s.db, w) && SoundExecutions(s, w, s')
    ensures ExecutionsOk(s'.db, s'.unloaded)
  {
    forall x <- s'.db.executions ensures ExecutionOk(s'.db, s'.unloaded, x) {
      if x !in w.executions {
        assert ExecutionOk(s.db, s.unloaded, x);
        forall n: int ensures Attempt(x, n) in s'.db.attempts <==> Attempt(x, n) in s.db.attempts
                      ensures Attempt(x, n) in s.db.attempts ==> s'.db.attempts[Attempt(x, n)] == s.db.attempts[Attempt(x, n)] {
          assert Attempt(x, n) !in w.attempts;
        }
      }
    }
  }

  lemma DistinctStay(s: State, w: Tables, s': State)
    requires DistinctOk(s.db) && s'.db == Over(s.db, w) && SoundExecutions(s, w, s') && SoundJobs(s, w, s')
    requires ExecutionsOk(s.db, s.unloaded)
    ensures DistinctOk(s'.db)
  {
    forall x <- s'.db.executions, y <- s'.db.executions | x != y
      ensures !Collide(s'.db.executions[x], s'.db.executions[y], s'.db.jobs) {
      if x in s.db.executions && y in s.db.executions {
        assert !Collide(s.db.executions[x], s.db.executions[y], s.db.jobs);
        assert ExecutionOk(s.db, s.unloaded, x);
      } else if x !in s.db.executions {
        assert x in w.executions;
      } else {
        assert !Collide(w.executions[y], s'.db.executions[x], s'.db.jobs);
      }
    }
  }

  lemma HasExecutionOver(a: map<ExecutionId, Execution>, b: map<ExecutionId, Execution>, j: JobId)
    requires forall x <- b :: x in a ==> a[x].job == b[x].job
    ensures HasExecution(a + b, j) <==> HasExecution(a, j) || HasExecution(b, j)
  {
    if HasExecution(a, j) {
      var x :| x in a && a[x].job == j;
      assert (a + b)[x].job == j;
    }
    if HasExecution(b, j) {
      var x :| x in b && b[x].job == j;
      assert (a + b)[x].job == j;
    }
  }

  lemma BareHaveNone(s: State, w: Tables, s': State, j: JobId)
    requires OneShotOk(s.db, s.bare) && SoundOneShot(s, w, s') && j in s'.bare
    requires forall x <- w.executions :: x in s.db.executions ==> w.executions[x].job == s.db.executions[x].job
    ensures !HasExecution(s.db.executions, j) && !HasExecution(w.executions, j)
  {
    hide SoundJobs, SoundExecutions;
    assert !HasExecution(s.db.executions, j);
    forall x <- w.executions ensures w.executions[x].job != j {
      assert x in s.db.executions ==> s.db.executions[x].job != j;
    }
  }

  lemma BareOrExecuted(s: State, w: Tables, s': State, j: JobId)
    requires OneShotOk(s.db, s.bare) && s'.db == Over(s.db, w) && SoundOneShot(s, w, s') && IsOneShot(s'.db.jobs, j)
    requires j in w.jobs && j in s.db.jobs ==> w.jobs[j].trigger == s.db.jobs[j].trigger
    ensures j in s'.bare || HasExecution(s.db.executions, j) || HasExecution(w.executions, j)
  {
    hide HasExecution;
  }

  /** Rows keep their job and jobs their trigger. */
  ghost predicate Keep(db: Tables, w: Tables) {
    && (forall x <- w.executions :: x in db.executions ==> w.executions[x].job == db.executions[x].job)
    && (forall j <- w.jobs :: j in db.jobs ==> w.jobs[j].trigger == db.jobs[j].trigger)
  }

  lemma SoundKeeps(s: State, w: Tables, s': State)
    requires SoundJobs(s, w, s') && SoundExecutions(s, w, s')
    ensures Keep(s.db, w)
  {
    hide JobOk, FreshKeys, ExecutionOk, Collide;
  }

  lemma BareStays(s: State, w: Tables, s': State, j: JobId)
    requires OneShotOk(s.db, s.bare) && s'.db == Over(s.db, w) && Keep(s.db, w) && SoundOneShot(s, w, s') && j in s'.bare
    ensures j in s'.db.jobs && s'.db.jobs[j].trigger != Cron && s'.bare[j].key.Some? && !HasExecution(s'.db.executions, j)
  {
    HasExecutionOver(s.db.executions, w.executions, j);
    BareHaveNone(s, w, s', j);
    hide HasExecution;
  }

  lemma ExecutedStays(s: State, w: Tables, s': State, j: JobId)
    requires OneShotOk(s.db, s.bare) && s'.db == Over(s.db, w) && Keep(s.db, w) && SoundOneShot(s, w, s')
    requires IsOneShot(s'.db.jobs, j)
    ensures j in s'.bare || HasExecution(s'.db.executions, j)
  {
    HasExecutionOver(s.db.executions, w.executions, j);
    BareOrExecuted(s, w, s', j);
    hide HasExecution, SoundOneShot, OneShotOk;
  }

  lemma OneShotStay(s: State, w: Tables, s': State)
    requires OneShotOk(s.db, s.bare) && s'.db == Over(s.db, w)
    requires SoundJobs(s, w, s') && SoundExecutions(s, w, s') && SoundOneShot(s, w, s')
    ensures OneShotOk(s'.db, s'.bare)
  {
    hide HasExecution, SoundExecutions, SoundJobs, SoundOneShot, Keep, Over;
    SoundKeeps(s, w, s');
    forall j <- s'.bare
      ensures j in s'.db.jobs && s'.db.jobs[j].trigger != Cron && s'.bare[j].key.Some? && !HasExecution(s'.db.executions, j) {
      BareStays(s, w, s', j);
    }
    forall j <- s'.db.jobs | s'.db.jobs[j].trigger != Cron ensures j in s'.bare || HasExecution(s'.db.executions, j) {
      ExecutedStays(s, w, s', j);
    }
  }

  lemma SettledStay(s: State, w: Tables, s': State)
    requires SettledOk(s.db, s.late) && s'.db == Over(s.db, w) && SoundSettled(s, w, s') && SoundJobs(s, w, s')
    requires ExecutionsOk(s.db, s.unloaded)
    ensures SettledOk(s'.db, s'.late)
  {
    forall x <- s'.db.executions ensures Settled(s'.db.executions[x], s'.db.jobs, s'.late) {
      if x !in w.executions && s.db.executions[x].job !in w.jobs {
        assert ExecutionOk(s.db, s.unloaded, x);
        assert Settled(s.db.executions[x], s.db.jobs, s.late);
      }
    }
  }

  lemma DbStays(s: State, w: Tables, s': State)
    requires DbOk(s) && Sound(s, w, s')
    ensures DbOk(s')
  {
    JobsStay(s, w, s');
    KeysStay(s, w, s');
    ExecutionsStay(s, w, s');
    DistinctStay(s, w, s');
    OneShotStay(s, w, s');
    SettledStay(s, w, s');
  }

  // Other open transactions

  /** The rows a transaction has locked or inserted. */
  ghost predicate RowsKept(s: State, s': State, w: Tables) {
    && (forall x <- w.executions :: if x in s.db.executions then x in s'.db.executions && s'.db.executions[x] == s.db.executions[x]
                                    else x !in s'.db.executions)
    && (forall j <- w.jobs :: if j in s.db.jobs then j in s'.db.jobs && s'.db.jobs[j] == s.db.jobs[j]
                              else j !in s'.db.jobs)
  }

  ghost predicate JobsEvolve(s: State, s': State) {
    forall j <- s.db.jobs :: j in s'.db.jobs && Evolves(s.db.jobs[j], s'.db.jobs[j])
  }

  ghost predicate NoNewWork(s: State, s': State, tx: Tx) {
    && s.late <= s'.late
    && (forall x <- s'.db.executions :: x in s.db.executions ==>
          s'.db.executions[x].job == s.db.executions[x].job
          && (Cancellable(s'.db.executions[x].status) ==> Cancellable(s.db.executions[x].status)))
    && (forall x <- s'.db.executions ::
          x !in s.db.executions && IsOneShot(s.db.jobs, s'.db.executions[x].job) && Selected(tx.program, s'.db.executions[x].job)
          ==> s'.db.executions[x].job in s'.late)
  }

  /** What another transaction's commit leaves in place for an open one. */
  ghost predicate Undisturbed(s: State, s': State, tx: Tx) {
    RowsKept(s, s', tx.writes) && JobsEvolve(s, s') && NoNewWork(s, s', tx)
  }

  lemma CommitKeepsRows(s: State, w: Tables, s': State, mine: Tables)
    requires s'.db == Over(s.db, w) && Apart(w, mine)
    ensures RowsKept(s, s', mine)
  {
    assert forall x <- mine.executions :: x !in w.executions;
    assert forall j <- mine.jobs :: j !in w.jobs;
  }

  lemma CommitEvolvesJobs(s: State, w: Tables, s': State)
    requires s'.db == Over(s.db, w) && SoundJobs(s, w, s')
    ensures JobsEvolve(s, s')
  {
    hide JobOk, FreshKeys;
  }

  lemma CommitAddsNoWork(s: State, w: Tables, s': State, t: nat)
    requires t in s.txs && s'.db == Over(s.db, w) && SoundExecutions(s, w, s') && SoundSettled(s, w, s')
    ensures NoNewWork(s, s', s.txs[t])
  {
    hide ExecutionOk, Collide, Settled;
    var program := s.txs[t].program;
    forall j: JobId | Selected(program, j) ensures CancelUnderway(s, j) {
    }
    hide CancelUnderway, Selected;
  }

  lemma CommitUndisturbing(s: State, w: Tables, s': State, t: nat)
    requires t in s.txs && Sound(s, w, s') && Apart(w, s.txs[t].writes)
    ensures Undisturbed(s, s', s.txs[t])
  {
    CommitKeepsRows(s, w, s', s.txs[t].writes);
    CommitEvolvesJobs(s, w, s');
    CommitAddsNoWork(s, w, s', t);
  }

  lemma FreshKeysStay(s: State, w: Tables, s': State, tx: Tx)
    requires Sound(s, w, s') && Apart(w, tx.writes) && FreshKeys(s.db, tx.writes)
    ensures FreshKeys(s'.db, tx.writes)
  {
    forall j <- tx.writes.jobs, i <- s'.db.jobs | i != j ensures !SameKey(tx.writes.jobs[j], s'.db.jobs[i]) {
      if i in w.jobs {
        assert !SameKey(w.jobs[i], tx.writes.jobs[j]);
      }
    }
  }

  lemma CoveredStays(s: State, s': State, tx: Tx, job: JobId, rows: set<ExecutionId>)
    requires Undisturbed(s, s', tx) && Selected(tx.program, job)
    requires job in s.db.jobs && s.db.jobs[job].trigger != Cron
    requires Covered(s, job, rows, tx.writes)
    ensures Covered(s', job, rows, tx.writes)
  {
  }

  lemma WorkerUndisturbed(s: State, s': State, tx: Tx)
    requires tx.program.Worker? && WorkerOk(s, tx) && Undisturbed(s, s', tx)
    ensures WorkerOk(s', tx)
  {
  }

  lemma CreateUndisturbed(s: State, s': State, tx: Tx)
    requires tx.program.Create? && CreateOk(s, tx) && Undisturbed(s, s', tx)
    ensures CreateOk(s', tx)
  {
    var r, w := tx.program.request, tx.writes;
    match tx.program.step
    case CreateDone(j) =>
      assert j in w.jobs;
      if r.trigger != Cron {
        var x: ExecutionId :| x !in s.db.executions && w == Created(r, j, x);
        assert x in w.executions;
        assert x !in s'.db.executions && w == Created(r, j, x);
      }
    case InsertExecution(j) => assert j in w.jobs;
    case Register(j) => assert j in w.jobs;
    case _ =>
  }

  lemma UpdateUndisturbed(s: State, s': State, tx: Tx)
    requires tx.program.Update? && UpdateOk(s, tx) && Undisturbed(s, s', tx)
    ensures UpdateOk(s', tx)
  {
    var p := tx.program;
    assert Evolves(s.db.jobs[p.prior], s'.db.jobs[p.prior]);
    if !p.phase.RetireOld? {
      assert p.prior in tx.writes.jobs <==> s.db.jobs[p.prior].status == Active;
      assert RetiredPrior(s'.db, p.prior) == RetiredPrior(s.db, p.prior);
    }
    match p.phase
    case UnregisterOld(n) => assert n in tx.writes.jobs;
    case RegisterNew(n) => assert n in tx.writes.jobs;
    case UpdateDone(n) => assert n in tx.writes.jobs;
    case _ =>
  }

  lemma CancelUndisturbed(s: State, s': State, tx: Tx)
    requires tx.program.CancelJob? && CancelOk(s, tx) && Undisturbed(s, s', tx)
    ensures CancelOk(s', tx)
  {
    var p, w := tx.program, tx.writes;
    match p.stage
    case CancelRows(rows) => CoveredStays(s, s', tx, p.target, rows);
    case RetireJob =>
      if p.trigger != Cron { CoveredStays(s, s', tx, p.target, {}); }
    case UnregisterJob => assert p.target in w.jobs;
    case CancelDone =>
      assert p.target in w.jobs;
      if p.trigger != Cron { CoveredStays(s, s', tx, p.target, {}); }
    case _ =>
  }

  lemma LibraryUndisturbed(s: State, s': State, tx: Tx)
    requires tx.program.LibraryCancel? && LibraryOk(s, tx) && Undisturbed(s, s', tx)
    ensures LibraryOk(s', tx)
  {
    var p := tx.program;
    match p.rest
    case LibraryRows(rows) => CoveredStays(s, s', tx, p.target, rows);
    case LibraryRetire => CoveredStays(s, s', tx, p.target, {});
    case _ =>
  }

  lemma TxUndisturbed(s: State, s': State, tx: Tx)
    requires TxOk(s, tx) && Undisturbed(s, s', tx)
    ensures TxOk(s', tx)
  {
    match tx.program
    case Worker(_, _, _, _, _) => WorkerUndisturbed(s, s', tx);
    case Create(_, _) => CreateUndisturbed(s, s', tx);
    case Update(_, _, _, _, _) => UpdateUndisturbed(s, s', tx);
    case CancelJob(_, _, _) => CancelUndisturbed(s, s', tx);
    case LibraryCancel(_, _) => LibraryUndisturbed(s, s', tx);
  }

  /** Every invariant survives a sound commit, for the transactions that stay open. */
  lemma CommitKeeps(s: State, w: Tables, s': State)
    requires Inv(s) && Sound(s, w, s') && s'.answers == s.answers
    requires forall t <- s'.txs :: t in s.txs && s'.txs[t] == s.txs[t] && Apart(w, s.txs[t].writes)
    ensures Inv(s')
  {
    DbStays(s, w, s');
    forall t <- s'.txs ensures TxOk(s', s'.txs[t]) && FreshKeys(s'.db, s'.txs[t].writes) {
      hide DbOk, Sound, Apart, FreshKeys, TxOk, Undisturbed;
      assert TxOk(s, s.txs[t]) && FreshKeys(s.db, s.txs[t].writes);
      CommitUndisturbing(s, w, s', t);
      TxUndisturbed(s, s', s.txs[t]);
      FreshKeysStay(s, w, s', s.txs[t]);
    }
    AnswersStay(s, w, s');
  }

  lemma AnswersStay(s: State, w: Tables, s': State)
    requires AnswersOk(s) && Sound(s, w, s') && s'.answers == s.answers
    ensures AnswersOk(s')
  {
    forall a <- s'.answers
      ensures a.job in s'.db.jobs && s'.db.jobs[a.job].endpoint == a.endpoint && s'.db.jobs[a.job].key == a.key {
      assert a.job in s.db.jobs;
    }
  }
}
