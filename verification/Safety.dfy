/** What holds along every run of the service. */
module Safety {
  import opened Basics
  import opened Tables
  import opened Protocol
  import opened Invariant
  import opened Commits
  import opened Reachable
  import opened Runs

  // Executions

  /** No committed row is ever RUNNING: a claim shows only when its outcome does. */
  lemma NeverCommittedRunning(states: seq<State>, i: nat, x: ExecutionId)
    requires History(states) && i < |states| && x in states[i].db.executions
    ensures states[i].db.executions[x].status != Running
  {
    hide History, TxsOk, Locked, AnswersOk, JobsOk, KeysOk, DistinctOk, OneShotOk, SettledOk;
    HistoryInv(states, i);
    assert ExecutionOk(states[i].db, states[i].unloaded, x);
  }

  /** A transaction that has claimed the execution and may still commit. */
  predicate Claims(tx: Tx, x: ExecutionId) {
    tx.program.Worker? && tx.program.execution == x && !tx.aborted
  }

  /** Two workers never hold one execution. */
  lemma OneClaimant(states: seq<State>, i: nat, t: nat, u: nat, x: ExecutionId)
    requires History(states) && i < |states| && t in states[i].txs && u in states[i].txs
    requires Claims(states[i].txs[t], x) && Claims(states[i].txs[u], x)
    ensures t == u
  {
    hide History, DbOk, AnswersOk;
    HistoryInv(states, i);
    var s := states[i];
    assert TxOk(s, s.txs[t]) && TxOk(s, s.txs[u]);
    assert x in s.txs[t].writes.executions && x in s.txs[u].writes.executions;
    assert t != u ==> Apart(s.txs[t].writes, s.txs[u].writes);
  }

  /** An execution's row moves only along the arrows of the state diagram, and only
      SUCCESS, FAILED and CANCELLED are final. */
  lemma {:induction false} ExecutionHistory(states: seq<State>, i: nat, k: nat, x: ExecutionId)
    requires History(states) && i <= k < |states| && x in states[i].db.executions
    ensures x in states[k].db.executions
    ensures var a, b := states[i].db.executions[x], states[k].db.executions[x];
            && b.job == a.job && b.key == a.key && b.limit == a.limit && a.attempts <= b.attempts
            && (a.status in {Succeeded, Failed, Cancelled} ==> b == a)
            && (b.status in {Pending, Queued} ==> b == a)
            && (b.status == Cancelled ==> a.status in {Cancelled, Pending, Queued})
  {
    hide History, Inv, Next, JobsProgress;
    if i < k {
      ExecutionHistory(states, i, k - 1, x);
      HistoryStep(states, k);
    }
  }

  /** The moves between two consecutive states. */
  lemma StepMoves(states: seq<State>, k: nat, x: ExecutionId)
    requires History(states) && 0 < k < |states| && x in states[k - 1].db.executions
    ensures x in states[k].db.executions
    ensures var a, b := states[k - 1].db.executions[x], states[k].db.executions[x];
            || b == a
            || (a.status in {Pending, Queued, Retrying} && b.status in {Succeeded, Failed, Retrying} && b.attempts == a.attempts + 1
                && b == a.(status := b.status, attempts := b.attempts, runAt := b.runAt) && (b.runAt != a.runAt ==> b.status == Retrying))
            || (a.status in {Pending, Queued} && b == a.(status := Cancelled))
  {
    hide History, Inv, Next, JobsProgress;
    HistoryStep(states, k);
  }

  // The attempt ledger

  /** The attempts of an execution are numbered 1 to its attempt count without a gap, except
      that the last one is missing when the endpoint could not be loaded; the row's status
      is SUCCESS exactly when the last attempt succeeded. */
  lemma AttemptLedger(states: seq<State>, i: nat, x: ExecutionId)
    requires History(states) && i < |states| && x in states[i].db.executions
    ensures var s := states[i]; var row := s.db.executions[x];
            && row.attempts <= Max(1, row.limit)
            && (row.status == Retrying ==> row.attempts < row.limit)
            && (x in s.unloaded ==> row.status == Failed)
            && (forall n: int :: Attempt(x, n) in s.db.attempts <==> 1 <= n <= row.attempts - if x in s.unloaded then 1 else 0)
            && (row.status == Succeeded <==> Attempt(x, row.attempts) in s.db.attempts && s.db.attempts[Attempt(x, row.attempts)])
  {
    hide History, TxsOk, Locked, AnswersOk, JobsOk, KeysOk, DistinctOk, OneShotOk, SettledOk;
    HistoryInv(states, i);
    assert ExecutionOk(states[i].db, states[i].unloaded, x);
  }

  /** How many more times the committed row can change. */
  function Rank(row: Execution): int {
    if Terminal(row.status) then 0 else Max(1, row.limit) - row.attempts
  }

  lemma MoveLowersRank(a: Execution, b: Execution)
    requires RowOk(a) && RowOk(b) && Moves(a, b)
    ensures 0 <= Rank(b) < Rank(a)
  {
  }

  /** The number of commits up to state `n` that changed the execution's row. */
  ghost function Changes(states: seq<State>, n: nat, x: ExecutionId): nat
    requires n < |states| && forall i | 0 <= i <= n :: x in states[i].db.executions
  {
    if n == 0 then 0
    else Changes(states, n - 1, x) + if states[n].db.executions[x] == states[n - 1].db.executions[x] then 0 else 1
  }

  lemma LastStepRank(states: seq<State>, n: nat, x: ExecutionId)
    requires Run(states) && Inv(states[0]) && 0 < n < |states| && x in states[n - 1].db.executions
    ensures x in states[n].db.executions
    ensures var a, b := states[n - 1].db.executions[x], states[n].db.executions[x];
            0 <= Rank(b) && Rank(b) + (if b == a then 0 else 1) <= Rank(a)
  {
    hide Inv, Moves, Terminal, JobsProgress, RowOk, Rank;
    RunKeepsFrom(states, n - 1);
    RunKeepsFrom(states, n);
    assert Next(states[n - 1], states[n]);
    hide Run, Next;
    NextProgress(states[n - 1], states[n]);
    StateRowOk(states[n - 1], x);
    StateRowOk(states[n], x);
    var a, b := states[n - 1].db.executions[x], states[n].db.executions[x];
    if a != b {
      MoveLowersRank(a, b);
    }
  }

  lemma {:induction false} ChangesLowerRank(states: seq<State>, n: nat, x: ExecutionId)
    requires Run(states) && Inv(states[0]) && x in states[0].db.executions && n < |states|
    ensures forall i | 0 <= i <= n :: x in states[i].db.executions
    ensures 0 <= Rank(states[n].db.executions[x]) && Changes(states, n, x) + Rank(states[n].db.executions[x]) <= Rank(states[0].db.executions[x])
  {
    if n > 0 {
      ChangesLowerRank(states, n - 1, x);
      LastStepRank(states, n, x);
      hide Rank;
    } else {
      StateRowOk(states[0], x);
    }
    hide Inv, Run;
  }

  /** Workers, cancels and crashes together change one execution's row at most
      max(1, max_attempts) times, however long the run. */
  lemma ChangesBounded(states: seq<State>, n: nat, x: ExecutionId)
    requires Run(states) && Inv(states[0]) && x in states[0].db.executions && n < |states|
    ensures forall i | 0 <= i <= n :: x in states[i].db.executions
    ensures Changes(states, n, x) <= Max(1, states[0].db.executions[x].limit)
  {
    hide Inv, Rank, Changes;
    ChangesLowerRank(states, n, x);
    StateRowOk(states[0], x);
  }

  lemma StateRowOk(s: State, x: ExecutionId)
    requires Inv(s)
    ensures x in s.db.executions ==> RowOk(s.db.executions[x]) && 0 <= Rank(s.db.executions[x]) <= Max(1, s.db.executions[x].limit)
  {
    hide TxsOk, Locked, AnswersOk, JobsOk, KeysOk, DistinctOk, OneShotOk, SettledOk;
    assert x in s.db.executions ==> ExecutionOk(s.db, s.unloaded, x);
  }

  // Jobs

  /** The pg_cron entries are exactly the ACTIVE CRON jobs. */
  lemma ScheduleIsActiveCron(states: seq<State>, i: nat, j: JobId)
    requires History(states) && i < |states|
    ensures Scheduled(states[i].db, j) <==>
              j in states[i].db.jobs && states[i].db.jobs[j].status == Active && states[i].db.jobs[j].trigger == Cron
  {
    hide History, TxsOk, Locked, AnswersOk, ExecutionsOk, KeysOk, DistinctOk, OneShotOk, SettledOk;
    HistoryInv(states, i);
    assert j in states[i].db.jobs ==> JobOk(states[i].db, j);
  }

  /** An INTERNAL CRON job without an end date is never retired or unscheduled. */
  lemma InternalForever(states: seq<State>, i: nat, k: nat, j: JobId)
    requires History(states) && i <= k < |states| && j in states[i].db.jobs
    requires states[i].db.jobs[j].internal && states[i].db.jobs[j].trigger == Cron && states[i].db.jobs[j].endsAt.None?
    ensures j in states[k].db.jobs && states[k].db.jobs[j].status == Active && Scheduled(states[k].db, j)
  {
    hide History, TxsOk, Locked, AnswersOk, ExecutionsOk, KeysOk, DistinctOk, OneShotOk, SettledOk;
    JobHistory(states, i, k, j);
    HistoryInv(states, k);
    assert JobOk(states[k].db, j);
  }

  /** A retired IMMEDIATE or DELAYED job has no PENDING or QUEUED execution, unless the
      library inserted that execution after a cancel had already looked for it. */
  lemma RetiredHasNothingPending(states: seq<State>, i: nat, x: ExecutionId)
    requires History(states) && i < |states| && x in states[i].db.executions
    requires states[i].db.executions[x].status in {Pending, Queued}
    ensures states[i].db.executions[x].job in states[i].db.jobs
    ensures var row := states[i].db.jobs[states[i].db.executions[x].job];
            row.trigger == Cron || row.status == Active || states[i].db.executions[x].job in states[i].late
  {
    hide History, TxsOk, Locked, AnswersOk, JobsOk, KeysOk, DistinctOk, OneShotOk;
    HistoryInv(states, i);
    assert ExecutionOk(states[i].db, states[i].unloaded, x);
    assert Settled(states[i].db.executions[x], states[i].db.jobs, states[i].late);
  }

  /** Only the library's separate second insert makes a job late. */
  lemma LateOnlyByLibrary(s: State, e: Event)
    requires Enabled(s, e) && Apply(s, e).late != s.late
    ensures e.LibraryExecution? && CancelUnderway(s, e.job)
  {
    hide StatementEnabled, BeginEnabled, Advance, CancelUnderway;
    if e.Commit? {
      AfterCommitTables(s, e.tx);
    }
    hide AfterCommit;
  }

  // Idempotency

  /** However creates race, one endpoint and key name one job, and every answer naming them
      names that job. */
  lemma OneJobPerKey(states: seq<State>, i: nat, k: nat, a: Answer, b: Answer)
    requires History(states) && i <= k < |states| && a in states[i].answers && b in states[k].answers
    requires a.endpoint == b.endpoint && a.key == b.key && a.key.Some?
    ensures a.job == b.job && a.job in states[i].db.jobs
  {
    hide History, TxsOk, Locked, JobsOk, ExecutionsOk, DistinctOk, OneShotOk, SettledOk;
    HistoryInv(states, i);
    HistoryInv(states, k);
    JobHistory(states, i, k, a.job);
    assert a.job != b.job ==> !SameKey(states[k].db.jobs[a.job], states[k].db.jobs[b.job]);
  }

  /** The loser of a race does not get the winner's job: once a job with its key has
      committed, its insert can never succeed, so its request ends in an error. */
  lemma LoserNeverInserts(states: seq<State>, i: nat, k: nat, j: JobId, r: Request, t: nat, reply: Reply)
    requires History(states) && i <= k < |states| && j in states[i].db.jobs && SameKey(NewJob(r), states[i].db.jobs[j])
    requires t in states[k].txs && states[k].txs[t].program == Create(r, InsertJob)
    ensures !Enabled(states[k], Statement(t, reply)) && !Enabled(states[k], Commit(t))
  {
    hide History;
    JobHistory(states, i, k, j);
    assert SameKey(NewJob(r), states[k].db.jobs[j]);
    hide NewJobId;
  }

  /** And a create that finds its key committed does not even begin. */
  lemma KnownKeyBeginsNothing(states: seq<State>, i: nat, k: nat, j: JobId, r: Request, t: nat)
    requires History(states) && i <= k < |states| && j in states[i].db.jobs
    requires states[i].db.jobs[j].endpoint == r.endpoint && states[i].db.jobs[j].key == r.key && r.key.Some?
    ensures !Enabled(states[k], Begin(t, Create(r, InsertJob)))
  {
    hide History;
    JobHistory(states, i, k, j);
    assert SameKey(NewJob(r), states[k].db.jobs[j]);
  }

  /** Every committed IMMEDIATE or DELAYED job has exactly one execution, but for the library's
      jobs whose execution it has not inserted yet, which have none. */
  lemma ExactlyOneExecution(states: seq<State>, i: nat, j: JobId)
    requires History(states) && i < |states| && j in states[i].db.jobs && states[i].db.jobs[j].trigger != Cron
    ensures j !in states[i].bare <==> HasExecution(states[i].db.executions, j)
    ensures forall x, y | x in states[i].db.executions && y in states[i].db.executions ::
              states[i].db.executions[x].job == j && states[i].db.executions[y].job == j ==> x == y
  {
    hide History, TxsOk, Locked, AnswersOk, JobsOk, ExecutionsOk, KeysOk, SettledOk, HasExecution;
    HistoryInv(states, i);
    var s := states[i];
    forall x, y | x in s.db.executions && y in s.db.executions && s.db.executions[x].job == j && s.db.executions[y].job == j
      ensures x == y {
      assert x != y ==> !Collide(s.db.executions[x], s.db.executions[y], s.db.jobs);
    }
  }

  /** A CRON job gets at most one execution per tick. */
  lemma OneExecutionPerTick(states: seq<State>, i: nat, x: ExecutionId, y: ExecutionId)
    requires History(states) && i < |states| && x in states[i].db.executions && y in states[i].db.executions
    requires states[i].db.executions[x].job == states[i].db.executions[y].job
    requires states[i].db.executions[x].key == states[i].db.executions[y].key
    ensures x == y
  {
    hide History, TxsOk, Locked, AnswersOk, JobsOk, KeysOk, OneShotOk, SettledOk;
    HistoryInv(states, i);
    var s := states[i];
    assert ExecutionOk(s.db, s.unloaded, x);
    assert x != y ==> !Collide(s.db.executions[x], s.db.executions[y], s.db.jobs);
  }
}
