/** What can always still happen: nothing that waits is stuck, every tick in a job's window
    gives an execution, and a key that is free can be used. */
module Progress {
  import opened Wrappers
  import opened Basics
  import opened Tables
  import opened Protocol
  import opened Invariant
  import opened Runs
  import opened Delivery
  import opened Witnesses
  import opened Late

  lemma ClearAll(s: State, s1: State) returns (s': State)
    requires Reaches(s, s1)
    ensures Reaches(s, s') && s'.db == s1.db && s'.txs == map[] && s'.now == s1.now
    decreases |s1.txs.Keys|
  {
    if s1.txs.Keys == {} {
      s' := s1;
    } else {
      var u :| u in s1.txs;
      var s2 := VanishNow(s, s1, u);
      assert s2.txs.Keys == s1.txs.Keys - {u};
      hide Reaches;
      s' := ClearAll(s, s2);
    }
  }

  lemma WaitUntil(s: State, s1: State, until: int) returns (s': State)
    requires Reaches(s, s1) && s1.now <= until
    ensures Reaches(s, s') && s' == s1.(now := until)
  {
    hide Reaches, StatementEnabled, AfterCommit, Advance;
    s' := Apply(s1, Wait(until));
    ReachesNext(s, s1, Wait(until));
  }

  // An attempt from its claim to its commit

  /** The row after one more attempt, at the given time. */
  function After(row: Execution, delivered: bool, retryAt: int): Execution {
    if delivered then row.(status := Succeeded, attempts := row.attempts + 1)
    else if row.attempts + 1 < row.limit then row.(status := Retrying, attempts := row.attempts + 1, runAt := retryAt)
    else row.(status := Failed, attempts := row.attempts + 1)
  }

  /** A worker alone with its claim, past its dispatch. */
  function Attempting(s: State, x: ExecutionId, at: WorkerPoint, out: Execution, attempts: map<Attempt, bool>, began: int): Tx
    requires x in s.db.executions
  {
    var row := s.db.executions[x];
    Tx(Worker(x, row.attempts + 1, row.limit, row.internal, at),
       NOTHING.(executions := map[x := out], attempts := attempts), false, began)
  }

  lemma CompleteAttempt(s: State, s1: State, x: ExecutionId, delivered: bool, ms: int) returns (s': State)
    requires x in s1.db.executions && Claimable(s1.db.executions[x].status)
    requires Attempt(x, s1.db.executions[x].attempts + 1) !in s1.db.attempts
    requires Reaches(s, With(s1, 0, Attempting(s1, x, RecordAttempt(delivered), Claimed(s1.db.executions[x]), map[], s1.now)))
    ensures Reaches(s, s') && x in s'.db.executions && s'.db.executions[x] == After(s1.db.executions[x], delivered, s1.now + ms)
  {
    hide Reaches;
    var row := s1.db.executions[x];
    var a := Attempt(x, row.attempts + 1);
    var out := After(row, delivered, s1.now + ms);
    var recorded := Attempting(s1, x, Complete(delivered), Claimed(row), map[a := delivered], s1.now);
    var completed := Attempting(s1, x, LogOutcome(Called), out, map[a := delivered], s1.now);
    var logged := Attempting(s1, x, Finish(Called), out, map[a := delivered], s1.now);
    StepTx(s, s1, 0, Attempting(s1, x, RecordAttempt(delivered), Claimed(row), map[], s1.now), Ok);
    RecordedIs(s1, x, delivered);
    CompletedIs(s1, x, delivered, ms);
    hide Advance;
    StepTx(s, s1, 0, recorded, Backoff(ms));
    LoggedIs(s1, x, delivered, out);
    StepTx(s, s1, 0, completed, Ok);
    s' := CommitTx(s, s1, 0, logged);
  }

  lemma RecordedIs(s: State, x: ExecutionId, delivered: bool)
    requires x in s.db.executions
    ensures var row, a := s.db.executions[x], Attempt(x, s.db.executions[x].attempts + 1);
            Advance(s.db, Attempting(s, x, RecordAttempt(delivered), Claimed(row), map[], s.now), Ok) ==
            Attempting(s, x, Complete(delivered), Claimed(row), map[a := delivered], s.now)
  {
    assert map[][Attempt(x, s.db.executions[x].attempts + 1) := delivered] == map[Attempt(x, s.db.executions[x].attempts + 1) := delivered];
  }

  lemma CompletedIs(s: State, x: ExecutionId, delivered: bool, ms: int)
    requires x in s.db.executions && Claimable(s.db.executions[x].status)
    ensures var row, a := s.db.executions[x], Attempt(x, s.db.executions[x].attempts + 1);
            Advance(s.db, Attempting(s, x, Complete(delivered), Claimed(row), map[a := delivered], s.now), Backoff(ms)) ==
            Attempting(s, x, LogOutcome(Called), After(row, delivered, s.now + ms), map[a := delivered], s.now)
  {
    var row := s.db.executions[x];
    assert map[x := Claimed(row)][x := After(row, delivered, s.now + ms)] == map[x := After(row, delivered, s.now + ms)];
  }

  lemma LoggedIs(s: State, x: ExecutionId, delivered: bool, out: Execution)
    requires x in s.db.executions
    ensures var a := Attempt(x, s.db.executions[x].attempts + 1);
            Advance(s.db, Attempting(s, x, LogOutcome(Called), out, map[a := delivered], s.now), Ok) ==
            Attempting(s, x, Finish(Called), out, map[a := delivered], s.now)
  {
  }

  lemma ClaimAndDispatch(s: State, x: ExecutionId, delivered: bool) returns (s': State)
    requires s.txs == map[] && x in s.db.executions && Claimable(s.db.executions[x].status) && s.db.executions[x].runAt <= s.now
    ensures Reaches(s, s') && s'.db == s.db && s'.now == s.now
    ensures s' == With(s', 0, Attempting(s', x, RecordAttempt(delivered), Claimed(s.db.executions[x]), map[], s.now))
  {
    hide Reaches, AfterCommit, Advance, StatementEnabled;
    assert Enabled(s, Claim(0, x));
    PathToLog(s, 0, x);
    PathStep(s, 0, x, LogDispatch);
    var s1 := s.(txs := s.txs[0 := Claimant(s, x, Dispatch, false)]);
    hide Enabled;
    s' := DispatchNow(s1, 0, delivered);
    ReachesThrough(s, s1, s');
  }

  lemma RunAttempt(s: State, x: ExecutionId, delivered: bool, ms: int) returns (s': State)
    requires Inv(s) && x in s.db.executions && s.db.executions[x].status in {Pending, Queued, Retrying}
    ensures Reaches(s, s') && x in s'.db.executions
    ensures var row := s.db.executions[x];
            s'.db.executions[x] == After(row, delivered, Max(s.now, row.runAt) + ms)
  {
    NextAttemptFree(s, x);
    hide Inv, Reaches;
    ReachesSelf(s);
    var s1 := ClearAll(s, s);
    var s2 := WaitUntil(s, s1, Max(s.now, s.db.executions[x].runAt));
    var s3 := ClaimAndDispatch(s2, x, delivered);
    ReachesThrough(s, s2, s3);
    s' := CompleteAttempt(s, s3, x, delivered, ms);
  }

  lemma NextAttemptFree(s: State, x: ExecutionId)
    requires Inv(s) && x in s.db.executions && s.db.executions[x].status in {Pending, Queued, Retrying}
    ensures Attempt(x, s.db.executions[x].attempts + 1) !in s.db.attempts && Claimable(s.db.executions[x].status)
  {
    hide TxsOk, Locked, AnswersOk, JobsOk, KeysOk, DistinctOk, OneShotOk, SettledOk;
    assert ExecutionOk(s.db, s.unloaded, x);
  }

  ghost predicate CanBecome(s: State, x: ExecutionId, row: Execution) {
    exists s': State :: Reaches(s, s') && x in s'.db.executions && s'.db.executions[x] == row
  }

  /** No execution is lost: whatever has happened, one that is PENDING, QUEUED or RETRYING can
      still be claimed once its time has come and whoever holds it is gone.  Then a delivery
      makes it a SUCCESS, and a failure leaves it RETRYING after the backoff while attempts are
      left, and FAILED when none is. */
  lemma NothingIsStuck(states: seq<State>, i: nat, x: ExecutionId, ms: int)
    requires History(states) && i < |states| && x in states[i].db.executions
    requires states[i].db.executions[x].status in {Pending, Queued, Retrying}
    ensures var s, row := states[i], states[i].db.executions[x];
            var more := row.attempts + 1;
            && CanBecome(s, x, row.(status := Succeeded, attempts := more))
            && (more < row.limit ==>
                  CanBecome(s, x, row.(status := Retrying, attempts := more, runAt := Max(s.now, row.runAt) + ms)))
            && (more >= row.limit ==> CanBecome(s, x, row.(status := Failed, attempts := more)))
  {
    hide Inv, Reaches;
    HistoryInv(states, i);
    hide History;
    var done := RunAttempt(states[i], x, true, ms);
    var failed := RunAttempt(states[i], x, false, ms);
  }

  // Ticks

  /** A tick gives an execution exactly when the job is an ACTIVE CRON job that has started and
      not ended and has none for this moment yet. */
  lemma TickExactly(states: seq<State>, i: nat, j: JobId, x: ExecutionId, limit: int)
    requires History(states) && i < |states| && NewExecutionId(states[i], x)
    ensures var s := states[i];
            Enabled(s, Tick(j, x, limit)) <==>
              && j in s.db.jobs && s.db.jobs[j].status == Active && s.db.jobs[j].trigger == Cron
              && (s.db.jobs[j].startsAt.Some? ==> s.db.jobs[j].startsAt.value <= s.now)
              && (s.db.jobs[j].endsAt.Some? ==> s.now < s.db.jobs[j].endsAt.value)
              && (forall y <- s.db.executions :: s.db.executions[y].job == j ==> s.db.executions[y].key != TickAt(s.now))
  {
    var s := states[i];
    hide Inv, Scheduled, NewExecutionId, StatementEnabled, BeginEnabled, KeyFree;
    HistoryInv(states, i);
    ScheduledExactly(s, j);
    hide History;
  }

  lemma ScheduledExactly(s: State, j: JobId)
    requires Inv(s)
    ensures Scheduled(s.db, j) <==> j in s.db.jobs && s.db.jobs[j].status == Active && s.db.jobs[j].trigger == Cron
  {
    hide TxsOk, Locked, AnswersOk, ExecutionsOk, KeysOk, DistinctOk, OneShotOk, SettledOk;
    assert j in s.db.jobs ==> JobOk(s.db, j);
  }

  /** That execution is QUEUED and due at once, and nothing else changes. */
  lemma TickInserts(s: State, j: JobId, x: ExecutionId, limit: int)
    requires Enabled(s, Tick(j, x, limit))
    ensures j in s.db.jobs && var s' := Apply(s, Tick(j, x, limit));
            && s'.db.jobs == s.db.jobs && s'.db.schedule == s.db.schedule && s'.db.attempts == s.db.attempts
            && s'.db.executions == s.db.executions[x := Execution(j, TickAt(s.now), s.db.jobs[j].internal, Queued, 0, limit, s.now)]
  {
    hide StatementEnabled, BeginEnabled, KeyFree, AfterCommit, Advance, CancelUnderway;
  }

  // Creates

  lemma BeginCreate(s: State, s1: State, r: Request) returns (tx: Tx)
    requires Reaches(s, s1) && s1.txs == map[] && r.trigger != Cron && !r.internal && r.key.Some?
    requires forall i <- s1.db.jobs :: !(s1.db.jobs[i].endpoint == r.endpoint && s1.db.jobs[i].key == r.key)
    ensures tx == Tx(Create(r, InsertJob), NOTHING, false, s1.now) && Reaches(s, With(s1, 0, tx))
  {
    hide Reaches;
    tx := Tx(Create(r, InsertJob), NOTHING, false, s1.now);
    BeginTx(s, s1, 0, tx.program);
  }

  /** A key stays free until a job with it is committed for the same endpoint: until then a
      create can still come through, and leaves one ACTIVE job with one execution. */
  lemma FreeKeyCanBeUsed(states: seq<State>, i: nat, r: Request, j: JobId, x: ExecutionId)
    requires History(states) && i < |states|
    requires r.trigger != Cron && !r.internal && r.key.Some? && j !in states[i].db.jobs && x !in states[i].db.executions
    requires forall k <- states[i].db.jobs :: !(states[i].db.jobs[k].endpoint == r.endpoint && states[i].db.jobs[k].key == r.key)
    ensures exists s': State ::
              && Reaches(states[i], s')
              && s'.db.jobs == states[i].db.jobs[j := Job(r.endpoint, false, r.trigger, Active, 1, None, None, r.key, r.startsAt, r.endsAt)]
              && s'.db.executions == states[i].db.executions[x :=
                   Execution(j, Given(r.key.value), false, if r.trigger == Immediate then Queued else Pending, 0, r.limit, r.runAt)]
  {
    hide Inv, Reaches, History;
    var s := states[i];
    ReachesSelf(s);
    var s1 := ClearAll(s, s);
    var tx := BeginCreate(s, s1, r);
    StepTx(s, s1, 0, tx, Row(j));
    var tx1 := Advance(s1.db, tx, Row(j));
    assert tx1 == Tx(Create(r, InsertExecution(j)), NOTHING.(jobs := map[j := NewJob(r)]), false, s1.now);
    StepTx(s, s1, 0, tx1, Row(x));
    var tx2 := Advance(s1.db, tx1, Row(x));
    assert tx2 == Tx(Create(r, CreateDone(j)), Created(r, j, x), false, s1.now);
    hide Advance;
    var s' := CommitTx(s, s1, 0, tx2);
  }
}
