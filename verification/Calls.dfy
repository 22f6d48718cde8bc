/** Every call to an endpoint is accounted for: by an attempt in the tables, by a worker still
    at work, or by a transaction that was lost. */
module Calls {
  import opened Tables
  import opened Protocol
  import opened Invariant
  import opened Statements
  import opened Reachable
  import opened Runs
  import opened Delivery

  /** Open workers that have called the execution's endpoint. */
  ghost function AtWork(txs: map<nat, Tx>, x: ExecutionId): set<nat> {
    set t | t in txs && HasCalled(txs[t].program) && txs[t].program.execution == x
  }

  function LostCalls(s: State, x: ExecutionId): nat {
    multiset(s.lost)[x]
  }

  /** The attempts of an execution that made a call, from its committed row. */
  function CallingAttempts(s: State, x: ExecutionId): int {
    if x !in s.db.executions then 0
    else s.db.executions[x].attempts - if x in s.uncalled then 1 else 0
  }

  ghost predicate Balanced(s: State, x: ExecutionId) {
    Delivery.Calls(s, x) == CallingAttempts(s, x) + |AtWork(s.txs, x)| + LostCalls(s, x)
  }

  ghost predicate UncalledOk(s: State) {
    forall x <- s.uncalled :: x in s.db.executions && s.db.executions[x].status == Failed
  }

  // Statements

  lemma ReadKeepsCalled(db: Tables, tx: Tx, reply: Reply)
    requires tx.program.Worker? && Reads(tx.program.at)
    ensures HasCalled(WorkerStep(db, tx, reply).program) <==> HasCalled(tx.program) || tx.program.at.Dispatch?
  {
  }

  lemma WorkerKeepsCalled(db: Tables, tx: Tx, reply: Reply)
    requires tx.program.Worker?
    ensures HasCalled(WorkerStep(db, tx, reply).program) <==> HasCalled(tx.program) || tx.program.at.Dispatch?
  {
    if Reads(tx.program.at) {
      ReadKeepsCalled(db, tx, reply);
      hide WorkerStep;
    }
  }

  lemma StatementCalls(db: Tables, tx: Tx, reply: Reply)
    ensures HasCalled(Advance(db, tx, reply).program) <==> HasCalled(tx.program) || (tx.program.Worker? && tx.program.at.Dispatch?)
    ensures tx.program.Worker? ==> Advance(db, tx, reply).program.Worker? && Advance(db, tx, reply).program.execution == tx.program.execution
    ensures tx.program.Worker? && tx.program.at.Dispatch? ==> !HasCalled(tx.program)
  {
    hide WorkerStep, CreateStep, UpdateStep, CancelStep, LibraryStep;
    if tx.program.Worker? {
      WorkerKeepsCalled(db, tx, reply);
    } else {
      OthersStay(db, tx, reply);
    }
  }

  lemma ReplacedAtWork(txs: map<nat, Tx>, t: nat, tx: Tx, x: ExecutionId)
    requires t in txs && txs[t].program.Worker? ==> tx.program.Worker? && tx.program.execution == txs[t].program.execution
    requires t in txs && (HasCalled(txs[t].program) ==> HasCalled(tx.program))
    ensures var called := HasCalled(tx.program) && tx.program.execution == x && !HasCalled(txs[t].program);
            |AtWork(txs[t := tx], x)| == |AtWork(txs, x)| + if called then 1 else 0
  {
    var called := HasCalled(tx.program) && tx.program.execution == x && !HasCalled(txs[t].program);
    assert HasCalled(txs[t].program) ==> txs[t].program.Worker?;
    hide HasCalled;
    assert AtWork(txs[t := tx], x) == AtWork(txs, x) + if called then {t} else {};
    assert called ==> t !in AtWork(txs, x);
  }

  lemma StatementBalances(s: State, t: nat, reply: Reply, x: ExecutionId)
    requires Balanced(s, x) && Enabled(s, Statement(t, reply))
    ensures Balanced(Apply(s, Statement(t, reply)), x)
  {
    hide StatementEnabled, Advance, AfterCommit, HasCalled, AtWork;
    StatementCalls(s.db, s.txs[t], reply);
    ReplacedAtWork(s.txs, t, Advance(s.db, s.txs[t], reply), x);
  }

  // Ends of transactions

  lemma RemovedAtWork(txs: map<nat, Tx>, t: nat, x: ExecutionId)
    requires t in txs
    ensures |AtWork(txs - {t}, x)| == |AtWork(txs, x)| - if HasCalled(txs[t].program) && txs[t].program.execution == x then 1 else 0
  {
    assert AtWork(txs - {t}, x) == AtWork(txs, x) - {t};
    hide HasCalled;
  }

  lemma LostOne(s: State, p: Program, x: ExecutionId)
    ensures multiset(s.lost + LostCall(p))[x] == multiset(s.lost)[x] + if HasCalled(p) && p.execution == x then 1 else 0
  {
    hide HasCalled;
  }

  lemma VanishBalances(s: State, t: nat, x: ExecutionId)
    requires Balanced(s, x) && t in s.txs
    ensures Balanced(s.(txs := s.txs - {t}, lost := s.lost + LostCall(s.txs[t].program)), x)
  {
    hide HasCalled, LostCall, AtWork;
    RemovedAtWork(s.txs, t, x);
    LostOne(s, s.txs[t].program, x);
  }

  /** Rows whose attempts a commit does not touch. */
  lemma SameAttempts(s: State, s': State, x: ExecutionId)
    requires Balanced(s, x) && s'.dispatches == s.dispatches && s'.lost == s.lost && AtWork(s'.txs, x) == AtWork(s.txs, x)
    requires CallingAttempts(s', x) == CallingAttempts(s, x)
    ensures Balanced(s', x)
  {
  }

  lemma WorkerEnds(s: State, t: nat)
    requires Inv(s) && t in s.txs && !s.txs[t].aborted && s.txs[t].program.Worker? && s.txs[t].program.at.Finish?
    ensures var p, w := s.txs[t].program, s.txs[t].writes;
            && w.executions.Keys == {p.execution} && p.execution in s.db.executions
            && Claimable(s.db.executions[p.execution].status)
            && w.executions[p.execution].attempts == s.db.executions[p.execution].attempts + 1
            && (!p.at.ending.Called? ==> w.executions[p.execution].status == Failed)
            && (p.at.ending.Called? && w.executions[p.execution].status == Failed ==>
                  w.executions[p.execution].attempts >= w.executions[p.execution].limit)
  {
    hide DbOk, Locked, AnswersOk;
    assert TxOk(s, s.txs[t]);
  }

  lemma AfterCommitCalls(s: State, t: nat)
    requires t in s.txs
    ensures var s', tx := AfterCommit(s, t), s.txs[t];
            && s'.dispatches == s.dispatches
            && s'.lost == (if tx.aborted then s.lost + LostCall(tx.program) else s.lost)
            && s'.uncalled == if !tx.aborted && tx.program.Worker? && tx.program.at.Finish? && !tx.program.at.ending.Called?
                              then s.uncalled + {tx.program.execution} else s.uncalled
  {
    hide CommittedWrites, Over, LostCall;
  }

  lemma WorkerCommitBalances(s: State, t: nat, x: ExecutionId)
    requires Inv(s) && UncalledOk(s) && Balanced(s, x)
    requires t in s.txs && !s.txs[t].aborted && s.txs[t].program.Worker? && s.txs[t].program.at.Finish?
    ensures Balanced(AfterCommit(s, t), x)
  {
    hide AfterCommit, Inv, HasCalled;
    var s', p := AfterCommit(s, t), s.txs[t].program;
    AfterCommitTables(s, t);
    AfterCommitTxs(s, t);
    AfterCommitCalls(s, t);
    WorkerEnds(s, t);
    RemovedAtWork(s.txs, t, x);
    FinishHasCalled(p);
    assert p.execution !in s.uncalled;
    hide AtWork;
  }

  lemma FinishHasCalled(p: Program)
    requires p.Worker? && p.at.Finish?
    ensures HasCalled(p) <==> p.at.ending.Called?
  {
  }

  /** Commits that are not a worker's leave every attempt count as it is. */
  lemma OtherWritesKeepAttempts(s: State, t: nat, x: ExecutionId)
    requires Inv(s) && Enabled(s, Commit(t)) && !s.txs[t].aborted && !s.txs[t].program.Worker?
    ensures var w := CommittedWrites(s.db, s.txs[t]);
            x in w.executions ==> w.executions[x].attempts == if x in s.db.executions then s.db.executions[x].attempts else 0
  {
    hide DbOk, Locked, AnswersOk, FreshKeys, StatementEnabled;
    assert TxOk(s, s.txs[t]);
  }

  lemma OtherCommitAtWork(s: State, t: nat, x: ExecutionId)
    requires t in s.txs && !s.txs[t].program.Worker?
    ensures AtWork(AfterCommit(s, t).txs, x) == AtWork(s.txs, x)
  {
    AfterCommitTxs(s, t);
    hide AfterCommit;
  }

  lemma OtherCommitAttempts(s: State, t: nat, x: ExecutionId)
    requires Inv(s) && UncalledOk(s) && Enabled(s, Commit(t)) && !s.txs[t].aborted && !s.txs[t].program.Worker?
    ensures CallingAttempts(AfterCommit(s, t), x) == CallingAttempts(s, x)
  {
    OtherWritesKeepAttempts(s, t, x);
    AfterCommitTables(s, t);
    AfterCommitCalls(s, t);
    hide AfterCommit, Inv, Enabled, CommittedWrites;
  }

  lemma OtherCommitBalances(s: State, t: nat, x: ExecutionId)
    requires Inv(s) && UncalledOk(s) && Balanced(s, x) && Enabled(s, Commit(t))
    requires !s.txs[t].aborted && !s.txs[t].program.Worker?
    ensures Balanced(AfterCommit(s, t), x)
  {
    AfterCommitCalls(s, t);
    OtherCommitAtWork(s, t, x);
    OtherCommitAttempts(s, t, x);
    hide AfterCommit, Inv, Enabled, AtWork, CallingAttempts, UncalledOk, Balanced;
    SameAttempts(s, AfterCommit(s, t), x);
  }

  lemma CommitBalances(s: State, t: nat, x: ExecutionId)
    requires Inv(s) && UncalledOk(s) && Balanced(s, x) && Enabled(s, Commit(t))
    ensures Balanced(AfterCommit(s, t), x)
  {
    if s.txs[t].aborted {
      AbortedBalances(s, t, x);
    } else if s.txs[t].program.Worker? {
      WorkerCommitBalances(s, t, x);
    } else {
      OtherCommitBalances(s, t, x);
    }
    hide AfterCommit, Inv, Balanced, UncalledOk;
  }

  lemma AbortedBalances(s: State, t: nat, x: ExecutionId)
    requires Balanced(s, x) && t in s.txs && s.txs[t].aborted
    ensures Balanced(AfterCommit(s, t), x)
  {
    AfterCommitTables(s, t);
    AfterCommitTxs(s, t);
    AfterCommitCalls(s, t);
    assert Over(s.db, NOTHING) == s.db;
    VanishBalances(s, t, x);
    hide AfterCommit, AtWork, LostCall;
  }

  // Every event

  lemma EventBalances(s: State, e: Event, x: ExecutionId)
    requires Inv(s) && UncalledOk(s) && Balanced(s, x) && Enabled(s, e)
    ensures Balanced(Apply(s, e), x)
  {
    hide Inv, AfterCommit, Advance, StatementEnabled, KeyFree, CancelUnderway;
    var s' := Apply(s, e);
    match e
    case Commit(t) => CommitBalances(s, t, x);
    case Statement(t, reply) => StatementBalances(s, t, reply, x);
    case Vanish(t) => VanishBalances(s, t, x);
    case Claim(t, y) =>
      assert AtWork(s'.txs, x) == AtWork(s.txs, x);
      SameAttempts(s, s', x);
    case Begin(t, p) =>
      assert AtWork(s'.txs, x) == AtWork(s.txs, x);
      SameAttempts(s, s', x);
    case _ => SameAttempts(s, s', x);
  }

  lemma UncalledStays(s: State, s': State)
    requires UncalledOk(s) && ExecutionsProgress(s, s')
    ensures forall x <- s.uncalled :: x in s'.db.executions && s'.db.executions[x].status == Failed
  {
  }

  lemma CommitAddsUncalled(s: State, t: nat)
    requires Inv(s) && Enabled(s, Commit(t))
    ensures var s' := AfterCommit(s, t);
            forall x <- s'.uncalled :: x in s.uncalled || (x in s'.db.executions && s'.db.executions[x].status == Failed)
  {
    AfterCommitCalls(s, t);
    AfterCommitTables(s, t);
    if !s.txs[t].aborted && s.txs[t].program.Worker? {
      WorkerEnds(s, t);
    }
    hide AfterCommit, Inv;
  }

  lemma EventKeepsUncalled(s: State, e: Event)
    requires Inv(s) && UncalledOk(s) && Enabled(s, e)
    ensures UncalledOk(Apply(s, e))
  {
    var s' := Apply(s, e);
    NextByEvent(s, e);
    hide Next, Inv, AfterCommit, Advance;
    NextProgress(s, s');
    UncalledStays(s, s');
    if e.Commit? {
      CommitAddsUncalled(s, e.tx);
    } else {
      UncalledOnlyByCommit(s, e);
    }
    hide Enabled, Apply, JobsProgress, ExecutionsProgress;
  }

  lemma UncalledOnlyByCommit(s: State, e: Event)
    requires Enabled(s, e) && !e.Commit?
    ensures Apply(s, e).uncalled == s.uncalled
  {
    hide StatementEnabled, BeginEnabled, Advance, AfterCommit;
  }

  lemma {:induction false} HistoryBalances(states: seq<State>, i: nat, x: ExecutionId)
    requires History(states) && i < |states|
    ensures Balanced(states[i], x) && UncalledOk(states[i])
  {
    hide Balanced, UncalledOk, Inv;
    if i == 0 {
      InitBalances(states[0], x);
    } else {
      HistoryBalances(states, i - 1, x);
      HistoryInv(states, i - 1);
      assert Next(states[i - 1], states[i]);
      NextBalances(states[i - 1], states[i], x);
    }
  }

  lemma InitBalances(s: State, x: ExecutionId)
    requires Init(s)
    ensures Balanced(s, x) && UncalledOk(s)
  {
    assert AtWork(s.txs, x) == {};
  }

  lemma NextBalances(s: State, s': State, x: ExecutionId)
    requires Inv(s) && UncalledOk(s) && Balanced(s, x) && Next(s, s')
    ensures Balanced(s', x) && UncalledOk(s')
  {
    hide Balanced, UncalledOk, Inv;
    var e: Event :| Enabled(s, e) && s' == Apply(s, e);
    EventBalances(s, e, x);
    EventKeepsUncalled(s, e);
  }

  // A failure is final only when the attempts are used up

  ghost predicate SpentOk(s: State) {
    forall x <- s.db.executions :: s.db.executions[x].status == Failed && x !in s.uncalled ==>
      s.db.executions[x].attempts >= s.db.executions[x].limit
  }

  lemma OtherWritesNeverFail(s: State, t: nat, x: ExecutionId)
    requires Inv(s) && Enabled(s, Commit(t)) && !s.txs[t].aborted && !s.txs[t].program.Worker?
    ensures x in CommittedWrites(s.db, s.txs[t]).executions ==> CommittedWrites(s.db, s.txs[t]).executions[x].status != Failed
  {
    hide DbOk, Locked, AnswersOk, FreshKeys, StatementEnabled;
    assert TxOk(s, s.txs[t]);
  }

  lemma CommitSpends(s: State, t: nat, x: ExecutionId)
    requires Inv(s) && SpentOk(s) && Enabled(s, Commit(t)) && x in AfterCommit(s, t).db.executions
    ensures var s' := AfterCommit(s, t);
            s'.db.executions[x].status == Failed && x !in s'.uncalled ==> s'.db.executions[x].attempts >= s'.db.executions[x].limit
  {
    AfterCommitTables(s, t);
    AfterCommitCalls(s, t);
    if !s.txs[t].aborted {
      if s.txs[t].program.Worker? {
        WorkerEnds(s, t);
      } else {
        OtherWritesNeverFail(s, t, x);
      }
    }
    hide AfterCommit, Inv;
  }

  lemma EventSpent(s: State, e: Event)
    requires Inv(s) && SpentOk(s) && Enabled(s, e)
    ensures SpentOk(Apply(s, e))
  {
    hide Inv, AfterCommit, Advance, StatementEnabled, BeginEnabled, TickEnabled, KeyFree, CancelUnderway;
    if e.Commit? {
      forall x <- Apply(s, e).db.executions ensures var s' := Apply(s, e);
            s'.db.executions[x].status == Failed && x !in s'.uncalled ==> s'.db.executions[x].attempts >= s'.db.executions[x].limit {
        CommitSpends(s, e.tx, x);
      }
    }
  }

  lemma {:induction false} HistorySpent(states: seq<State>, i: nat)
    requires History(states) && i < |states|
    ensures SpentOk(states[i])
  {
    hide SpentOk, Inv;
    if i == 0 {
      InitSpent(states[0]);
    } else {
      HistorySpent(states, i - 1);
      HistoryInv(states, i - 1);
      assert Next(states[i - 1], states[i]);
      NextSpent(states[i - 1], states[i]);
    }
  }

  lemma InitSpent(s: State)
    requires Init(s)
    ensures SpentOk(s)
  {
  }

  lemma NextSpent(s: State, s': State)
    requires Inv(s) && SpentOk(s) && Next(s, s')
    ensures SpentOk(s')
  {
    hide SpentOk, Inv;
    var e: Event :| Enabled(s, e) && s' == Apply(s, e);
    EventSpent(s, e);
  }

  /** No execution is given up early: one that has FAILED after a call has used all its
      attempts. */
  lemma FailedHasNoAttemptLeft(states: seq<State>, i: nat, x: ExecutionId)
    requires History(states) && i < |states| && x in states[i].db.executions
    requires states[i].db.executions[x].status == Failed && x !in states[i].uncalled
    ensures states[i].db.executions[x].attempts >= states[i].db.executions[x].limit
  {
    HistorySpent(states, i);
  }

  /** Each call to an execution's endpoint is one of its committed attempts that reached the
      dispatch, a call of a worker not yet done, or one whose transaction was lost. */
  lemma CallsAccountedFor(states: seq<State>, i: nat, x: ExecutionId)
    requires History(states) && i < |states| && x in states[i].db.executions
    ensures var s := states[i];
            Delivery.Calls(s, x) ==
              s.db.executions[x].attempts - (if x in s.uncalled then 1 else 0) + |AtWork(s.txs, x)| + multiset(s.lost)[x]
    ensures x in states[i].uncalled ==> states[i].db.executions[x].status == Failed
  {
    HistoryBalances(states, i, x);
    hide History, AtWork;
  }

  /** Documented: every execution is delivered exactly once per attempt.  With no worker at
      work on it, that holds exactly when no worker was lost after its call. */
  lemma OncePerAttemptExactly(states: seq<State>, i: nat, x: ExecutionId)
    requires History(states) && i < |states| && x in states[i].db.executions && AtWork(states[i].txs, x) == {}
    ensures Delivery.Calls(states[i], x) == CallingAttempts(states[i], x) <==> x !in states[i].lost
  {
    CallsAccountedFor(states, i, x);
    hide History, AtWork;
  }
}
