/** Calls to endpoints: what the tables say about them, and what a rollback cannot undo.  A
    dispatch counts as a call whatever its endpoint: the sweep of an INTERNAL endpoint and the
    refusal of an unsupported one are calls too. */
module Delivery {
  import opened Basics
  import opened Tables
  import opened Protocol
  import opened Invariant
  import opened Statements
  import opened Reachable
  import opened Runs

  // SUCCESS means the endpoint was called

  predicate PastDispatch(at: WorkerPoint) {
    at.ReapRows? || at.Unschedule? || at.RecordAttempt? || at.Complete?
  }

  predicate Succeeds(w: Tables, x: ExecutionId) {
    x in w.executions && w.executions[x].status == Succeeded
  }

  ghost predicate TxDispatched(tx: Tx, dispatches: seq<ExecutionId>) {
    && (tx.program.Worker? && PastDispatch(tx.program.at) ==> tx.program.execution in dispatches)
    && (forall x: ExecutionId :: Succeeds(tx.writes, x) ==> x in dispatches)
  }

  ghost predicate Dispatched(s: State) {
    && (forall x: ExecutionId :: Succeeds(s.db, x) ==> x in s.dispatches)
    && (forall t <- s.txs :: TxDispatched(s.txs[t], s.dispatches))
  }

  lemma CompletedSucceeds(tx: Tx, reply: Reply, outcome: Execution -> Execution, x: ExecutionId)
    requires tx.program.Worker? && Succeeds(Completed(tx, reply, outcome).writes, x)
    ensures Succeeds(tx.writes, x)
            || (x == tx.program.execution && x in tx.writes.executions && outcome(tx.writes.executions[x]).status == Succeeded)
  {
  }

  /** A row becomes SUCCESS only where the dispatch has returned. */
  lemma WorkerSucceeds(db: Tables, tx: Tx, reply: Reply, x: ExecutionId)
    requires tx.program.Worker? && Succeeds(WorkerStep(db, tx, reply).writes, x)
    ensures Succeeds(tx.writes, x) || (tx.program.at.Complete? && x == tx.program.execution)
  {
    hide Succeeds, WorkerStep;
    if Reads(tx.program.at) {
      ReadFrame(db, tx, reply);
      NothingSucceeds(x);
    } else {
      match tx.program.at
      case Complete(_) => CompleteSucceeds(db, tx, reply, x);
      case ReapRows(_, _) => SweepSucceeds(db, tx, reply, x);
      case Unschedule(_) => SweepSucceeds(db, tx, reply, x);
      case RecordAttempt(_) => SweepSucceeds(db, tx, reply, x);
      case RecordRejected => SweepSucceeds(db, tx, reply, x);
      case _ => EarlySucceeds(db, tx, reply, x);
    }
  }

  lemma NothingSucceeds(x: ExecutionId)
    ensures !Succeeds(NOTHING, x)
  {
  }

  lemma CompleteSucceeds(db: Tables, tx: Tx, reply: Reply, x: ExecutionId)
    requires tx.program.Worker? && tx.program.at.Complete? && Succeeds(WorkerStep(db, tx, reply).writes, x)
    ensures Succeeds(tx.writes, x) || x == tx.program.execution
  {
    var outcome := if tx.program.at.delivered then CompleteSuccess
                   else if tx.program.attempt < tx.program.limit then
                     (row: Execution) => CompleteRetry(row, tx.began + if reply.Backoff? then reply.ms else 0)
                   else CompleteFailed;
    assert WorkerStep(db, tx, reply) == Goto(Completed(tx, reply, outcome), LogOutcome(Called));
    hide WorkerStep, Succeeds;
    CompletedSucceeds(tx, reply, outcome, x);
  }

  lemma EarlySucceeds(db: Tables, tx: Tx, reply: Reply, x: ExecutionId)
    requires tx.program.Worker? && Succeeds(WorkerStep(db, tx, reply).writes, x)
    requires tx.program.at.CompleteOrphan? || tx.program.at.CompleteUnloaded? || tx.program.at.CompleteRejected?
    ensures Succeeds(tx.writes, x)
  {
    assert WorkerStep(db, tx, reply).writes == Completed(tx, reply, CompleteFailed).writes;
    hide WorkerStep;
    CompletedSucceeds(tx, reply, CompleteFailed, x);
  }

  lemma SweepSucceeds(db: Tables, tx: Tx, reply: Reply, x: ExecutionId)
    requires tx.program.Worker? && Succeeds(WorkerStep(db, tx, reply).writes, x)
    requires tx.program.at.ReapRows? || tx.program.at.Unschedule? || tx.program.at.RecordAttempt? || tx.program.at.RecordRejected?
    ensures Succeeds(tx.writes, x)
  {
  }

  lemma ReadPasses(db: Tables, tx: Tx, reply: Reply)
    requires tx.program.Worker? && Reads(tx.program.at) && PastDispatch(WorkerStep(db, tx, reply).program.at)
    ensures tx.program.at.Dispatch?
  {
  }

  lemma WorkerPasses(db: Tables, tx: Tx, reply: Reply)
    requires tx.program.Worker? && PastDispatch(WorkerStep(db, tx, reply).program.at)
    ensures PastDispatch(tx.program.at) || tx.program.at.Dispatch?
  {
    if Reads(tx.program.at) {
      ReadPasses(db, tx, reply);
      hide WorkerStep;
    } else if PastDispatch(tx.program.at) {
      hide WorkerStep;
    }
  }

  lemma CreateSucceeds(tx: Tx, reply: Reply, x: ExecutionId)
    requires tx.program.Create? && Succeeds(CreateStep(tx, reply).writes, x)
    ensures Succeeds(tx.writes, x)
  {
  }

  lemma UpdateSucceeds(db: Tables, tx: Tx, reply: Reply, x: ExecutionId)
    requires tx.program.Update? && Succeeds(UpdateStep(db, tx, reply).writes, x)
    ensures Succeeds(tx.writes, x)
  {
  }

  lemma CancelSucceeds(db: Tables, tx: Tx, reply: Reply, x: ExecutionId)
    requires tx.program.CancelJob? && Succeeds(CancelStep(db, tx, reply).writes, x)
    ensures Succeeds(tx.writes, x)
  {
  }

  lemma LibrarySucceeds(db: Tables, tx: Tx, reply: Reply, x: ExecutionId)
    requires tx.program.LibraryCancel? && Succeeds(LibraryStep(db, tx, reply).writes, x)
    ensures Succeeds(tx.writes, x)
  {
  }

  lemma OthersSucceed(db: Tables, tx: Tx, reply: Reply, x: ExecutionId)
    requires !tx.program.Worker? && Succeeds(Advance(db, tx, reply).writes, x)
    ensures Succeeds(tx.writes, x)
  {
    hide WorkerStep, CreateStep, UpdateStep, CancelStep, LibraryStep, Succeeds;
    match tx.program
    case Create(_, _) => CreateSucceeds(tx, reply, x);
    case Update(_, _, _, _, _) => UpdateSucceeds(db, tx, reply, x);
    case CancelJob(_, _, _) => CancelSucceeds(db, tx, reply, x);
    case LibraryCancel(_, _) => LibrarySucceeds(db, tx, reply, x);
  }

  lemma StatementDispatched(s: State, t: nat, reply: Reply)
    requires Dispatched(s) && Enabled(s, Statement(t, reply))
    ensures TxDispatched(Apply(s, Statement(t, reply)).txs[t], Apply(s, Statement(t, reply)).dispatches)
  {
    hide StatementEnabled, WorkerStep, CreateStep, UpdateStep, CancelStep, LibraryStep, Succeeds, PastDispatch, AfterCommit;
    var tx, s' := s.txs[t], Apply(s, Statement(t, reply));
    assert TxDispatched(tx, s.dispatches);
    if tx.program.Worker? {
      if PastDispatch(WorkerStep(s.db, tx, reply).program.at) {
        WorkerPasses(s.db, tx, reply);
      }
      forall x: ExecutionId | Succeeds(s'.txs[t].writes, x) ensures x in s'.dispatches {
        WorkerSucceeds(s.db, tx, reply, x);
        CompleteIsPast(tx.program.at);
      }
    }
    if !tx.program.Worker? {
      forall x: ExecutionId | Succeeds(s'.txs[t].writes, x) ensures x in s'.dispatches {
        OthersSucceed(s.db, tx, reply, x);
      }
      assert !s'.txs[t].program.Worker? by { OthersStay(s.db, tx, reply); }
    }
  }

  lemma OthersStay(db: Tables, tx: Tx, reply: Reply)
    requires !tx.program.Worker?
    ensures !Advance(db, tx, reply).program.Worker?
  {
    hide WorkerStep;
  }

  lemma CompleteIsPast(at: WorkerPoint)
    ensures at.Complete? ==> PastDispatch(at)
  {
  }

  lemma CommitDispatched(s: State, t: nat)
    requires Dispatched(s) && t in s.txs && Ready(s.txs[t].program)
    ensures Dispatched(AfterCommit(s, t))
  {
    var s', w := AfterCommit(s, t), CommittedWrites(s.db, s.txs[t]);
    hide AfterCommit;
    AfterCommitTables(s, t);
    AfterCommitTxs(s, t);
    assert s'.dispatches == s.dispatches by { AfterCommitDispatches(s, t); }
    assert TxDispatched(s.txs[t], s.dispatches);
    forall x: ExecutionId | Succeeds(s'.db, x) ensures x in s'.dispatches {
      assert Succeeds(w, x) || Succeeds(s.db, x);
      if Succeeds(w, x) { CommittedSucceeds(s.db, s.txs[t], x); }
    }
    hide Ready, PastDispatch, Succeeds;
    forall u <- s'.txs ensures TxDispatched(s'.txs[u], s'.dispatches) {
      assert u in s.txs ==> TxDispatched(s.txs[u], s.dispatches);
      forall x: ExecutionId ensures !Succeeds(NOTHING, x) { NothingSucceeds(x); }
    }
  }

  lemma AfterCommitDispatches(s: State, t: nat)
    requires t in s.txs
    ensures AfterCommit(s, t).dispatches == s.dispatches
  {
    hide CommittedWrites, Over;
  }

  lemma CommittedSucceeds(db: Tables, tx: Tx, x: ExecutionId)
    requires Succeeds(CommittedWrites(db, tx), x)
    ensures Succeeds(tx.writes, x)
  {
  }

  lemma EventDispatched(s: State, e: Event)
    requires Dispatched(s) && Enabled(s, e)
    ensures Dispatched(Apply(s, e))
  {
    hide AfterCommit, StatementEnabled, Advance, TickEnabled, CancelUnderway;
    var s' := Apply(s, e);
    match e
    case Commit(t) => CommitDispatched(s, t);
    case Statement(t, reply) =>
      StatementDispatched(s, t, reply);
      hide Succeeds, PastDispatch;
    case Claim(t, x) =>
      assert TxDispatched(s'.txs[t], s'.dispatches);
      hide TxDispatched;
    case Begin(t, p) =>
      assert TxDispatched(s'.txs[t], s'.dispatches);
      hide TxDispatched;
    case Tick(_, _, _) => hide TxDispatched;
    case CancelExecution(_) => hide TxDispatched;
    case LibraryJob(_, _) => hide TxDispatched;
    case LibraryExecution(_, _) => hide TxDispatched;
    case _ => hide TxDispatched, Succeeds;
  }

  lemma {:induction false} HistoryDispatched(states: seq<State>, i: nat)
    requires History(states) && i < |states|
    ensures Dispatched(states[i])
  {
    hide Dispatched;
    if i == 0 {
      InitDispatched(states[0]);
    } else {
      HistoryDispatched(states, i - 1);
      assert Next(states[i - 1], states[i]);
      NextDispatched(states[i - 1], states[i]);
    }
  }

  lemma InitDispatched(s: State)
    requires Init(s)
    ensures Dispatched(s)
  {
  }

  lemma NextDispatched(s: State, s': State)
    requires Dispatched(s) && Next(s, s')
    ensures Dispatched(s')
  {
    var e: Event :| Enabled(s, e) && s' == Apply(s, e);
    EventDispatched(s, e);
  }

  /** A committed SUCCESS means the endpoint was called: delivery is at least once. */
  lemma SuccessWasDispatched(states: seq<State>, i: nat, x: ExecutionId)
    requires History(states) && i < |states| && x in states[i].db.executions
    requires states[i].db.executions[x].status == Succeeded
    ensures x in states[i].dispatches
  {
    HistoryDispatched(states, i);
    assert Succeeds(states[i].db, x);
  }

  // A call that the tables never see

  /** The worker's transaction between its claim and its dispatch, every reply a success. */
  function Claimant(s: State, x: ExecutionId, at: WorkerPoint, aborted: bool): Tx
    requires x in s.db.executions
  {
    var row := s.db.executions[x];
    Tx(Worker(x, row.attempts + 1, row.limit, row.internal, at),
       if aborted then NOTHING else NOTHING.(executions := map[x := Claimed(row)]), aborted, s.now)
  }

  ghost predicate ClaimPath(s: State, t: nat, x: ExecutionId, at: WorkerPoint) {
    x in s.db.executions && t !in s.txs && Reaches(s, s.(txs := s.txs[t := Claimant(s, x, at, false)]))
  }

  function NextPoint(at: WorkerPoint): WorkerPoint {
    match at
    case LoadJob => LoadEndpoint
    case LoadEndpoint => LoadConfig
    case LoadConfig => LoadSecrets
    case LoadSecrets => ResolveSpec
    case ResolveSpec => LogDispatch
    case _ => Dispatch
  }

  predicate BeforeDispatch(at: WorkerPoint) {
    at.LoadJob? || at.LoadEndpoint? || at.LoadConfig? || at.LoadSecrets? || at.ResolveSpec? || at.LogDispatch?
  }

  lemma PathStep(s: State, t: nat, x: ExecutionId, at: WorkerPoint)
    requires ClaimPath(s, t, x, at) && BeforeDispatch(at)
    ensures ClaimPath(s, t, x, NextPoint(at))
  {
    hide Reaches, AfterCommit;
    var s1 := s.(txs := s.txs[t := Claimant(s, x, at, false)]);
    var s2 := s.(txs := s.txs[t := Claimant(s, x, NextPoint(at), false)]);
    assert Advance(s1.db, s1.txs[t], Ok) == Claimant(s, x, NextPoint(at), false);
    assert Enabled(s1, Statement(t, Ok));
    hide Advance, StatementEnabled, Enabled;
    assert s1.txs[t := Claimant(s, x, NextPoint(at), false)] == s2.txs;
    assert Apply(s1, Statement(t, Ok)) == s2;
    hide Apply;
    ReachesNext(s, s1, Statement(t, Ok));
  }

  lemma PathStart(s: State, t: nat, x: ExecutionId)
    requires Enabled(s, Claim(t, x))
    ensures ClaimPath(s, t, x, LoadJob)
  {
    hide AfterCommit, Advance, Reaches;
    ReachesSelf(s);
    ReachesNext(s, s, Claim(t, x));
  }

  lemma PathToLog(s: State, t: nat, x: ExecutionId)
    requires Enabled(s, Claim(t, x))
    ensures ClaimPath(s, t, x, LogDispatch)
  {
    hide ClaimPath, Enabled;
    PathStart(s, t, x);
    PathStep(s, t, x, LoadJob);
    PathStep(s, t, x, LoadEndpoint);
    PathStep(s, t, x, LoadConfig);
    PathStep(s, t, x, LoadSecrets);
    PathStep(s, t, x, ResolveSpec);
  }

  /** The state after `n` more calls of which nothing else is left. */
  ghost function WithLostCalls(s: State, x: ExecutionId, n: nat): State {
    s.(dispatches := s.dispatches + seq(n, _ => x), lost := s.lost + seq(n, _ => x))
  }

  lemma DeliverAndVanish(s: State, t: nat, x: ExecutionId)
    requires Enabled(s, Claim(t, x))
    ensures Reaches(s, s.(dispatches := s.dispatches + [x], lost := s.lost + [x]))
  {
    assert t !in s.txs && x in s.db.executions;
    hide Enabled;
    PathToLog(s, t, x);
    PathStep(s, t, x, LogDispatch);
    DispatchAndVanish(s, t, x);
  }

  lemma DispatchAndVanish(s: State, t: nat, x: ExecutionId)
    requires ClaimPath(s, t, x, Dispatch)
    ensures Reaches(s, s.(dispatches := s.dispatches + [x], lost := s.lost + [x]))
  {
    hide Reaches, AfterCommit;
    var s1 := s.(txs := s.txs[t := Claimant(s, x, Dispatch, false)]);
    assert Enabled(s1, Statement(t, Delivered(true)));
    var s2 := Apply(s1, Statement(t, Delivered(true)));
    assert s2.dispatches == s.dispatches + [x] && s2.txs.Keys == s1.txs.Keys;
    assert LostCall(s2.txs[t].program) == [x];
    ReachesNext(s, s1, Statement(t, Delivered(true)));
    assert Enabled(s2, Vanish(t));
    assert Apply(s2, Vanish(t)) == s.(dispatches := s.dispatches + [x], lost := s.lost + [x]) by {
      assert s2.txs - {t} == s.txs;
    }
    hide Apply, Enabled;
    ReachesNext(s, s2, Vanish(t));
  }

  /** Delivery is not exactly once: whatever can be claimed can be delivered any number of
      times and leave no trace in the tables, when its worker dies between dispatch and
      commit. */
  lemma {:induction false} DeliveredAnyNumberOfTimes(s: State, t: nat, x: ExecutionId, n: nat)
    requires Enabled(s, Claim(t, x))
    ensures Reaches(s, WithLostCalls(s, x, n))
  {
    hide Reaches;
    if n == 0 {
      assert WithLostCalls(s, x, 0) == s;
      ReachesSelf(s);
    } else {
      DeliveredAnyNumberOfTimes(s, t, x, n - 1);
      var s1 := WithLostCalls(s, x, n - 1);
      var s2 := s1.(dispatches := s1.dispatches + [x], lost := s1.lost + [x]);
      ClaimIgnoresCalls(s, s1, t, x);
      DeliverAndVanish(s1, t, x);
      ReachesThrough(s, s1, s2);
      assert seq(n - 1, _ => x) + [x] == seq(n, _ => x);
      assert s2 == WithLostCalls(s, x, n);
    }
  }

  lemma ClaimIgnoresCalls(s: State, s1: State, t: nat, x: ExecutionId)
    requires Enabled(s, Claim(t, x)) && s1 == s.(dispatches := s1.dispatches, lost := s1.lost)
    ensures Enabled(s1, Claim(t, x))
  {
    hide StatementEnabled, BeginEnabled, TickEnabled;
  }

  // Cancel against dispatch

  /** Open workers that may still call the execution's endpoint. */
  ghost function Waiting(txs: map<nat, Tx>, x: ExecutionId): set<nat> {
    set t | t in txs && MayCall(txs[t].program, x)
  }

  function Calls(s: State, x: ExecutionId): nat {
    multiset(s.dispatches)[x]
  }

  lemma StaysBefore(db: Tables, tx: Tx, reply: Reply)
    requires tx.program.Worker?
    ensures var at := WorkerStep(db, tx, reply).program.at;
            BeforeDispatch(at) || at.Dispatch? ==> BeforeDispatch(tx.program.at)
  {
    if Reads(tx.program.at) {
      ReadStaysBefore(db, tx, reply);
      hide WorkerStep;
    }
  }

  lemma ReadStaysBefore(db: Tables, tx: Tx, reply: Reply)
    requires tx.program.Worker? && Reads(tx.program.at)
    ensures var at := WorkerStep(db, tx, reply).program.at;
            BeforeDispatch(at) || at.Dispatch? ==> BeforeDispatch(tx.program.at)
  {
  }

  predicate MayCall(p: Program, x: ExecutionId) {
    p.Worker? && p.execution == x && (BeforeDispatch(p.at) || p.at.Dispatch?)
  }

  lemma ReplacedWaiting(txs: map<nat, Tx>, t: nat, tx: Tx, x: ExecutionId, spent: bool)
    requires t in txs && (MayCall(tx.program, x) ==> MayCall(txs[t].program, x))
    requires spent ==> MayCall(txs[t].program, x) && !MayCall(tx.program, x)
    ensures |Waiting(txs[t := tx], x)| + (if spent then 1 else 0) <= |Waiting(txs, x)|
  {
    var gone := if spent then {t} else {};
    assert Waiting(txs[t := tx], x) <= Waiting(txs, x) - gone;
    hide BeforeDispatch;
    SubsetCount(Waiting(txs[t := tx], x), Waiting(txs, x) - gone);
    assert gone <= Waiting(txs, x);
  }

  lemma StatementMayCall(db: Tables, tx: Tx, reply: Reply, x: ExecutionId)
    ensures MayCall(Advance(db, tx, reply).program, x) ==> MayCall(tx.program, x)
    ensures tx.program.Worker? && tx.program.at.Dispatch? ==> !MayCall(Advance(db, tx, reply).program, x)
  {
    hide WorkerStep, CreateStep, UpdateStep, CancelStep, LibraryStep;
    if tx.program.Worker? {
      StaysBefore(db, tx, reply);
    } else {
      OthersStay(db, tx, reply);
    }
  }

  lemma StatementSpends(s: State, t: nat, reply: Reply, x: ExecutionId)
    requires Enabled(s, Statement(t, reply))
    ensures var s' := Apply(s, Statement(t, reply)); Calls(s', x) + |Waiting(s'.txs, x)| <= Calls(s, x) + |Waiting(s.txs, x)|
  {
    hide StatementEnabled, Advance, AfterCommit, Waiting;
    var tx := s.txs[t];
    StatementMayCall(s.db, tx, reply, x);
    ReplacedWaiting(s.txs, t, Advance(s.db, tx, reply), x, tx.program.Worker? && tx.program.at.Dispatch? && tx.program.execution == x);
  }

  lemma EventSpends(s: State, e: Event, x: ExecutionId)
    requires Enabled(s, e) && x in s.db.executions && s.db.executions[x].status == Cancelled
    ensures var s' := Apply(s, e); Calls(s', x) + |Waiting(s'.txs, x)| <= Calls(s, x) + |Waiting(s.txs, x)|
  {
    hide StatementEnabled, AfterCommit, Advance, TickEnabled, KeyFree, CancelUnderway;
    var s' := Apply(s, e);
    match e
    case Statement(t, reply) => StatementSpends(s, t, reply, x);
    case Commit(t) =>
      AfterCommitTxs(s, t);
      AfterCommitDispatches(s, t);
      hide Enabled, BeforeDispatch;
      assert Waiting(s'.txs, x) <= Waiting(s.txs, x);
      SubsetCount(Waiting(s'.txs, x), Waiting(s.txs, x));
    case _ =>
      assert Waiting(s'.txs, x) <= Waiting(s.txs, x);
      SubsetCount(Waiting(s'.txs, x), Waiting(s.txs, x));
  }

  lemma NextSpends(s: State, s': State, x: ExecutionId)
    requires Inv(s) && Next(s, s') && x in s.db.executions && s.db.executions[x].status == Cancelled
    ensures Calls(s', x) + |Waiting(s'.txs, x)| <= Calls(s, x) + |Waiting(s.txs, x)|
    ensures x in s'.db.executions && s'.db.executions[x] == s.db.executions[x]
  {
    hide Inv, Waiting, JobsProgress;
    var e: Event :| Enabled(s, e) && s' == Apply(s, e);
    EventSpends(s, e, x);
    NextProgress(s, s');
    hide Next, Enabled, Apply;
  }

  /** Once a cancel has committed, the execution stays CANCELLED, and only workers that were
      already open can still call its endpoint, each at most once. */
  lemma {:induction false} CancelledIsNotCalledAgain(states: seq<State>, n: nat, x: ExecutionId)
    requires Run(states) && Inv(states[0]) && n < |states|
    requires x in states[0].db.executions && states[0].db.executions[x].status == Cancelled
    ensures x in states[n].db.executions && states[n].db.executions[x] == states[0].db.executions[x]
    ensures Calls(states[n], x) + |Waiting(states[n].txs, x)| <= Calls(states[0], x) + |Waiting(states[0].txs, x)|
  {
    hide Inv, Waiting;
    if n > 0 {
      CancelledIsNotCalledAgain(states, n - 1, x);
      RunKeepsFrom(states, n - 1);
      assert Next(states[n - 1], states[n]);
      NextSpends(states[n - 1], states[n], x);
    }
  }

  /** Those workers are doomed: a statement of theirs has failed, and they cannot commit. */
  lemma WaitingIsDoomed(s: State, x: ExecutionId, t: nat)
    requires Inv(s) && x in s.db.executions && s.db.executions[x].status == Cancelled && t in Waiting(s.txs, x)
    ensures s.txs[t].aborted
  {
    hide DbOk, Locked, AnswersOk;
    assert TxOk(s, s.txs[t]);
  }

  lemma DoomedStep(s: State, t: nat, x: ExecutionId)
    requires ClaimPath(s, t, x, LogDispatch)
    ensures Reaches(s, s.(txs := s.txs[t := Claimant(s, x, Dispatch, true)]))
  {
    hide Reaches, AfterCommit;
    var s1 := s.(txs := s.txs[t := Claimant(s, x, LogDispatch, false)]);
    var s2 := s.(txs := s.txs[t := Claimant(s, x, Dispatch, true)]);
    assert Advance(s1.db, s1.txs[t], SqlError) == Claimant(s, x, Dispatch, true);
    assert Enabled(s1, Statement(t, SqlError));
    hide Advance, StatementEnabled, Enabled;
    assert s1.txs[t := Claimant(s, x, Dispatch, true)] == s2.txs;
    assert Apply(s1, Statement(t, SqlError)) == s2;
    hide Apply;
    ReachesNext(s, s1, Statement(t, SqlError));
  }

  lemma DoomedCancelled(s: State, t: nat, x: ExecutionId) returns (s': State)
    requires x in s.db.executions && Cancellable(s.db.executions[x].status) && t !in s.txs && ExecutionFree(s, t, x)
    requires Reaches(s, s.(txs := s.txs[t := Claimant(s, x, Dispatch, true)]))
    ensures Reaches(s, s') && s'.db == s.db.(executions := s.db.executions[x := Cancel(s.db.executions[x])])
    ensures s'.dispatches == s.dispatches && s'.txs == s.txs[t := Claimant(s, x, Dispatch, true)]
  {
    hide Reaches, AfterCommit, Advance, StatementEnabled, TickEnabled;
    var s1 := s.(txs := s.txs[t := Claimant(s, x, Dispatch, true)]);
    assert Enabled(s1, CancelExecution(x));
    s' := Apply(s1, CancelExecution(x));
    ReachesNext(s, s1, CancelExecution(x));
  }

  /** The exception is real: an execution can be called after its cancel has committed. */
  lemma CalledAfterCancel(s: State, t: nat, x: ExecutionId)
    requires Enabled(s, Claim(t, x)) && Cancellable(s.db.executions[x].status)
    ensures exists a: State, b: State ::
              && Reaches(s, a) && Reaches(a, b)
              && x in a.db.executions && a.db.executions[x].status == Cancelled
              && b.dispatches == a.dispatches + [x]
  {
    assert t !in s.txs && ExecutionFree(s, t, x);
    hide Enabled, Apply, Reaches;
    PathToLog(s, t, x);
    DoomedStep(s, t, x);
    var a := DoomedCancelled(s, t, x);
    var b := DispatchOnce(a, t, x);
  }

  lemma DispatchOnce(a: State, t: nat, x: ExecutionId) returns (b: State)
    requires t in a.txs && a.txs[t].program.Worker? && a.txs[t].program.at.Dispatch? && a.txs[t].program.execution == x
    ensures Reaches(a, b) && b.dispatches == a.dispatches + [x]
  {
    hide Reaches, AfterCommit, Advance;
    assert Enabled(a, Statement(t, Delivered(true)));
    b := Apply(a, Statement(t, Delivered(true)));
    hide Enabled, Apply;
    ReachesSelf(a);
    ReachesNext(a, a, Statement(t, Delivered(true)));
  }

  // Exactly how often a cancelled execution can still be called

  /** A worker whose statement fails before the dispatch either gives up or, when only its log
      failed, stands at the dispatch. */
  ghost predicate DoomedAtDispatch(s: State) {
    forall t <- s.txs :: s.txs[t].aborted && s.txs[t].program.Worker? ==> !BeforeDispatch(s.txs[t].program.at)
  }

  lemma ReadAborts(db: Tables, tx: Tx, reply: Reply)
    requires tx.program.Worker? && !tx.aborted && WorkerStep(db, tx, reply).aborted && BeforeDispatch(tx.program.at)
    ensures !BeforeDispatch(WorkerStep(db, tx, reply).program.at)
  {
  }

  lemma StatementDoomed(s: State, t: nat, reply: Reply)
    requires DoomedAtDispatch(s) && t in s.txs && s.txs[t].program.Worker?
    requires WorkerStep(s.db, s.txs[t], reply).aborted
    ensures !BeforeDispatch(WorkerStep(s.db, s.txs[t], reply).program.at)
  {
    var tx := s.txs[t];
    StaysBefore(s.db, tx, reply);
    if BeforeDispatch(tx.program.at) {
      ReadAborts(s.db, tx, reply);
    }
    hide WorkerStep;
  }

  lemma EventDoomed(s: State, e: Event)
    requires DoomedAtDispatch(s) && Enabled(s, e)
    ensures DoomedAtDispatch(Apply(s, e))
  {
    hide StatementEnabled, AfterCommit, Advance, BeforeDispatch, TickEnabled, KeyFree, CancelUnderway;
    match e
    case Statement(t, reply) => StatementKeepsDoomed(s, t, reply);
    case Commit(t) => AfterCommitTxs(s, t);
    case _ =>
  }

  lemma StatementKeepsDoomed(s: State, t: nat, reply: Reply)
    requires DoomedAtDispatch(s) && t in s.txs
    ensures var tx := Advance(s.db, s.txs[t], reply);
            tx.aborted && tx.program.Worker? ==> !BeforeDispatch(tx.program.at)
  {
    hide WorkerStep, CreateStep, UpdateStep, CancelStep, LibraryStep;
    var tx := s.txs[t];
    if !tx.program.Worker? {
      OthersStay(s.db, tx, reply);
    } else if WorkerStep(s.db, tx, reply).aborted {
      StatementDoomed(s, t, reply);
    }
  }

  lemma {:induction false} HistoryDoomed(states: seq<State>, i: nat)
    requires History(states) && i < |states|
    ensures DoomedAtDispatch(states[i])
  {
    hide DoomedAtDispatch;
    if i == 0 {
      InitDoomed(states[0]);
    } else {
      HistoryDoomed(states, i - 1);
      assert Next(states[i - 1], states[i]);
      NextDoomed(states[i - 1], states[i]);
    }
  }

  lemma InitDoomed(s: State)
    requires Init(s)
    ensures DoomedAtDispatch(s)
  {
  }

  lemma NextDoomed(s: State, s': State)
    requires DoomedAtDispatch(s) && Next(s, s')
    ensures DoomedAtDispatch(s')
  {
    var e: Event :| Enabled(s, e) && s' == Apply(s, e);
    EventDoomed(s, e);
  }

  /** A waiting worker of a cancelled execution makes its call: one more call, one worker less. */
  lemma CallOnce(s: State, x: ExecutionId) returns (s': State)
    requires Inv(s) && DoomedAtDispatch(s) && Waiting(s.txs, x) != {}
    requires x in s.db.executions && s.db.executions[x].status == Cancelled
    ensures Reaches(s, s') && Inv(s') && DoomedAtDispatch(s') && s'.db == s.db
    ensures Calls(s', x) == Calls(s, x) + 1 && |Waiting(s'.txs, x)| == |Waiting(s.txs, x)| - 1
  {
    var t :| t in Waiting(s.txs, x);
    WaitingIsDoomed(s, x, t);
    assert s.txs[t].program.at.Dispatch?;
    hide Inv, Reaches, DoomedAtDispatch, BeforeDispatch;
    s' := DispatchNow(s, t, true);
    DispatchLeaves(s, t, x);
    EventKeeps(s, Statement(t, Delivered(true)));
    EventDoomed(s, Statement(t, Delivered(true)));
  }

  lemma DispatchNow(s: State, t: nat, ok: bool) returns (s': State)
    requires t in s.txs && s.txs[t].program.Worker? && s.txs[t].program.at.Dispatch?
    ensures Enabled(s, Statement(t, Delivered(ok))) && s' == Apply(s, Statement(t, Delivered(ok))) && Reaches(s, s')
    ensures s'.now == s.now
    ensures s'.db == s.db && s'.dispatches == s.dispatches + [s.txs[t].program.execution]
    ensures s'.txs == s.txs[t := s.txs[t].(program := s.txs[t].program.(at := RecordAttempt(ok)))]
  {
    hide Reaches, AfterCommit;
    assert Enabled(s, Statement(t, Delivered(ok)));
    s' := Apply(s, Statement(t, Delivered(ok)));
    hide Enabled, Apply;
    ReachesSelf(s);
    ReachesNext(s, s, Statement(t, Delivered(ok)));
  }

  lemma DispatchLeaves(s: State, t: nat, x: ExecutionId)
    requires t in Waiting(s.txs, x)
    ensures var called := s.txs[t].(program := s.txs[t].program.(at := RecordAttempt(true)));
            |Waiting(s.txs[t := called], x)| == |Waiting(s.txs, x)| - 1
  {
    var called := s.txs[t].(program := s.txs[t].program.(at := RecordAttempt(true)));
    assert Waiting(s.txs[t := called], x) == Waiting(s.txs, x) - {t};
  }

  lemma {:induction false} CallTimes(s: State, x: ExecutionId, k: nat) returns (s': State)
    requires Inv(s) && DoomedAtDispatch(s) && k <= |Waiting(s.txs, x)|
    requires x in s.db.executions && s.db.executions[x].status == Cancelled
    ensures Reaches(s, s') && Inv(s') && DoomedAtDispatch(s') && s'.db == s.db
    ensures Calls(s', x) == Calls(s, x) + k && |Waiting(s'.txs, x)| == |Waiting(s.txs, x)| - k
  {
    hide Inv, Reaches, DoomedAtDispatch, Waiting;
    if k == 0 {
      ReachesSelf(s);
      s' := s;
    } else {
      var s1 := CallTimes(s, x, k - 1);
      s' := CallOnce(s1, x);
      ReachesThrough(s, s1, s');
    }
  }

  ghost predicate CallableAgain(s: State, x: ExecutionId, k: nat) {
    exists s': State :: Reaches(s, s') && Calls(s', x) == Calls(s, x) + k
  }

  /** Documented: a cancelled execution is not dispatched.  From a reachable state in which it
      is CANCELLED, `k` more calls can happen if and only if at least `k` workers with a failed
      statement are still open on it: none at all exactly when there is no such worker. */
  lemma CalledAgainExactly(states: seq<State>, i: nat, x: ExecutionId, k: nat)
    requires History(states) && i < |states|
    requires x in states[i].db.executions && states[i].db.executions[x].status == Cancelled
    ensures CallableAgain(states[i], x, k) <==> k <= |Waiting(states[i].txs, x)|
  {
    var s := states[i];
    hide Inv, Waiting, DoomedAtDispatch;
    HistoryInv(states, i);
    HistoryDoomed(states, i);
    hide History;
    if k <= |Waiting(s.txs, x)| {
      var s' := CallTimes(s, x, k);
      hide Reaches;
      assert CallableAgain(s, x, k);
    }
    if CallableAgain(s, x, k) {
      var s' :| Reaches(s, s') && Calls(s', x) == Calls(s, x) + k;
      var run :| Run(run) && run[0] == s && run[|run| - 1] == s';
      hide Run;
      CancelledIsNotCalledAgain(run, |run| - 1, x);
    }
  }
}
