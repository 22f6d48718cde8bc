/** Updates against updates, cancels and sweeps: exactly when version chains stay chains. */
module Updates {
  import opened Wrappers
  import opened Tables
  import opened Protocol
  import opened Invariant
  import opened Commits
  import opened Reachable
  import opened Runs
  import opened Versions

  /** An update commits although its first statement, guarded by `status = 'ACTIVE'`, had
      matched no row. */
  ghost predicate Unmatched(s: State, t: nat) {
    && Enabled(s, Commit(t)) && !s.txs[t].aborted
    && s.txs[t].program.Update? && s.txs[t].program.prior !in s.txs[t].writes.jobs
  }

  ghost predicate UnmatchedStep(s: State, s': State) {
    exists t <- s.txs :: Unmatched(s, t) && s' == AfterCommit(s, t)
  }

  /** New versions are added to ACTIVE jobs only. */
  ghost predicate AppendsToActive(s: State, s': State) {
    forall n <- s'.db.jobs :: n !in s.db.jobs && s'.db.jobs[n].previous.Some? ==>
      s'.db.jobs[n].previous.value in s.db.jobs && s.db.jobs[s'.db.jobs[n].previous.value].status == Active
  }

  /** A version that had ended without a successor gets one. */
  ghost predicate Revives(s: State, s': State) {
    exists p <- s.db.jobs :: s.db.jobs[p].status == Retired && !Replaced(s.db.jobs, p) && Replaced(s'.db.jobs, p)
  }

  lemma UnmatchedFindsRetired(s: State, t: nat)
    requires Inv(s) && t in s.txs && s.txs[t].program.Update? && s.txs[t].program.phase.UpdateDone?
    ensures s.txs[t].program.prior in s.db.jobs && s.txs[t].program.phase.next !in s.db.jobs
    ensures var p, w := s.txs[t].program, s.txs[t].writes;
            && (p.prior !in w.jobs <==> s.db.jobs[p.prior].status == Retired)
            && p.phase.next in w.jobs && w.jobs[p.phase.next] == NextVersion(p)
            && (forall j <- w.jobs :: j !in s.db.jobs ==> j == p.phase.next)
            && !s.txs[t].aborted
  {
    hide DbOk, Locked, AnswersOk;
    assert TxOk(s, s.txs[t]);
  }

  lemma CommitAppends(s: State, t: nat)
    requires Inv(s) && Enabled(s, Commit(t))
    ensures Unmatched(s, t) <==> !AppendsToActive(s, AfterCommit(s, t))
  {
    hide AfterCommit, JobsOk, ExecutionsOk, KeysOk, DistinctOk, OneShotOk, SettledOk;
    AfterCommitTables(s, t);
    var tx, s' := s.txs[t], AfterCommit(s, t);
    if tx.program.Update? {
      UnmatchedFindsRetired(s, t);
      hide Inv;
      var n := tx.program.phase.next;
      assert s'.db.jobs[n].previous == Some(tx.program.prior);
    } else {
      OtherCommitsAppend(s, t);
      hide Inv;
    }
  }

  lemma OtherCommitsAppend(s: State, t: nat)
    requires Inv(s) && Enabled(s, Commit(t)) && !s.txs[t].program.Update?
    ensures forall j <- CommittedWrites(s.db, s.txs[t]).jobs :: j in s.db.jobs || CommittedWrites(s.db, s.txs[t]).jobs[j].previous.None?
  {
    hide DbOk, Locked, AnswersOk, FreshKeys;
    assert TxOk(s, s.txs[t]);
  }

  lemma EventAppends(s: State, e: Event)
    requires Inv(s) && Enabled(s, e)
    ensures AppendsToActive(s, Apply(s, e)) || (e.Commit? && Unmatched(s, e.tx))
  {
    hide Inv, Advance, StatementEnabled, BeginEnabled, AfterCommit;
    if e.Commit? {
      CommitAppends(s, e.tx);
    }
  }

  /** A step adds a version to a RETIRED job exactly when it is such a commit. */
  lemma StepAppends(s: State, s': State)
    requires Inv(s) && Next(s, s')
    ensures UnmatchedStep(s, s') <==> !AppendsToActive(s, s')
  {
    hide Inv;
    var e: Event :| Enabled(s, e) && s' == Apply(s, e);
    EventAppends(s, e);
    if UnmatchedStep(s, s') {
      var t :| t in s.txs && Unmatched(s, t) && s' == AfterCommit(s, t);
      CommitAppends(s, t);
    } else if e.Commit? {
      assert s' == AfterCommit(s, e.tx);
    }
  }

  lemma OneNewJob(s: State, s': State)
    requires Inv(s) && Next(s, s')
    ensures forall i <- s'.db.jobs, j <- s'.db.jobs :: i !in s.db.jobs && j !in s.db.jobs ==> i == j
    ensures forall j <- s.db.jobs :: j in s'.db.jobs && s'.db.jobs[j].previous == s.db.jobs[j].previous
    ensures forall j <- s.db.jobs :: s'.db.jobs[j].status == Retired ==> j in s.db.jobs
  {
    var e: Event :| Enabled(s, e) && s' == Apply(s, e);
    var w := EventSound(s, e);
    hide Inv, Enabled, Apply, JobOk, FreshKeys, SoundExecutions, SoundSettled, SoundOneShot;
  }

  lemma StepLinear(s: State, s': State)
    requires Inv(s) && Next(s, s') && Linear(s.db.jobs) && Chained(s.db.jobs) && AppendsToActive(s, s')
    ensures Linear(s'.db.jobs) && !Revives(s, s')
  {
    hide Inv, Next;
    OneNewJob(s, s');
    assert forall j <- s.db.jobs :: ChainOk(s.db.jobs, s.db.jobs[j]);
  }

  lemma StepForks(s: State, s': State)
    requires Inv(s) && Next(s, s') && !AppendsToActive(s, s') && Chained(s'.db.jobs)
    ensures !Linear(s'.db.jobs) || Revives(s, s')
  {
    OneNewJob(s, s');
    hide Inv, Next;
    var n :| n in s'.db.jobs && n !in s.db.jobs && s'.db.jobs[n].previous.Some?
             && !(s'.db.jobs[n].previous.value in s.db.jobs && s.db.jobs[s'.db.jobs[n].previous.value].status == Active);
    var p := s'.db.jobs[n].previous.value;
    assert ChainOk(s'.db.jobs, s'.db.jobs[n]);
    assert p != n;
    assert p in s.db.jobs;
    assert Replaced(s'.db.jobs, p);
    if Replaced(s.db.jobs, p) {
      var i :| i in s.db.jobs && s.db.jobs[i].previous == Some(p);
      assert s'.db.jobs[i].previous == Some(p) && i != n;
    }
  }

  lemma {:induction false} StaysLinear(states: seq<State>, n: nat)
    requires History(states) && n < |states|
    requires forall k | 0 < k <= n :: !UnmatchedStep(states[k - 1], states[k])
    ensures Linear(states[n].db.jobs)
    ensures n > 0 ==> !Revives(states[n - 1], states[n])
  {
    if n == 0 {
      hide Inv;
    } else {
      hide Linear, Revives, UnmatchedStep, Inv, Init;
      StaysLinear(states, n - 1);
      HistoryStep(states, n);
      HistoryChained(states, n - 1);
      hide History;
      assert !UnmatchedStep(states[n - 1], states[n]);
      StepAppends(states[n - 1], states[n]);
      StepLinear(states[n - 1], states[n]);
    }
  }

  /** Along a run no version is ever replaced twice and no ended chain is continued, if and
      only if every update that committed had matched an ACTIVE row. */
  lemma ChainsStayChainsExactly(states: seq<State>)
    requires History(states)
    ensures (forall n: nat | n < |states| :: Linear(states[n].db.jobs)) && (forall n | 0 < n < |states| :: !Revives(states[n - 1], states[n]))
            <==> (forall n | 0 < n < |states| :: !UnmatchedStep(states[n - 1], states[n]))
  {
    hide Linear, Revives, UnmatchedStep;
    if forall n | 0 < n < |states| :: !UnmatchedStep(states[n - 1], states[n]) {
      forall n: nat | n < |states| ensures Linear(states[n].db.jobs) && (n > 0 ==> !Revives(states[n - 1], states[n])) {
        StaysLinear(states, n);
      }
    } else {
      var n :| 0 < n < |states| && UnmatchedStep(states[n - 1], states[n]);
      HistoryStep(states, n);
      HistoryChained(states, n);
      StepAppends(states[n - 1], states[n]);
      StepForks(states[n - 1], states[n]);
    }
  }

  predicate IsReading(p: Program, j: JobId) {
    p.CancelJob? && p.target == j && p.stage.ReadJob?
  }

  /** A RETIRED job takes no more requests: no update of it begins and no cancel of it gets
      past its read. */
  lemma RetiredRefuses(states: seq<State>, i: nat, k: nat, j: JobId, t: nat, p: Program, reply: Reply)
    requires History(states) && i <= k < |states| && j in states[i].db.jobs && states[i].db.jobs[j].status == Retired
    ensures p.Update? && p.prior == j ==> !Enabled(states[k], Begin(t, p))
    ensures t in states[k].txs && IsReading(states[k].txs[t].program, j) ==> !Enabled(states[k], Statement(t, reply))
  {
    JobHistory(states, i, k, j);
    hide History;
  }

  /** The replacement link never leads to the new version: it holds the old job's own id. */
  lemma ReplacementLinksToItself(states: seq<State>, i: nat, j: JobId)
    requires History(states) && i < |states| && j in states[i].db.jobs && states[i].db.jobs[j].replacedBy.Some?
    ensures states[i].db.jobs[j].replacedBy.value == j && states[i].db.jobs[j].status == Retired
    ensures j in states[i].db.jobs && states[i].db.jobs[j].previous != Some(j)
  {
    hide History, ExecutionsOk, TxsOk, Locked, AnswersOk, KeysOk, DistinctOk, OneShotOk, SettledOk;
    HistoryInv(states, i);
    assert JobOk(states[i].db, j);
  }
}
