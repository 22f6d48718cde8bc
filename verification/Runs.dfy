/** Runs of the service, and what one event can do to the committed rows. */
module Runs {
  import opened Tables
  import opened Protocol
  import opened Invariant
  import opened Commits
  import opened Reachable

  /** Every event makes some sound set of writes durable, most of them none. */
  lemma EventSound(s: State, e: Event) returns (w: Tables)
    requires Inv(s) && Enabled(s, e)
    ensures Sound(s, w, Apply(s, e))
  {
    hide AfterCommit, Advance, StatementEnabled, BeginEnabled, Sound, DbOk, TxsOk, Locked, AnswersOk;
    var s' := Apply(s, e);
    match e
    case Commit(t) => w := CommitEventSound(s, t);
    case Tick(j, x, limit) =>
      w := NOTHING.(executions := map[x := TickRow(j, s.db.jobs[j], s.now, limit)]);
      TickSound(s, j, x, limit, w, s');
    case CancelExecution(x) =>
      w := NOTHING.(executions := map[x := Cancel(s.db.executions[x])]);
      CancelExecutionSound(s, x, w, s');
    case LibraryJob(r, j) =>
      w := NOTHING.(jobs := map[j := NewJob(r)]);
      LibraryJobSound(s, r, j, w, s');
    case LibraryExecution(j, x) =>
      w := NOTHING.(executions := map[x := NewExecution(s.bare[j], j)]);
      LibraryExecutionSound(s, j, x, w, s');
    case _ =>
      w := NOTHING;
      NothingSound(s, s');
  }

  lemma NothingSound(s: State, s': State)
    requires s'.db == s.db && s'.late == s.late && s'.bare == s.bare && s'.unloaded == s.unloaded
    ensures Sound(s, NOTHING, s')
  {
    assert Over(s.db, NOTHING) == s.db;
  }

  lemma CommitEventSound(s: State, t: nat) returns (w: Tables)
    requires Inv(s) && Enabled(s, Commit(t))
    ensures w == CommittedWrites(s.db, s.txs[t]) && Sound(s, w, AfterCommit(s, t))
  {
    hide AfterCommit, Sound, Inv;
    w := CommittedWrites(s.db, s.txs[t]);
    if s.txs[t].aborted {
      AfterCommitTables(s, t);
      AfterCommitUnloaded(s, t);
      assert Over(s.db, NOTHING) == s.db;
      NothingSound(s, AfterCommit(s, t));
    } else {
      match s.txs[t].program
      case Worker(_, _, _, _, _) => WorkerSound(s, t);
      case CancelJob(_, _, _) => CancelSound(s, t);
      case Create(_, _) => CreateSound(s, t);
      case Update(_, _, _, _, _) => UpdateSound(s, t);
      case LibraryCancel(_, rest) =>
        if rest.LibraryRetire? { LibraryRetireSound(s, t); } else { LibraryRowsSound(s, t); }
    }
  }

  ghost predicate ExecutionsProgress(s: State, s': State) {
    forall x <- s.db.executions ::
      x in s'.db.executions
      && (s'.db.executions[x] == s.db.executions[x] || Moves(s.db.executions[x], s'.db.executions[x]))
  }

  ghost predicate JobsProgress(s: State, s': State) {
    forall j <- s.db.jobs :: j in s'.db.jobs && Evolves(s.db.jobs[j], s'.db.jobs[j])
  }

  /** One event moves each committed row at most once, by an allowed move. */
  lemma NextProgress(s: State, s': State)
    requires Inv(s) && Next(s, s')
    ensures ExecutionsProgress(s, s') && JobsProgress(s, s') && s.late <= s'.late && s.unloaded <= s'.unloaded
  {
    var e: Event :| Enabled(s, e) && s' == Apply(s, e);
    var w := EventSound(s, e);
    SoundProgress(s, w, s');
  }

  lemma SoundProgress(s: State, w: Tables, s': State)
    requires Sound(s, w, s')
    ensures ExecutionsProgress(s, s') && JobsProgress(s, s') && s.late <= s'.late && s.unloaded <= s'.unloaded
  {
    hide Moves, Evolves, JobOk, ExecutionOk, Settled, Collide, SoundOneShot, FreshKeys;
    forall x <- s.db.executions ensures x in s'.db.executions
        && (s'.db.executions[x] == s.db.executions[x] || Moves(s.db.executions[x], s'.db.executions[x])) {
      assert x in w.executions ==> Moves(s.db.executions[x], w.executions[x]);
    }
    hide SoundExecutions, SoundSettled;
    forall j <- s.db.jobs ensures j in s'.db.jobs && Evolves(s.db.jobs[j], s'.db.jobs[j]) {
      if j !in w.jobs {
        EvolvesSame(s.db.jobs[j]);
      }
    }
  }

  lemma EvolvesSame(row: Job)
    ensures Evolves(row, row)
  {
  }

  // Runs from the provisioned workspace

  /** A run that starts in a freshly provisioned workspace. */
  ghost predicate History(states: seq<State>) {
    Run(states) && Init(states[0])
  }

  lemma HistoryInv(states: seq<State>, i: nat)
    requires History(states) && i < |states|
    ensures Inv(states[i])
  {
    hide Inv, Init;
    RunKeeps(states, i);
  }

  lemma HistoryStep(states: seq<State>, k: nat)
    requires History(states) && 0 < k < |states|
    ensures Inv(states[k - 1]) && Inv(states[k]) && Next(states[k - 1], states[k])
    ensures ExecutionsProgress(states[k - 1], states[k]) && JobsProgress(states[k - 1], states[k])
    ensures states[k - 1].late <= states[k].late && states[k - 1].unloaded <= states[k].unloaded
  {
    hide Inv, Init;
    assert Next(states[k - 1], states[k]);
    RunKeeps(states, k - 1);
    RunKeeps(states, k);
    NextProgress(states[k - 1], states[k]);
  }

  /** A job row only ever changes from ACTIVE to RETIRED; nothing else in it changes but its
      replacement link, and a RETIRED row never changes again. */
  lemma {:induction false} JobHistory(states: seq<State>, i: nat, k: nat, j: JobId)
    requires History(states) && i <= k < |states| && j in states[i].db.jobs
    ensures j in states[k].db.jobs && Evolves(states[i].db.jobs[j], states[k].db.jobs[j])
  {
    hide History, Inv, Next;
    if i < k {
      JobHistory(states, i, k - 1, j);
      HistoryStep(states, k);
    }
  }

  /** Whether a state can follow another by some number of events. */
  ghost predicate Reaches(s: State, s': State) {
    exists states: seq<State> :: Run(states) && states[0] == s && states[|states| - 1] == s'
  }

  lemma ReachesSelf(s: State)
    ensures Reaches(s, s)
  {
    assert Run([s]);
  }

  lemma ReachesNext(s: State, s': State, e: Event)
    requires Reaches(s, s') && Enabled(s', e)
    ensures Reaches(s, Apply(s', e))
  {
    hide Enabled, Apply;
    var states :| Run(states) && states[0] == s && states[|states| - 1] == s';
    var longer := states + [Apply(s', e)];
    assert Next(s', Apply(s', e)) by { NextByEvent(s', e); }
    forall i | 0 < i < |longer| ensures Next(longer[i - 1], longer[i]) {
      if i < |states| { assert Next(states[i - 1], states[i]); }
    }
    assert Run(longer) && longer[0] == s && longer[|longer| - 1] == Apply(s', e);
  }

  lemma NextByEvent(s: State, e: Event)
    requires Enabled(s, e)
    ensures Next(s, Apply(s, e))
  {
  }

  lemma ReachesThrough(a: State, b: State, c: State)
    requires Reaches(a, b) && Reaches(b, c)
    ensures Reaches(a, c)
  {
    var first :| Run(first) && first[0] == a && first[|first| - 1] == b;
    var second :| Run(second) && second[0] == b && second[|second| - 1] == c;
    var whole := first + second[1..];
    hide Next;
    forall i | 0 < i < |whole| ensures Next(whole[i - 1], whole[i]) {
      if i < |first| {
        assert Next(first[i - 1], first[i]);
      } else {
        assert Next(second[i - |first|], second[i - |first| + 1]);
      }
    }
    assert Run(whole);
  }

  lemma {:induction false} RunKeepsFrom(states: seq<State>, i: nat)
    requires Run(states) && Inv(states[0]) && i < |states|
    ensures Inv(states[i])
  {
    hide Inv;
    if i > 0 {
      RunKeepsFrom(states, i - 1);
      assert Next(states[i - 1], states[i]);
      NextKeeps(states[i - 1], states[i]);
    }
  }
}
