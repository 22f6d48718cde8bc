/** The API's handlers for jobs and executions, and the library's cancel, as the code runs
    them: one statement after another, any of which may fail. */
module Handlers {
  import opened Wrappers
  import opened Tables
  import opened Protocol
  import opened Traces
  import opened Invariant

  /** A handler's transaction.  When one of its statements fails the handler returns and the
      transaction is dropped.  On a reliable connection none fails. */
  class Session {
    var writes: Tables
    const reliable: bool
    ghost var program: Program
    ghost var trace: seq<Turn>
    ghost const start: Tx

    ghost predicate Valid()
      reads this
    {
      Tx(program, writes, false, 0) == Advances(start, trace)
    }

    constructor (ghost p: Program, reliable: bool)
      ensures this.reliable == reliable
      ensures Valid() && program == p && writes == NOTHING && trace == [] && start == Tx(p, NOTHING, false, 0)
    {
      this.reliable := reliable;
      writes := NOTHING;
      program := p;
      trace := [];
      start := Tx(p, NOTHING, false, 0);
    }

    /** Whether the next statement succeeds. */
    method Succeeds() returns (ok: bool)
      ensures reliable ==> ok
    {
      ok := *;
      ok := ok || reliable;
    }

    ghost method Follow(view: Tables, reply: Reply, before: Tables)
      requires Tx(program, before, false, 0) == Advances(start, trace)
      requires var next := Advance(view, Tx(program, before, false, 0), reply); next.writes == writes && !next.aborted && next.began == 0
      modifies this`program, this`trace
      ensures Valid() && program == Advance(view, Tx(old(program), before, false, 0), reply).program
      ensures trace == old(trace) + [Turn(view, reply)]
    {
      AdvancesAppend(start, trace, Turn(view, reply));
      program := Advance(view, Tx(program, before, false, 0), reply).program;
      trace := trace + [Turn(view, reply)];
    }

    /** The INSERT of `create_immediate`, `create_delayed` and `create_cron`. */
    method InsertJob(r: Request) returns (j: JobId, ok: bool)
      requires Valid() && program == Create(r, CreatePoint.InsertJob)
      modifies this
      ensures reliable ==> ok
      ensures ok ==> Valid() && program == Create(r, if r.trigger == Cron then Register(j) else CreatePoint.InsertExecution(j))
      ensures ok ==> writes == SetJob(old(writes), j, NewJob(r))
    {
      j := *;
      ok := Succeeds();
      if ok {
        ghost var before := writes;
        writes := SetJob(writes, j, NewJob(r));
        Follow(NOTHING, Row(j), before);
      }
    }

    /** The second INSERT of `create_immediate` and `create_delayed`. */
    method InsertExecution(r: Request, j: JobId) returns (x: ExecutionId, ok: bool)
      requires Valid() && program == Create(r, CreatePoint.InsertExecution(j)) && r.key.Some?
      modifies this
      ensures reliable ==> ok
      ensures ok ==> Valid() && program == Create(r, CreateDone(j)) && writes == SetExecution(old(writes), x, NewExecution(r, j))
    {
      x := *;
      ok := Succeeds();
      if ok {
        ghost var before := writes;
        writes := SetExecution(writes, x, NewExecution(r, j));
        Follow(NOTHING, Row(x), before);
      }
    }

    /** `register_pg_cron_conn` */
    method RegisterEntry(j: JobId) returns (ok: bool)
      requires Valid()
      requires (program.Create? && program.step == Register(j)) || (program.Update? && program.phase == RegisterNew(j))
      modifies this
      ensures reliable ==> ok
      ensures ok ==> Valid() && writes == Schedule(old(writes), j)
      ensures ok ==> program == if old(program).Create? then old(program).(step := CreateDone(j)) else old(program).(phase := UpdateDone(j))
    {
      ok := Succeeds();
      if ok {
        ghost var before := writes;
        writes := Schedule(writes, j);
        Follow(NOTHING, Ok, before);
      }
    }

    /** `unregister_pg_cron_conn`: the entry is gone afterwards, and its absence is no error. */
    method UnregisterEntry(j: JobId, view: Tables) returns (ok: bool)
      requires Valid()
      requires (program.Update? && program.phase.UnregisterOld? && program.prior == j)
               || (program.CancelJob? && program.stage.UnregisterJob? && program.target == j)
      modifies this
      ensures reliable ==> ok
      ensures ok ==> Valid() && !Scheduled(Over(view, writes), j) && writes == old(writes).(schedule := writes.schedule)
      ensures ok ==> writes.schedule == if Scheduled(Over(view, old(writes)), j) then old(writes).schedule[j := false] else old(writes).schedule
      ensures ok ==> program == if old(program).Update? then old(program).(phase := RegisterNew(old(program).phase.next))
                                else old(program).(stage := CancelDone)
    {
      ok := Succeeds();
      if ok {
        ghost var before := writes;
        writes := Unscheduled(view, writes, j);
        Follow(view, Ok, before);
      }
    }

    /** The first statement of `retire_and_replace`, which may match no row. */
    method RetireOld(prior: JobId, view: Tables) returns (ok: bool)
      requires Valid() && program.Update? && program.prior == prior && program.phase.RetireOld? && writes == NOTHING
      modifies this
      ensures reliable ==> ok
      ensures ok ==> Valid() && program == old(program).(phase := UpdatePoint.InsertNew)
      ensures ok ==> writes == NOTHING.(jobs := RetiredPrior(view, prior))
    {
      ok := Succeeds();
      if ok {
        ghost var before := writes;
        if prior in view.jobs && view.jobs[prior].status == Active {
          writes := SetJob(writes, prior, RetireReplaced(view.jobs[prior], prior));
        }
        Follow(view, Ok, before);
      }
    }

    /** The second statement of `retire_and_replace`. */
    method InsertNew(prior: JobId, row: Job) returns (n: JobId, ok: bool)
      requires Valid() && program.Update? && program.phase.InsertNew? && program.prior == prior && row == NextVersion(program)
      modifies this
      ensures reliable ==> ok
      ensures ok ==> n != prior
      ensures ok ==> Valid() && program == old(program).(phase := UnregisterOld(n)) && writes == SetJob(old(writes), n, row)
    {
      n := *;
      if n == prior {
        n := prior + 1;
      }
      ok := Succeeds();
      if ok {
        ghost var before := writes;
        writes := SetJob(writes, n, row);
        Follow(NOTHING, Row(n), before);
      }
    }

    /** `jobs::get` at the start of a cancel: the row, if there is one. */
    method ReadJob(target: JobId, view: Tables) returns (job: Option<Job>, ok: bool)
      requires Valid() && program.CancelJob? && program.target == target && program.stage.ReadJob?
      modifies this
      ensures reliable ==> ok
      ensures writes == old(writes) && job == if target in view.jobs then Some(view.jobs[target]) else None
      ensures ok && job.Some? ==>
                Valid() && program == old(program).(trigger := job.value.trigger,
                                                    stage := if job.value.trigger == Cron then RetireJob else SelectRows)
    {
      ok := Succeeds();
      job := if target in view.jobs then Some(view.jobs[target]) else None;
      if ok && job.Some? {
        Follow(view, Ok, writes);
      }
    }

    /** `cancel_pending_for_job`: one UPDATE over the rows of its snapshot, each looked at again
        at `seen`. */
    method CancelPending(target: JobId, snapshot: Tables, seen: ExecutionId -> Tables) returns (ok: bool)
      requires Valid() && program.CancelJob? && program.target == target && program.stage.SelectRows? && writes == NOTHING
      modifies this
      ensures reliable ==> ok
      ensures ok ==> Valid() && program == old(program).(stage := RetireJob)
      ensures ok ==> writes == NOTHING.(executions := CancelledAt(PendingOf(snapshot, target), seen, target))
    {
      hide CancelledAt, PendingOf, StillPending, Cancel;
      var rows := Select(target, snapshot);
      ghost var done: set<ExecutionId> := {};
      ok := true;
      NothingCancelled(seen, target);
      while rows != {}
        invariant ok && Valid() && program == old(program).(stage := CancelRows(rows))
        invariant rows !! done && rows + done == PendingOf(snapshot, target)
        invariant writes == NOTHING.(executions := CancelledAt(done, seen, target))
      {
        var x :| x in rows;
        ok := Succeeds();
        if !ok {
          return;
        }
        CancelRow(target, x, seen(x));
        CancelledNext(done, x, seen, target);
        rows, done := rows - {x}, done + {x};
      }
      assert done == PendingOf(snapshot, target);
      Selected();
    }

    method Select(target: JobId, snapshot: Tables) returns (rows: set<ExecutionId>)
      requires Valid() && program.CancelJob? && program.target == target && program.stage.SelectRows?
      modifies this`program, this`trace
      ensures Valid() && program == old(program).(stage := CancelRows(rows)) && rows == PendingOf(snapshot, target)
    {
      rows := PendingOf(snapshot, target);
      Follow(snapshot, Ok, writes);
    }

    method CancelRow(target: JobId, x: ExecutionId, view: Tables)
      requires Valid() && program.CancelJob? && program.target == target && program.stage.CancelRows?
      modifies this
      ensures Valid() && program == old(program).(stage := CancelRows(old(program).stage.rows - {x}))
      ensures writes == if StillPending(view, x, target) then SetExecution(old(writes), x, Cancel(view.executions[x])) else old(writes)
    {
      ghost var before := writes;
      writes := Protocol.CancelRow(view, writes, x, target);
      CancelRowIs(view, before, x, target);
      hide WorkerStep, Protocol.CancelRow, StillPending;
      Follow(view, Row(x), before);
    }

    ghost method Selected()
      requires Valid() && program.CancelJob? && program.stage == CancelRows({})
      modifies this`program, this`trace
      ensures Valid() && program == old(program).(stage := RetireJob)
    {
      Follow(NOTHING, Ok, writes);
    }

    /** `jobs::cancel`: the row it retired, if it was still ACTIVE. */
    method CancelActive(target: JobId, view: Tables) returns (matched: bool, ok: bool)
      requires Valid() && program.CancelJob? && program.target == target && program.stage.RetireJob? && writes.jobs == map[]
      modifies this
      ensures reliable ==> ok
      ensures matched <==> target in view.jobs && view.jobs[target].status == Active
      ensures ok && matched ==> Valid() && program == old(program).(stage := if old(program).trigger == Cron then UnregisterJob else CancelDone)
      ensures ok && matched ==> writes == old(writes).(jobs := map[target := Retire(view.jobs[target])])
    {
      ok := Succeeds();
      matched := target in view.jobs && view.jobs[target].status == Active;
      if ok && matched {
        ghost var before := writes;
        writes := SetJob(writes, target, Retire(view.jobs[target]));
        Follow(view, Ok, before);
      }
    }
  }

  /** The row is still to be cancelled when it is looked at again. */
  predicate StillPending(view: Tables, x: ExecutionId, job: JobId) {
    x in view.executions && view.executions[x].job == job && Cancellable(view.executions[x].status)
  }

  function CancelledAt(rows: set<ExecutionId>, seen: ExecutionId -> Tables, job: JobId): map<ExecutionId, Execution> {
    map x | x in rows && StillPending(seen(x), x, job) :: Cancel(seen(x).executions[x])
  }

  lemma NothingCancelled(seen: ExecutionId -> Tables, job: JobId)
    ensures CancelledAt({}, seen, job) == map[]
  {
  }

  lemma CancelledNext(rows: set<ExecutionId>, x: ExecutionId, seen: ExecutionId -> Tables, job: JobId)
    requires x !in rows
    ensures CancelledAt(rows + {x}, seen, job) ==
              if StillPending(seen(x), x, job) then CancelledAt(rows, seen, job)[x := Cancel(seen(x).executions[x])]
              else CancelledAt(rows, seen, job)
  {
  }

  lemma CancelRowIs(view: Tables, w: Tables, x: ExecutionId, job: JobId)
    ensures CancelRow(view, w, x, job) == if StillPending(view, x, job) then SetExecution(w, x, Cancel(view.executions[x])) else w
  {
  }

  /** The writes of some transaction of the transition system when its last statement has
      run: no statement is missing, added or out of order. */
  ghost predicate OfProtocol(w: Tables) {
    exists start: Tx, trace: seq<Turn> :: Starts(start) && EndsWith(Advances(start, trace), w)
  }

  predicate Starts(tx: Tx) {
    && tx.writes == NOTHING && !tx.aborted
    && match tx.program
       case Create(_, step) => step.InsertJob?
       case Update(_, _, _, _, phase) => phase.RetireOld?
       case CancelJob(_, _, stage) => stage.ReadJob?
       case _ => false
  }

  predicate EndsWith(tx: Tx, w: Tables) {
    Ready(tx.program) && !tx.aborted && tx.writes == w
  }

  /** The writes the handlers have made durable. */
  class Api {
    var commits: seq<Tables>

    method Commit(session: Session) returns (ok: bool)
      requires session.Valid() && Ready(session.program) && Starts(session.start)
      modifies this
      ensures session.reliable ==> ok
      ensures commits == if ok then old(commits) + [session.writes] else old(commits)
      ensures OfProtocol(session.writes)
    {
      assert EndsWith(Advances(session.start, session.trace), session.writes);
      ok := session.Succeeds();
      if ok {
        commits := commits + [session.writes];
      }
    }
  }

  // Requests and answers

  /** A `POST /jobs` body.  What the cron and time zone libraries and the JSON schema say of
      it is given. */
  datatype Body = Body(
    endpoint: string,
    trigger: string,
    key: Option<string>,
    maxAttempts: Option<int>,
    runAt: Option<int>,
    cron: bool,
    timezone: bool,
    startsAt: Option<int>,
    endsAt: Option<int>,
    inputOk: bool,
    timezoneOk: bool,
    nextRun: bool)

  datatype EndpointRow = EndpointRow(internal: bool, maxAttempts: int)

  datatype Refusal =
    | InvalidTrigger
    | EndpointNotFound
    | InternalEndpoint
    | InvalidInput
    | KeyRequired
    | RunAtRequired
    | CronRequired
    | TimezoneRequired
    | InvalidTimezone
    | NoUpcomingRun
    | Conflict
    | DatabaseError
    | JobNotFound
    | NotCron
    | NotActive
    | InternalJob
    | NoCron
    | ExecutionNotFound
    | NotCancellable

  datatype Response = Made(job: JobId) | Existing(job: JobId) | Done | Refused(why: Refusal)

  function ParseTrigger(s: string): Option<Trigger> {
    if s == "IMMEDIATE" then Some(Immediate)
    else if s == "DELAYED" then Some(Delayed)
    else if s == "CRON" then Some(Cron)
    else None
  }

  /** The attempts an execution may take: the caller's number if it is positive, else the
      endpoint's. */
  function MaxAttempts(asked: Option<int>, policy: int): int {
    if asked.Some? && asked.value > 0 then asked.value else policy
  }

  /** Why a create is refused, in the order the handler looks. */
  function Refuses(body: Body, endpoint: Option<EndpointRow>, existing: Option<JobId>): Option<Refusal> {
    if body.trigger != "IMMEDIATE" && body.trigger != "DELAYED" && body.trigger != "CRON" then Some(InvalidTrigger)
    else if endpoint.None? then Some(EndpointNotFound)
    else if endpoint.value.internal then Some(InternalEndpoint)
    else if !body.inputOk then Some(InvalidInput)
    else if body.key.Some? && existing.Some? then None
    else if body.trigger == "DELAYED" && body.key.None? then Some(KeyRequired)
    else if body.trigger == "DELAYED" && body.runAt.None? then Some(RunAtRequired)
    else if body.trigger == "CRON" && !body.cron then Some(CronRequired)
    else if body.trigger == "CRON" && !body.timezone then Some(TimezoneRequired)
    else if body.trigger == "CRON" && !body.timezoneOk then Some(InvalidTimezone)
    else if body.trigger == "CRON" && !body.nextRun then Some(NoUpcomingRun)
    else None
  }

  /** The writes of a create that answers `job`, trigger by trigger: an IMMEDIATE execution is
      QUEUED and due now, a DELAYED one is PENDING until its time, and a CRON job has its entry
      and no execution. */
  ghost predicate CreatesWith(w: Tables, body: Body, endpoint: EndpointRow, job: JobId, now: int, key: string, x: ExecutionId) {
    var limit := if body.maxAttempts.Some? && body.maxAttempts.value > 0 then body.maxAttempts.value else endpoint.maxAttempts;
    var starts := if body.startsAt.Some? then body.startsAt.value else now;
    && (body.key.Some? ==> key == body.key.value)
    && (body.trigger == "IMMEDIATE" ==>
          w == Tables(map[job := Job(body.endpoint, false, Immediate, Active, 1, None, None, Some(key), None, None)],
                      map[x := Execution(job, Given(key), false, Queued, 0, limit, now)], map[], map[]))
    && (body.trigger == "DELAYED" ==>
          body.key.Some? && body.runAt.Some?
          && w == Tables(map[job := Job(body.endpoint, false, Delayed, Active, 1, None, None, Some(key), None, None)],
                         map[x := Execution(job, Given(key), false, Pending, 0, limit, body.runAt.value)], map[], map[]))
    && (body.trigger == "CRON" ==>
          w == Tables(map[job := Job(body.endpoint, false, Cron, Active, 1, None, None, body.key, Some(starts), body.endsAt)],
                      map[], map[], map[job := true]))
  }

  ghost predicate Creates(w: Tables, body: Body, endpoint: EndpointRow, job: JobId, now: int) {
    exists key: string, x: ExecutionId :: CreatesWith(w, body, endpoint, job, now, key, x)
  }

  /** `create`: the job and its execution, or the job and its pg_cron entry, in one commit.
      Any other answer leaves no trace. */
  method CreateJob(api: Api, body: Body, endpoint: Option<EndpointRow>, existing: Option<JobId>, now: int, reliable: bool)
    returns (r: Response)
    modifies api
    ensures r.Made? ==> endpoint.Some? && |api.commits| == |old(api.commits)| + 1
    ensures r.Made? ==> api.commits == old(api.commits) + [api.commits[|old(api.commits)|]]
    ensures r.Made? ==> Creates(api.commits[|old(api.commits)|], body, endpoint.value, r.job, now)
    ensures r.Made? ==> OfProtocol(api.commits[|old(api.commits)|])
    ensures !r.Made? ==> api.commits == old(api.commits)
    ensures Refuses(body, endpoint, existing).Some? ==> r == Refused(Refuses(body, endpoint, existing).value)
    ensures r.Existing? <==> Refuses(body, endpoint, existing).None? && body.key.Some? && existing.Some?
    ensures r.Existing? ==> existing == Some(r.job)
    ensures reliable && Refuses(body, endpoint, existing).None? && !(body.key.Some? && existing.Some?) ==> r.Made?
  {
    hide OfProtocol, WorkerStep, Advances;
    var trigger := ParseTrigger(body.trigger);
    if trigger.None? {
      return Refused(InvalidTrigger);
    }
    if endpoint.None? {
      return Refused(EndpointNotFound);
    }
    if endpoint.value.internal {
      return Refused(InternalEndpoint);
    }
    var limit := MaxAttempts(body.maxAttempts, endpoint.value.maxAttempts);
    if !body.inputOk {
      return Refused(InvalidInput);
    }
    if body.key.Some? && existing.Some? {
      return Existing(existing.value);
    }
    match trigger.value
    case Immediate =>
      var generated: string := *;
      var key := if body.key.Some? then body.key.value else generated;
      ghost var x;
      r, x := CreateOneShot(api, Request(body.endpoint, false, Immediate, Some(key), limit, now, None, None), Conflict, reliable);
      assert r.Made? ==> CreatesWith(api.commits[|old(api.commits)|], body, endpoint.value, r.job, now, key, x);
    case Delayed =>
      if body.key.None? {
        return Refused(KeyRequired);
      }
      if body.runAt.None? {
        return Refused(RunAtRequired);
      }
      ghost var x;
      r, x := CreateOneShot(api, Request(body.endpoint, false, Delayed, body.key, limit, body.runAt.value, None, None), DatabaseError, reliable);
      assert r.Made? ==> CreatesWith(api.commits[|old(api.commits)|], body, endpoint.value, r.job, now, body.key.value, x);
    case Cron =>
      if !body.cron {
        return Refused(CronRequired);
      }
      if !body.timezone {
        return Refused(TimezoneRequired);
      }
      if !body.timezoneOk {
        return Refused(InvalidTimezone);
      }
      var starts := if body.startsAt.Some? then body.startsAt else Some(now);
      if !body.nextRun {
        return Refused(NoUpcomingRun);
      }
      r := CreateCron(api, Request(body.endpoint, false, Cron, body.key, limit, now, starts, body.endsAt), reliable);
      var key := if body.key.Some? then body.key.value else "";
      assert r.Made? ==> CreatesWith(api.commits[|old(api.commits)|], body, endpoint.value, r.job, now, key, 0);
  }

  /** A constraint violation is told apart for IMMEDIATE jobs; for DELAYED ones it is an
      internal error like any other. */
  method CreateOneShot(api: Api, r: Request, clash: Refusal, reliable: bool) returns (answer: Response, ghost x: ExecutionId)
    requires r.trigger != Cron && r.key.Some? && !r.internal && !clash.InternalEndpoint?
    modifies api
    ensures answer.Made? || (!reliable && (answer == Refused(clash) || answer == Refused(DatabaseError)))
    ensures !answer.Made? ==> api.commits == old(api.commits)
    ensures answer.Made? ==> |api.commits| == |old(api.commits)| + 1
                             && api.commits == old(api.commits) + [api.commits[|old(api.commits)|]]
    ensures answer.Made? ==> api.commits[|old(api.commits)|] == Created(r, answer.job, x)
                             && OfProtocol(api.commits[|old(api.commits)|])
  {
    var session := new Session(Create(r, CreatePoint.InsertJob), reliable);
    var j, ok := session.InsertJob(r);
    var constraint: bool := *;
    if !ok {
      return Refused(if constraint then clash else DatabaseError), 0;
    }
    var execution;
    execution, ok := session.InsertExecution(r, j);
    if !ok {
      return Refused(if constraint then clash else DatabaseError), 0;
    }
    assert session.writes == Created(r, j, execution);
    ok := api.Commit(session);
    if !ok {
      return Refused(DatabaseError), 0;
    }
    return Made(j), execution;
  }

  method CreateCron(api: Api, r: Request, reliable: bool) returns (answer: Response)
    requires r.trigger == Cron && !r.internal
    modifies api
    ensures answer.Made? || (!reliable && (answer == Refused(Conflict) || answer == Refused(DatabaseError)))
    ensures api.commits == if answer.Made? then old(api.commits) + [NOTHING.(jobs := map[answer.job := NewJob(r)], schedule := map[answer.job := true])]
                           else old(api.commits)
    ensures answer.Made? ==> OfProtocol(api.commits[|old(api.commits)|])
  {
    var session := new Session(Create(r, CreatePoint.InsertJob), reliable);
    var j, ok := session.InsertJob(r);
    var unique: bool := *;
    if !ok {
      return Refused(if unique then Conflict else DatabaseError);
    }
    ok := session.RegisterEntry(j);
    if !ok {
      return Refused(DatabaseError);
    }
    ok := api.Commit(session);
    if !ok {
      return Refused(DatabaseError);
    }
    return Made(j);
  }

  // Updates and cancels

  /** A `PUT /jobs/{id}` body. */
  datatype Edit = Edit(startsAt: Option<int>, endsAt: Option<int>, cronKnown: bool, timezoneOk: bool, nextRun: bool)

  /** Why a job as it was read cannot be updated, in the order the handler looks. */
  function NotUpdatable(found: Option<Job>, edit: Edit): Option<Refusal> {
    if found.None? then Some(JobNotFound)
    else if found.value.trigger != Cron then Some(NotCron)
    else if found.value.status != Active then Some(NotActive)
    else if found.value.internal then Some(InternalJob)
    else if !edit.cronKnown then Some(NoCron)
    else if !edit.timezoneOk then Some(InvalidTimezone)
    else if !edit.nextRun then Some(NoUpcomingRun)
    else None
  }

  /** What an update finds committed at its first statement and when it looks for the entry. */
  datatype UpdateWorld = UpdateWorld(retire: Tables, entry: Tables)

  /** The writes of an update that answers `next`: the next version, scheduled, and the old one
      retired if and only if it was still ACTIVE when its row was updated, and without an entry
      either way. */
  ghost predicate Replaces(w: Tables, prior: JobId, seen: Job, edit: Edit, next: JobId, world: UpdateWorld) {
    && next != prior && next in w.jobs && w.jobs.Keys <= {prior, next}
    && w.jobs[next] == Job(seen.endpoint, seen.internal, Cron, Active, seen.version + 1, Some(prior), None, None,
                           if edit.startsAt.Some? then edit.startsAt else seen.startsAt,
                           if edit.endsAt.Some? then edit.endsAt else seen.endsAt)
    && (prior in w.jobs <==> prior in world.retire.jobs && world.retire.jobs[prior].status == Active)
    && (prior in w.jobs ==> w.jobs[prior] == world.retire.jobs[prior].(status := Retired, replacedBy := Some(prior)))
    && Scheduled(w, next) && !Scheduled(Over(world.entry, w), prior) && w.schedule.Keys <= {prior, next}
    && w.executions == map[] && w.attempts == map[]
  }

  lemma ReplacesThem(w: Tables, prior: JobId, seen: Job, edit: Edit, next: JobId, row: Job, world: UpdateWorld)
    requires next != prior && w == NOTHING.(jobs := RetiredPrior(world.retire, prior)[next := row], schedule := w.schedule)
    requires (w.schedule == map[] || w.schedule == map[prior := false]) && !Scheduled(Over(world.entry, w), prior)
    requires row == Job(seen.endpoint, seen.internal, Cron, Active, seen.version + 1, Some(prior), None, None,
                        Or(edit.startsAt, seen.startsAt), Or(edit.endsAt, seen.endsAt))
    ensures Replaces(Schedule(w, next), prior, seen, edit, next, world)
  {
  }

  /** `update`: the job was read on another connection; nothing it read is looked at again. */
  method UpdateJob(api: Api, id: JobId, found: Option<Job>, edit: Edit, world: UpdateWorld, reliable: bool) returns (r: Response)
    modifies api
    ensures r.Made? ==> found.Some? && NotUpdatable(found, edit).None? && |api.commits| == |old(api.commits)| + 1
    ensures r.Made? ==> api.commits == old(api.commits) + [api.commits[|old(api.commits)|]]
    ensures r.Made? ==> Replaces(api.commits[|old(api.commits)|], id, found.value, edit, r.job, world)
    ensures r.Made? ==> OfProtocol(api.commits[|old(api.commits)|])
    ensures !r.Made? ==> api.commits == old(api.commits)
    ensures reliable && NotUpdatable(found, edit).None? ==> r.Made?
    ensures NotUpdatable(found, edit).Some? ==> r == Refused(NotUpdatable(found, edit).value)
  {
    if found.None? {
      return Refused(JobNotFound);
    }
    var job := found.value;
    if job.trigger != Cron {
      return Refused(NotCron);
    }
    if job.status != Active {
      return Refused(NotActive);
    }
    if job.internal {
      return Refused(InternalJob);
    }
    if !edit.cronKnown {
      return Refused(NoCron);
    }
    if !edit.timezoneOk {
      return Refused(InvalidTimezone);
    }
    if !edit.nextRun {
      return Refused(NoUpcomingRun);
    }
    hide WorkerStep, Advances, OfProtocol, RetiredPrior, Scheduled, Over;
    var row := Job(job.endpoint, job.internal, Cron, Active, job.version + 1, Some(id), None, None,
                   Or(edit.startsAt, job.startsAt), Or(edit.endsAt, job.endsAt));
    var session := new Session(Update(id, job, edit.startsAt, edit.endsAt, UpdatePoint.RetireOld), reliable);
    var ok := session.RetireOld(id, world.retire);
    if !ok {
      return Refused(DatabaseError);
    }
    var next;
    next, ok := session.InsertNew(id, row);
    if !ok {
      return Refused(DatabaseError);
    }
    ok := session.UnregisterEntry(id, world.entry);
    if !ok {
      return Refused(DatabaseError);
    }
    ghost var before := session.writes;
    ok := session.RegisterEntry(next);
    if !ok {
      return Refused(DatabaseError);
    }
    ReplacesThem(before, id, job, edit, next, row, world);
    ok := api.Commit(session);
    if !ok {
      return Refused(DatabaseError);
    }
    return Made(next);
  }

  /** What a cancel finds committed: when it reads the job, when it selects the executions, at
      each of them, when it retires the job and when it looks for the entry. */
  datatype CancelWorld = CancelWorld(read: Tables, snapshot: Tables, seen: ExecutionId -> Tables, retire: Tables, entry: Tables)

  /** The writes of a cancel: the job retired; for a CRON job, no entry left; for another,
      exactly those of its executions cancelled that no worker had taken. */
  ghost predicate Cancels(w: Tables, id: JobId, world: CancelWorld) {
    && id in world.read.jobs && !world.read.jobs[id].internal
    && id in world.retire.jobs && world.retire.jobs[id].status == Active
    && w.jobs == map[id := world.retire.jobs[id].(status := Retired)] && w.attempts == map[]
    && if world.read.jobs[id].trigger == Cron then
         w.executions == map[] && !Scheduled(Over(world.entry, w), id) && w.schedule.Keys <= {id}
       else
         && w.executions == CancelledAt(PendingOf(world.snapshot, id), world.seen, id) && w.schedule == map[]
         && (forall x: ExecutionId :: x in w.executions <==> Untaken(world.snapshot, x, id) && Untaken(world.seen(x), x, id))
         && forall x <- w.executions :: w.executions[x] == world.seen(x).executions[x].(status := Cancelled)
  }

  /** The execution belongs to the job and is PENDING or QUEUED. */
  predicate Untaken(t: Tables, x: ExecutionId, id: JobId) {
    x in t.executions && t.executions[x].job == id && (t.executions[x].status == Pending || t.executions[x].status == Queued)
  }

  lemma CancelsUntaken(world: CancelWorld, id: JobId)
    ensures var cancelled := CancelledAt(PendingOf(world.snapshot, id), world.seen, id);
            && (forall x: ExecutionId :: x in cancelled <==> Untaken(world.snapshot, x, id) && Untaken(world.seen(x), x, id))
            && forall x <- cancelled :: cancelled[x] == world.seen(x).executions[x].(status := Cancelled)
  {
  }

  /** `cancel` of handlers/jobs.rs: everything in one transaction, or nothing. */
  method CancelJobById(api: Api, id: JobId, world: CancelWorld, reliable: bool) returns (r: Response)
    modifies api
    ensures r.Done? ==> |api.commits| == |old(api.commits)| + 1
                        && api.commits == old(api.commits) + [api.commits[|old(api.commits)|]]
    ensures r.Done? ==> Cancels(api.commits[|old(api.commits)|], id, world) && OfProtocol(api.commits[|old(api.commits)|])
    ensures !r.Done? ==> r.Refused? && api.commits == old(api.commits)
    ensures reliable ==> r == if id !in world.read.jobs then Refused(JobNotFound)
                              else if world.read.jobs[id].status == Retired || world.read.jobs[id].internal then Refused(Conflict)
                              else if id in world.retire.jobs && world.retire.jobs[id].status == Active then Done
                              else Refused(Conflict)
  {
    var session := new Session(CancelJob(id, Cron, CancelPoint.ReadJob), reliable);
    var found, ok := session.ReadJob(id, world.read);
    if !ok {
      return Refused(DatabaseError);
    }
    if found.None? {
      return Refused(JobNotFound);
    }
    var job := found.value;
    if job.status == Retired || job.internal {
      return Refused(Conflict);
    }
    if job.trigger != Cron {
      ok := session.CancelPending(id, world.snapshot, world.seen);
      if !ok {
        return Refused(DatabaseError);
      }
    }
    var matched;
    matched, ok := session.CancelActive(id, world.retire);
    if !ok {
      return Refused(DatabaseError);
    }
    if !matched {
      return Refused(Conflict);
    }
    if job.trigger == Cron {
      ok := session.UnregisterEntry(id, world.entry);
      if !ok {
        return Refused(DatabaseError);
      }
    }
    CancelsUntaken(world, id);
    ok := api.Commit(session);
    if !ok {
      return Refused(DatabaseError);
    }
    return Done;
  }

  /** `cancel` of handlers/executions.rs: a read, then an update that looks at the row again,
      at `view`. */
  method CancelExecutionById(api: Api, x: ExecutionId, found: Option<Execution>, view: Tables, reliable: bool) returns (r: Response)
    modifies api
    ensures r.Done? ==> found.Some? && found.value.status in {Pending, Queued} && x in view.executions && view.executions[x].status in {Pending, Queued}
    ensures r.Done? ==> api.commits == old(api.commits) + [NOTHING.(executions := map[x := view.executions[x].(status := Cancelled)])]
    ensures !r.Done? ==> r.Refused? && api.commits == old(api.commits)
    ensures reliable && found.Some? && found.value.status in {Pending, Queued} && x in view.executions && view.executions[x].status in {Pending, Queued}
            ==> r.Done?
    ensures found.Some? && found.value.status !in {Pending, Queued} ==> r == Refused(NotCancellable)
  {
    if found.None? {
      return Refused(ExecutionNotFound);
    }
    match found.value.status
    case Pending => r := CancelIfPending(api, x, view, reliable);
    case Queued => r := CancelIfPending(api, x, view, reliable);
    case _ => r := Refused(NotCancellable);
  }

  /** `executions::cancel` */
  method CancelIfPending(api: Api, x: ExecutionId, view: Tables, reliable: bool) returns (r: Response)
    modifies api
    ensures r.Done? ==> x in view.executions && view.executions[x].status in {Pending, Queued}
    ensures r.Done? ==> api.commits == old(api.commits) + [NOTHING.(executions := map[x := view.executions[x].(status := Cancelled)])]
    ensures !r.Done? ==> r.Refused? && api.commits == old(api.commits)
    ensures reliable && x in view.executions && view.executions[x].status in {Pending, Queued} ==> r.Done?
  {
    var fails: bool := *;
    if fails && !reliable {
      return Refused(DatabaseError);
    }
    if x in view.executions && Cancellable(view.executions[x].status) {
      api.commits := api.commits + [NOTHING.(executions := map[x := Cancel(view.executions[x])])];
      return Done;
    }
    return Refused(NotCancellable);
  }

  /** The statements of the library's cancel, each with what it commits, in order. */
  function LibraryCommits(id: JobId, trigger: Trigger, world: CancelWorld): seq<Tables> {
    var retired := if id in world.retire.jobs && world.retire.jobs[id].status == Active
                   then map[id := world.retire.jobs[id].(status := Retired)] else map[];
    if trigger == Cron then
      [NOTHING.(jobs := retired)] + if Scheduled(world.entry, id) then [NOTHING.(schedule := map[id := false])] else []
    else
      [NOTHING.(executions := CancelledAt(PendingOf(world.snapshot, id), world.seen, id)), NOTHING.(jobs := retired)]
  }

  /** `cancel_job` of the library: each statement commits by itself, so a failure leaves what
      came before it, and nothing keeps it from an INTERNAL job.  It unschedules with
      `cron.unschedule`, which fails where there is no entry. */
  method LibraryCancelJob(api: Api, id: JobId, found: Option<Job>, world: CancelWorld, reliable: bool) returns (ok: bool)
    modifies api
    ensures found.None? ==> !ok && api.commits == old(api.commits)
    ensures found.Some? ==> exists done: seq<Tables> ::
              done <= LibraryCommits(id, found.value.trigger, world) && api.commits == old(api.commits) + done
              && (ok || reliable ==> done == LibraryCommits(id, found.value.trigger, world))
    ensures found.Some? ==> (ok ==> found.value.trigger == Cron ==> Scheduled(world.entry, id))
    ensures found.Some? && reliable ==> (ok <==> (found.value.trigger == Cron ==> Scheduled(world.entry, id)))
  {
    if found.None? {
      return false;
    }
    var all := LibraryCommits(id, found.value.trigger, world);
    ghost var before := api.commits;
    if found.value.trigger != Cron {
      ok := Try(reliable);
      if !ok {
        assert api.commits == before + all[..0];
        return;
      }
      api.commits := api.commits + [NOTHING.(executions := CancelledAt(PendingOf(world.snapshot, id), world.seen, id))];
      assert api.commits == before + all[..1];
    }
    ok := Try(reliable);
    if !ok {
      assert api.commits == before + all[..if found.value.trigger == Cron then 0 else 1];
      return;
    }
    var jobs := if id in world.retire.jobs && world.retire.jobs[id].status == Active then map[id := Retire(world.retire.jobs[id])] else map[];
    api.commits := api.commits + [NOTHING.(jobs := jobs)];
    assert api.commits == before + all[..if found.value.trigger == Cron then 1 else 2];
    if found.value.trigger == Cron {
      ok := Try(reliable);
      ok := ok && Scheduled(world.entry, id);
      if ok {
        api.commits := api.commits + [NOTHING.(schedule := map[id := false])];
        assert api.commits == before + all[..2];
      }
    }
  }

  method Try(reliable: bool) returns (ok: bool)
    ensures reliable ==> ok
  {
    ok := *;
    ok := ok || reliable;
  }
}
