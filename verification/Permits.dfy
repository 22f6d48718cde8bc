/** The poll loop of crates/worker/src/poller.rs: one semaphore gates the tasks, and the
    shutdown drains it. */
module Permits {
  import opened Basics

  const U32: nat := 0x1_0000_0000

  /** Where the loop stands.  It holds a permit only while it fetches the schemas. */
  datatype LoopPoint =
    | Top
    | Idling
    | Acquiring
    | Fetching
    | Pausing
    | Draining
    | Stopped(drained: bool)

  /** A spawned task holds a permit until it ends.  It counts in the gauge from its claim to
      its commit. */
  datatype Task = Polling | InFlight

  /** `drain` are the permits the shutdown has been given so far, `leaked` the panics of tasks
      in flight. */
  datatype Worker = Worker(
    max: nat,
    free: nat,
    at: LoopPoint,
    tasks: map<nat, Task>,
    drain: nat,
    gauge: int,
    leaked: nat,
    idle: bool,
    lastTick: nat,
    now: nat)

  datatype Event =
    | Wait(until: nat)
    | Tick
    | WakeUp
    | Cancelled
    | Acquire
    | FetchFailed
    | PauseOver
    | Spawn(task: nat)
    | Claimed(task: nat)
    | Finished(task: nat)
    | Ended(task: nat, found: bool)
    | Panicked(task: nat)
    | DrainOne
    | Drained
    | TimedOut

  /** `acquire_many(max_concurrent as u32)` */
  function Wanted(max: nat): nat {
    max % U32
  }

  predicate Enabled(w: Worker, e: Event) {
    match e
    case Wait(until) => w.now <= until
    case Tick => w.at.Top?
    case WakeUp => w.at.Idling?
    case Cancelled => w.at.Idling? || w.at.Acquiring? || w.at.Pausing?
    case Acquire => w.at.Acquiring? && w.free > 0
    case FetchFailed => w.at.Fetching?
    case PauseOver => w.at.Pausing?
    case Spawn(t) => w.at.Fetching? && t !in w.tasks
    case Claimed(t) => t in w.tasks && w.tasks[t].Polling?
    case Finished(t) => t in w.tasks && w.tasks[t].InFlight?
    case Ended(t, _) => t in w.tasks && w.tasks[t].Polling?
    case Panicked(t) => t in w.tasks
    case DrainOne => w.at.Draining? && w.drain < Wanted(w.max) && w.free > 0
    case Drained => w.at.Draining? && w.drain == Wanted(w.max)
    case TimedOut => w.at.Draining?
  }

  function Apply(w: Worker, e: Event): Worker
    requires Enabled(w, e)
  {
    match e
    case Wait(until) => w.(now := until)
    case Tick => w.(lastTick := w.now, at := if w.idle then Idling else Acquiring)
    case WakeUp => w.(idle := false, at := Acquiring)
    case Cancelled => w.(at := Draining)
    case Acquire => w.(free := w.free - 1, at := Fetching)
    case FetchFailed => w.(free := w.free + 1, at := Pausing)
    case PauseOver => w.(at := Top)
    case Spawn(t) => w.(tasks := w.tasks[t := Polling], at := Top)
    case Claimed(t) => w.(tasks := w.tasks[t := InFlight], gauge := w.gauge + 1)
    case Finished(t) => w.(tasks := w.tasks[t := Polling], gauge := w.gauge - 1)
    case Ended(t, found) => w.(tasks := w.tasks - {t}, free := w.free + 1, idle := w.idle || !found)
    case Panicked(t) => w.(tasks := w.tasks - {t}, free := w.free + 1, leaked := w.leaked + if w.tasks[t].InFlight? then 1 else 0)
    case DrainOne => w.(free := w.free - 1, drain := w.drain + 1)
    case Drained => w.(free := w.free + w.drain, drain := 0, at := Stopped(true))
    case TimedOut => w.(free := w.free + w.drain, drain := 0, at := Stopped(false))
  }

  predicate Init(w: Worker) {
    w == Worker(w.max, w.max, Top, map[], 0, 0, 0, false, 0, w.now)
  }

  ghost predicate Next(w: Worker, w': Worker) {
    exists e: Event :: Enabled(w, e) && w' == Apply(w, e)
  }

  ghost predicate Run(states: seq<Worker>) {
    states != [] && Init(states[0]) && forall i | 0 < i < |states| :: Next(states[i - 1], states[i])
  }

  function Held(w: Worker): nat {
    if w.at.Fetching? then 1 else 0
  }

  function InFlightTasks(tasks: map<nat, Task>): set<nat> {
    set t | t in tasks && tasks[t].InFlight?
  }

  ghost predicate Inv(w: Worker) {
    && w.free + Held(w) + |w.tasks| + w.drain == w.max
    && w.gauge == |InFlightTasks(w.tasks)| + w.leaked
    && w.drain <= Wanted(w.max) && (w.drain > 0 ==> w.at.Draining?)
    && w.lastTick <= w.now
  }

  lemma TaskSetChanges(tasks: map<nat, Task>, t: nat)
    ensures InFlightTasks(tasks[t := Polling]) == InFlightTasks(tasks) - {t}
    ensures InFlightTasks(tasks[t := InFlight]) == InFlightTasks(tasks) + {t}
    ensures InFlightTasks(tasks - {t}) == InFlightTasks(tasks) - {t}
    ensures t in tasks ==> |tasks - {t}| == |tasks| - 1 && |tasks[t := Polling]| == |tasks[t := InFlight]| == |tasks|
    ensures t !in tasks ==> |tasks[t := Polling]| == |tasks| + 1
  {
    InFlightChanges(tasks, t);
    KeyCount(tasks, t, Polling);
    KeyCount(tasks, t, InFlight);
    hide InFlightTasks;
  }

  lemma InFlightChanges(tasks: map<nat, Task>, t: nat)
    ensures InFlightTasks(tasks[t := Polling]) == InFlightTasks(tasks) - {t}
    ensures InFlightTasks(tasks[t := InFlight]) == InFlightTasks(tasks) + {t}
    ensures InFlightTasks(tasks - {t}) == InFlightTasks(tasks) - {t}
  {
  }

  lemma KeyCount(tasks: map<nat, Task>, t: nat, v: Task)
    ensures |tasks[t := v]| == |tasks| + if t in tasks then 0 else 1
    ensures t in tasks ==> |tasks - {t}| == |tasks| - 1
  {
    assert tasks[t := v].Keys == tasks.Keys + {t};
    assert (tasks - {t}).Keys == tasks.Keys - {t};
    CountKeys(tasks);
    CountKeys(tasks[t := v]);
    CountKeys(tasks - {t});
  }

  lemma {:induction false} CountKeys(tasks: map<nat, Task>)
    ensures |tasks| == |tasks.Keys|
  {
  }

  lemma EventKeeps(w: Worker, e: Event)
    requires Inv(w) && Enabled(w, e)
    ensures Inv(Apply(w, e))
  {
    match e
    case Spawn(t) => TaskSetChanges(w.tasks, t);
    case Claimed(t) => TaskSetChanges(w.tasks, t);
    case Finished(t) => TaskSetChanges(w.tasks, t);
    case Ended(t, _) => TaskSetChanges(w.tasks, t);
    case Panicked(t) => TaskSetChanges(w.tasks, t);
    case _ =>
  }

  lemma {:induction false} RunKeeps(states: seq<Worker>, i: nat)
    requires Run(states) && i < |states|
    ensures Inv(states[i]) && states[i].max == states[0].max
  {
    if i > 0 {
      RunKeeps(states, i - 1);
      assert Next(states[i - 1], states[i]);
      var e: Event :| Enabled(states[i - 1], e) && states[i] == Apply(states[i - 1], e);
      EventKeeps(states[i - 1], e);
    }
  }

  /** Permits are neither lost nor made: so there are never more tasks than max_concurrent. */
  lemma PermitsConserved(states: seq<Worker>, i: nat)
    requires Run(states) && i < |states|
    ensures var w := states[i];
            && w.free + Held(w) + |w.tasks| + w.drain == states[0].max
            && |w.tasks| <= states[0].max && |InFlightTasks(w.tasks)| <= |w.tasks|
  {
    RunKeeps(states, i);
    SubsetCount(InFlightTasks(states[i].tasks), states[i].tasks.Keys);
    CountKeys(states[i].tasks);
  }

  /** The inflight gauge counts the tasks in flight, exactly as long as none has panicked. */
  lemma GaugeIsExact(states: seq<Worker>, i: nat)
    requires Run(states) && i < |states|
    ensures states[i].gauge == |InFlightTasks(states[i].tasks)| <==> states[i].leaked == 0
    ensures states[i].leaked == 0 ==> 0 <= states[i].gauge <= states[0].max
  {
    RunKeeps(states, i);
    PermitsConserved(states, i);
  }

  /** One round of the loop whose task panics in flight: everything is as before but the gauge. */
  lemma PanicRound(w: Worker) returns (states: seq<Worker>)
    requires w.at.Top? && w.tasks == map[] && w.free == w.max && w.max > 0 && !w.idle && w.lastTick == w.now
    ensures |states| == 5 && Next(w, states[0]) && forall i | 0 < i < 5 :: Next(states[i - 1], states[i])
    ensures states[4] == w.(gauge := w.gauge + 1, leaked := w.leaked + 1)
  {
    var w1 := Apply(w, Tick);
    var w2 := Apply(w1, Acquire);
    var w3 := Apply(w2, Spawn(0));
    var w4 := Apply(w3, Claimed(0));
    var w5 := Apply(w4, Panicked(0));
    ByEvent(w, Tick);
    ByEvent(w1, Acquire);
    ByEvent(w2, Spawn(0));
    ByEvent(w3, Claimed(0));
    ByEvent(w4, Panicked(0));
    states := [w1, w2, w3, w4, w5];
    hide Next;
  }

  /** Panics are never taken back: with no task at all the gauge can stand at any number, also
      above max_concurrent. */
  lemma GaugeLeaks(max: nat, n: nat) returns (states: seq<Worker>)
    requires max > 0
    ensures Run(states) && states[|states| - 1] == Worker(max, max, Top, map[], 0, n, n, false, 0, 0)
  {
    if n == 0 {
      states := [Worker(max, max, Top, map[], 0, 0, 0, false, 0, 0)];
    } else {
      var before := GaugeLeaks(max, n - 1);
      var round := PanicRound(before[|before| - 1]);
      states := before + round;
      hide Next;
      forall i | 0 < i < |states| ensures Next(states[i - 1], states[i]) {
        if i < |before| {
          assert Next(before[i - 1], before[i]);
        } else if i > |before| {
          assert Next(round[i - 1 - |before|], round[i - |before|]);
        }
      }
    }
  }

  /** The inputs at which the gauge fails: one panic, and one more than max_concurrent. */
  lemma GaugeFails(max: nat) returns (one: seq<Worker>, many: seq<Worker>)
    requires max > 0
    ensures Run(one) && one[0].max == max && var w := one[|one| - 1]; w.leaked == 1 && w.gauge > |InFlightTasks(w.tasks)|
    ensures Run(many) && many[0].max == max && many[|many| - 1].gauge > max && many[|many| - 1].tasks == map[]
  {
    one := GaugeLeaks(max, 1);
    many := GaugeLeaks(max, max + 1);
    RunKeeps(one, |one| - 1);
    RunKeeps(many, |many| - 1);
    assert InFlightTasks(one[|one| - 1].tasks) == {};
  }

  predicate Exited(at: LoopPoint) {
    at.Draining? || at.Stopped?
  }

  /** Once the loop has been left, no task starts. */
  lemma {:induction false} NoTaskAfterExit(states: seq<Worker>, i: nat, k: nat)
    requires Run(states) && i <= k < |states| && Exited(states[i].at)
    ensures Exited(states[k].at) && states[k].tasks.Keys <= states[i].tasks.Keys
  {
    if i < k {
      NoTaskAfterExit(states, i, k - 1);
      assert Next(states[k - 1], states[k]);
    }
  }

  /** A shutdown that got all the permits it asked for leaves no task running. */
  lemma DrainedMeansIdle(states: seq<Worker>, i: nat)
    requires Run(states) && i < |states| && states[0].max < U32
    requires states[i].at.Draining? && Enabled(states[i], Drained)
    ensures states[i].tasks == map[] && states[i].free == 0
  {
    RunKeeps(states, i);
    assert Wanted(states[0].max) == states[0].max;
    CountKeys(states[i].tasks);
  }

  /** The bound is needed: the cast to 32 bits makes the shutdown ask for too few. */
  lemma DrainedWithTasks(max: nat, n: nat) returns (states: seq<Worker>)
    requires max >= U32 && n <= Wanted(max)
    ensures Run(states) && states[0].max == max
    ensures var w := states[|states| - 1];
            w.at.Draining? && w.max == max && w.drain == n && |w.tasks| == 1 && w.free == max - 1 - n
            && (n == Wanted(max) ==> Enabled(w, Drained))
  {
    if n == 0 {
      var w0 := Worker(max, max, Top, map[], 0, 0, 0, false, 0, 0);
      var w1 := Apply(w0, Tick);
      var w2 := Apply(w1, Acquire);
      var w3 := Apply(w2, Spawn(0));
      var w4 := Apply(w3, Tick);
      var w5 := Apply(w4, Cancelled);
      states := [w0, w1, w2, w3, w4, w5];
      ByEvent(w0, Tick);
      ByEvent(w1, Acquire);
      ByEvent(w2, Spawn(0));
      ByEvent(w3, Tick);
      ByEvent(w4, Cancelled);
      hide Next, Apply;
    } else {
      var before := DrainedWithTasks(max, n - 1);
      var w := before[|before| - 1];
      assert Enabled(w, DrainOne);
      ByEvent(w, DrainOne);
      states := before + [Apply(w, DrainOne)];
      hide Next;
      forall i | 0 < i < |states| ensures Next(states[i - 1], states[i]) {
        if i < |before| { assert Next(before[i - 1], before[i]); }
      }
    }
  }

  lemma ByEvent(w: Worker, e: Event)
    requires Enabled(w, e)
    ensures Next(w, Apply(w, e))
  {
  }

  // Idling

  /** Some task has ended without work, and the loop has not slept since. */
  ghost predicate FoundNothingSince(states: seq<Worker>, i: nat) {
    exists k: nat :: k < i && EndsIdle(states, k) && NoWake(states, k, i)
  }

  ghost predicate EndsIdle(states: seq<Worker>, k: nat) {
    && k + 1 < |states|
    && exists t: nat :: Enabled(states[k], Ended(t, false)) && states[k + 1] == Apply(states[k], Ended(t, false))
  }

  ghost predicate NoWake(states: seq<Worker>, k: nat, i: nat) {
    forall m: nat | k < m < i && m + 1 < |states| :: !Wakes(states[m], states[m + 1])
  }

  predicate Wakes(w: Worker, w': Worker) {
    w.at.Idling? && w'.at.Acquiring?
  }

  lemma IdleStep(states: seq<Worker>, k: nat)
    requires k + 1 < |states| && Next(states[k], states[k + 1])
    ensures states[k + 1].idle <==> EndsIdle(states, k) || (states[k].idle && !Wakes(states[k], states[k + 1]))
  {
    var e: Event :| Enabled(states[k], e) && states[k + 1] == Apply(states[k], e);
    if e.Ended? && !e.found {
      assert EndsIdle(states, k);
    }
  }

  lemma FoundNothingStep(states: seq<Worker>, i: nat)
    requires i + 1 < |states|
    ensures FoundNothingSince(states, i + 1) <==>
              EndsIdle(states, i) || (FoundNothingSince(states, i) && !Wakes(states[i], states[i + 1]))
  {
    hide EndsIdle, Wakes;
    if EndsIdle(states, i) {
      assert NoWake(states, i, i + 1);
    }
    if FoundNothingSince(states, i) && !Wakes(states[i], states[i + 1]) {
      var k: nat :| k < i && EndsIdle(states, k) && NoWake(states, k, i);
      assert NoWake(states, k, i + 1);
    }
    if FoundNothingSince(states, i + 1) && !EndsIdle(states, i) {
      var k: nat :| k < i + 1 && EndsIdle(states, k) && NoWake(states, k, i + 1);
      assert k < i;
      assert NoWake(states, k, i);
    }
  }

  /** The loop is idle exactly when some task has found no work since the loop last slept. */
  lemma {:induction false} IdleExactly(states: seq<Worker>, i: nat)
    requires Run(states) && i < |states|
    ensures states[i].idle <==> FoundNothingSince(states, i)
  {
    if i > 0 {
      IdleExactly(states, i - 1);
      assert Next(states[i - 1], states[i]);
      IdleStep(states, i - 1);
      FoundNothingStep(states, i - 1);
      hide Next, EndsIdle, NoWake, FoundNothingSince;
    }
  }

  /** An iteration sleeps first if the loop is idle, and asks for a permit otherwise. */
  lemma IterationStarts(w: Worker)
    requires Enabled(w, Tick)
    ensures Apply(w, Tick).at == if w.idle then Idling else Acquiring
    ensures Apply(w, Tick).lastTick == w.now
  {
  }

  /** When the schemas cannot be fetched the permit goes back at once, and the loop neither
      ticks nor asks for another before it has slept. */
  lemma FetchFailureSleeps(w: Worker, e: Event)
    requires Enabled(w, FetchFailed) && Enabled(Apply(w, FetchFailed), e)
    ensures Apply(w, FetchFailed).free == w.free + 1 && Apply(w, FetchFailed).tasks == w.tasks
    ensures !e.Tick? && !e.Acquire? && !e.Spawn?
    ensures Apply(Apply(w, FetchFailed), e).at.Pausing? || e.PauseOver? || e.Cancelled?
  {
  }

  // Ticks

  predicate Underway(at: LoopPoint) {
    at.Idling? || at.Acquiring?
  }

  /** How often the loop has ticked, seen from its states: a tick is what leads out of the top. */
  ghost function Ticks(states: seq<Worker>, i: nat): nat
    requires i < |states|
  {
    if i == 0 then 0 else Ticks(states, i - 1) + if states[i - 1].at.Top? && Underway(states[i].at) then 1 else 0
  }

  /** How often it has got a permit. */
  ghost function Permitted(states: seq<Worker>, i: nat): nat
    requires i < |states|
  {
    if i == 0 then 0 else Permitted(states, i - 1) + if states[i - 1].at.Acquiring? && states[i].at.Fetching? then 1 else 0
  }

  lemma StepTicks(w: Worker, w': Worker)
    requires Next(w, w')
    ensures var ticks, permits := (if w.at.Top? && Underway(w'.at) then 1 else 0), (if w.at.Acquiring? && w'.at.Fetching? then 1 else 0);
            permits + (if Underway(w'.at) then 1 else 0) <= ticks + (if Underway(w.at) then 1 else 0)
    ensures w.at.Top? && Underway(w'.at) ==> w'.lastTick == w.now
  {
  }

  /** Every permit the loop takes follows a tick of its own. */
  lemma {:induction false} TicksEachIteration(states: seq<Worker>, i: nat)
    requires Run(states) && i < |states|
    ensures Permitted(states, i) + (if Underway(states[i].at) then 1 else 0) <= Ticks(states, i)
  {
    if i > 0 {
      TicksEachIteration(states, i - 1);
      assert Next(states[i - 1], states[i]);
      StepTicks(states[i - 1], states[i]);
      hide Next;
    }
  }

  // Health

  function StaleAfter(pollInterval: nat, floor: nat): nat {
    if floor >= pollInterval * 10 then floor else pollInterval * 10
  }

  /** `poller_ok` as the health endpoint computes it. */
  predicate PollerOk(w: Worker, staleAfter: nat) {
    w.now - w.lastTick <= staleAfter || w.free == 0
  }

  /** A worker is reported stale exactly when its last tick is older than the floor and than ten
      poll intervals and a permit is free: it is never merely busy. */
  lemma StaleHasCapacity(states: seq<Worker>, i: nat, pollInterval: nat, floor: nat)
    requires Run(states) && i < |states|
    ensures !PollerOk(states[i], StaleAfter(pollInterval, floor)) <==>
              && states[i].now > states[i].lastTick + floor && states[i].now > states[i].lastTick + 10 * pollInterval
              && Held(states[i]) + |states[i].tasks| + states[i].drain < states[0].max
  {
    RunKeeps(states, i);
  }
}
