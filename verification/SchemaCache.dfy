/** The registry of active workspace schemas: a cache with a time to live, read, refreshed and
    written by any number of callers at once. */
module SchemaCache {
  import opened Wrappers

  datatype Cache = Cache(schemas: seq<string>, fetchedAt: int)

  /** What the cache answers at this time, if it may answer. */
  function Serve(cache: Cache, ttl: int, now: int): Option<seq<string>> {
    if now - cache.fetchedAt < ttl && cache.schemas != [] then Some(cache.schemas) else None
  }

  /** A call between its steps: it missed, or it holds what it read from the database. */
  datatype Caller = Missed | Holding(schemas: seq<string>, queriedAt: int)

  datatype Answer = Answer(schemas: seq<string>, at: int, cached: bool)

  /** `cachedAsOf` is when the cached list was read from the workspaces table. */
  datatype State = State(
    ttl: int,
    delay: int,
    now: int,
    cache: Cache,
    cachedAsOf: int,
    callers: map<nat, Caller>,
    answers: seq<Answer>)

  datatype Event =
    | Wait(until: int)
    | Hit
    | Miss(caller: nat)
    | Query(caller: nat)
    | Drop(caller: nat)
    | Write(caller: nat)

  /** The workspaces table over time. */
  type History = int -> seq<string>

  /** A write follows its query by at most `delay`. */
  predicate Enabled(s: State, e: Event) {
    match e
    case Wait(until) => s.now <= until
    case Hit => Serve(s.cache, s.ttl, s.now).Some?
    case Miss(c) => c !in s.callers && Serve(s.cache, s.ttl, s.now).None?
    case Query(c) => c in s.callers && s.callers[c].Missed?
    case Drop(c) => c in s.callers
    case Write(c) => c in s.callers && s.callers[c].Holding? && s.now - s.callers[c].queriedAt <= s.delay
  }

  function Apply(active: History, s: State, e: Event): State
    requires Enabled(s, e)
  {
    match e
    case Wait(until) => s.(now := until)
    case Hit => s.(answers := s.answers + [Answer(s.cache.schemas, s.now, true)])
    case Miss(c) => s.(callers := s.callers[c := Missed])
    case Query(c) => s.(callers := s.callers[c := Holding(active(s.now), s.now)])
    case Drop(c) => s.(callers := s.callers - {c})
    case Write(c) =>
      var held := s.callers[c];
      s.(cache := Cache(held.schemas, s.now), cachedAsOf := held.queriedAt, callers := s.callers - {c},
         answers := s.answers + [Answer(held.schemas, s.now, false)])
  }

  predicate Init(s: State) {
    s.cache == Cache([], s.now - (s.ttl + 1)) && s.callers == map[] && s.answers == [] && s.ttl >= 0 && s.delay >= 0
  }

  ghost predicate Next(active: History, s: State, s': State) {
    exists e: Event :: Enabled(s, e) && s' == Apply(active, s, e)
  }

  ghost predicate Run(active: History, states: seq<State>) {
    states != [] && Init(states[0]) && forall i | 0 < i < |states| :: Next(active, states[i - 1], states[i])
  }

  /** The list was the ACTIVE set at an instant no earlier than this, and not in the future. */
  ghost predicate TrueSince(active: History, schemas: seq<string>, earliest: int, latest: int) {
    exists at: int :: earliest <= at <= latest && active(at) == schemas
  }

  ghost predicate AnswerOk(active: History, s: State, a: Answer) {
    && a.at <= s.now
    && TrueSince(active, a.schemas, if a.cached then a.at - s.ttl - s.delay + 1 else a.at - s.delay, a.at)
    && (a.cached ==> a.schemas != [])
  }

  ghost predicate Inv(active: History, s: State) {
    && s.ttl >= 0 && s.delay >= 0
    && (s.cache.schemas != [] ==>
          s.cache.schemas == active(s.cachedAsOf) && s.cachedAsOf <= s.cache.fetchedAt <= s.now
          && s.cache.fetchedAt - s.cachedAsOf <= s.delay)
    && (forall c <- s.callers :: s.callers[c].Holding? ==>
          s.callers[c].schemas == active(s.callers[c].queriedAt) && s.callers[c].queriedAt <= s.now)
    && (forall a <- s.answers :: AnswerOk(active, s, a))
  }

  lemma EventKeeps(active: History, s: State, e: Event)
    requires Inv(active, s) && Enabled(s, e)
    ensures Inv(active, Apply(active, s, e))
  {
    var s' := Apply(active, s, e);
    forall a <- s'.answers ensures AnswerOk(active, s', a) {
      if a in s.answers {
        assert AnswerOk(active, s, a);
      } else if e.Hit? {
        assert active(s.cachedAsOf) == a.schemas;
      } else {
        assert active(s.callers[e.caller].queriedAt) == a.schemas;
      }
    }
  }

  lemma {:induction false} RunKeeps(active: History, states: seq<State>, i: nat)
    requires Run(active, states) && i < |states|
    ensures Inv(active, states[i]) && states[i].ttl == states[0].ttl && states[i].delay == states[0].delay
  {
    hide Inv;
    if i == 0 {
      InitKeeps(active, states[0]);
    } else {
      RunKeeps(active, states, i - 1);
      assert Next(active, states[i - 1], states[i]);
      NextKeeps(active, states[i - 1], states[i]);
    }
  }

  lemma InitKeeps(active: History, s: State)
    requires Init(s)
    ensures Inv(active, s)
  {
  }

  lemma NextKeeps(active: History, s: State, s': State)
    requires Inv(active, s) && Next(active, s, s')
    ensures Inv(active, s') && s'.ttl == s.ttl && s'.delay == s.delay
  {
    var e: Event :| Enabled(s, e) && s' == Apply(active, s, e);
    EventKeeps(active, s, e);
  }

  /** Every list returned at time r was the ACTIVE set at some instant in
      (r - ttl - delay, r], in whatever order results are written; one read afresh, within
      [r - delay, r].  The cache never answers with an empty list. */
  lemma BoundedStaleness(active: History, states: seq<State>, i: nat, a: Answer)
    requires Run(active, states) && i < |states| && a in states[i].answers
    ensures TrueSince(active, a.schemas, if a.cached then a.at - states[0].ttl - states[0].delay + 1 else a.at - states[0].delay, a.at)
    ensures a.cached ==> a.schemas != []
  {
    RunKeeps(active, states, i);
    assert AnswerOk(active, states[i], a);
  }

  /** The bound is tight: a list can still be served `delay + ttl - 1` after it was true. */
  lemma StalenessIsTight(active: History, ttl: int, delay: int) returns (states: seq<State>)
    requires ttl > 0 && delay >= 0 && active(0) != []
    ensures Run(active, states) && states[0].ttl == ttl && states[0].delay == delay
    ensures states[|states| - 1].answers == [Answer(active(0), delay, false), Answer(active(0), delay + ttl - 1, true)]
  {
    var s0 := State(ttl, delay, 0, Cache([], -(ttl + 1)), 0, map[], []);
    var s1 := Apply(active, s0, Miss(0));
    var s2 := Apply(active, s1, Query(0));
    var s3 := Apply(active, s2, Wait(delay));
    var s4 := Apply(active, s3, Write(0));
    var s5 := Apply(active, s4, Wait(delay + ttl - 1));
    var s6 := Apply(active, s5, Hit);
    states := [s0, s1, s2, s3, s4, s5, s6];
    ByEvent(active, s0, Miss(0));
    ByEvent(active, s1, Query(0));
    ByEvent(active, s2, Wait(delay));
    ByEvent(active, s3, Write(0));
    ByEvent(active, s4, Wait(delay + ttl - 1));
    ByEvent(active, s5, Hit);
    hide Next;
  }

  /** Answers are not monotonic: when two callers refresh at once, the older result can
      replace the newer one, and later callers see the older list again. */
  lemma OlderCanReplaceNewer(active: History, earlier: seq<string>) returns (states: seq<State>)
    requires active(0) == earlier && earlier != []
    ensures Run(active, states)
    ensures states[|states| - 1].answers == [Answer(active(1), 1, false), Answer(earlier, 1, false), Answer(earlier, 1, true)]
  {
    var s0 := State(10, 1, 0, Cache([], -11), 0, map[], []);
    var s1 := Apply(active, s0, Miss(0));
    var s2 := Apply(active, s1, Miss(1));
    var s3 := Apply(active, s2, Query(0));
    var s4 := Apply(active, s3, Wait(1));
    var s5 := Apply(active, s4, Query(1));
    var s6 := Apply(active, s5, Write(1));
    var s7 := Apply(active, s6, Write(0));
    var s8 := Apply(active, s7, Hit);
    states := [s0, s1, s2, s3, s4, s5, s6, s7, s8];
    ByEvent(active, s0, Miss(0));
    ByEvent(active, s1, Miss(1));
    ByEvent(active, s2, Query(0));
    ByEvent(active, s3, Wait(1));
    ByEvent(active, s4, Query(1));
    ByEvent(active, s5, Write(1));
    ByEvent(active, s6, Write(0));
    ByEvent(active, s7, Hit);
    hide Next;
  }

  lemma ByEvent(active: History, s: State, e: Event)
    requires Enabled(s, e)
    ensures Next(active, s, Apply(active, s, e))
  {
  }

  /** The registry itself.  A lock guards each of the two accesses, not the call. */
  class SchemaRegistry {
    var schemas: seq<string>
    var fetchedAt: int
    const ttl: int

    function Contents(): Cache
      reads this
    {
      Cache(schemas, fetchedAt)
    }

    constructor (ttl: int, now: int)
      ensures Contents() == Cache([], now - (ttl + 1)) && this.ttl == ttl
      ensures forall later: int :: Serve(Contents(), ttl, later).None?
    {
      this.ttl := ttl;
      schemas := [];
      fetchedAt := now - (ttl + 1);
    }

    /** One call with nobody in between: `fetched` is what the query returns, or its failure. */
    method GetActiveSchemas(readAt: int, fetched: Option<seq<string>>, writtenAt: int) returns (r: Option<seq<string>>)
      modifies this
      ensures Serve(old(Contents()), ttl, readAt).Some? <==> old(schemas) != [] && readAt < old(fetchedAt) + ttl
      ensures old(schemas) != [] && readAt < old(fetchedAt) + ttl ==> r == Some(old(schemas)) && Contents() == old(Contents())
      ensures old(schemas) == [] || readAt >= old(fetchedAt) + ttl ==>
                r == fetched && Contents() == if fetched.Some? then Cache(fetched.value, writtenAt) else old(Contents())
      ensures fetched == Some([]) && (old(schemas) == [] || readAt >= old(fetchedAt) + ttl) ==>
                forall later: int :: Serve(Contents(), ttl, later).None?
    {
      if readAt - fetchedAt < ttl && schemas != [] {
        return Some(schemas);
      }
      if fetched.None? {
        return None;
      }
      schemas := fetched.value;
      fetchedAt := writtenAt;
      return fetched;
    }
  }
}
