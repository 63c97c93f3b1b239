/** The render queue of one dimension: tiles wait in a priority queue, newest
    first; a single worker takes them one at a time, drops those for another
    dimension and those older than the chunk's recorded timestamp, hands the
    rest to the installed map mods, advances the ledger when one of them
    applied the tile, and asks for more catchup data when the queue runs low.

    One iteration of the worker's loop is a step. Its inputs (the clock, the
    active level, what each map mod reports) are parameters; the worker thread
    is the flag `workerRunning`. */
module RenderQueues {
  import opened Tiles
  import opened DimensionStates

  datatype Option<T> = None | Some(value: T)

  /** What one installed map mod reports during one iteration: whether it is
      not installed, whether it is currently mapping, and whether it applied
      the tile handed to it in this iteration. */
  datatype MapMod = MapMod(notAvailable: bool, mapping: bool, appliesTile: bool)

  /** The inputs of one iteration: the clock, the dimension of the active
      level (None when no world is open), the two map mods, and the catchup
      watermark from the configuration. */
  datatype Env = Env(
    now: int,
    activeDimension: Option<Dimension>,
    journeyMap: MapMod,
    voxelMap: MapMod,
    watermark: int)

  /** The state of a render queue and of its dimension's ledger. */
  datatype Scheduler = Scheduler(
    queue: multiset<ChunkTile>,
    ledger: Ledger,
    beginLiveTs: int,
    tsRequestMore: int,
    workerRunning: bool)

  /** How an iteration ended. The worker exits after WorldClosed and Drained;
      a Dispatched iteration records whether some map mod applied the tile
      and the catchup request it issued, if any. */
  datatype Outcome =
    | WorldClosed
    | WaitingForMapping
    | Drained
    | WrongDimension(tile: ChunkTile)
    | Stale(tile: ChunkTile)
    | Dispatched(tile: ChunkTile, applied: bool, request: Option<seq<ChunkPos>>)

  datatype Stepped = Stepped(state: Scheduler, outcome: Outcome)

  /** Delay before a catchup request after a catchup tile arrived (ms). */
  const CatchupDebounceMs := 100

  /** Delay before the next catchup request after one was issued (ms). */
  const CatchupRetryMs := 1000

  /** `t` is a tile of greatest timestamp in `q`. */
  predicate IsNewest(t: ChunkTile, q: multiset<ChunkTile>)
  {
    t in q && forall u :: u in q ==> u.timestamp <= t.timestamp
  }

  /** `pick` is what polling `q` may return: nothing when `q` is empty, and
      otherwise some tile of greatest timestamp (the queue does not order
      tiles of equal timestamp). */
  predicate IsPoll(q: multiset<ChunkTile>, pick: Option<ChunkTile>)
  {
    if q == multiset{} then pick.None? else pick.Some? && IsNewest(pick.value, q)
  }

  /** The tile an iteration took from the queue, if it took one. */
  function Polled(o: Outcome): Option<ChunkTile>
  {
    match o
    case WrongDimension(t) => Some(t)
    case Stale(t) => Some(t)
    case Dispatched(t, _, _) => Some(t)
    case _ => None
  }

  /** A map mod that is installed but not mapping makes the worker wait. */
  predicate Waits(m: MapMod)
  {
    !m.notAvailable && !m.mapping
  }

  /** The iteration reaches the poll: a world is open and no map mod waits. */
  predicate Polls(env: Env)
  {
    env.activeDimension.Some? && !Waits(env.journeyMap) && !Waits(env.voxelMap)
  }

  /** The watermark/debounce rule, for the queue size after a dispatch. */
  predicate CatchupDue(size: nat, watermark: int, tsRequestMore: int, now: int)
  {
    size == 0 || (size < watermark && tsRequestMore < now)
  }

  /** A fresh render queue created at time `now`. */
  function Initial(ledger: Ledger, now: int): Scheduler
  {
    Scheduler(multiset{}, ledger, now, 0, false)
  }

  /** renderLater: queue the tile, start the worker if none runs, and re-arm
      the debounce window when the tile predates the queue (a catchup tile). */
  function AfterRenderLater(s: Scheduler, tile: ChunkTile, now: int): Scheduler
  {
    s.(queue := s.queue + multiset{tile},
       workerRunning := true,
       tsRequestMore := if tile.timestamp < s.beginLiveTs then now + CatchupDebounceMs else s.tsRequestMore)
  }

  /** Whether renderLater in state `s` starts a worker: exactly when none
      runs. */
  predicate StartsWorker(s: Scheduler)
  {
    !s.workerRunning
  }

  /** Whether shutDown in state `s` interrupts a worker: exactly when one
      runs. */
  predicate InterruptsWorker(s: Scheduler)
  {
    s.workerRunning
  }

  /** shutDown: forget the worker. */
  function AfterShutDown(s: Scheduler): Scheduler
  {
    s.(workerRunning := false)
  }

  /** One iteration of the worker's loop, `pick` being what polling the
      queue returns. */
  function Step(s: Scheduler, env: Env, pick: Option<ChunkTile>): Stepped
    requires Polls(env) ==> IsPoll(s.queue, pick)
  {
    if env.activeDimension.None? then
      Stepped(s.(workerRunning := false), WorldClosed)
    else if Waits(env.journeyMap) || Waits(env.voxelMap) then
      Stepped(s, WaitingForMapping)
    else if pick.None? then
      Stepped(s.(workerRunning := false), Drained)
    else
      var t := pick.value;
      var rest := s.queue - multiset{t};
      if t.dimension != env.activeDimension.value then
        Stepped(s.(queue := rest), WrongDimension(t))
      else if t.timestamp < Recorded(s.ledger, t.chunkPos) then
        Stepped(s.(queue := rest), Stale(t))
      else
        Dispatch(s.(queue := rest), env, t)
  }

  /** The second half of an iteration, once tile `t` is polled and has
      passed both gates: hand it to the map mods, advance the ledger if one
      applied it, and apply the catchup rule to the queue left. */
  function Dispatch(s: Scheduler, env: Env, t: ChunkTile): Stepped
  {
    var applied := env.voxelMap.appliesTile || env.journeyMap.appliesTile;
    var ledger := if applied then Advance(s.ledger, t.chunkPos, t.timestamp) else s.ledger;
    if CatchupDue(|s.queue|, env.watermark, s.tsRequestMore, env.now) then
      var (chunks, ledger') := PollCatchup(ledger, env.watermark);
      Stepped(s.(ledger := ledger', tsRequestMore := env.now + CatchupRetryMs),
              Dispatched(t, applied, Some(chunks)))
    else
      Stepped(s.(ledger := ledger), Dispatched(t, applied, None))
  }

  /** Something that happens to a render queue: a call of renderLater or
      shutDown, or one iteration of the worker with what it polled. */
  datatype Event =
    | RenderLaterCalled(tile: ChunkTile, now: int)
    | ShutDownCalled
    | Iteration(env: Env, pick: Option<ChunkTile>)

  /** An iteration's pick must be a legal poll of the queue. */
  predicate Admissible(s: Scheduler, e: Event)
  {
    e.Iteration? && Polls(e.env) ==> IsPoll(s.queue, e.pick)
  }

  function Apply(s: Scheduler, e: Event): Scheduler
    requires Admissible(s, e)
  {
    match e
    case RenderLaterCalled(tile, now) => AfterRenderLater(s, tile, now)
    case ShutDownCalled => AfterShutDown(s)
    case Iteration(env, pick) => Step(s, env, pick).state
  }

  /** Every event of `evs` is admissible in the state it happens in. */
  predicate ValidRun(s: Scheduler, evs: seq<Event>)
    decreases |evs|
  {
    evs == [] || (Admissible(s, evs[0]) && ValidRun(Apply(s, evs[0]), evs[1..]))
  }

  function Run(s: Scheduler, evs: seq<Event>): Scheduler
    requires ValidRun(s, evs)
    decreases |evs|
  {
    if evs == [] then s else Run(Apply(s, evs[0]), evs[1..])
  }

  /** A sequence of successive polls of `q` with nothing added in between. */
  predicate IsDrain(q: multiset<ChunkTile>, polled: seq<ChunkTile>)
    decreases |polled|
  {
    polled == [] || (IsNewest(polled[0], q) && IsDrain(q - multiset{polled[0]}, polled[1..]))
  }

  // ---------------------------------------------------------------------
  // The queue

  /** A non-empty queue has a tile of greatest timestamp, so poll never
      fails on a non-empty queue. */
  lemma {:induction false} NewestExists(q: multiset<ChunkTile>)
    requires q != multiset{}
    ensures exists t :: IsNewest(t, q)
    decreases |q|
  {
    var x :| x in q;
    var rest := q - multiset{x};
    assert forall u :: u in q ==> u == x || u in rest;
    if rest == multiset{} {
      assert IsNewest(x, q);
    } else {
      NewestExists(rest);
      var m :| IsNewest(m, rest);
      if x.timestamp <= m.timestamp {
        assert IsNewest(m, q);
      } else {
        assert IsNewest(x, q);
      }
    }
  }

  /** Draining the queue yields tiles newest first: their timestamps never
      increase, and every one of them came from the queue. */
  lemma {:induction false} DrainIsNewestFirst(q: multiset<ChunkTile>, polled: seq<ChunkTile>)
    requires IsDrain(q, polled)
    ensures multiset(polled) <= q
    ensures forall i, j :: 0 <= i < j < |polled| ==> polled[j].timestamp <= polled[i].timestamp
    decreases |polled|
  {
    if polled != [] {
      var rest := q - multiset{polled[0]};
      DrainIsNewestFirst(rest, polled[1..]);
      assert polled == [polled[0]] + polled[1..];
      forall j | 0 < j < |polled| ensures polled[j].timestamp <= polled[0].timestamp {
        assert polled[j] in multiset(polled[1..]);
      }
    }
  }

  /** An iteration takes at most one tile from the queue, and it is one of
      greatest timestamp; nothing else of the queue changes. */
  lemma IterationPollsNewest(s: Scheduler, env: Env, pick: Option<ChunkTile>)
    requires Polls(env) ==> IsPoll(s.queue, pick)
    ensures var r := Step(s, env, pick);
      match Polled(r.outcome)
      case Some(t) => IsNewest(t, s.queue) && r.state.queue == s.queue - multiset{t}
                      && |r.state.queue| == |s.queue| - 1
      case None => r.state.queue == s.queue
  {
    if Polls(env) && pick.Some? {
      var t := pick.value;
      var rest := s.queue - multiset{t};
      if t.dimension == env.activeDimension.value && Recorded(s.ledger, t.chunkPos) <= t.timestamp {
        DispatchKeepsQueue(s.(queue := rest), env, t);
      }
      assert s.queue == rest + multiset{t};
    }
  }

  /** The second half of an iteration leaves the queue alone and reports the
      tile it was given. */
  lemma DispatchKeepsQueue(s: Scheduler, env: Env, t: ChunkTile)
    ensures Dispatch(s, env, t).state.queue == s.queue
    ensures Polled(Dispatch(s, env, t).outcome) == Some(t)
  {
  }

  /** Every event of `evs` is an iteration of the worker. */
  predicate OnlyIterations(evs: seq<Event>)
  {
    forall i :: 0 <= i < |evs| ==> evs[i].Iteration?
  }

  /** The tiles the iterations of `evs` take from the queue, in order. */
  function PolledBy(s: Scheduler, evs: seq<Event>): seq<ChunkTile>
    requires ValidRun(s, evs)
    decreases |evs|
  {
    if evs == [] then []
    else
      var here := if evs[0].Iteration? then Polled(Step(s, evs[0].env, evs[0].pick).outcome) else None;
      (if here.Some? then [here.value] else []) + PolledBy(Apply(s, evs[0]), evs[1..])
  }

  /** Iterations with no call in between drain the queue: the tiles they
      take are successive polls of the starting queue. */
  lemma {:induction false} IterationsDrainQueue(s: Scheduler, evs: seq<Event>)
    requires ValidRun(s, evs) && OnlyIterations(evs)
    ensures IsDrain(s.queue, PolledBy(s, evs))
    decreases |evs|
  {
    if evs != [] {
      assert evs[0].Iteration?;
      IterationPollsNewest(s, evs[0].env, evs[0].pick);
      assert OnlyIterations(evs[1..]) by {
        forall i | 0 <= i < |evs[1..]| ensures evs[1..][i] == evs[i + 1] { }
      }
      IterationsDrainQueue(Apply(s, evs[0]), evs[1..]);
      var here := Polled(Step(s, evs[0].env, evs[0].pick).outcome);
      var rest := PolledBy(Apply(s, evs[0]), evs[1..]);
      if here.Some? {
        assert PolledBy(s, evs) == [here.value] + rest;
        assert ([here.value] + rest)[1..] == rest;
      } else {
        assert PolledBy(s, evs) == rest;
      }
    }
  }

  /** So the worker's own iterations hand out tiles newest first, each taken
      from the queue it started with. */
  lemma IterationsPollNewestFirst(s: Scheduler, evs: seq<Event>)
    requires ValidRun(s, evs) && OnlyIterations(evs)
    ensures var p := PolledBy(s, evs);
      && multiset(p) <= s.queue
      && forall i, j :: 0 <= i < j < |p| ==> p[j].timestamp <= p[i].timestamp
  {
    IterationsDrainQueue(s, evs);
    DrainIsNewestFirst(s.queue, PolledBy(s, evs));
  }

  // ---------------------------------------------------------------------
  // The gates

  /** While a world is open but an installed map mod is not mapping, an
      iteration consumes nothing and changes nothing. */
  lemma WaitingConsumesNothing(s: Scheduler, env: Env, pick: Option<ChunkTile>)
    requires env.activeDimension.Some? && (Waits(env.journeyMap) || Waits(env.voxelMap))
    ensures Step(s, env, pick) == Stepped(s, WaitingForMapping)
  {
  }

  /** Without an open world the worker exits; the queue and ledger are kept. */
  lemma NoWorldStopsWorker(s: Scheduler, env: Env, pick: Option<ChunkTile>)
    requires env.activeDimension.None?
    ensures var r := Step(s, env, pick);
      r.outcome == WorldClosed && !r.state.workerRunning && r.state.(workerRunning := s.workerRunning) == s
  {
  }

  /** A tile for a dimension other than the active level's is dropped; the
      ledger and the catchup timer are unchanged. */
  lemma ForeignDimensionDropped(s: Scheduler, env: Env, t: ChunkTile)
    requires Polls(env) && IsPoll(s.queue, Some(t))
    requires t.dimension != env.activeDimension.value
    ensures Step(s, env, Some(t)) == Stepped(s.(queue := s.queue - multiset{t}), WrongDimension(t))
  {
  }

  /** A tile older than its chunk's recorded timestamp is dropped; the ledger
      and the catchup timer are unchanged. */
  lemma StaleTileDropped(s: Scheduler, env: Env, t: ChunkTile)
    requires Polls(env) && IsPoll(s.queue, Some(t))
    requires t.dimension == env.activeDimension.value
    requires t.timestamp < Recorded(s.ledger, t.chunkPos)
    ensures Step(s, env, Some(t)) == Stepped(s.(queue := s.queue - multiset{t}), Stale(t))
  {
  }

  /** A tile of the active dimension that is not older than its chunk's
      record, equal timestamps included, is handed to the map mods. */
  lemma CurrentTileDispatched(s: Scheduler, env: Env, t: ChunkTile)
    requires Polls(env) && IsPoll(s.queue, Some(t))
    requires t.dimension == env.activeDimension.value
    requires Recorded(s.ledger, t.chunkPos) <= t.timestamp
    ensures var o := Step(s, env, Some(t)).outcome;
      o.Dispatched? && o.tile == t && (o.applied <==> env.voxelMap.appliesTile || env.journeyMap.appliesTile)
  {
  }

  // ---------------------------------------------------------------------
  // The ledger

  /** The ledger's timestamps move only when a map mod applied a tile that
      passed the gates: then the chunk's timestamp and the last timestamp
      become the tile's, and no other chunk changes; otherwise neither moves. */
  lemma LedgerAdvancesOnlyOnApply(s: Scheduler, env: Env, pick: Option<ChunkTile>)
    requires Polls(env) ==> IsPoll(s.queue, pick)
    ensures var r := Step(s, env, pick); var l := r.state.ledger;
      if r.outcome.Dispatched? && r.outcome.applied then
        var t := r.outcome.tile;
        && Recorded(s.ledger, t.chunkPos) <= t.timestamp
        && Recorded(l, t.chunkPos) == t.timestamp && l.lastTimestamp == t.timestamp
        && (forall p :: p != t.chunkPos ==> Recorded(l, p) == Recorded(s.ledger, p))
      else
        l.chunkTimestamps == s.ledger.chunkTimestamps && l.lastTimestamp == s.ledger.lastTimestamp
  {
  }

  /** A chunk's recorded timestamp never decreases in an iteration. */
  lemma IterationKeepsTimestampsMonotone(s: Scheduler, env: Env, pick: Option<ChunkTile>, pos: ChunkPos)
    requires Polls(env) ==> IsPoll(s.queue, pick)
    ensures Recorded(s.ledger, pos) <= Recorded(Step(s, env, pick).state.ledger, pos)
  {
    LedgerAdvancesOnlyOnApply(s, env, pick);
  }

  /** Nor in any event. */
  lemma EventKeepsTimestampsMonotone(s: Scheduler, e: Event, pos: ChunkPos)
    requires Admissible(s, e)
    ensures Recorded(s.ledger, pos) <= Recorded(Apply(s, e).ledger, pos)
    ensures Apply(s, e).ledger.defaultTimestamp == s.ledger.defaultTimestamp
  {
    if e.Iteration? {
      IterationKeepsTimestampsMonotone(s, e.env, e.pick, pos);
    }
  }

  /** Nor over any run of calls and iterations, in whatever order tiles
      arrive: once a timestamp is recorded for a chunk, no older tile is
      recorded for it afterwards. */
  lemma {:induction false} RunKeepsTimestampsMonotone(s: Scheduler, evs: seq<Event>, pos: ChunkPos)
    requires ValidRun(s, evs)
    ensures Recorded(s.ledger, pos) <= Recorded(Run(s, evs).ledger, pos)
    decreases |evs|
  {
    if evs != [] {
      EventKeepsTimestampsMonotone(s, evs[0], pos);
      RunKeepsTimestampsMonotone(Apply(s, evs[0]), evs[1..], pos);
    }
  }

  // ---------------------------------------------------------------------
  // Catchup requests

  /** A catchup request is issued only at the end of a dispatch, and then
      exactly when the queue left is empty, or below the watermark with the
      debounce window over. The request hands out the front of the backlog,
      as many positions as the watermark allows, and re-arms the timer for
      one second; otherwise the timer and the backlog are unchanged. */
  lemma CatchupRule(s: Scheduler, env: Env, pick: Option<ChunkTile>)
    requires Polls(env) ==> IsPoll(s.queue, pick)
    ensures var r := Step(s, env, pick); var backlog := s.ledger.catchupChunks;
      match r.outcome
      case Dispatched(_, _, request) =>
        && (request.Some? <==> CatchupDue(|r.state.queue|, env.watermark, s.tsRequestMore, env.now))
        && (request.Some? ==>
              && r.state.tsRequestMore == env.now + CatchupRetryMs
              && |request.value| == PollCount(env.watermark, |backlog|)
              && request.value + r.state.ledger.catchupChunks == backlog)
        && (request.None? ==>
              r.state.tsRequestMore == s.tsRequestMore && r.state.ledger.catchupChunks == backlog)
      case _ => r.state.tsRequestMore == s.tsRequestMore && r.state.ledger == s.ledger
  {
  }

  /** No event of `evs` happens before time `now`. */
  predicate ClocksFrom(evs: seq<Event>, now: int)
  {
    forall i :: 0 <= i < |evs| ==> match evs[i]
      case RenderLaterCalled(_, t) => now <= t
      case ShutDownCalled => true
      case Iteration(env, _) => now <= env.now
  }

  /** Once the catchup timer is at `now` + 100 or later, events from time
      `now` on keep it there: renderLater moves it only to a later clock
      plus 100, and a catchup request to a later clock plus 1000. */
  lemma {:induction false} RunKeepsDebounce(s: Scheduler, evs: seq<Event>, now: int)
    requires ValidRun(s, evs) && ClocksFrom(evs, now)
    requires now + CatchupDebounceMs <= s.tsRequestMore
    ensures now + CatchupDebounceMs <= Run(s, evs).tsRequestMore
    decreases |evs|
  {
    if evs != [] {
      if evs[0].Iteration? {
        CatchupRule(s, evs[0].env, evs[0].pick);
      }
      assert ClocksFrom(evs[1..], now) by {
        forall i | 0 <= i < |evs[1..]| ensures evs[1..][i] == evs[i + 1] { }
      }
      RunKeepsDebounce(Apply(s, evs[0]), evs[1..], now);
    }
  }

  /** After a catchup tile arrives at time `now`, whatever calls and
      iterations follow, no iteration up to `now` + 100 that dispatches a
      tile and leaves the queue non-empty issues a catchup request. */
  lemma DebounceDefersCatchup(
    s: Scheduler, t: ChunkTile, now: int, evs: seq<Event>, env: Env, pick: Option<ChunkTile>)
    requires t.timestamp < s.beginLiveTs
    requires ValidRun(AfterRenderLater(s, t, now), evs) && ClocksFrom(evs, now)
    requires Polls(env) ==> IsPoll(Run(AfterRenderLater(s, t, now), evs).queue, pick)
    requires env.now <= now + CatchupDebounceMs
    ensures var r := Step(Run(AfterRenderLater(s, t, now), evs), env, pick);
      r.outcome.Dispatched? && |r.state.queue| > 0 ==> r.outcome.request.None?
  {
    RunKeepsDebounce(AfterRenderLater(s, t, now), evs, now);
    CatchupRule(Run(AfterRenderLater(s, t, now), evs), env, pick);
  }

  // ---------------------------------------------------------------------
  // The worker flag

  /** renderLater starts the worker if none runs and keeps a running one, so
      a second renderLater starts nothing; shutDown clears the flag and is
      idempotent, a second shutDown interrupting nothing; renderLater after
      shutDown starts a worker again. */
  lemma WorkerFlagLifecycle(s: Scheduler, t: ChunkTile, now: int)
    ensures AfterRenderLater(s, t, now).workerRunning
    ensures !StartsWorker(AfterRenderLater(s, t, now))
    ensures !AfterShutDown(s).workerRunning
    ensures AfterShutDown(AfterShutDown(s)) == AfterShutDown(s)
    ensures !InterruptsWorker(AfterShutDown(s))
    ensures StartsWorker(AfterShutDown(s)) && AfterRenderLater(AfterShutDown(s), t, now).workerRunning
  {
  }

  /** An iteration stops the worker exactly when no world is open or the
      queue is empty, and never starts it. */
  lemma IterationStopsWorker(s: Scheduler, env: Env, pick: Option<ChunkTile>)
    requires Polls(env) ==> IsPoll(s.queue, pick)
    ensures var r := Step(s, env, pick);
      r.state.workerRunning == (s.workerRunning && !r.outcome.WorldClosed? && !r.outcome.Drained?)
      && (r.outcome.WorldClosed? <==> env.activeDimension.None?)
      && (r.outcome.Drained? <==> (Polls(env) && s.queue == multiset{}))
  {
  }

  // ---------------------------------------------------------------------
  // A reordering scenario

  /** Tile A (timestamp 1000) and tile B (timestamp 900) for chunk (3, 5)
      are queued, in either order; two iterations follow with a mapping map
      mod that applies what it is given. A is applied and B is dropped as
      stale, so the recorded timestamp is 1000. */
  lemma ReorderScenario(
    l: Ledger, begin: int, a: ChunkTile, b: ChunkTile, aFirst: bool, now: int, env: Env,
    p1: Option<ChunkTile>, p2: Option<ChunkTile>)
    requires a.chunkPos == b.chunkPos == ChunkPos(3, 5)
    requires a.timestamp == 1000 && b.timestamp == 900
    requires Polls(env) && a.dimension == b.dimension == env.activeDimension.value
    requires env.journeyMap.appliesTile
    requires Recorded(l, ChunkPos(3, 5)) <= 1000
    requires IsPoll(BothQueued(l, begin, a, b, aFirst, now).queue, p1)
    requires IsPoll(Step(BothQueued(l, begin, a, b, aFirst, now), env, p1).state.queue, p2)
    ensures var r1 := Step(BothQueued(l, begin, a, b, aFirst, now), env, p1);
      var r2 := Step(r1.state, env, p2);
      && r1.outcome.Dispatched? && r1.outcome.tile == a && r1.outcome.applied
      && r2.outcome == Stale(b)
      && Recorded(r2.state.ledger, ChunkPos(3, 5)) == 1000
  {
    var s := BothQueued(l, begin, a, b, aFirst, now);
    BothQueuedHoldsBoth(l, begin, a, b, aFirst, now);
    NewerOfTwoPolled(a, b, p1);
    var r1 := Step(s, env, p1);
    CurrentTileDispatched(s, env, a);
    LedgerAdvancesOnlyOnApply(s, env, p1);
    IterationPollsNewest(s, env, p1);
    assert r1.state.queue == multiset{b} by {
      assert multiset{a, b} - multiset{a} == multiset{b};
    }
    assert p2 == Some(b);
    StaleTileDropped(r1.state, env, b);
  }

  /** Of two queued tiles, a poll takes the one with the greater timestamp. */
  lemma NewerOfTwoPolled(a: ChunkTile, b: ChunkTile, p: Option<ChunkTile>)
    requires b.timestamp < a.timestamp
    requires IsPoll(multiset{a, b}, p)
    ensures p == Some(a)
  {
    assert a in multiset{a, b};
  }

  /** Either order of renderLater leaves both tiles queued and the ledger
      as it was. */
  lemma BothQueuedHoldsBoth(l: Ledger, begin: int, a: ChunkTile, b: ChunkTile, aFirst: bool, now: int)
    ensures BothQueued(l, begin, a, b, aFirst, now).queue == multiset{a, b}
    ensures BothQueued(l, begin, a, b, aFirst, now).ledger == l
  {
  }

  /** A fresh queue after renderLater of A then B, or of B then A. */
  function BothQueued(l: Ledger, begin: int, a: ChunkTile, b: ChunkTile, aFirst: bool, now: int): Scheduler
  {
    var s := Initial(l, begin);
    if aFirst then AfterRenderLater(AfterRenderLater(s, a, now), b, now)
    else AfterRenderLater(AfterRenderLater(s, b, now), a, now)
  }

  // ---------------------------------------------------------------------
  // The render queue object

  class RenderQueue {
    const dimensionState: DimensionState
    const beginLiveTs: int
    var tsRequestMore: int
    var workerRunning: bool
    var queue: multiset<ChunkTile>

    /** The abstract state of the queue and its ledger. */
    function State(): Scheduler
      reads this, dimensionState
    {
      Scheduler(queue, dimensionState.Snapshot(), beginLiveTs, tsRequestMore, workerRunning)
    }

    /** A render queue created at time `now` over `dimensionState`. */
    constructor (dimensionState: DimensionState, now: int)
      ensures this.dimensionState == dimensionState
      ensures State() == Initial(dimensionState.Snapshot(), now)
    {
      this.dimensionState := dimensionState;
      this.beginLiveTs := now;
      this.tsRequestMore := 0;
      this.workerRunning := false;
      this.queue := multiset{};
    }

    /** Queues `tile` (received at time `now`), starting a worker if none
        runs (`started` says whether it did); a tile that predates the queue re-arms the debounce window. */
    method RenderLater(tile: ChunkTile, now: int) returns (started: bool)
      modifies this
      ensures started == StartsWorker(old(State()))
      ensures queue == old(queue) + multiset{tile} && workerRunning
      ensures tsRequestMore == if tile.timestamp < beginLiveTs then now + CatchupDebounceMs else old(tsRequestMore)
      ensures State() == AfterRenderLater(old(State()), tile, now)
    {
      queue := queue + multiset{tile};
      started := false;
      if !workerRunning {
        workerRunning := true;
        started := true;
      }
      if tile.timestamp < beginLiveTs {
        tsRequestMore := now + CatchupDebounceMs;
      }
    }

    /** Stops the worker, if one runs; `interrupted` says whether one did. */
    method ShutDown() returns (interrupted: bool)
      modifies this
      ensures interrupted == InterruptsWorker(old(State()))
      ensures !workerRunning && queue == old(queue) && tsRequestMore == old(tsRequestMore)
      ensures State() == AfterShutDown(old(State()))
    {
      interrupted := false;
      if workerRunning {
        workerRunning := false;
        interrupted := true;
      }
    }

    /** One iteration of the worker's loop. */
    method RenderLoopIteration(env: Env) returns (outcome: Outcome)
      modifies this, dimensionState
      ensures Polls(env) ==> IsPoll(old(queue), Polled(outcome))
      ensures Stepped(State(), outcome) == Step(old(State()), env, Polled(outcome))
    {
      ghost var s0 := State();
      if env.activeDimension.None? {
        NoWorldStopsWorker(s0, env, None);
        workerRunning := false;
        return WorldClosed;
      }
      if Waits(env.journeyMap) || Waits(env.voxelMap) {
        WaitingConsumesNothing(s0, env, None);
        return WaitingForMapping;
      }
      if queue == multiset{} {
        workerRunning := false;
        return Drained;
      }
      NewestExists(queue);
      var tile :| tile in queue && IsNewest(tile, queue);
      queue := queue - multiset{tile};
      if tile.dimension != env.activeDimension.value {
        ForeignDimensionDropped(s0, env, tile);
        return WrongDimension(tile);
      }
      var recorded := dimensionState.GetChunkTimestamp(tile.chunkPos);
      if tile.timestamp < recorded {
        StaleTileDropped(s0, env, tile);
        return Stale(tile);
      }
      assert Step(s0, env, Some(tile)) == Dispatch(State(), env, tile);
      outcome := DispatchTile(tile, env);
    }

    /** Hands a polled tile that passed both gates to the map mods, advances
        the ledger if one applied it, and issues a catchup request when due. */
    method DispatchTile(tile: ChunkTile, env: Env) returns (outcome: Outcome)
      modifies this, dimensionState
      ensures Stepped(State(), outcome) == Dispatch(old(State()), env, tile)
    {
      ghost var s0 := State();
      var voxelRendered := env.voxelMap.appliesTile;
      var renderedJM := env.journeyMap.appliesTile;
      if renderedJM || voxelRendered {
        dimensionState.SetChunkTimestamp(tile.chunkPos, tile.timestamp);
        dimensionState.WriteLastTimestamp(tile.timestamp);
      }
      ghost var ledger := dimensionState.Snapshot();
      assert ledger == if renderedJM || voxelRendered
        then Advance(s0.ledger, tile.chunkPos, tile.timestamp) else s0.ledger;
      var now := env.now;
      var request := None;
      if |queue| == 0 || (|queue| < env.watermark && tsRequestMore < now) {
        tsRequestMore := now + CatchupRetryMs;
        var chunksToRequest := dimensionState.PollCatchupChunks(env.watermark);
        request := Some(chunksToRequest);
      }
      outcome := Dispatched(tile, renderedJM || voxelRendered, request);
    }
  }
}
