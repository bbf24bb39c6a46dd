/**
 Planning rounds (graph/executor_dag.go:313-317, 685-730): what one round queues while the tasks
 go on writing channels, which fan-out tasks are still pending when the scheduler pauses, and
 when the recorded next nodes cover them (graph/executor_dag.go:552-597).
 */
module DagPlanning {
  import opened Prelude
  import opened DagLoopState
  import opened DagScheduler
  import opened DagInvariant
  import opened DagTheorems

  /** Step i begins a planning round, which takes over every pending fan-out task. */
  predicate Plans(run: seq<World>, i: nat)
    requires i + 1 < |run|
  {
    run[i + 1].place.Planning? && !run[i].place.Planning?
  }

  // ----- One round -----

  /** The round that step i begins is still going on at step j. */
  ghost predicate PlanningUntil(run: seq<World>, i: nat, j: nat)
    requires i < j < |run|
  {
    Plans(run, i) && forall k :: i < k <= j ==> run[k].place.Planning?
  }

  /** The channels visited from step i on and before step j. */
  function Visited(events: seq<Event>, i: nat, j: nat): seq<Channel>
    requires i <= j <= |events|
    decreases j - i
  {
    if i == j then []
    else Visited(events, i, j - 1) + (match events[j - 1] case Consume(ch) => [ch] case _ => [])
  }

  /** Step k visits a channel that is available at that moment, and the channel triggers n. */
  predicate Hits(cfg: Config, run: seq<World>, events: seq<Event>, k: nat, n: NodeID)
    requires |run| == |events| + 1 && k < |events|
  {
    events[k].Consume? && events[k].ch in run[k].available && events[k].ch in cfg.triggers &&
    n in cfg.triggers[events[k].ch]
  }

  lemma PlanBegins(cfg: Config, w: World, e: Event)
    requires Enabled(cfg, w, e) && !w.place.Planning? && Apply(cfg, w, e).place.Planning?
    ensures var p := Apply(cfg, w, e).place; p.todo == cfg.triggers.Keys && p.got == w.pending && p.hit == {}
  {
  }

  lemma PlanGoesOn(cfg: Config, w: World, e: Event)
    requires Enabled(cfg, w, e) && w.place.Planning? && Apply(cfg, w, e).place.Planning?
    ensures var p, q := w.place, Apply(cfg, w, e).place;
      if e.Consume? then
        e.ch in p.todo && q.todo == p.todo - {e.ch} && q.got == p.got &&
        q.hit == p.hit + (if e.ch in w.available && e.ch in cfg.triggers then cfg.triggers[e.ch] else {})
      else q == p
  {
  }

  /** What step j - 1 did to the round that step i began. */
  lemma RoundStep(s: Start, run: seq<World>, events: seq<Event>, i: nat, j: nat)
    requires Runs(s, run, events) && i + 1 < j < |run| && PlanningUntil(run, i, j)
    ensures var p, q, e := run[j - 1].place, run[j].place, events[j - 1];
      p.Planning? && q.Planning? && q.got == p.got &&
      (e.Consume? ==> e.ch in p.todo && q.todo == p.todo - {e.ch}) && (!e.Consume? ==> q.todo == p.todo) &&
      forall n :: n in q.hit <==> n in p.hit || Hits(s.cfg, run, events, j - 1, n)
  {
    assert StepAt(s.cfg, run, events, j - 1);
    PlanGoesOn(s.cfg, run[j - 1], events[j - 1]);
  }

  lemma RoundStarts(s: Start, run: seq<World>, events: seq<Event>, i: nat)
    requires Runs(s, run, events) && i + 1 < |run| && Plans(run, i)
    ensures var p := run[i + 1].place; p.todo == s.cfg.triggers.Keys && p.got == run[i].pending && p.hit == {}
  {
    assert StepAt(s.cfg, run, events, i);
    PlanBegins(s.cfg, run[i], events[i]);
  }

  /** A round keeps the fan-out tasks it began with. */
  lemma {:induction false} GotSoFar(s: Start, run: seq<World>, events: seq<Event>, i: nat, j: nat)
    requires Runs(s, run, events) && i < j < |run| && PlanningUntil(run, i, j)
    ensures run[j].place.got == run[i].pending
    decreases j
  {
    if j == i + 1 {
      RoundStarts(s, run, events, i);
    } else {
      GotSoFar(s, run, events, i, j - 1);
      RoundStep(s, run, events, i, j);
    }
  }

  /** A round still has to visit the channels that it has not visited. */
  lemma {:induction false} VisitedSoFar(s: Start, run: seq<World>, events: seq<Event>, i: nat, j: nat)
    requires Runs(s, run, events) && i < j < |run| && PlanningUntil(run, i, j)
    ensures multiset(Visited(events, i + 1, j)) + multiset(run[j].place.todo) == multiset(s.cfg.triggers.Keys)
    decreases j
  {
    if j == i + 1 {
      RoundStarts(s, run, events, i);
    } else {
      VisitedSoFar(s, run, events, i, j - 1);
      RoundStep(s, run, events, i, j);
      VisitedOneMore(events, i + 1, j, run[j - 1].place.todo, run[j].place.todo, s.cfg.triggers.Keys);
    }
  }

  lemma VisitedOneMore(events: seq<Event>, i: nat, j: nat, todo: set<Channel>, left: set<Channel>, all: set<Channel>)
    requires i < j <= |events| && multiset(Visited(events, i, j - 1)) + multiset(todo) == multiset(all)
    requires var e := events[j - 1];
      if e.Consume? then e.ch in todo && left == todo - {e.ch} else left == todo
    ensures multiset(Visited(events, i, j)) + multiset(left) == multiset(all)
  {
    if events[j - 1].Consume? {
      OneVisitMore(Visited(events, i, j - 1), todo, all, events[j - 1].ch);
    }
  }

  lemma OneVisitMore(visited: seq<Channel>, todo: set<Channel>, all: set<Channel>, ch: Channel)
    requires multiset(visited) + multiset(todo) == multiset(all) && ch in todo
    ensures multiset(visited + [ch]) + multiset(todo - {ch}) == multiset(all)
  {
    assert multiset(todo) == multiset(todo - {ch}) + multiset{ch};
  }

  ghost predicate HitBetween(cfg: Config, run: seq<World>, events: seq<Event>, i: nat, j: nat, n: NodeID)
    requires |run| == |events| + 1 && j <= |events|
  {
    exists k :: i < k < j && Hits(cfg, run, events, k, n)
  }

  /** A round has collected exactly the nodes that a visited channel triggers which was available. */
  lemma {:induction false} HitSoFar(s: Start, run: seq<World>, events: seq<Event>, i: nat, j: nat, n: NodeID)
    requires Runs(s, run, events) && i < j < |run| && PlanningUntil(run, i, j)
    ensures n in run[j].place.hit <==> HitBetween(s.cfg, run, events, i, j, n)
    decreases j
  {
    if j == i + 1 {
      RoundStarts(s, run, events, i);
    } else {
      HitSoFar(s, run, events, i, j - 1, n);
      RoundStep(s, run, events, i, j);
      assert HitBetween(s.cfg, run, events, i, j, n) <==>
             HitBetween(s.cfg, run, events, i, j - 1, n) || Hits(s.cfg, run, events, j - 1, n);
    }
  }

  /** A loop that is planning is in a round with a beginning, so every EndPlan ends a round of PlanningRound. */
  lemma {:induction false} RoundBegan(s: Start, run: seq<World>, events: seq<Event>, j: nat) returns (i: nat)
    requires Runs(s, run, events) && j < |run| && run[j].place.Planning?
    ensures i < j && PlanningUntil(run, i, j)
    decreases j
  {
    if run[j - 1].place.Planning? {
      i := RoundBegan(s, run, events, j - 1);
    } else {
      i := j - 1;
    }
  }

  /**
   A whole round visits every trigger channel exactly once, and queues the fan-out tasks that were
   pending when it began, then one task for each creatable node that a channel triggers which was
   available at its visit.
   */
  lemma PlanningRound(s: Start, run: seq<World>, events: seq<Event>, i: nat, j: nat)
    requires Runs(s, run, events) && i < j < |events| && PlanningUntil(run, i, j) && events[j].EndPlan?
    ensures multiset(Visited(events, i + 1, j)) == multiset(s.cfg.triggers.Keys)
    ensures var order := events[j].order;
      run[j + 1].loop.ready == run[j].loop.ready + (run[i].pending + TasksFor(order, run[j].nextUid)) &&
      (forall a, b :: 0 <= a < b < |order| ==> order[a] != order[b]) &&
      forall n :: n in order <==> Creatable(s.cfg, n) && HitBetween(s.cfg, run, events, i, j, n)
  {
    GotSoFar(s, run, events, i, j);
    VisitedSoFar(s, run, events, i, j);
    assert StepAt(s.cfg, run, events, j);
    var nodes := set n | n in run[j].place.hit && Creatable(s.cfg, n);
    ListsMembers(events[j].order, nodes);
    ListsOnce(events[j].order, nodes);
    forall n
      ensures n in events[j].order <==> Creatable(s.cfg, n) && HitBetween(s.cfg, run, events, i, j, n)
    {
      HitSoFar(s, run, events, i, j, n);
    }
  }

  lemma ListsOnce(xs: seq<NodeID>, s: set<NodeID>)
    requires Lists(xs, s)
    ensures forall a, b :: 0 <= a < b < |xs| ==> xs[a] != xs[b]
  {
    forall a, b | 0 <= a < b < |xs|
      ensures xs[a] != xs[b]
    {
      assert xs == xs[..b] + xs[b..] && xs[a] == xs[..b][a] && xs[b] == xs[b..][0];
      assert multiset(xs)[xs[b]] == multiset(xs[..b])[xs[b]] + multiset(xs[b..])[xs[b]];
      assert multiset(s)[xs[b]] <= 1;
    }
  }

  // ----- Which tasks are pending -----

  /** The fan-out tasks issued from step i on and before step j. */
  function Issued(run: seq<World>, events: seq<Event>, i: nat, j: nat): seq<Task>
    requires |run| == |events| + 1 && i <= j <= |events|
    decreases j - i
  {
    if i == j then []
    else
      Issued(run, events, i, j - 1) +
      (match events[j - 1] case FanOut(_, target) => [Task(target, run[j - 1].nextUid)] case _ => [])
  }

  /** No planning round begins from step i on and before step j; step i follows one, or is the first. */
  ghost predicate UnplannedSince(run: seq<World>, i: nat, j: nat)
    requires i <= j < |run|
  {
    (i > 0 ==> Plans(run, i - 1)) && forall k :: i <= k < j ==> !Plans(run, k)
  }

  lemma PendingStep(cfg: Config, w: World, e: Event)
    requires Enabled(cfg, w, e)
    ensures var w' := Apply(cfg, w, e);
      w'.pending ==
        if w'.place.Planning? && !w.place.Planning? then []
        else w.pending + (match e case FanOut(_, target) => [Task(target, w.nextUid)] case _ => [])
  {
  }

  /**
   The pending fan-out tasks are exactly those issued since the last planning round began,
   after whatever the execution started with when there was none.
   */
  lemma {:induction false} PendingIsIssued(s: Start, run: seq<World>, events: seq<Event>, i: nat, j: nat)
    requires Runs(s, run, events) && i <= j < |run| && UnplannedSince(run, i, j)
    ensures run[j].pending == (if i == 0 then run[0].pending else []) + Issued(run, events, i, j)
    decreases j
  {
    if i < j {
      PendingIsIssued(s, run, events, i, j - 1);
      assert StepAt(s.cfg, run, events, j - 1);
      PendingStep(s.cfg, run[j - 1], events[j - 1]);
      assert !Plans(run, j - 1);
    } else if i > 0 {
      assert StepAt(s.cfg, run, events, i - 1);
      PendingStep(s.cfg, run[i - 1], events[i - 1]);
    }
  }

  /** Draining plans nothing: what is issued while it lasts stays pending, and so does what was pending. */
  lemma DrainingPlansNothing(s: Start, run: seq<World>, events: seq<Event>, i: nat)
    requires Runs(s, run, events) && i < |events| && run[i].loop.draining
    ensures !Plans(run, i)
  {
    assert StepAt(s.cfg, run, events, i);
    if !run[i].place.Planning? {
      DrainingSkipsPlanning(s.cfg, run[i], events[i]);
    }
  }

  lemma DrainingSkipsPlanning(cfg: Config, w: World, e: Event)
    requires Enabled(cfg, w, e) && w.loop.draining && !w.place.Planning?
    ensures !Apply(cfg, w, e).place.Planning?
  {
  }

  /**
   At a pause the fan-out tasks issued since the last planning round began were never planned.
   They are covered as well exactly when each node has none of them, or has one, nothing
   outstanding, and an available trigger.
   */
  lemma FanOutCoveredIff(s: Start, run: seq<World>, events: seq<Event>, i: nat, j: nat)
    requires Runs(s, run, events) && i <= j < |run| && run[j].place.Returned? && run[j].place.outcome.Paused?
    requires UnplannedSince(run, i, j)
    ensures var w, next := run[j], run[j].place.outcome.nextNodes;
      var lost := (if i == 0 then run[0].pending else []) + Issued(run, events, i, j);
      (forall n :: Real(n) ==> Outstanding(w.loop, n) + |Of(n, lost)| <= multiset(next)[n]) <==>
      (forall n :: Real(n) ==>
       |Of(n, lost)| <= if Outstanding(w.loop, n) == 0 && n in Triggered(s.cfg, w) then 1 else 0)
  {
    PendingIsIssued(s, run, events, i, j);
    var w, next := run[j], run[j].place.outcome.nextNodes;
    forall n | Real(n)
      ensures Outstanding(w.loop, n) + |Of(n, w.pending)| <= multiset(next)[n] <==>
              |Of(n, w.pending)| <= if Outstanding(w.loop, n) == 0 && n in Triggered(s.cfg, w) then 1 else 0
    {
      PauseIsExact(s, run, events, j, n);
    }
  }

  // ----- The first tasks and the results channel -----

  lemma {:induction false} CreatableCount(cfg: Config, ns: seq<NodeID>, n: NodeID)
    ensures multiset(CreatableOf(cfg, ns))[n] == if Creatable(cfg, n) then multiset(ns)[n] else 0
  {
    if ns != [] {
      CreatableCount(cfg, ns[1..], n);
      assert ns == [ns[0]] + ns[1..];
    }
  }

  /**
   A run starts with a task for each recorded next node that the graph has, as often as it is
   recorded; with none recorded, with nothing when it is resumed, and else with the entry node.
   */
  lemma SeedsAre(s: Start, run: seq<World>, events: seq<Event>, n: NodeID)
    requires Runs(s, run, events)
    ensures |Of(n, run[0].loop.ready)| ==
      if !(Real(n) && n in s.cfg.nodes) then 0
      else if s.nextNodes != [] then multiset(s.nextNodes)[n]
      else if !s.resumed && n == s.cfg.entry then 1 else 0
  {
    var nodes := SeedNodes(s.cfg, s.nextNodes, s.resumed);
    CreatableCount(s.cfg, nodes, n);
    NodesCount(n, run[0].loop.ready);
    assert NodesOf(run[0].loop.ready) == CreatableOf(s.cfg, nodes);
  }

  /** The results channel never holds more messages than it has room for. */
  lemma {:induction false} ResultsFit(s: Start, run: seq<World>, events: seq<Event>, j: nat)
    requires Runs(s, run, events) && j < |run|
    ensures |run[j].done| <= s.cfg.maxConcurrency
    decreases j
  {
    if j > 0 {
      ResultsFit(s, run, events, j - 1);
      assert StepAt(s.cfg, run, events, j - 1);
      ResultsFitStep(s.cfg, run[j - 1], events[j - 1]);
    }
  }

  lemma ResultsFitStep(cfg: Config, w: World, e: Event)
    requires Enabled(cfg, w, e) && |w.done| <= cfg.maxConcurrency
    ensures |Apply(cfg, w, e).done| <= cfg.maxConcurrency
  {
  }

  // ----- A concrete run -----

  const GRAPH: Config := Config({2, 3}, map[], 2, 0, 10, 1)

  const ENTRY: Task := Task(2, 0)

  /** The entry task has been launched and nothing else has happened to the tasks. */
  function Launched(place: Place): World {
    World(Loop(0, 1, [], map[2 := ENTRY], map[], false, None, false, None, false, []),
          place, 1, [], map[2 := Worker(ENTRY, Running)], {}, [], 7, Log([ENTRY], [(ENTRY, 0)], [], []))
  }

  /** The entry node fanned out to node 3 and its result waits in the channel. */
  function Fanned(): World {
    Launched(Waiting).(held := 0, done := [2], workers := map[2 := Worker(ENTRY, Sent(Success))],
                       pending := [Task(3, 7)], nextUid := 8)
  }

  /** An interrupt is pending and no task is left, but the fan-out task is. */
  predicate Stopped(w: World) {
    w.loop.inFlight == map[] && w.loop.waiting == map[] && w.loop.ready == [] && w.loop.rerunNodes == [] &&
    w.loop.draining && w.loop.pendingIntr.Some? && w.pending == [Task(3, 7)]
  }

  /**
   Node 2 fans out to node 3 and succeeds, and its static interrupt-after fires: the run pauses
   with the fan-out task still pending and no next node recorded.
   */
  lemma FanOutCanBeDropped() returns (s: Start, run: seq<World>, events: seq<Event>)
    ensures Runs(s, run, events)
    ensures var w := run[|run| - 1];
      w.place.Returned? && w.place.outcome.Paused? && w.place.outcome.nextNodes == [] &&
      |w.pending| == 1 && w.pending[0].node == 3 && 3 in s.cfg.nodes
  {
    s := Start(GRAPH, [], false);
    run, events := LaunchEntry(s);
    run, events := PlanNothing(s, run, events);
    run, events := FanOutOnce(s, run, events);
    run, events := ResultArrives(s, run, events);
    run, events := PauseDrops(s, run, events);
  }

  lemma LaunchEntry(s: Start) returns (run: seq<World>, events: seq<Event>)
    requires s == Start(GRAPH, [], false)
    ensures Runs(s, run, events) && run[|run| - 1] == Launched(Starting)
  {
    var w := World(Loop(0, 0, [ENTRY], map[], map[], false, None, false, None, false, []),
                   Top, 0, [], map[], {}, [], 7, Log([ENTRY], [], [], []));
    assert CreatableOf(GRAPH, [2]) == [2];
    assert TasksFor(CreatableOf(GRAPH, SeedNodes(GRAPH, [], false)), 0) == [ENTRY];
    run, events := [w], [];
    w := ExtendRun(s, run, events, PollExternal(false));
    run, events := run + [w], events + [PollExternal(false)];
    w := ExtendRun(s, run, events, StartNext(false));
    run, events := run + [w], events + [StartNext(false)];
  }

  /** The graph has no triggers: the planning round finds nothing, and the loop waits. */
  lemma PlanNothing(s: Start, before: seq<World>, past: seq<Event>) returns (run: seq<World>, events: seq<Event>)
    requires s.cfg == GRAPH && Runs(s, before, past) && before[|before| - 1] == Launched(Starting)
    ensures Runs(s, run, events) && run[|run| - 1] == Launched(Waiting)
  {
    run, events := before, past;
    var w := ExtendRun(s, run, events, StopStarting);
    run, events := run + [w], events + [StopStarting];
    w := ExtendRun(s, run, events, DecidePlan);
    run, events := run + [w], events + [DecidePlan];
    assert w.place.todo == {};
    run, events := EndPlanning(s, run, events);
    assert 2 in run[|run| - 1].loop.inFlight;
    run, events := WaitWithoutTrigger(s, run, events);
  }

  lemma EndPlanning(s: Start, before: seq<World>, past: seq<Event>) returns (run: seq<World>, events: seq<Event>)
    requires s.cfg == GRAPH && Runs(s, before, past)
    requires before[|before| - 1] == Launched(Planning({}, [], {}, false))
    ensures Runs(s, run, events) && run[|run| - 1] == Launched(Finalizing)
  {
    var w := before[|before| - 1];
    assert (set n | n in w.place.hit && Creatable(GRAPH, n)) == {};
    w := ExtendRun(s, before, past, EndPlan([]));
    run, events := before + [w], past + [EndPlan([])];
  }

  /** Node 2 fans out, succeeds, and sends its result. */
  lemma FanOutOnce(s: Start, before: seq<World>, past: seq<Event>) returns (run: seq<World>, events: seq<Event>)
    requires s.cfg == GRAPH && Runs(s, before, past) && before[|before| - 1] == Launched(Waiting)
    ensures Runs(s, run, events) && run[|run| - 1] == Fanned()
  {
    run, events := before, past;
    var w := ExtendRun(s, run, events, FanOut(2, 3));
    run, events := run + [w], events + [FanOut(2, 3)];
    w := ExtendRun(s, run, events, Finish(2, Success));
    run, events := run + [w], events + [Finish(2, Success)];
    w := ExtendRun(s, run, events, ReleaseSlot(2));
    run, events := run + [w], events + [ReleaseSlot(2)];
    w := ExtendRun(s, run, events, Send(2));
    run, events := run + [w], events + [Send(2)];
  }

  /** The result is received while the interrupt-after of node 2 fires. */
  lemma ResultArrives(s: Start, before: seq<World>, past: seq<Event>) returns (run: seq<World>, events: seq<Event>)
    requires s.cfg == GRAPH && Runs(s, before, past) && before[|before| - 1] == Fanned()
    ensures Runs(s, run, events) && Stopped(run[|run| - 1]) && run[|run| - 1].place == Top
  {
    var w := ExtendRun(s, before, past, Receive(true, false));
    run, events := before + [w], past + [Receive(true, false)];
  }

  lemma PauseDrops(s: Start, before: seq<World>, past: seq<Event>) returns (run: seq<World>, events: seq<Event>)
    requires s.cfg == GRAPH && Runs(s, before, past) && Stopped(before[|before| - 1]) &&
      before[|before| - 1].place == Top
    ensures Runs(s, run, events)
    ensures var w := run[|run| - 1];
      w.place.Returned? && w.place.outcome.Paused? && w.place.outcome.nextNodes == [] && w.pending == [Task(3, 7)]
  {
    run, events := before, past;
    var w := ExtendRun(s, run, events, PollExternal(false));
    run, events := run + [w], events + [PollExternal(false)];
    w := ExtendRun(s, run, events, StopStarting);
    run, events := run + [w], events + [StopStarting];
    w := ExtendRun(s, run, events, DecidePlan);
    run, events := run + [w], events + [DecidePlan];
    run, events := FinalizeStopped(s, run, events);
  }

  lemma FinalizeStopped(s: Start, before: seq<World>, past: seq<Event>) returns (run: seq<World>, events: seq<Event>)
    requires s.cfg == GRAPH && Runs(s, before, past)
    requires Stopped(before[|before| - 1]) && before[|before| - 1].place == Finalizing
    ensures Runs(s, run, events)
    ensures var w := run[|run| - 1];
      w.place.Returned? && w.place.outcome.Paused? && w.place.outcome.nextNodes == [] && w.pending == [Task(3, 7)]
  {
    var w := before[|before| - 1];
    assert w.loop.waiting.Keys == {} && Triggered(GRAPH, w) == {};
    w := ExtendRun(s, before, past, Finalize([], []));
    run, events := before + [w], past + [Finalize([], [])];
  }
}
