/** What the eager DAG scheduler guarantees in every run, under every interleaving. */
module DagTheorems {
  import opened Prelude
  import opened DagLoopState
  import opened DagScheduler
  import opened DagInvariant

  // ----- Every run keeps the invariant -----

  lemma InitialInv(cfg: Config, w: World, nextNodes: seq<NodeID>, resumed: bool)
    requires Initial(cfg, w, nextNodes, resumed)
    ensures Inv(cfg, w)
    ensures w.loop.ready != [] ==> NeverIdle(cfg, w)
  {
    assert Holding(w) == {} && Messages(w) == {};
    if w.loop.ready != [] {
      assert w.loop.ready[0].node in CreatableOf(cfg, SeedNodes(cfg, nextNodes, resumed));
    }
  }

  /** The parameters of a run: the graph and limits, and what the execution starts from. */
  datatype Start = Start(cfg: Config, nextNodes: seq<NodeID>, resumed: bool)

  ghost predicate Runs(s: Start, run: seq<World>, events: seq<Event>) {
    IsRun(s.cfg, run, events, s.nextNodes, s.resumed)
  }

  /** seed queued at least one task. */
  predicate Seeded(s: Start) {
    CreatableOf(s.cfg, SeedNodes(s.cfg, s.nextNodes, s.resumed)) != []
  }

  lemma {:induction false} RunInv(s: Start, run: seq<World>, events: seq<Event>, j: nat)
    requires Runs(s, run, events) && j < |run|
    ensures Inv(s.cfg, run[j])
    ensures Seeded(s) ==> NeverIdle(s.cfg, run[j])
    decreases j
  {
    if j == 0 {
      InitialInv(s.cfg, run[0], s.nextNodes, s.resumed);
    } else {
      RunInv(s, run, events, j - 1);
      assert StepAt(s.cfg, run, events, j - 1);
      InvKept(s.cfg, run[j - 1], events[j - 1]);
      if Seeded(s) {
        NeverIdleKept(s.cfg, run[j - 1], events[j - 1]);
      }
    }
  }

  // ----- Exclusion and limits -----

  /**
   A node never executes twice at once and at most maxConcurrency tasks execute together:
   whenever a task is launched its node has no goroutine and a slot is free.
   */
  lemma LaunchesExclusively(s: Start, run: seq<World>, events: seq<Event>, j: nat)
    requires Runs(s, run, events) && j < |events|
    ensures |Holding(run[j])| <= s.cfg.maxConcurrency
    ensures run[j + 1].log.launched != run[j].log.launched ==>
      run[j].loop.ready != [] &&
      var t := run[j].loop.ready[0];
      events[j].StartNext? && run[j + 1].log.launched == run[j].log.launched + [(t, run[j].loop.nextStep)] &&
      t.node !in run[j].workers && t.node in Holding(run[j + 1]) && |Holding(run[j])| < s.cfg.maxConcurrency &&
      !run[j].loop.draining
  {
    RunInv(s, run, events, j);
    assert StepAt(s.cfg, run, events, j);
    EventsStepTasks(s.cfg, run[j], events[j]);
    if run[j + 1].log.launched != run[j].log.launched {
      LaunchesOnlyOnStart(s.cfg, run[j], events[j]);
    }
  }

  lemma LaunchesOnlyOnStart(cfg: Config, w: World, e: Event)
    requires Enabled(cfg, w, e) && Apply(cfg, w, e).log.launched != w.log.launched
    ensures e.StartNext?
  {
  }

  /** At most max(0, maxSteps - startStep) tasks are ever launched, under consecutive step numbers. */
  lemma LaunchesBudgeted(s: Start, run: seq<World>, events: seq<Event>, j: nat)
    requires Runs(s, run, events) && j < |run|
    ensures |run[j].log.launched| <= if s.cfg.maxSteps > s.cfg.startStep then s.cfg.maxSteps - s.cfg.startStep else 0
    ensures forall i :: 0 <= i < |run[j].log.launched| ==>
      run[j].log.launched[i].1 == s.cfg.startStep + i < s.cfg.maxSteps
  {
    RunInv(s, run, events, j);
  }

  function Receives(events: seq<Event>): nat {
    if events == [] then 0
    else Receives(events[..|events| - 1]) + (if events[|events| - 1].Receive? then 1 else 0)
  }

  lemma {:induction false} ReceivesAreResults(s: Start, run: seq<World>, events: seq<Event>, j: nat)
    requires Runs(s, run, events) && j < |run|
    ensures Receives(events[..j]) == |run[j].log.succeeded| + |run[j].log.failed|
    decreases j
  {
    if j > 0 {
      ReceivesAreResults(s, run, events, j - 1);
      RunInv(s, run, events, j - 1);
      assert events[..j][..j - 1] == events[..j - 1];
      assert StepAt(s.cfg, run, events, j - 1);
      EventsStepTasks(s.cfg, run[j - 1], events[j - 1]);
      if events[j - 1].Receive? {
        ReceiveSteps(s.cfg, run[j - 1], events[j - 1]);
      } else {
        ResultsOnlyOnReceive(s.cfg, run[j - 1], events[j - 1]);
      }
    }
  }

  lemma ResultsOnlyOnReceive(cfg: Config, w: World, e: Event)
    requires Enabled(cfg, w, e) && !e.Receive?
    ensures Apply(cfg, w, e).log.succeeded == w.log.succeeded && Apply(cfg, w, e).log.failed == w.log.failed
  {
  }

  /** The loop handles finitely many results, whatever the graph, its cycles and the workers do. */
  lemma ResultsBounded(s: Start, run: seq<World>, events: seq<Event>, j: nat)
    requires Runs(s, run, events) && j < |run|
    ensures Receives(events[..j]) + |run[j].loop.inFlight| <=
      if s.cfg.maxSteps > s.cfg.startStep then s.cfg.maxSteps - s.cfg.startStep else 0
  {
    ReceivesAreResults(s, run, events, j);
    RunInv(s, run, events, j);
  }

  // ----- First cause wins -----

  /** The fields that fix the outcome. */
  ghost predicate SameCause(l: Loop, m: Loop) {
    m.draining == l.draining && m.drainErr == l.drainErr && m.drainMaxStep == l.drainMaxStep &&
    m.pendingIntr == l.pendingIntr
  }

  lemma ResultKeepsCause(l: Loop, t: Task, verdict: Verdict, after: bool, forced: bool)
    requires l.draining
    ensures SameCause(l, HandleTaskResult(l, t, verdict, after, forced).0)
  {
  }

  lemma FinalizeKeepsCause(l: Loop, keys: seq<NodeID>, triggered: seq<NodeID>)
    requires l.draining
    ensures SameCause(l, TryFinalize(l, keys, triggered).0)
  {
  }

  /** One step never launches and never changes the cause once draining has begun. */
  lemma DrainIsFinalStep(cfg: Config, w: World, e: Event)
    requires Enabled(cfg, w, e) && w.loop.draining
    ensures SameCause(w.loop, Apply(cfg, w, e).loop) && Apply(cfg, w, e).log.launched == w.log.launched
  {
    match e
    case Receive(after, forced) =>
      ResultKeepsCause(w.loop, w.workers[w.done[0]].task, w.workers[w.done[0]].stage.verdict, after, forced);
    case Finalize(keys, triggered) => FinalizeKeepsCause(w.loop, keys, triggered);
    case _ =>
  }

  lemma {:induction false} DrainIsFinal(s: Start, run: seq<World>, events: seq<Event>, i: nat, j: nat)
    requires Runs(s, run, events) && i <= j < |run| && run[i].loop.draining
    ensures SameCause(run[i].loop, run[j].loop) && run[j].log.launched == run[i].log.launched
    decreases j
  {
    if i < j {
      DrainIsFinal(s, run, events, i, j - 1);
      RunInv(s, run, events, j - 1);
      assert StepAt(s.cfg, run, events, j - 1);
      DrainIsFinalStep(s.cfg, run[j - 1], events[j - 1]);
    }
  }

  /** After draining starts nothing is launched, and the outcome is the one that started it. */
  lemma FirstCauseWins(s: Start, run: seq<World>, events: seq<Event>, i: nat, j: nat)
    requires Runs(s, run, events) && i <= j < |run| && run[i].loop.draining
    ensures run[j].log.launched == run[i].log.launched
    ensures run[j].place.Returned? ==>
      match run[j].place.outcome
      case StepsExhausted => run[i].loop.drainMaxStep
      case Aborted(error) => run[i].loop.drainErr == Some(error)
      case Paused(cause, _) => run[i].loop.pendingIntr == Some(cause)
      case Completed => false
  {
    DrainIsFinal(s, run, events, i, j);
    ReturnNamesCause(s, run, events, j);
  }

  /** What the loop returns is read off its draining fields. */
  ghost predicate NamesCause(w: World) {
    match w.place
    case Returned(StepsExhausted) => w.loop.draining && w.loop.drainMaxStep
    case Returned(Aborted(error)) => w.loop.draining && w.loop.drainErr == Some(error) && !error.Interrupted?
    case Returned(Paused(cause, _)) => w.loop.draining && w.loop.pendingIntr == Some(cause)
    case Returned(Completed) => !w.loop.draining
    case _ => true
  }

  lemma ReturnedIsFinal(cfg: Config, w: World, e: Event)
    requires Inv(cfg, w) && w.place.Returned?
    ensures !Enabled(cfg, w, e)
  {
  }

  lemma FinalizeNamesCause(cfg: Config, w: World, e: Event)
    requires Inv(cfg, w) && Enabled(cfg, w, e) && !w.place.Returned?
    ensures NamesCause(Apply(cfg, w, e))
  {
  }

  lemma ReturnNamesCause(s: Start, run: seq<World>, events: seq<Event>, j: nat)
    requires Runs(s, run, events) && j < |run|
    ensures NamesCause(run[j])
  {
    if j > 0 {
      RunInv(s, run, events, j - 1);
      assert StepAt(s.cfg, run, events, j - 1);
      if run[j - 1].place.Returned? {
        ReturnedIsFinal(s.cfg, run[j - 1], events[j - 1]);
      }
      FinalizeNamesCause(s.cfg, run[j - 1], events[j - 1]);
    }
  }

  // ----- Quiescent finish -----

  /**
   The loop returns only when every launched task's result has been handled, and nothing waits.
   No step is possible afterwards: no goroutine is left behind.
   */
  lemma ReturnsQuiescent(s: Start, run: seq<World>, events: seq<Event>, j: nat)
    requires Runs(s, run, events) && j < |run| && run[j].place.Returned?
    ensures run[j].workers == map[] && run[j].loop.inFlight == map[] && run[j].loop.waiting == map[] && run[j].held == 0
    ensures |run[j].log.launched| == |run[j].log.succeeded| + |run[j].log.failed|
    ensures forall e :: !Enabled(s.cfg, run[j], e)
  {
    RunInv(s, run, events, j);
    assert Holding(run[j]) == {};
    assert run[j].loop.waiting.Keys == {};
    forall e
      ensures !Enabled(s.cfg, run[j], e)
    {
      ReturnedIsFinal(s.cfg, run[j], e);
    }
  }

  /**
   A normal completion drops nothing: every task ever queued for a node has succeeded, and no
   trigger channel and no fan-out task is left to plan.
   */
  lemma CompletionIsTotal(s: Start, run: seq<World>, events: seq<Event>, j: nat, n: NodeID)
    requires Runs(s, run, events) && j < |run| && run[j].place == Returned(Completed) && n != BLANK
    ensures Of(n, run[j].log.queued) == Of(n, run[j].log.succeeded)
    ensures run[j].available * s.cfg.triggers.Keys == {} && run[j].pending == []
  {
    RunInv(s, run, events, j);
    ReturnsQuiescent(s, run, events, j);
    ReturnNamesCause(s, run, events, j);
    assert AccountedFor(run[j], n);
  }

  // ----- No lost work -----

  lemma {:induction false} RealNodesCount(n: NodeID, ns: seq<NodeID>)
    ensures multiset(RealNodes(ns))[n] == if Real(n) then multiset(ns)[n] else 0
  {
    if ns != [] {
      RealNodesCount(n, ns[..|ns| - 1]);
      assert ns == ns[..|ns| - 1] + [ns[|ns| - 1]];
    }
  }

  lemma {:induction false} NodesCount(n: NodeID, ts: seq<Task>)
    ensures multiset(NodesOf(ts))[n] == |Of(n, ts)|
  {
    if ts == [] {
      assert NodesOf(ts) == [];
    } else {
      NodesCount(n, ts[1..]);
      assert NodesOf(ts) == [ts[0].node] + NodesOf(ts[1..]);
    }
  }

  lemma {:induction false} NoWaitingNodes(l: Loop, keys: seq<NodeID>)
    requires l.waiting == map[]
    ensures WaitingNodes(l, keys) == []
  {
    if keys != [] {
      NoWaitingNodes(l, keys[..|keys| - 1]);
    }
  }

  lemma {:induction false} UnseenCount(n: NodeID, seen: seq<NodeID>, triggered: seq<NodeID>)
    ensures multiset(Unseen(seen, triggered))[n] == if n in seen then 0 else multiset(triggered)[n]
  {
    if triggered != [] {
      UnseenCount(n, seen, triggered[..|triggered| - 1]);
      assert triggered == triggered[..|triggered| - 1] + [triggered[|triggered| - 1]];
    }
  }

  /** Tasks of n that are ready, or failed while an interrupt was draining. */
  ghost function Outstanding(l: Loop, n: NodeID): nat {
    |Of(n, l.ready)| + multiset(l.rerunNodes)[n]
  }

  /** The tasks outstanding for a node are listed once each. */
  lemma ListedCount(l: Loop, keys: seq<NodeID>, n: NodeID)
    requires l.waiting == map[] && Real(n)
    ensures multiset(RealNodes(NodesOf(l.ready) + WaitingNodes(l, keys) + l.rerunNodes))[n] == Outstanding(l, n)
  {
    var ready, waiting := NodesOf(l.ready), WaitingNodes(l, keys);
    NoWaitingNodes(l, keys);
    NodesCount(n, l.ready);
    RealNodesCount(n, ready + waiting + l.rerunNodes);
    assert multiset(ready + waiting + l.rerunNodes) == multiset(ready) + multiset(waiting) + multiset(l.rerunNodes);
  }

  /** How often the snapshot lists a node: once per outstanding task, else once if it is triggered. */
  lemma SnapshotCount(cfg: Config, w: World, keys: seq<NodeID>, triggered: seq<NodeID>, n: NodeID)
    requires w.loop.waiting == map[] && Lists(triggered, Triggered(cfg, w)) && Real(n)
    ensures multiset(SnapshotNextNodes(w.loop, keys, triggered))[n] ==
      if Outstanding(w.loop, n) > 0 then Outstanding(w.loop, n) else if n in Triggered(cfg, w) then 1 else 0
  {
    var outstanding := RealNodes(NodesOf(w.loop.ready) + WaitingNodes(w.loop, keys) + w.loop.rerunNodes);
    ListedCount(w.loop, keys, n);
    AddedCount(cfg, w, outstanding, triggered, n);
  }

  /** Each triggered node that is not listed yet is added once. */
  lemma AddedCount(cfg: Config, w: World, listed: seq<NodeID>, triggered: seq<NodeID>, n: NodeID)
    requires Lists(triggered, Triggered(cfg, w)) && Real(n)
    ensures var k := multiset(listed)[n];
      multiset(listed + RealNodes(Unseen(listed, triggered)))[n] ==
        if k > 0 then k else if n in Triggered(cfg, w) then 1 else 0
  {
    UnseenCount(n, listed, triggered);
    RealNodesCount(n, Unseen(listed, triggered));
    assert n in listed <==> n in multiset(listed);
  }

  /** At an interrupt return the recorded nodes list exactly the outstanding tasks and the triggered nodes. */
  lemma PauseIsExact(s: Start, run: seq<World>, events: seq<Event>, j: nat, n: NodeID)
    requires Runs(s, run, events) && j < |run| && run[j].place.Returned? && run[j].place.outcome.Paused? && Real(n)
    ensures var w, next := run[j], run[j].place.outcome.nextNodes;
      multiset(next)[n] ==
        if Outstanding(w.loop, n) > 0 then Outstanding(w.loop, n) else if n in Triggered(s.cfg, w) then 1 else 0
  {
    assert j > 0;
    var w, e := run[j - 1], events[j - 1];
    RunInv(s, run, events, j - 1);
    ReturnsQuiescent(s, run, events, j);
    assert StepAt(s.cfg, run, events, j - 1);
    if w.place.Returned? {
      ReturnedIsFinal(s.cfg, w, e);
    }
    PauseSnapshots(s.cfg, w, e);
    SnapshotCount(s.cfg, run[j], e.keys, e.triggered, n);
  }

  lemma OnlyFinalizeReturns(cfg: Config, w: World, e: Event)
    requires Enabled(cfg, w, e) && !w.place.Returned? && Apply(cfg, w, e).place.Returned?
    ensures e.Finalize?
  {
  }

  lemma PauseSnapshots(cfg: Config, w: World, e: Event)
    requires Enabled(cfg, w, e) && !w.place.Returned?
    requires Apply(cfg, w, e).place.Returned? && Apply(cfg, w, e).place.outcome.Paused?
    ensures e.Finalize? && Lists(e.triggered, Triggered(cfg, w)) &&
      Triggered(cfg, Apply(cfg, w, e)) == Triggered(cfg, w)
    ensures Apply(cfg, w, e).place.outcome.nextNodes == SnapshotNextNodes(Apply(cfg, w, e).loop, e.keys, e.triggered)
  {
    OnlyFinalizeReturns(cfg, w, e);
    FinalizeSnapshots(cfg, w, e.keys, e.triggered);
  }

  lemma FinalizeSnapshots(cfg: Config, w: World, keys: seq<NodeID>, triggered: seq<NodeID>)
    requires Enabled(cfg, w, Finalize(keys, triggered))
    ensures var w' := Apply(cfg, w, Finalize(keys, triggered));
      Triggered(cfg, w') == Triggered(cfg, w) &&
      (w'.place.Returned? && w'.place.outcome.Paused? ==>
         w'.place.outcome.nextNodes == SnapshotNextNodes(w'.loop, keys, triggered))
  {
  }

  /**
   No lost work: when an interrupt is finalized, the tasks ever queued for a real node are its
   successes, the raiser of the interrupt, and no more than the recorded next nodes list.
   */
  lemma NoLostWork(s: Start, run: seq<World>, events: seq<Event>, j: nat, n: NodeID)
    requires Runs(s, run, events) && j < |run| && run[j].place.Returned? && run[j].place.outcome.Paused? && Real(n)
    ensures var w, out := run[j], run[j].place.outcome;
      |Of(n, w.log.queued)| == |Of(n, w.log.succeeded)| + RaisedBy(out.cause, n) + Outstanding(w.loop, n) &&
      Outstanding(w.loop, n) <= multiset(out.nextNodes)[n]
  {
    RunInv(s, run, events, j);
    ReturnsQuiescent(s, run, events, j);
    ReturnNamesCause(s, run, events, j);
    PauseIsExact(s, run, events, j, n);
    assert AccountedFor(run[j], n) && RerunsCover(run[j].loop, run[j].log.failed, n);
  }

  lemma {:induction false} OfMember(n: NodeID, ts: seq<Task>, t: Task)
    ensures t in Of(n, ts) <==> t in ts && t.node == n
  {
    if ts != [] {
      OfMember(n, ts[1..], t);
    }
  }

  /** The same claim task by task: succeeded, raised the interrupt, or its node is to be run next. */
  lemma EveryTaskCovered(s: Start, run: seq<World>, events: seq<Event>, j: nat, t: Task)
    requires Runs(s, run, events) && j < |run| && run[j].place.Returned? && run[j].place.outcome.Paused?
    requires Real(t.node) && t in run[j].log.queued
    ensures var out := run[j].place.outcome;
      t in run[j].log.succeeded || out.cause == Raised(t) || t.node in out.nextNodes
  {
    var w, n, out := run[j], t.node, run[j].place.outcome;
    RunInv(s, run, events, j);
    ReturnsQuiescent(s, run, events, j);
    ReturnNamesCause(s, run, events, j);
    PauseIsExact(s, run, events, j, n);
    assert AccountedFor(w, n) && RerunsCover(w.loop, w.log.failed, n);
    OfMember(n, w.log.queued, t);
    OfMember(n, w.loop.ready, t);
    OfMember(n, w.log.succeeded, t);
    OfMember(n, w.log.failed, t);
    if out.cause.Raised? && out.cause != Raised(t) && t in w.log.failed && n == out.cause.task.node {
      OfMember(n, w.log.failed, out.cause.task);
      assert multiset{t, out.cause.task} <= Of(n, w.log.failed);
      var both := multiset{t, out.cause.task};
      assert |Of(n, w.log.failed)| == |both| + |Of(n, w.log.failed) - both|;
    }
  }

  // ----- Progress -----

  /** Once seed has queued a task, the loop never waits with nothing in flight. */
  lemma NeverWaitsIdle(s: Start, run: seq<World>, events: seq<Event>, j: nat)
    requires Runs(s, run, events) && Seeded(s) && j < |run| && run[j].place == Waiting
    ensures run[j].loop.inFlight != map[]
  {
    RunInv(s, run, events, j);
  }

  lemma {:induction false} SomeListing(s: set<NodeID>) returns (xs: seq<NodeID>)
    ensures Lists(xs, s)
  {
    xs := [];
    if s != {} {
      var x :| x in s;
      xs := SomeListing(s - {x});
      xs := xs + [x];
      assert multiset(s) == multiset(s - {x}) + multiset{x};
    }
  }

  lemma LoopCanMove(cfg: Config, w: World)
    requires Inv(cfg, w) && w.place != Waiting && !w.place.Returned?
    ensures exists e: Event :: Enabled(cfg, w, e) && !e.ContextDone?
  {
    match w.place {
      case Top => assert Enabled(cfg, w, PollExternal(false));
      case Starting => assert Enabled(cfg, w, StartNext(false)) || Enabled(cfg, w, StopStarting);
      case CheckingPlan => assert Enabled(cfg, w, DecidePlan);
      case Planning(todo, _, hit, _) =>
        if ch :| ch in todo {
          assert Enabled(cfg, w, Consume(ch));
        } else {
          var order := SomeListing(set n | n in hit && Creatable(cfg, n));
          assert Enabled(cfg, w, EndPlan(order));
        }
      case Finalizing =>
        var keys := SomeListing(w.loop.waiting.Keys);
        var triggered := SomeListing(Triggered(cfg, w));
        assert Enabled(cfg, w, Finalize(keys, triggered));
      case _ =>
    }
  }

  lemma GoroutineCanMove(cfg: Config, w: World, n: NodeID)
    requires Inv(cfg, w) && w.place == Waiting && n in w.workers
    ensures exists e: Event :: Enabled(cfg, w, e) && !e.ContextDone?
  {
    ListsMembers(w.done, Messages(w));
    if w.done != [] {
      assert w.done[0] in w.done;
      assert Enabled(cfg, w, Receive(false, false));
    } else {
      assert n !in Messages(w);
      match w.workers[n].stage {
        case Running => assert Enabled(cfg, w, Finish(n, Success));
        case Finished(_) =>
          assert n in Holding(w);
          assert Enabled(cfg, w, ReleaseSlot(n));
        case Released(_) => assert Enabled(cfg, w, Send(n));
        case Sent(_) => assert false;
      }
    }
  }

  /** No deadlock: until a seeded run returns, some step other than a cancellation is possible. */
  lemma NeverStuck(s: Start, run: seq<World>, events: seq<Event>, j: nat)
    requires Runs(s, run, events) && Seeded(s) && j < |run| && !run[j].place.Returned?
    ensures exists e: Event :: Enabled(s.cfg, run[j], e) && !e.ContextDone?
  {
    RunInv(s, run, events, j);
    if run[j].place == Waiting {
      NeverWaitsIdle(s, run, events, j);
      var n :| n in run[j].loop.inFlight;
      GoroutineCanMove(s.cfg, run[j], n);
    } else {
      LoopCanMove(s.cfg, run[j]);
    }
  }

  /** Before its first wait a run that was not seeded launches nothing. */
  ghost predicate NothingStarted(w: World) {
    w.loop.inFlight == map[] && w.workers == map[] && w.done == [] &&
    match w.place
    case Top => w.loop.ready == []
    case Starting => w.loop.ready == []
    case CheckingPlan => w.loop.ready == []
    case Planning(_, _, _, onResult) => !onResult
    case _ => true
  }

  lemma {:induction false} UnseededStartsNothing(s: Start, run: seq<World>, events: seq<Event>, j: nat)
    requires Runs(s, run, events) && !Seeded(s) && j < |run|
    requires forall i :: 0 <= i < j ==> run[i].place != Waiting
    ensures NothingStarted(run[j])
    decreases j
  {
    if j > 0 {
      UnseededStartsNothing(s, run, events, j - 1);
      RunInv(s, run, events, j - 1);
      assert StepAt(s.cfg, run, events, j - 1);
      NothingStartedKept(s.cfg, run[j - 1], events[j - 1]);
    }
  }

  lemma NothingStartedKept(cfg: Config, w: World, e: Event)
    requires Enabled(cfg, w, e) && NothingStarted(w) && w.place != Waiting
    ensures NothingStarted(Apply(cfg, w, e))
  {
    if e.Finalize? {
      FinalizeKeepsWork(w.loop, e.keys, e.triggered);
    }
  }

  /**
   The first time the loop waits, it waits for a task in flight if and only if seed queued one.
   Otherwise the planned tasks stay in the ready queue and only a cancellation can wake the loop.
   */
  lemma FirstWaitMakesProgressIff(s: Start, run: seq<World>, events: seq<Event>, j: nat)
    requires Runs(s, run, events) && j < |run| && run[j].place == Waiting
    requires forall i :: 0 <= i < j ==> run[i].place != Waiting
    ensures run[j].loop.inFlight != map[] <==> Seeded(s)
    ensures !Seeded(s) ==> forall e :: Enabled(s.cfg, run[j], e) ==> e.ContextDone?
  {
    if Seeded(s) {
      NeverWaitsIdle(s, run, events, j);
    } else {
      UnseededStartsNothing(s, run, events, j);
    }
  }

  // ----- A concrete run -----

  lemma {:induction false} ExtendRun(s: Start, run: seq<World>, events: seq<Event>, e: Event) returns (next: World)
    requires Runs(s, run, events) && Enabled(s.cfg, run[|run| - 1], e)
    ensures next == Apply(s.cfg, run[|run| - 1], e)
    ensures Runs(s, run + [next], events + [e])
  {
    next := Apply(s.cfg, run[|run| - 1], e);
    var run', events' := run + [next], events + [e];
    forall i | 0 <= i < |events'|
      ensures StepAt(s.cfg, run', events', i)
    {
      if i < |events| {
        assert StepAt(s.cfg, run, events, i);
      }
    }
  }

  /**
   A resumed run with no recorded next nodes and one available channel: the triggered task is
   planned after startReadyTasks, and the loop then waits with nothing in flight.
   */
  lemma ResumedRunStalls() returns (s: Start, run: seq<World>, events: seq<Event>)
    ensures Runs(s, run, events)
    ensures var w := run[|run| - 1];
      w.place == Waiting && w.loop.inFlight == map[] && |w.loop.ready| == 1 && w.loop.ready[0].node == 2
  {
    var cfg := Config({2}, map[5 := {2}], 2, 0, 10, 1);
    s := Start(cfg, [], true);
    var seeds: seq<Task> := [];
    var w := World(Loop(0, 0, seeds, map[], map[], false, None, false, None, false, []),
                   Top, 0, [], map[], {5}, [], 7, Log(seeds, [], [], []));
    assert TasksFor(CreatableOf(cfg, SeedNodes(cfg, [], true)), 0) == seeds;
    run, events := [w], [];
    w := ExtendRun(s, run, events, PollExternal(false));
    run, events := run + [w], events + [PollExternal(false)];
    w := ExtendRun(s, run, events, StopStarting);
    run, events := run + [w], events + [StopStarting];
    w := ExtendRun(s, run, events, DecidePlan);
    run, events := run + [w], events + [DecidePlan];
    run, events := StallAfterPlanning(s, run, events);
  }

  /** With nothing in flight, planning queues the triggered task and the loop goes to wait. */
  lemma StallAfterPlanning(s: Start, before: seq<World>, past: seq<Event>) returns (run: seq<World>, events: seq<Event>)
    requires Runs(s, before, past) && s.cfg == Config({2}, map[5 := {2}], 2, 0, 10, 1)
    requires var w := before[|before| - 1];
      w.loop.ready == [] && w.loop.inFlight == map[] && w.loop.pendingIntr.None? && !w.loop.draining &&
      !w.loop.pauseRequested && w.loop.waiting == map[] && w.available == {5} && w.place == Planning({5}, [], {}, false)
    ensures Runs(s, run, events)
    ensures var w := run[|run| - 1];
      w.place == Waiting && w.loop.inFlight == map[] && |w.loop.ready| == 1 && w.loop.ready[0].node == 2
  {
    run, events := before, past;
    var w := ExtendRun(s, run, events, Consume(5));
    run, events := run + [w], events + [Consume(5)];
    assert w.place.hit == {2} && w.place.todo == {};
    assert (set n | n in w.place.hit && Creatable(s.cfg, n)) == {2};
    w := ExtendRun(s, run, events, EndPlan([2]));
    run, events := run + [w], events + [EndPlan([2])];
    run, events := WaitWithoutTrigger(s, run, events);
  }

  /** When no channel is available and no reason to stop, a loop with something ready goes on to wait. */
  lemma WaitWithoutTrigger(s: Start, before: seq<World>, past: seq<Event>) returns (run: seq<World>, events: seq<Event>)
    requires Runs(s, before, past)
    requires var w := before[|before| - 1];
      w.place == Finalizing && w.available == {} && w.loop.waiting == map[] && w.loop.pendingIntr.None? &&
      !w.loop.draining && !w.loop.pauseRequested && (w.loop.ready != [] || w.loop.inFlight != map[])
    ensures Runs(s, run, events) && run[|run| - 1] == before[|before| - 1].(place := Waiting)
  {
    var w := before[|before| - 1];
    assert w.loop.waiting.Keys == {} && Triggered(s.cfg, w) == {};
    w := ExtendRun(s, before, past, Finalize([], []));
    run, events := before + [w], past + [Finalize([], [])];
  }
}
