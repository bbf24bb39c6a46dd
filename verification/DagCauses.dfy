/**
 Which event ends a run, and how (graph/executor_dag.go:180-205, 234-259, 335-469, 599-630): for
 each event the outcome that it fixes when it is the first to stop the loop, in terms of what the
 event is about, and the proof that every run returns the outcome its first stopping event fixed.
 */
module DagCauses {
  import opened Prelude
  import opened DagLoopState
  import opened DagScheduler
  import opened DagInvariant
  import opened DagTheorems
  import opened DagPlanning

  /** How a run ends that was stopped: paused with this cause, aborted with this error, or out of steps. */
  datatype Ending = Pauses(cause: Interrupt) | Aborts(error: DrainError) | RunsOut

  /**
   What event e stops a loop for that is not stopping yet. A failed task aborts the run unless it
   raised an interrupt or the interruption is forced from outside; a success can meet a static
   interrupt behind its node, and the head of the queue one before it. The head can also find a
   slot but no step left. An external request takes effect once nothing is in flight.
   */
  function StopsFor(cfg: Config, w: World, e: Event): Option<Ending>
    requires Enabled(cfg, w, e)
  {
    match e
    case Receive(after, forced) =>
      var worker := w.workers[w.done[0]];
      (match worker.stage.verdict
       case Success => if after then Some(Pauses(StaticAfter(worker.task))) else None
       case Interrupts => Some(Pauses(if forced then External(true) else Raised(worker.task)))
       case Fails => Some(if forced then Pauses(External(true)) else Aborts(TaskFailed(worker.task))))
    case ContextDone(forced) => Some(if forced then Pauses(External(true)) else Aborts(ContextCancelled))
    case StartNext(before) =>
      var t := w.loop.ready[0];
      if t.node == BLANK || t.node in w.loop.inFlight then None
      else if before then Some(Pauses(StaticBefore(t)))
      else if w.held < cfg.maxConcurrency && w.loop.nextStep >= cfg.maxSteps then Some(RunsOut)
      else None
    case Finalize(_, _) =>
      if w.loop.pauseRequested && w.loop.inFlight == map[] then Some(Pauses(External(false))) else None
    case _ => None
  }

  /** The outcome agrees with the ending. */
  predicate Ends(outcome: Outcome, ending: Ending) {
    match ending
    case Pauses(cause) => outcome.Paused? && outcome.cause == cause
    case Aborts(error) => outcome == Aborted(error)
    case RunsOut => outcome == StepsExhausted
  }

  /** The fields that fix this ending. */
  ghost predicate Fixed(l: Loop, ending: Ending) {
    l.draining && l.drainMaxStep == ending.RunsOut? &&
    match ending
    case Pauses(cause) => l.pendingIntr == Some(cause) && l.drainErr == Some(Interrupted(cause))
    case Aborts(error) => l.pendingIntr.None? && l.drainErr == Some(error) && !error.Interrupted?
    case RunsOut => l.pendingIntr.None? && l.drainErr.None?
  }

  lemma ResultStops(l: Loop, failed: seq<Task>, t: Task, verdict: Verdict, after: bool, forced: bool)
    requires DrainOk(l, failed) && !l.draining
    ensures var m := DagLoopState.HandleTaskResult(l, t, verdict, after, forced).0;
      match verdict
      case Success => if after then Fixed(m, Pauses(StaticAfter(t))) else !m.draining
      case Interrupts => Fixed(m, Pauses(if forced then External(true) else Raised(t)))
      case Fails => Fixed(m, if forced then Pauses(External(true)) else Aborts(TaskFailed(t)))
  {
  }

  lemma HeadStops(cfg: Config, w: World, before: bool)
    requires Enabled(cfg, w, StartNext(before)) && DrainOk(w.loop, w.log.failed) && !w.loop.draining
    ensures var (m, cause) := (Apply(cfg, w, StartNext(before)).loop, StopsFor(cfg, w, StartNext(before)));
      if cause.Some? then Fixed(m, cause.value) else !m.draining
  {
  }

  lemma FinalizeStops(l: Loop, failed: seq<Task>, keys: seq<NodeID>, triggered: seq<NodeID>)
    requires DrainOk(l, failed) && !l.draining
    ensures var m := DagLoopState.TryFinalize(l, keys, triggered).0;
      if l.pauseRequested && l.inFlight == map[] then Fixed(m, Pauses(External(false))) else !m.draining
  {
  }

  /** A step stops the loop if and only if it has something to stop it for, which it then fixes. */
  lemma StepStopsIff(cfg: Config, w: World, e: Event)
    requires DrainOk(w.loop, w.log.failed) && !w.loop.draining && Enabled(cfg, w, e)
    ensures var (m, cause) := (Apply(cfg, w, e).loop, StopsFor(cfg, w, e));
      (m.draining <==> cause.Some?) && (cause.Some? ==> Fixed(m, cause.value))
  {
    match e
    case Receive(after, forced) =>
      var worker := w.workers[w.done[0]];
      ResultStops(w.loop, w.log.failed, worker.task, worker.stage.verdict, after, forced);
    case StartNext(before) => HeadStops(cfg, w, before);
    case Finalize(keys, triggered) => FinalizeStops(w.loop, w.log.failed, keys, triggered);
    case _ =>
  }

  /**
   The first event that has something to stop the loop for decides how the run ends, whatever
   happens afterwards: every return is a pause with that cause, an abort with that error, or the
   end of the steps.
   */
  lemma FirstStopDecides(s: Start, run: seq<World>, events: seq<Event>, i: nat, j: nat)
    requires Runs(s, run, events) && i < |events| && i < j < |run| && run[j].place.Returned?
    requires Enabled(s.cfg, run[i], events[i]) && !run[i].loop.draining && StopsFor(s.cfg, run[i], events[i]).Some?
    ensures Ends(run[j].place.outcome, StopsFor(s.cfg, run[i], events[i]).value)
  {
    RunInv(s, run, events, i);
    assert StepAt(s.cfg, run, events, i);
    StepStopsIff(s.cfg, run[i], events[i]);
    DrainIsFinal(s, run, events, i + 1, j);
    ReturnNamesCause(s, run, events, j);
  }

  /** An interrupt raised by a task pauses the run. */
  lemma RaisedInterruptPauses(s: Start, run: seq<World>, events: seq<Event>, i: nat, j: nat)
    requires Runs(s, run, events) && i < |events| && i < j < |run| && run[j].place.Returned?
    requires events[i].Receive? && !events[i].forced && !run[i].loop.draining
    requires var w := run[i];
      w.done != [] && w.done[0] in w.workers && w.workers[w.done[0]].stage == Sent(Interrupts)
    ensures run[j].place.outcome.Paused? && run[j].place.outcome.cause == Raised(run[i].workers[run[i].done[0]].task)
  {
    assert StepAt(s.cfg, run, events, i);
    FirstStopDecides(s, run, events, i, j);
  }

  /** Nothing up to step j had anything to stop the loop for. */
  ghost predicate Unstopped(s: Start, run: seq<World>, events: seq<Event>, j: nat)
    requires |run| == |events| + 1 && j < |run|
  {
    forall i :: 0 <= i < j ==> Enabled(s.cfg, run[i], events[i]) && StopsFor(s.cfg, run[i], events[i]).None?
  }

  lemma {:induction false} UnstoppedGoesOn(s: Start, run: seq<World>, events: seq<Event>, j: nat)
    requires Runs(s, run, events) && j < |run| && Unstopped(s, run, events, j)
    ensures !run[j].loop.draining
    decreases j
  {
    if j > 0 {
      UnstoppedGoesOn(s, run, events, j - 1);
      RunInv(s, run, events, j - 1);
      assert StepAt(s.cfg, run, events, j - 1);
      StepStopsIff(s.cfg, run[j - 1], events[j - 1]);
    }
  }

  /** A run returns a normal completion if and only if nothing stopped it. */
  lemma CompletesIffUnstopped(s: Start, run: seq<World>, events: seq<Event>, j: nat)
    requires Runs(s, run, events) && j < |run| && run[j].place.Returned?
    ensures run[j].place.outcome == Completed <==> Unstopped(s, run, events, j)
  {
    ReturnNamesCause(s, run, events, j);
    if Unstopped(s, run, events, j) {
      UnstoppedGoesOn(s, run, events, j);
    } else {
      var i := FirstStop(s, run, events, j);
      FirstStopDecides(s, run, events, i, j);
    }
  }

  /** A run that was stopped has a first stopping event, before which it was not stopping. */
  lemma {:induction false} FirstStop(s: Start, run: seq<World>, events: seq<Event>, j: nat) returns (i: nat)
    requires Runs(s, run, events) && j < |run| && !Unstopped(s, run, events, j)
    ensures i < j && Unstopped(s, run, events, i) && !run[i].loop.draining
    ensures Enabled(s.cfg, run[i], events[i]) && StopsFor(s.cfg, run[i], events[i]).Some?
    decreases j
  {
    assert StepAt(s.cfg, run, events, j - 1);
    if Unstopped(s, run, events, j - 1) {
      UnstoppedGoesOn(s, run, events, j - 1);
      i := j - 1;
    } else {
      i := FirstStop(s, run, events, j - 1);
    }
  }

  // ----- Requests from outside -----

  /** A request from outside is noted exactly when there is one and the loop is not stopping, and never forgotten. */
  lemma RequestIsNotedIff(s: Start, run: seq<World>, events: seq<Event>, i: nat)
    requires Runs(s, run, events) && i < |events|
    ensures run[i + 1].loop.pauseRequested <==>
      run[i].loop.pauseRequested || (events[i] == PollExternal(true) && !run[i].loop.draining)
  {
    assert StepAt(s.cfg, run, events, i);
    RunInv(s, run, events, i);
    RequestStep(s.cfg, run[i], events[i]);
  }

  lemma ResultKeepsRequest(l: Loop, t: Task, verdict: Verdict, after: bool, forced: bool)
    ensures DagLoopState.HandleTaskResult(l, t, verdict, after, forced).0.pauseRequested == l.pauseRequested
  {
  }

  lemma FinalizeKeepsRequest(l: Loop, keys: seq<NodeID>, triggered: seq<NodeID>)
    ensures DagLoopState.TryFinalize(l, keys, triggered).0.pauseRequested == l.pauseRequested
  {
  }

  lemma StartKeepsRequest(l: Loop, maxSteps: int, before: bool, free: bool)
    requires l.ready != []
    ensures StartHead(l, maxSteps, before, free).0.pauseRequested == l.pauseRequested
  {
  }

  lemma RequestStep(cfg: Config, w: World, e: Event)
    requires Enabled(cfg, w, e)
    ensures Apply(cfg, w, e).loop.pauseRequested <==>
      w.loop.pauseRequested || (e == PollExternal(true) && !w.loop.draining)
  {
    match e
    case Receive(after, forced) =>
      ResultKeepsRequest(w.loop, w.workers[w.done[0]].task, w.workers[w.done[0]].stage.verdict, after, forced);
    case Finalize(keys, triggered) => FinalizeKeepsRequest(w.loop, keys, triggered);
    case StartNext(before) => StartKeepsRequest(w.loop, cfg.maxSteps, before, w.held < cfg.maxConcurrency);
    case _ =>
  }

  lemma PausingLaunchesNothing(cfg: Config, w: World, e: Event)
    requires Enabled(cfg, w, e) && w.loop.pauseRequested
    ensures Apply(cfg, w, e).loop.pauseRequested && Apply(cfg, w, e).log.launched == w.log.launched
  {
    RequestStep(cfg, w, e);
    if Apply(cfg, w, e).log.launched != w.log.launched {
      LaunchesOnlyOnStart(cfg, w, e);
    }
  }

  lemma RequestGoesOn(s: Start, run: seq<World>, events: seq<Event>, k: nat)
    requires Runs(s, run, events) && k < |events| && run[k].loop.pauseRequested
    ensures run[k + 1].loop.pauseRequested && run[k + 1].log.launched == run[k].log.launched
  {
    assert StepAt(s.cfg, run, events, k);
    PausingLaunchesNothing(s.cfg, run[k], events[k]);
  }

  /** A request from outside is honoured: once it is noted nothing is launched any more. */
  lemma {:induction false} RequestIsHonoured(s: Start, run: seq<World>, events: seq<Event>, i: nat, j: nat)
    requires Runs(s, run, events) && i <= j < |run| && run[i].loop.pauseRequested
    ensures run[j].loop.pauseRequested && run[j].log.launched == run[i].log.launched
    decreases j
  {
    if i < j {
      RequestIsHonoured(s, run, events, i, j - 1);
      RequestGoesOn(s, run, events, j - 1);
    }
  }

  /** A run with a request does not complete: it pauses for it, unless something else stops the loop before. */
  lemma RequestedRunPauses(s: Start, run: seq<World>, events: seq<Event>, i: nat, j: nat)
    requires Runs(s, run, events) && i <= j < |run| && run[i].loop.pauseRequested && run[j].place.Returned?
    ensures run[j].place.outcome != Completed
    ensures (run[j].place.outcome.Paused? && run[j].place.outcome.cause == External(false)) ||
      exists k :: 0 <= k < j && !run[k].loop.draining && Enabled(s.cfg, run[k], events[k]) && !events[k].Finalize? &&
        StopsFor(s.cfg, run[k], events[k]).Some?
  {
    RequestIsHonoured(s, run, events, i, j);
    RunInv(s, run, events, j);
    ReturnNamesCause(s, run, events, j);
    if Unstopped(s, run, events, j) {
      UnstoppedGoesOn(s, run, events, j);
      UnrequestedCompletion(s, run, events, j);
    } else {
      var k := FirstStop(s, run, events, j);
      FirstStopDecides(s, run, events, k, j);
    }
  }

  /** A loop for which a pause is requested does not complete. */
  lemma UnrequestedCompletion(s: Start, run: seq<World>, events: seq<Event>, j: nat)
    requires Runs(s, run, events) && j < |run| && run[j].place.Returned? && run[j].place.outcome == Completed
    ensures !run[j].loop.pauseRequested
  {
    assert j > 0 && StepAt(s.cfg, run, events, j - 1);
    RunInv(s, run, events, j - 1);
    var w, e := run[j - 1], events[j - 1];
    if w.place.Returned? {
      ReturnedIsFinal(s.cfg, w, e);
    }
    OnlyFinalizeReturns(s.cfg, w, e);
    CompletionIsUnrequested(w.loop, e.keys, e.triggered);
  }

  lemma CompletionIsUnrequested(l: Loop, keys: seq<NodeID>, triggered: seq<NodeID>)
    requires DagLoopState.TryFinalize(l, keys, triggered).1 == Some(Completed)
    ensures !l.pauseRequested && DagLoopState.TryFinalize(l, keys, triggered).0 == l
  {
  }

  // ----- The first of several stops, and the whole snapshot -----

  /** The stopping steps keep what stopped the loop first, whenever they come. */
  lemma FirstStopIsKept(l: Loop, error: DrainError, cause: Interrupt)
    ensures DagLoopState.StartDraining(l, error) ==
      if l.draining then l else l.(draining := true, drainErr := Some(error))
    ensures DagLoopState.StartDrainingMaxStep(l) == if l.draining then l else l.(draining := true, drainMaxStep := true)
    ensures var m := DagLoopState.StartDrainingInterrupt(l, cause);
      m.draining && m.pendingIntr == (if l.pendingIntr.Some? then l.pendingIntr else Some(cause)) &&
      m.drainErr == (if l.draining then l.drainErr else Some(Interrupted(cause))) && m.drainMaxStep == l.drainMaxStep
  {
  }

  /** A result of a blank node frees nothing. */
  lemma BlankLandsNothing(l: Loop, uid: nat)
    ensures DagLoopState.HandleTaskResult(l, Task(BLANK, uid), Success, false, false).0 ==
      l.(executed := l.executed + 1)
  {
  }

  lemma CopiesCount(m: NodeID, k: nat, n: NodeID)
    ensures multiset(Copies(m, k))[n] == if n == m then k else 0
  {
    if k > 0 {
      CopiesCount(m, k - 1, n);
      assert Copies(m, k) == Copies(m, k - 1) + [m];
    } else {
      assert Copies(m, 0) == [];
    }
  }

  /** Every waiting task is listed as often as its node is among the keys. */
  lemma {:induction false} WaitingCount(l: Loop, keys: seq<NodeID>, n: NodeID)
    requires forall i, j :: 0 <= i < j < |keys| ==> keys[i] != keys[j]
    ensures multiset(WaitingNodes(l, keys))[n] == if n in keys then |WaitingAt(l, n)| else 0
  {
    if keys != [] {
      var k := |keys| - 1;
      var front, copies := keys[..k], Copies(keys[k], |WaitingAt(l, keys[k])|);
      WaitingCount(l, front, n);
      CopiesCount(keys[k], |WaitingAt(l, keys[k])|, n);
      assert keys == front + [keys[k]];
      SumCount(WaitingNodes(l, front), copies, n);
    }
  }

  lemma SumCount(a: seq<NodeID>, b: seq<NodeID>, n: NodeID)
    ensures multiset(a + b)[n] == multiset(a)[n] + multiset(b)[n]
  {
    assert multiset(a + b) == multiset(a) + multiset(b);
  }

  /** All the tasks of a real node that are ready, waiting or to be rerun. */
  ghost function AllTasks(l: Loop, n: NodeID): nat {
    |Of(n, l.ready)| + |WaitingAt(l, n)| + multiset(l.rerunNodes)[n]
  }

  lemma AllTasksListed(l: Loop, keys: seq<NodeID>, n: NodeID)
    requires Lists(keys, l.waiting.Keys) && Real(n)
    ensures multiset(RealNodes(NodesOf(l.ready) + WaitingNodes(l, keys) + l.rerunNodes))[n] == AllTasks(l, n)
  {
    var ready, waiting := NodesOf(l.ready), WaitingNodes(l, keys);
    ListsMembers(keys, l.waiting.Keys);
    ListsOnce(keys, l.waiting.Keys);
    WaitingCount(l, keys, n);
    NodesCount(n, l.ready);
    RealNodesCount(n, ready + waiting + l.rerunNodes);
    SumCount(ready + waiting, l.rerunNodes, n);
    SumCount(ready, waiting, n);
  }

  lemma UnseenAdded(listed: seq<NodeID>, triggered: seq<NodeID>, n: NodeID)
    requires Real(n)
    ensures var k := multiset(listed)[n];
      multiset(listed + RealNodes(Unseen(listed, triggered)))[n] == if k > 0 then k else multiset(triggered)[n]
  {
    UnseenCount(n, listed, triggered);
    RealNodesCount(n, Unseen(listed, triggered));
    SumCount(listed, RealNodes(Unseen(listed, triggered)), n);
    assert n in listed <==> n in multiset(listed);
  }

  /** The snapshot lists every real node once for each of its tasks, or as often as it is triggered when it has none. */
  lemma SnapshotListsAllTasks(l: Loop, keys: seq<NodeID>, triggered: seq<NodeID>, n: NodeID)
    requires Lists(keys, l.waiting.Keys) && Real(n)
    ensures multiset(SnapshotNextNodes(l, keys, triggered))[n] ==
      if AllTasks(l, n) > 0 then AllTasks(l, n) else multiset(triggered)[n]
  {
    AllTasksListed(l, keys, n);
    UnseenAdded(RealNodes(NodesOf(l.ready) + WaitingNodes(l, keys) + l.rerunNodes), triggered, n);
  }
}
