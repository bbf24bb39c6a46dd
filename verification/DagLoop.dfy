/**
 The scheduler loop as code (graph/executor_dag.go:123-597): an object whose methods update
 the loop's fields in place while goroutines interfere between any two of its steps. Every
 step it takes is recorded as an event of the machine in DagScheduler, so whatever it does is
 one of the runs that DagTheorems speaks about.
 */
module DagLoopObject {
  import opened Prelude
  import opened DagLoopState
  import opened DagScheduler
  import opened DagInvariant
  import opened DagTheorems

  method ListSet(s: set<NodeID>) returns (xs: seq<NodeID>)
    ensures Lists(xs, s)
  {
    xs := [];
    var rest := s;
    while rest != {}
      invariant rest <= s && Lists(xs, s - rest)
      decreases rest
    {
      var x :| x in rest;
      assert multiset(s - (rest - {x})) == multiset(s - rest) + multiset{x};
      xs, rest := xs + [x], rest - {x};
    }
  }

  lemma {:induction false} RealNodesConcat(a: seq<NodeID>, b: seq<NodeID>)
    ensures RealNodes(a + b) == RealNodes(a) + RealNodes(b)
  {
    if b == [] {
      assert a + b == a;
    } else {
      RealNodesConcat(a, b[..|b| - 1]);
      assert (a + b)[..|a + b| - 1] == a + b[..|b| - 1];
    }
  }

  lemma {:induction false} UnseenSkipsListed(seen: seq<NodeID>, triggered: seq<NodeID>, k: nat)
    requires k < |triggered|
    ensures RealNodes(Unseen(seen, triggered[..k + 1])) ==
      RealNodes(Unseen(seen, triggered[..k])) +
      (if triggered[k] in seen || !Real(triggered[k]) then [] else [triggered[k]])
  {
    assert triggered[..k + 1][..k] == triggered[..k];
    RealNodesConcat(Unseen(seen, triggered[..k]), if triggered[k] in seen then [] else [triggered[k]]);
  }

  lemma WaitingOneMore(l: Loop, keys: seq<NodeID>, i: nat)
    requires i < |keys|
    ensures RealNodes(WaitingNodes(l, keys[..i + 1])) ==
      RealNodes(WaitingNodes(l, keys[..i])) + RealNodes(Copies(keys[i], |WaitingAt(l, keys[i])|))
  {
    assert keys[..i + 1][..i] == keys[..i];
    RealNodesConcat(WaitingNodes(l, keys[..i]), Copies(keys[i], |WaitingAt(l, keys[i])|));
  }

  lemma HolderCounted(s: Start, run: seq<World>, events: seq<Event>, n: NodeID)
    requires Runs(s, run, events) && n in Holding(run[|run| - 1])
    ensures run[|run| - 1].held > 0
  {
    RunInv(s, run, events, |run| - 1);
  }

  /** The oldest message comes from a goroutine that has sent its result. */
  lemma MessageHasSender(s: Start, run: seq<World>, events: seq<Event>)
    requires Runs(s, run, events) && run[|run| - 1].done != []
    ensures var w := run[|run| - 1]; w.done[0] in w.workers && w.workers[w.done[0]].stage.Sent?
  {
    RunInv(s, run, events, |run| - 1);
    var w := run[|run| - 1];
    ListsMembers(w.done, Messages(w));
    assert w.done[0] in w.done;
  }

  lemma RoomForOne(s: Start, run: seq<World>, events: seq<Event>)
    requires Runs(s, run, events)
    ensures s.cfg.maxConcurrency > 0
  {
    RunInv(s, run, events, |run| - 1);
  }

  method AppendNodes(out: seq<NodeID>, ns: seq<NodeID>) returns (longer: seq<NodeID>)
    ensures longer == out + RealNodes(ns)
  {
    longer := out;
    for i := 0 to |ns|
      invariant longer == out + RealNodes(ns[..i])
    {
      assert ns[..i + 1][..i] == ns[..i];
      if Real(ns[i]) {
        longer := longer + [ns[i]];
      }
    }
    assert ns[..|ns|] == ns;
  }

  class DagLoop {
    const cfg: Config

    // The fields of dagLoop.
    var executed: nat
    var nextStep: int
    var ready: seq<Task>
    var inFlight: map<NodeID, Task>
    var waiting: map<NodeID, seq<Task>>
    var draining: bool
    var drainErr: Option<DrainError>
    var drainMaxStep: bool
    var pendingIntr: Option<Interrupt>
    var pauseRequested: bool
    var rerunNodes: seq<NodeID>

    // What it shares with the task goroutines.
    var held: nat
    var done: seq<NodeID>
    var workers: map<NodeID, Worker>
    var available: set<Channel>
    var pending: seq<Task>
    var nextUid: nat

    // The run this object has made so far.
    ghost const start: Start
    ghost var place: Place
    ghost var log: Log
    ghost var run: seq<World>
    ghost var events: seq<Event>

    function LoopState(): Loop
      reads `executed, `nextStep, `ready, `inFlight, `waiting, `draining, `drainErr, `drainMaxStep
      reads `pendingIntr, `pauseRequested, `rerunNodes
    {
      Loop(executed, nextStep, ready, inFlight, waiting, draining, drainErr, drainMaxStep, pendingIntr,
           pauseRequested, rerunNodes)
    }

    ghost function State(): World
      reads this
    {
      World(LoopState(), place, held, done, workers, available, pending, nextUid, log)
    }

    ghost predicate Valid()
      reads this
    {
      cfg == start.cfg && Runs(start, run, events) && run[|run| - 1] == State()
    }

    /** newDagLoop and seed, over the channels and fan-out tasks the execution starts with. */
    constructor (cfg: Config, nextNodes: seq<NodeID>, resumed: bool, available: set<Channel>, pending: seq<Task>,
                 nextUid: nat)
      requires cfg.maxConcurrency > 0
      ensures Valid() && this.cfg == cfg && start == Start(cfg, nextNodes, resumed) && place == Top
      ensures ready == TasksFor(CreatableOf(cfg, SeedNodes(cfg, nextNodes, resumed)), 0)
    {
      this.cfg := cfg;
      this.start := Start(cfg, nextNodes, resumed);
      this.executed, this.nextStep := 0, cfg.startStep;
      var seeds := TasksFor(CreatableOf(cfg, SeedNodes(cfg, nextNodes, resumed)), 0);
      this.ready, this.inFlight, this.waiting := seeds, map[], map[];
      this.draining, this.drainErr, this.drainMaxStep := false, None, false;
      this.pendingIntr, this.pauseRequested, this.rerunNodes := None, false, [];
      this.held, this.done, this.workers := 0, [], map[];
      this.available, this.pending, this.nextUid := available, pending, nextUid;
      this.place, this.log := Top, Log(seeds, [], [], []);
      new;
      run, events := [State()], [];
    }

    /** Records that the fields have just moved from `before` to the present by event e. */
    ghost method Record(before: World, e: Event)
      requires At(before)
      requires Enabled(cfg, before, e) && State() == Apply(cfg, before, e)
      modifies this`run, this`events
      ensures Valid() && State() == old(State()) && Follows(before, e) && GoesOn()
    {
      var next := ExtendRun(start, run, events, e);
      run, events := run + [next], events + [e];
    }

    /** The last step of the run was event e, from the world `before`. */
    ghost predicate Follows(before: World, e: Event)
      reads this
    {
      |events| > 0 && |run| == |events| + 1 && events[|events| - 1] == e && run[|run| - 2] == before
    }

    lemma LastStep(before: World, e: Event)
      requires Valid() && Follows(before, e)
      ensures Enabled(cfg, before, e) && State() == Apply(cfg, before, e)
    {
      assert StepAt(cfg, run, events, |events| - 1);
    }

    ghost predicate At(before: World)
      reads this
    {
      cfg == start.cfg && Runs(start, run, events) && run[|run| - 1] == before
    }

    ghost method RecordStart(before: World, interruptBefore: bool, started: StartResult)
      requires At(before) && before.place == Starting && !before.loop.draining && !before.loop.pauseRequested &&
        before.loop.ready != []
      requires (LoopState(), started) ==
        StartHead(before.loop, cfg.maxSteps, interruptBefore, before.held < cfg.maxConcurrency)
      requires done == before.done && available == before.available && pending == before.pending &&
        nextUid == before.nextUid
      requires place == if started.Refused? then CheckingPlan else Starting
      requires var t := before.loop.ready[0];
        if started.Launched? then
          held == before.held + 1 && workers == before.workers[t.node := Worker(t, Running)] &&
          log == before.log.(launched := before.log.launched + [(t, started.step)])
        else held == before.held && workers == before.workers && log == before.log
      modifies this`run, this`events
      ensures Valid() && State() == old(State()) && Follows(before, StartNext(interruptBefore)) && GoesOn()
    {
      assert State() == Started(before, LoopState(), started);
      Record(before, StartNext(interruptBefore));
    }

    ghost method RecordQueued(before: World, order: seq<NodeID>)
      requires At(before) && before.place.Planning? && before.place.todo == {}
      requires Lists(order, set n | n in before.place.hit && Creatable(cfg, n))
      requires var tasks := before.place.got + TasksFor(order, before.nextUid);
        LoopState() == before.loop.(ready := before.loop.ready + tasks) &&
        log == before.log.(queued := before.log.queued + tasks)
      requires place == if before.place.onResult then Top else Finalizing
      requires nextUid == before.nextUid + |order|
      requires held == before.held && done == before.done && workers == before.workers
      requires available == before.available && pending == before.pending
      modifies this`run, this`events
      ensures Valid() && State() == old(State()) && Follows(before, EndPlan(order)) && GoesOn()
    {
      Record(before, EndPlan(order));
    }

    ghost method RecordResult(before: World, interruptAfter: bool, forced: bool, plan: bool)
      requires At(before) && before.place == Waiting && before.done != [] &&
               before.done[0] in before.workers && before.workers[before.done[0]].stage.Sent?
      requires var n := before.done[0];
        var t, verdict := before.workers[n].task, before.workers[n].stage.verdict;
        (LoopState(), plan) == DagLoopState.HandleTaskResult(before.loop, t, verdict, interruptAfter, forced) &&
        log == (if verdict == Success then before.log.(succeeded := before.log.succeeded + [t])
                else before.log.(failed := before.log.failed + [t])) &&
        done == before.done[1..] && workers == before.workers - {n} &&
        place == (if plan then Planning(cfg.triggers.Keys, before.pending, {}, true) else Top) &&
        pending == (if plan then [] else before.pending)
      requires held == before.held && available == before.available && nextUid == before.nextUid
      modifies this`run, this`events
      ensures Valid() && State() == old(State()) && Follows(before, Receive(interruptAfter, forced)) && GoesOn()
    {
      assert State() == Received(cfg, before, before.done[0], LoopState(), plan);
      Record(before, Receive(interruptAfter, forced));
    }

    ghost method RecordFinalize(before: World, keys: seq<NodeID>, triggered: seq<NodeID>, outcome: Option<Outcome>)
      requires At(before) && before.place == Finalizing
      requires Lists(keys, before.loop.waiting.Keys) && Lists(triggered, Triggered(cfg, before))
      requires (LoopState(), outcome) == DagLoopState.TryFinalize(before.loop, keys, triggered)
      requires State() ==
        before.(loop := LoopState(), place := if outcome.Some? then Returned(outcome.value) else Waiting)
      modifies this`run, this`events
      ensures Valid() && State() == old(State()) && Follows(before, Finalize(keys, triggered)) && GoesOn()
    {
      Record(before, Finalize(keys, triggered));
    }

    /** The recorded run goes on from where it was. */
    twostate predicate GoesOn()
      reads this
    {
      old(run) <= run && old(events) <= events
    }

    /** The part of the state that only the loop goroutine writes. */
    twostate predicate LoopUntouched()
      reads this
    {
      LoopState() == old(LoopState()) && place == old(place) && log == old(log)
    }

    // ----- Goroutine steps -----

    /** A running task writes a channel, issues a fan-out command, or just goes on. */
    method RunTask(n: NodeID)
      requires Valid() && n in workers && workers[n].stage.Running?
      modifies this
      ensures Valid() && GoesOn() && LoopUntouched() && workers == old(workers) && done == old(done) &&
        held == old(held)
    {
      ghost var before := State();
      if {
        case true =>
          var ch: Channel :| ch >= 0;
          available := available + {ch};
          Record(before, Write(n, ch));
        case true =>
          var target: NodeID :| target >= 0;
          pending, nextUid := pending + [Task(target, nextUid)], nextUid + 1;
          Record(before, FanOut(n, target));
        case true =>
      }
    }

    method FinishTask(n: NodeID)
      requires Valid() && n in workers && workers[n].stage.Running?
      modifies this
      ensures Valid() && GoesOn() && LoopUntouched() && workers.Keys == old(workers.Keys) && done == old(done)
      ensures workers[n].stage.Finished?
    {
      ghost var before := State();
      var verdict: Verdict := *;
      workers := workers[n := workers[n].(stage := Finished(verdict))];
      Record(before, Finish(n, verdict));
    }

    method ReleaseWorker(n: NodeID)
      requires Valid() && n in workers && workers[n].stage.Finished?
      modifies this
      ensures Valid() && GoesOn() && LoopUntouched() && workers.Keys == old(workers.Keys) && done == old(done)
      ensures workers[n].stage.Released?
    {
      ghost var before := State();
      HolderCounted(start, run, events, n);
      workers, held := workers[n := workers[n].(stage := Released(workers[n].stage.verdict))], held - 1;
      Record(before, ReleaseSlot(n));
    }

    method SendResult(n: NodeID)
      requires Valid() && n in workers && workers[n].stage.Released? && |done| < cfg.maxConcurrency
      modifies this
      ensures Valid() && GoesOn() && LoopUntouched() && workers.Keys == old(workers.Keys)
      ensures done == old(done) + [n]
    {
      ghost var before := State();
      workers, done := workers[n := workers[n].(stage := Sent(workers[n].stage.verdict))], done + [n];
      Record(before, Send(n));
    }

    /** One step of some goroutine, or none. */
    method Interfere()
      requires Valid()
      modifies this
      ensures Valid() && GoesOn() && LoopUntouched() && workers.Keys == old(workers.Keys)
      ensures old(workers) == map[] ==> State() == old(State())
      ensures old(done) <= done
    {
      if workers != map[] {
        assert workers.Keys != {};
        var n :| n in workers;
        match workers[n].stage
        case Running =>
          if {
            case true => RunTask(n);
            case true => FinishTask(n);
          }
        case Finished(_) => ReleaseWorker(n);
        case Released(_) =>
          if |done| < cfg.maxConcurrency {
            SendResult(n);
          }
        case Sent(_) =>
      }
    }

    /** Any number of goroutine steps, between two steps of the loop. */
    method Interleave()
      requires Valid()
      modifies this
      ensures Valid() && GoesOn() && LoopUntouched() && workers.Keys == old(workers.Keys)
      ensures old(workers) == map[] ==> State() == old(State())
      ensures old(done) <= done
    {
      var steps :| 0 <= steps;
      for i := 0 to steps
        invariant Valid() && GoesOn() && LoopUntouched() && workers.Keys == old(workers.Keys)
        invariant old(workers) == map[] ==> State() == old(State())
        invariant old(done) <= done
      {
        Interfere();
      }
    }

    /** Some task in flight runs to its end: the next message the loop can receive. */
    method AwaitResult()
      requires Valid() && inFlight != map[]
      modifies this
      ensures Valid() && GoesOn() && LoopUntouched() && done != []
    {
      Interleave();
      if done == [] {
        var n := UnsentWorker();
        RunToEnd(n);
      }
    }

    method UnsentWorker() returns (n: NodeID)
      requires Valid() && inFlight != map[] && done == []
      ensures n in workers && !workers[n].stage.Sent?
    {
      RunInv(start, run, events, |run| - 1);
      ListsMembers(done, Messages(State()));
      assert workers.Keys != {};
      n :| n in workers;
      assert n !in Messages(State());
    }

    /** The goroutine of n finishes, gives back its slot and sends its result. */
    method RunToEnd(n: NodeID)
      requires Valid() && done == [] && n in workers && !workers[n].stage.Sent?
      modifies this
      ensures Valid() && GoesOn() && LoopUntouched() && done == [n]
    {
      RoomForOne(start, run, events);
      if workers[n].stage.Running? {
        FinishTask(n);
      }
      if workers[n].stage.Finished? {
        ReleaseWorker(n);
      }
      SendResult(n);
    }

    // ----- Draining -----

    method StartDraining(error: DrainError)
      modifies this`draining, this`drainErr
      ensures LoopState() == DagLoopState.StartDraining(old(LoopState()), error)
    {
      if draining {
        return;
      }
      draining, drainErr := true, Some(error);
    }

    method StartDrainingMaxStep()
      modifies this`draining, this`drainMaxStep
      ensures LoopState() == DagLoopState.StartDrainingMaxStep(old(LoopState()))
    {
      if draining {
        return;
      }
      draining, drainMaxStep := true, true;
    }

    method StartDrainingInterrupt(cause: Interrupt)
      modifies this`draining, this`drainErr, this`pendingIntr
      ensures LoopState() == DagLoopState.StartDrainingInterrupt(old(LoopState()), cause)
    {
      if pendingIntr.None? {
        pendingIntr := Some(cause);
      }
      StartDraining(Interrupted(cause));
    }

    method RecordRerunNode(t: Task)
      modifies this`rerunNodes
      ensures LoopState() == RecordRerun(old(LoopState()), t)
    {
      if pendingIntr.None? || t.node == BLANK || t.node == END {
        return;
      }
      rerunNodes := rerunNodes + [t.node];
    }

    method HandleTaskError(t: Task, verdict: Verdict, forced: bool)
      modifies this`draining, this`drainErr, this`pendingIntr, this`rerunNodes
      ensures LoopState() == DagLoopState.HandleTaskError(old(LoopState()), t, verdict, forced)
    {
      if draining {
        RecordRerunNode(t);
        return;
      }
      if forced {
        StartDrainingInterrupt(External(true));
        RecordRerunNode(t);
        return;
      }
      if verdict == Interrupts {
        StartDrainingInterrupt(Raised(t));
        return;
      }
      StartDraining(TaskFailed(t));
    }

    // ----- Starting tasks -----

    method MaybeRequestExternalInterrupt(requested: bool)
      requires Valid() && place == Top
      modifies this
      ensures Valid() && Follows(old(State()), PollExternal(requested)) && GoesOn() && place == Starting
      ensures Measure() <= old(Measure())
    {
      ghost var before := State();
      if !draining && !pauseRequested && requested {
        pauseRequested := true;
      }
      place := Starting;
      Record(before, PollExternal(requested));
    }

    /** startTask and the queue update of consumeReadyHead, up to launching the goroutine. */
    method StartTask(interruptBefore: bool) returns (started: StartResult)
      requires !draining && ready != []
      modifies this`ready, this`waiting, this`inFlight, this`nextStep, this`draining, this`drainErr,
        this`drainMaxStep, this`pendingIntr
      ensures (LoopState(), started) ==
        StartHead(old(LoopState()), cfg.maxSteps, interruptBefore, held < cfg.maxConcurrency)
      ensures started.Refused? || |ready| < old(|ready|)
    {
      var t := ready[0];
      if t.node == BLANK {
        ready := ready[1..];
        return Consumed;
      }
      if t.node in inFlight {
        waiting := waiting[t.node := (if t.node in waiting then waiting[t.node] else []) + [t]];
        ready := ready[1..];
        return Consumed;
      }
      if interruptBefore && pendingIntr.None? {
        StartDrainingInterrupt(StaticBefore(t));
        return Refused;
      }
      if held >= cfg.maxConcurrency {
        return Refused;
      }
      if nextStep >= cfg.maxSteps {
        StartDrainingMaxStep();
        return Refused;
      }
      var step := nextStep;
      nextStep := nextStep + 1;
      inFlight := inFlight[t.node := t];
      ready := ready[1..];
      return Launched(step);
    }

    /** One round of startReadyTasks; the result says whether the head was consumed. */
    method ConsumeReadyHead(interruptBefore: bool) returns (consumed: bool)
      requires Valid() && place == Starting && !draining && !pauseRequested && ready != []
      modifies this
      ensures Valid() && Follows(old(State()), StartNext(interruptBefore)) && GoesOn()
      ensures place == if consumed then Starting else CheckingPlan
      ensures consumed ==> |ready| < old(|ready|)
    {
      ghost var before := State();
      var started := StartOrHold(interruptBefore);
      RecordStart(before, interruptBefore, started);
      consumed := !started.Refused?;
    }

    /** startTask, launching included; a refused head sends the loop on to planning. */
    method StartOrHold(interruptBefore: bool) returns (started: StartResult)
      requires !draining && ready != []
      modifies this`ready, this`waiting, this`inFlight, this`nextStep, this`draining, this`drainErr,
        this`drainMaxStep, this`pendingIntr
      modifies this`held, this`workers, this`log, this`place
      ensures (LoopState(), started) ==
        StartHead(old(LoopState()), cfg.maxSteps, interruptBefore, old(held) < cfg.maxConcurrency)
      ensures started.Refused? || |ready| < old(|ready|)
      ensures place == if started.Refused? then CheckingPlan else old(place)
      ensures var t := old(ready)[0];
        if started.Launched? then
          held == old(held) + 1 && workers == old(workers)[t.node := Worker(t, Running)] &&
          log == old(log).(launched := old(log).launched + [(t, started.step)])
        else held == old(held) && workers == old(workers) && log == old(log)
    {
      var t := ready[0];
      started := StartTask(interruptBefore);
      if started.Launched? {
        LaunchTask(t, started.step);
      } else if started.Refused? {
        place := CheckingPlan;
      }
    }

    /** launchTask: take a slot of the semaphore and start the goroutine. */
    method LaunchTask(t: Task, step: int)
      modifies this`held, this`workers, this`log
      ensures held == old(held) + 1 && workers == old(workers)[t.node := Worker(t, Running)]
      ensures log == old(log).(launched := old(log).launched + [(t, step)])
    {
      held := held + 1;
      workers := workers[t.node := Worker(t, Running)];
      log := log.(launched := log.launched + [(t, step)]);
    }

    ghost function Measure(): int
      reads this
    {
      2 * (Budget(cfg) - |log.launched|) + |inFlight|
    }

    lemma MeasureKept(before: World, e: Event)
      requires Inv(cfg, before) && Valid() && Follows(before, e)
      ensures 2 * (Budget(cfg) - |log.launched|) + |inFlight| <=
              2 * (Budget(cfg) - |before.log.launched|) + |before.loop.inFlight| - (if e.Receive? then 1 else 0)
    {
      LastStep(before, e);
      EventsStepTasks(cfg, before, e);
      if e.Receive? {
        ReceiveSteps(cfg, before, e);
        assert inFlight.Keys == before.loop.inFlight.Keys - {before.done[0]};
      } else {
        ResultsOnlyOnReceive(cfg, before, e);
        InvKept(cfg, before, e);
        assert |inFlight| - |before.loop.inFlight| == |log.launched| - |before.log.launched|;
        LaunchesGrow(cfg, before, e);
      }
    }

    /** MeasureKept for the last step of the recorded run. */
    lemma MeasureFalls(before: World, e: Event)
      requires Valid() && Follows(before, e)
      ensures 2 * (Budget(cfg) - |log.launched|) + |inFlight| <=
              2 * (Budget(cfg) - |before.log.launched|) + |before.loop.inFlight| - (if e.Receive? then 1 else 0)
    {
      RunInv(start, run, events, |run| - 2);
      MeasureKept(before, e);
    }

    lemma LaunchesGrow(cfg: Config, w: World, e: Event)
      requires Enabled(cfg, w, e)
      ensures |w.log.launched| <= |Apply(cfg, w, e).log.launched|
    {
    }

    /** startReadyTasks: start heads of the queue while nothing stops the loop. */
    method StartReadyTasks()
      requires Valid() && place == Starting
      modifies this
      ensures Valid() && GoesOn() && place == CheckingPlan && Measure() <= old(Measure())
    {
      var going := true;
      while going && !draining && !pauseRequested && ready != []
        invariant Valid() && GoesOn() && Measure() <= old(Measure())
        invariant place == if going then Starting else CheckingPlan
        decreases going, |ready|
      {
        going := StartNextTask();
      }
      if going {
        StopStarting();
      }
    }

    /** One round of startReadyTasks while goroutines go on. */
    method StartNextTask() returns (consumed: bool)
      requires Valid() && place == Starting && !draining && !pauseRequested && ready != []
      modifies this
      ensures Valid() && GoesOn() && Measure() <= old(Measure())
      ensures place == if consumed then Starting else CheckingPlan
      ensures consumed ==> |ready| < old(|ready|)
    {
      Interleave();
      ghost var before := State();
      var interruptBefore: bool := *;
      consumed := ConsumeReadyHead(interruptBefore);
      MeasureFalls(before, StartNext(interruptBefore));
    }

    method StopStarting()
      requires Valid() && place == Starting && (draining || pauseRequested || ready == [])
      modifies this
      ensures Valid() && GoesOn() && place == CheckingPlan && Measure() == old(Measure())
    {
      ghost var before := State();
      place := CheckingPlan;
      Record(before, DagScheduler.StopStarting);
    }

    // ----- Planning -----

    /** planIfIdle: a planning round, unless the loop is stopping or has tasks ready. */
    method PlanIfIdle()
      requires Valid() && place == CheckingPlan
      modifies this
      ensures Valid() && GoesOn() && place == Finalizing && Measure() <= old(Measure())
      ensures if old(draining || pauseRequested || ready != []) then LoopState() == old(LoopState()) && log == old(log)
              else events != [] && events[|events| - 1].EndPlan?
    {
      Interleave();
      if draining || pauseRequested || ready != [] {
        SkipPlanning();
      } else {
        var got := TakePending();
        var _, _ := QueuePlannedTasks(got);
      }
    }

    method SkipPlanning()
      requires Valid() && place == CheckingPlan && (draining || pauseRequested || ready != [])
      modifies this
      ensures Valid() && Follows(old(State()), DecidePlan) && GoesOn()
      ensures State() == old(State()).(place := Finalizing)
    {
      ghost var before := State();
      place := Finalizing;
      Record(before, DecidePlan);
    }

    /** The start of planDagTasks: take over the pending fan-out tasks. */
    method TakePending() returns (got: seq<Task>)
      requires Valid() && place == CheckingPlan && !draining && !pauseRequested && ready == []
      modifies this
      ensures Valid() && Follows(old(State()), DecidePlan) && GoesOn()
      ensures got == old(pending) &&
        State() == old(State()).(place := Planning(cfg.triggers.Keys, got, {}, false), pending := [])
    {
      ghost var before := State();
      got := pending;
      pending := [];
      place := Planning(cfg.triggers.Keys, got, {}, false);
      Record(before, DecidePlan);
    }

    /** queuePlannedTasks: visit every trigger channel while goroutines go on writing, then queue. */
    method QueuePlannedTasks(got: seq<Task>) returns (ghost order: seq<NodeID>, ghost uid: nat)
      requires Valid() && place.Planning? && place.todo == cfg.triggers.Keys && place.got == got && place.hit == {}
      modifies this
      ensures Valid() && GoesOn() && place == (if old(place).onResult then Top else Finalizing)
      ensures events != [] && events[|events| - 1] == EndPlan(order)
      ensures ready == old(ready) + (got + TasksFor(order, uid))
      ensures Measure() <= old(Measure()) && inFlight == old(inFlight)
    {
      var todo, hit := cfg.triggers.Keys, {};
      ghost var onResult := place.onResult;
      while todo != {}
        invariant Valid() && GoesOn() && place == Planning(todo, got, hit, onResult)
        invariant Measure() <= old(Measure()) && inFlight == old(inFlight) && ready == old(ready)
        decreases todo
      {
        Interleave();
        var ch :| ch in todo;
        hit := ConsumeIfAvailable(ch, hit);
        todo := todo - {ch};
      }
      uid := nextUid;
      order := QueueTasks(got, hit);
    }

    /** One round of planDagTasks: consume the channel's mark and collect the nodes it triggers. */
    method ConsumeIfAvailable(ch: Channel, hit: set<NodeID>) returns (more: set<NodeID>)
      requires Valid() && place.Planning? && ch in place.todo && hit == place.hit
      modifies this
      ensures Valid() && Follows(old(State()), Consume(ch)) && GoesOn()
      ensures place == old(place).(todo := old(place).todo - {ch}, hit := more)
      ensures inFlight == old(inFlight) && ready == old(ready) && log == old(log)
    {
      ghost var before := State();
      more := hit;
      if ch in available && ch in cfg.triggers {
        more := hit + cfg.triggers[ch];
      }
      available := available - {ch};
      place := place.(todo := place.todo - {ch}, hit := more);
      Record(before, Consume(ch));
    }

    /** The end of planDagTasks: queue the fan-out tasks and one task per triggered node. */
    method QueueTasks(got: seq<Task>, hit: set<NodeID>) returns (ghost order: seq<NodeID>)
      requires Valid() && place.Planning? && place.todo == {} && place.got == got && place.hit == hit
      modifies this
      ensures Valid() && GoesOn() && place == (if old(place).onResult then Top else Finalizing)
      ensures events != [] && events[|events| - 1] == EndPlan(order)
      ensures ready == old(ready) + (got + TasksFor(order, old(nextUid)))
      ensures inFlight == old(inFlight) && log.launched == old(log.launched)
    {
      var nodes := CreatableHits(hit);
      ghost var before := State();
      AppendTasks(got, nodes);
      order := nodes;
      RecordQueued(before, order);
    }

    method CreatableHits(hit: set<NodeID>) returns (nodes: seq<NodeID>)
      ensures Lists(nodes, set n | n in hit && Creatable(cfg, n))
    {
      nodes := ListSet(set n | n in hit && Creatable(cfg, n));
    }

    method AppendTasks(got: seq<Task>, order: seq<NodeID>)
      requires place.Planning?
      modifies this`ready, this`nextUid, this`log, this`place
      ensures var tasks := got + TasksFor(order, old(nextUid));
        LoopState() == old(LoopState()).(ready := old(ready) + tasks) &&
        log == old(log).(queued := old(log).queued + tasks)
      ensures nextUid == old(nextUid) + |order|
      ensures place == if old(place).onResult then Top else Finalizing
    {
      var tasks := got + TasksFor(order, nextUid);
      ready := ready + tasks;
      nextUid := nextUid + |order|;
      log := log.(queued := log.queued + tasks);
      place := if place.onResult then Top else Finalizing;
    }

    // ----- Finishing -----

    /** The nodes of the waiting tasks, once per task, in the order of `keys`. */
    method AppendWaiting(out: seq<NodeID>, keys: seq<NodeID>) returns (longer: seq<NodeID>)
      ensures longer == out + RealNodes(WaitingNodes(LoopState(), keys))
    {
      longer := out;
      ghost var l := LoopState();
      for i := 0 to |keys|
        invariant longer == out + RealNodes(WaitingNodes(l, keys[..i]))
      {
        var n := keys[i];
        var copies := Copies(n, if n in waiting then |waiting[n]| else 0);
        WaitingOneMore(l, keys, i);
        assert copies == Copies(n, |WaitingAt(l, n)|);
        ghost var before := RealNodes(WaitingNodes(l, keys[..i]));
        longer := AppendNodes(longer, copies);
        assert out + before + RealNodes(copies) == out + (before + RealNodes(copies));
      }
      assert keys[..|keys|] == keys;
    }

    /** snapshotNextNodes. */
    method SnapshotNextNodes(keys: seq<NodeID>, triggered: seq<NodeID>) returns (out: seq<NodeID>)
      ensures out == DagLoopState.SnapshotNextNodes(LoopState(), keys, triggered)
    {
      out := AppendNodes([], NodesOf(ready));
      assert out == RealNodes(NodesOf(ready));
      out := AppendWaiting(out, keys);
      out := AppendNodes(out, rerunNodes);
      RealNodesConcat(NodesOf(ready), WaitingNodes(LoopState(), keys));
      RealNodesConcat(NodesOf(ready) + WaitingNodes(LoopState(), keys), rerunNodes);
      out := AppendUnseen(out, triggered);
    }

    /** Appends the triggered nodes that `seen` does not list. */
    method AppendUnseen(seen: seq<NodeID>, triggered: seq<NodeID>) returns (out: seq<NodeID>)
      ensures out == seen + RealNodes(Unseen(seen, triggered))
    {
      out := seen;
      for i := 0 to |triggered|
        invariant out == seen + RealNodes(Unseen(seen, triggered[..i]))
      {
        UnseenSkipsListed(seen, triggered, i);
        if triggered[i] !in seen && Real(triggered[i]) {
          out := out + [triggered[i]];
        }
      }
      assert triggered[..|triggered|] == triggered;
    }

    /** tryFinalize: the outcome of the run, or none while it has to go on. */
    method TryFinalize() returns (outcome: Option<Outcome>, keys: seq<NodeID>, triggered: seq<NodeID>)
      requires Valid() && place == Finalizing
      modifies this
      ensures Valid() && Follows(old(State()), Finalize(keys, triggered)) && GoesOn()
      ensures place == if outcome.Some? then Returned(outcome.value) else Waiting
    {
      ghost var before := State();
      keys := ListSet(waiting.Keys);
      triggered := GetNextNodes();
      outcome := DecideOutcome(keys, triggered);
      place := if outcome.Some? then Returned(outcome.value) else Waiting;
      assert State() ==
        before.(loop := LoopState(), place := if outcome.Some? then Returned(outcome.value) else Waiting);
      RecordFinalize(before, keys, triggered, outcome);
    }

    /** getNextNodes: the nodes that an available channel triggers, in some order. */
    method GetNextNodes() returns (triggered: seq<NodeID>)
      ensures Lists(triggered, Triggered(cfg, State()))
    {
      var nodes := set ch, n | ch in cfg.triggers && ch in available && n in cfg.triggers[ch] :: n;
      triggered := ListSet(nodes);
      assert nodes == Triggered(cfg, State());
    }

    method DecideOutcome(keys: seq<NodeID>, triggered: seq<NodeID>) returns (outcome: Option<Outcome>)
      modifies this`draining, this`drainErr, this`pendingIntr
      ensures (LoopState(), outcome) == DagLoopState.TryFinalize(old(LoopState()), keys, triggered)
    {
      var idle := inFlight == map[];
      if pauseRequested && idle && !draining && pendingIntr.None? {
        StartDrainingInterrupt(External(false));
      }
      if pendingIntr.Some? && idle {
        var next := SnapshotNextNodes(keys, triggered);
        return Some(Paused(pendingIntr.value, next));
      }
      if draining && idle {
        return Some(if drainMaxStep || drainErr.None? then StepsExhausted else Aborted(drainErr.value));
      }
      if draining || pauseRequested || !idle || ready != [] {
        return None;
      }
      return Some(Completed);
    }

    // ----- Results -----

    /** The case of waitForEvent that receives a result, and handleTaskResult. */
    method HandleNextResult(interruptAfter: bool, forced: bool)
      requires Valid() && place == Waiting && inFlight != map[]
      modifies this
      ensures Valid() && GoesOn() && place == Top && Measure() < old(Measure())
    {
      AwaitResult();
      MessageHasSender(start, run, events);
      ghost var before := State();
      var plan, got := ReceiveResult(interruptAfter, forced);
      MeasureFalls(before, Receive(interruptAfter, forced));
      if plan {
        var _, _ := QueuePlannedTasks(got);
      }
    }

    method ReceiveResult(interruptAfter: bool, forced: bool) returns (plan: bool, got: seq<Task>)
      requires Valid() && place == Waiting && done != [] && done[0] in workers && workers[done[0]].stage.Sent?
      modifies this
      ensures Valid() && Follows(old(State()), Receive(interruptAfter, forced)) && GoesOn()
      ensures place == if plan then Planning(cfg.triggers.Keys, got, {}, true) else Top
    {
      ghost var before := State();
      plan, got := LandResult(interruptAfter, forced);
      RecordResult(before, interruptAfter, forced, plan);
    }

    /** The fields after the oldest message has been taken and handled. */
    method LandResult(interruptAfter: bool, forced: bool) returns (plan: bool, got: seq<Task>)
      requires done != [] && done[0] in workers && workers[done[0]].stage.Sent?
      modifies this`inFlight, this`ready, this`waiting, this`executed, this`draining, this`drainErr, this`pendingIntr,
        this`rerunNodes
      modifies this`done, this`workers, this`log, this`place, this`pending
      ensures var w := old(workers)[old(done)[0]];
        (LoopState(), plan) ==
          DagLoopState.HandleTaskResult(old(LoopState()), w.task, w.stage.verdict, interruptAfter, forced) &&
        log == if w.stage.verdict == Success then old(log).(succeeded := old(log).succeeded + [w.task])
               else old(log).(failed := old(log).failed + [w.task])
      ensures done == old(done)[1..] && workers == old(workers) - {old(done)[0]}
      ensures got == (if plan then old(pending) else []) && pending == (if plan then [] else old(pending))
      ensures place == if plan then Planning(cfg.triggers.Keys, got, {}, true) else Top
    {
      var w := workers[done[0]];
      plan := HandleTaskResult(w.task, w.stage.verdict, interruptAfter, forced);
      got := TakeMessage(plan);
    }

    /** Takes the oldest message off the channel and, when planning follows, the fan-out tasks. */
    method TakeMessage(plan: bool) returns (got: seq<Task>)
      requires done != [] && done[0] in workers && workers[done[0]].stage.Sent?
      modifies this`done, this`workers, this`log, this`place, this`pending
      ensures done == old(done)[1..] && workers == old(workers) - {old(done)[0]}
      ensures got == (if plan then old(pending) else []) && pending == (if plan then [] else old(pending))
      ensures var t, verdict := old(workers)[old(done)[0]].task, old(workers)[old(done)[0]].stage.verdict;
        log == if verdict == Success then old(log).(succeeded := old(log).succeeded + [t])
               else old(log).(failed := old(log).failed + [t])
      ensures place == if plan then Planning(cfg.triggers.Keys, got, {}, true) else Top
    {
      var n := done[0];
      var t, verdict := workers[n].task, workers[n].stage.verdict;
      done, workers := done[1..], workers - {n};
      log := if verdict == Success then log.(succeeded := log.succeeded + [t]) else log.(failed := log.failed + [t]);
      place, got := Top, [];
      if plan {
        got, pending := pending, [];
        place := Planning(cfg.triggers.Keys, got, {}, true);
      }
    }

    /** handleTaskResult up to planning. */
    method HandleTaskResult(t: Task, verdict: Verdict, interruptAfter: bool, forced: bool) returns (plan: bool)
      modifies this`inFlight, this`ready, this`waiting, this`executed, this`draining, this`drainErr, this`pendingIntr,
        this`rerunNodes
      ensures (LoopState(), plan) == DagLoopState.HandleTaskResult(old(LoopState()), t, verdict, interruptAfter, forced)
    {
      plan := false;
      if t.node != BLANK {
        inFlight := inFlight - {t.node};
        ready := ready + if t.node in waiting then waiting[t.node] else [];
        waiting := waiting - {t.node};
      }
      if verdict != Success {
        HandleTaskError(t, verdict, forced);
        return;
      }
      executed := executed + 1;
      if interruptAfter && !draining && pendingIntr.None? {
        StartDrainingInterrupt(StaticAfter(t));
        return;
      }
      plan := !draining && !pauseRequested;
    }

    // ----- The loop -----

    /** handleContextDone. */
    method HandleContextDone(forced: bool)
      requires Valid() && place == Waiting
      modifies this
      ensures Valid() && Follows(old(State()), ContextDone(forced)) && GoesOn() && place == Top && draining
    {
      ghost var before := State();
      DrainForContext(forced);
      place := Top;
      assert State() == before.(loop := DagLoopState.HandleContextDone(before.loop, forced), place := Top);
      Record(before, ContextDone(forced));
    }

    method DrainForContext(forced: bool)
      modifies this`draining, this`drainErr, this`pendingIntr
      ensures LoopState() == DagLoopState.HandleContextDone(old(LoopState()), forced) && draining
    {
      if draining {
        return;
      }
      if forced {
        StartDrainingInterrupt(External(true));
      } else {
        StartDraining(ContextCancelled);
      }
    }

    /** The case of waitForEvent that sees the end of the context. */
    method AwaitContextDone(forced: bool)
      requires Valid() && place == Waiting
      modifies this
      ensures Valid() && GoesOn() && place == Top && draining && Measure() <= old(Measure())
    {
      Interleave();
      ghost var before := State();
      HandleContextDone(forced);
      MeasureFalls(before, ContextDone(forced));
    }

    /**
     waitForEvent: a result, or the end of the context, which may win the select `wakeups` times
     more. With nothing in flight only the context can wake the loop.
     */
    method WaitForEvent(wakeups: nat) returns (left: nat)
      requires Valid() && place == Waiting && (inFlight != map[] || wakeups > 0)
      modifies this
      ensures Valid() && GoesOn() && place == Top && left <= wakeups
      ensures if left < wakeups then draining else Measure() < old(Measure())
    {
      var cancelled: bool := *;
      var forced: bool := *;
      if wakeups > 0 && (cancelled || inFlight == map[]) {
        AwaitContextDone(forced);
        return wakeups - 1;
      }
      var interruptAfter: bool := *;
      HandleNextResult(interruptAfter, forced);
      return wakeups;
    }

    /** A loop that waits with nothing in flight was not seeded and is not draining. */
    lemma IdleWaitIsUnseeded()
      requires Valid() && place == Waiting && inFlight == map[]
      ensures !Seeded(start) && !draining
    {
      RunInv(start, run, events, |run| - 1);
    }

    /** One round of the loop: the outcome, or none after an event has been handled. */
    method RunOnce(wakeups: nat) returns (outcome: Option<Outcome>, left: nat)
      requires Valid() && place == Top && (Seeded(start) || wakeups > 0 || draining)
      modifies this
      ensures Valid() && GoesOn() && left <= wakeups
      ensures outcome.Some? ==> place == Returned(outcome.value)
      ensures outcome.None? ==> place == Top && (left < wakeups || Measure() < old(Measure()))
      ensures outcome.None? ==> Seeded(start) || left > 0 || draining
    {
      ghost var first := |run| - 1;
      var requested: bool := *;
      MaybeRequestExternalInterrupt(requested);
      StartReadyTasks();
      PlanIfIdle();
      outcome, left := FinalizeOrWait(wakeups, first);
    }

    /** tryFinalize and, when the loop has to go on, waitForEvent; `first` is where the round began. */
    method FinalizeOrWait(wakeups: nat, ghost first: nat) returns (outcome: Option<Outcome>, left: nat)
      requires Valid() && place == Finalizing && first < |run|
      requires Seeded(start) || wakeups > 0 || run[first].loop.draining
      modifies this
      ensures Valid() && GoesOn() && left <= wakeups
      ensures outcome.Some? ==> place == Returned(outcome.value)
      ensures outcome.None? ==> place == Top && (left < wakeups || Measure() < old(Measure()))
      ensures outcome.None? ==> Seeded(start) || left > 0 || draining
    {
      Interleave();
      var result := FinalizeNow();
      left := wakeups;
      if result.None? {
        if inFlight == map[] {
          IdleWaitIsUnseeded();
          DrainingLasts(first);
        }
        left := WaitForEvent(wakeups);
        DrainingLasts(first);
      }
      return result, left;
    }

    method FinalizeNow() returns (outcome: Option<Outcome>)
      requires Valid() && place == Finalizing
      modifies this
      ensures Valid() && GoesOn() && Measure() <= old(Measure())
      ensures place == if outcome.Some? then Returned(outcome.value) else Waiting
    {
      ghost var before := State();
      var result, keys, triggered := TryFinalize();
      MeasureFalls(before, Finalize(keys, triggered));
      return result;
    }

    lemma DrainingLasts(first: nat)
      requires Valid() && first < |run|
      ensures run[first].loop.draining ==> draining
    {
      if run[first].loop.draining {
        DrainIsFinal(start, run, events, first, |run| - 1);
      }
    }

    lemma MeasureNatural()
      requires Valid()
      ensures Measure() >= 0
    {
      RunInv(start, run, events, |run| - 1);
    }

    /**
     run, with every task finishing: it returns, and what it did is a run of the machine that
     ends in the outcome it returns. The end of the context wins the select at most `wakeups`
     times, any number of them; a loop that was not seeded needs one to return.
     */
    method Run(wakeups: nat) returns (outcome: Outcome)
      requires Valid() && place == Top && (Seeded(start) || wakeups > 0)
      modifies this
      ensures Valid() && GoesOn() && place == Returned(outcome)
    {
      var result: Option<Outcome> := None;
      var left := wakeups;
      MeasureNatural();
      while result.None?
        invariant Valid() && GoesOn() && Measure() >= 0
        invariant result.None? ==> Seeded(start) || left > 0 || draining
        invariant place == if result.Some? then Returned(result.value) else Top
        decreases result.None?, left, Measure()
      {
        result, left := RunOnce(left);
        MeasureNatural();
      }
      return result.value;
    }
  }
}
