/** The inductive invariant of the scheduler, conjunct by conjunct. */
module DagInvariant {
  import opened Prelude
  import opened DagLoopState
  import opened DagScheduler

  // ----- Counting the tasks of one node -----

  ghost function Of(n: NodeID, ts: seq<Task>): multiset<Task> {
    if ts == [] then multiset{}
    else (if ts[0].node == n then multiset{ts[0]} else multiset{}) + Of(n, ts[1..])
  }

  ghost function Only(n: NodeID, ts: seq<Task>): seq<Task> {
    if ts == [] then [] else (if ts[0].node == n then [ts[0]] else []) + Only(n, ts[1..])
  }

  lemma OfConcat(n: NodeID, a: seq<Task>, b: seq<Task>)
    ensures Of(n, a + b) == Of(n, a) + Of(n, b)
  {
    OfIsOnly(n, a);
    OfIsOnly(n, b);
    OfIsOnly(n, a + b);
    OnlyConcat(n, a, b);
  }

  lemma {:induction false} OfIsOnly(n: NodeID, ts: seq<Task>)
    ensures Of(n, ts) == multiset(Only(n, ts))
  {
    if ts != [] {
      OfIsOnly(n, ts[1..]);
    }
  }

  lemma {:induction false} OnlyConcat(n: NodeID, a: seq<Task>, b: seq<Task>)
    ensures Only(n, a + b) == Only(n, a) + Only(n, b)
  {
    if a == [] {
      assert a + b == b;
    } else {
      var ab, head := a + b, if a[0].node == n then [a[0]] else [];
      assert ab[0] == a[0] && ab[1..] == a[1..] + b;
      OnlyConcat(n, a[1..], b);
      calc {
        Only(n, ab);
        head + Only(n, ab[1..]);
        head + (Only(n, a[1..]) + Only(n, b));
        (head + Only(n, a[1..])) + Only(n, b);
        Only(n, a) + Only(n, b);
      }
    }
  }

  /** Tasks of another node do not count. */
  lemma OfOthers(n: NodeID, a: seq<Task>, b: seq<Task>)
    requires forall t :: t in b ==> t.node != n
    ensures Of(n, a + b) == Of(n, a) == Of(n, b + a)
  {
    OfNone(n, b);
    OfConcat(n, a, b);
    OfConcat(n, b, a);
  }

  lemma {:induction false} OfNone(n: NodeID, b: seq<Task>)
    requires forall t :: t in b ==> t.node != n
    ensures Of(n, b) == multiset{}
  {
    if b != [] {
      OfNone(n, b[1..]);
    }
  }

  ghost function Flying(l: Loop, n: NodeID): multiset<Task> {
    if n in l.inFlight then multiset{l.inFlight[n]} else multiset{}
  }

  // ----- The conjuncts -----

  /** One goroutine per in-flight node, running the task recorded for it. */
  ghost predicate WorkersMatch(w: World) {
    w.workers.Keys == w.loop.inFlight.Keys &&
    forall n :: n in w.workers ==> n != BLANK && w.workers[n].task == w.loop.inFlight[n] && w.loop.inFlight[n].node == n
  }

  /** The nodes whose goroutine still holds a semaphore slot, that is, whose task may be executing. */
  ghost function Holding(w: World): set<NodeID> {
    set n | n in w.workers && (w.workers[n].stage.Running? || w.workers[n].stage.Finished?)
  }

  ghost predicate SlotsCounted(cfg: Config, w: World) {
    w.held == |Holding(w)| && w.held <= cfg.maxConcurrency
  }

  /** The nodes whose goroutine has sent its result. */
  ghost function Messages(w: World): set<NodeID> {
    set n | n in w.workers && w.workers[n].stage.Sent?
  }

  /** The results channel holds exactly one message of each goroutine that has sent. */
  ghost predicate MessagesMatch(w: World) {
    Lists(w.done, Messages(w))
  }

  /** Tasks wait only behind a task of their own node that is in flight. */
  ghost predicate WaitingBehind(w: World) {
    forall n :: n in w.loop.waiting ==>
      n in w.loop.inFlight && w.loop.waiting[n] != [] && forall t :: t in w.loop.waiting[n] ==> t.node == n
  }

  ghost function Budget(cfg: Config): nat {
    if cfg.maxSteps > cfg.startStep then cfg.maxSteps - cfg.startStep else 0
  }

  /** Launches consume consecutive step numbers and never exceed the budget. */
  ghost predicate StepsBudgeted(cfg: Config, w: World) {
    w.loop.nextStep == cfg.startStep + |w.log.launched| && |w.log.launched| <= Budget(cfg) &&
    forall i :: 0 <= i < |w.log.launched| ==> w.log.launched[i].1 == cfg.startStep + i
  }

  /** Every launched task is in flight, succeeded or failed. */
  ghost predicate LaunchesCounted(w: World) {
    |w.log.launched| == |w.loop.inFlight| + |w.log.succeeded| + |w.log.failed| &&
    w.loop.executed == |w.log.succeeded|
  }

  /** Every task ever queued for node n is ready, waiting, in flight, succeeded or failed, exactly once. */
  ghost predicate AccountedFor(w: World, n: NodeID) {
    Of(n, w.log.queued) ==
      Of(n, w.loop.ready) + Of(n, WaitingAt(w.loop, n)) + Flying(w.loop, n) +
      Of(n, w.log.succeeded) + Of(n, w.log.failed)
  }

  ghost predicate Conserved(w: World) {
    forall n :: n != BLANK ==> AccountedFor(w, n)
  }

  ghost function RaisedBy(i: Interrupt, n: NodeID): nat {
    if i.Raised? && i.task.node == n then 1 else 0
  }

  /** The draining flags agree, and under an interrupt every failure is recorded for a rerun, save the raiser. */
  ghost predicate DrainOk(l: Loop, failed: seq<Task>) {
    (!l.draining ==> l.drainErr.None? && !l.drainMaxStep && l.pendingIntr.None? && failed == []) &&
    (l.draining ==> (l.drainMaxStep <==> l.drainErr.None?)) &&
    (l.pendingIntr.None? ==> l.rerunNodes == [] && !(l.drainErr.Some? && l.drainErr.value.Interrupted?)) &&
    (l.pendingIntr.Some? ==>
       l.drainErr == Some(Interrupted(l.pendingIntr.value)) &&
       (l.pendingIntr.value.Raised? ==> l.pendingIntr.value.task in failed) &&
       forall n :: Real(n) ==> RerunsCover(l, failed, n))
  }

  ghost predicate RerunsCover(l: Loop, failed: seq<Task>, n: NodeID)
    requires l.pendingIntr.Some?
  {
    |Of(n, failed)| == multiset(l.rerunNodes)[n] + RaisedBy(l.pendingIntr.value, n)
  }

  ghost predicate HasTask(ts: seq<Task>) {
    exists i :: 0 <= i < |ts| && ts[i].node != BLANK
  }

  ghost predicate NothingToPlan(cfg: Config, w: World) {
    w.available * cfg.triggers.Keys == {} && w.pending == []
  }

  /** With no goroutine alive and no reason to stop, what the loop has still to do at each place. */
  ghost predicate NeverIdle(cfg: Config, w: World) {
    w.loop.inFlight == map[] && !w.loop.draining && !w.loop.pauseRequested ==>
      match w.place
      case Top => HasTask(w.loop.ready) || NothingToPlan(cfg, w)
      case Starting => HasTask(w.loop.ready) || NothingToPlan(cfg, w)
      case CheckingPlan => w.loop.ready == [] && NothingToPlan(cfg, w)
      case Planning(todo, got, hit, onResult) =>
        w.pending == [] && w.available * cfg.triggers.Keys <= todo &&
        (!onResult ==> w.loop.ready == [] && got == [] && hit == {} && NothingToPlan(cfg, w))
      case Finalizing => w.loop.ready == [] && NothingToPlan(cfg, w)
      case Waiting => false
      case Returned(_) => true
  }

  /** Where the loop can be while draining or pausing, and what is true when it is past startReadyTasks. */
  ghost predicate PlaceConsistent(cfg: Config, w: World) {
    (w.place.Planning? ==>
       !w.loop.draining && !w.loop.pauseRequested && (!w.place.onResult ==> w.loop.ready == []) &&
       (w.loop.inFlight == map[] ==> w.pending == [] && w.available * cfg.triggers.Keys <= w.place.todo)) &&
    (w.place == CheckingPlan && !w.loop.draining && !w.loop.pauseRequested && w.loop.inFlight == map[] ==>
     w.loop.ready == []) &&
    (w.place == Waiting && w.loop.inFlight == map[] ==> !w.loop.draining && !w.loop.pauseRequested) &&
    (w.place == Finalizing && w.loop.inFlight == map[] && w.loop.ready == [] && !w.loop.draining &&
     !w.loop.pauseRequested ==>
       NothingToPlan(cfg, w)) &&
    (w.place.Returned? ==> w.loop.inFlight == map[]) &&
    (w.place == Returned(Completed) ==> w.loop.ready == [] && !w.loop.draining && NothingToPlan(cfg, w)) &&
    (w.place.Returned? && !w.place.outcome.Completed? ==> w.loop.draining)
  }

  ghost predicate Inv(cfg: Config, w: World) {
    cfg.maxConcurrency > 0 &&
    WorkersMatch(w) && SlotsCounted(cfg, w) && MessagesMatch(w) && WaitingBehind(w) && StepsBudgeted(cfg, w) &&
    LaunchesCounted(w) && Conserved(w) && DrainOk(w.loop, w.log.failed) && PlaceConsistent(cfg, w)
  }

  // ----- What each kind of event does to the tasks -----

  /** The head of the ready queue is launched. */
  ghost predicate Launching(cfg: Config, w: World, w': World) {
    w.loop.ready != [] &&
    var t := w.loop.ready[0];
    t.node != BLANK && t.node !in w.loop.inFlight && w.held < cfg.maxConcurrency && w.loop.nextStep < cfg.maxSteps &&
    !w.loop.draining &&
    w' == w.(
      loop := w.loop.(ready := w.loop.ready[1..], nextStep := w.loop.nextStep + 1,
                      inFlight := w.loop.inFlight[t.node := t]),
      held := w.held + 1, workers := w.workers[t.node := Worker(t, Running)],
      log := w.log.(launched := w.log.launched + [(t, w.loop.nextStep)]))
  }

  /** The oldest result is received: its task lands and the tasks waiting behind it become ready. */
  ghost predicate Landing(w: World, w': World) {
    w.done != [] && w.done[0] in w.workers && w.workers[w.done[0]].stage.Sent? &&
    var n := w.done[0];
    var t, ok := w.workers[n].task, w.workers[n].stage.verdict == Success;
    w'.held == w.held && w'.done == w.done[1..] && w'.workers == w.workers - {n} &&
    w'.log == (if ok then w.log.(succeeded := w.log.succeeded + [t]) else w.log.(failed := w.log.failed + [t])) &&
    SameWork(Land(w.loop, n).(executed := w.loop.executed + if ok then 1 else 0), w'.loop)
  }

  /** The head of the ready queue is set aside: dropped when blank, else queued behind its node. */
  ghost predicate SettingAside(w: World, w': World) {
    w.loop.ready != [] &&
    var t := w.loop.ready[0];
    var rest := w.loop.(ready := w.loop.ready[1..]);
    (if t.node == BLANK then w'.loop == rest
     else t.node in w.loop.inFlight &&
          w'.loop == rest.(waiting := w.loop.waiting[t.node := WaitingAt(w.loop, t.node) + [t]])) &&
    w' == w.(loop := w'.loop)
  }

  /** Planned tasks are queued. */
  ghost predicate Queueing(w: World, w': World, tasks: seq<Task>) {
    w'.loop == w.loop.(ready := w.loop.ready + tasks) && w'.log == w.log.(queued := w.log.queued + tasks) &&
    w'.held == w.held && w'.done == w.done && w'.workers == w.workers
  }

  /** One goroutine advances a stage. */
  ghost predicate Advancing(w: World, w': World, n: NodeID, stage: Stage) {
    n in w.workers &&
    w'.workers == w.workers[n := w.workers[n].(stage := stage)] && w'.loop == w.loop && w'.log == w.log &&
    match stage
    case Running => false
    case Finished(_) => w.workers[n].stage.Running? && w'.held == w.held && w'.done == w.done
    case Released(v) => w.workers[n].stage == Finished(v) && w.held == w'.held + 1 && w'.done == w.done
    case Sent(v) => w.workers[n].stage == Released(v) && w'.held == w.held && w'.done == w.done + [n]
  }

  /** Nothing happens to any task. */
  ghost predicate Bystanding(w: World, w': World) {
    SameWork(w.loop, w'.loop) && w'.held == w.held && w'.done == w.done && w'.workers == w.workers && w'.log == w.log
  }

  ghost predicate TaskStep(cfg: Config, w: World, w': World) {
    Launching(cfg, w, w') || Landing(w, w') || SettingAside(w, w') || (exists tasks :: Queueing(w, w', tasks)) ||
    (exists n, stage :: Advancing(w, w', n, stage)) || Bystanding(w, w')
  }

  lemma StartSteps(cfg: Config, w: World, e: Event)
    requires Enabled(cfg, w, e) && e.StartNext?
    ensures TaskStep(cfg, w, Apply(cfg, w, e))
  {
  }

  lemma ReceiveSteps(cfg: Config, w: World, e: Event)
    requires WorkersMatch(w) && Enabled(cfg, w, e) && e.Receive?
    ensures Landing(w, Apply(cfg, w, e))
  {
    var t, verdict := w.workers[w.done[0]].task, w.workers[w.done[0]].stage.verdict;
    ResultLands(w.loop, t, verdict, e.after, e.forced);
  }

  lemma LoopSteps(cfg: Config, w: World, e: Event)
    requires Enabled(cfg, w, e)
    requires e.PollExternal? || e.StopStarting? || e.DecidePlan? || e.Consume? || e.Finalize? || e.ContextDone? ||
      e.Write? || e.FanOut?
    ensures Bystanding(w, Apply(cfg, w, e))
  {
    match e
    case Finalize(keys, triggered) => FinalizeKeepsWork(w.loop, keys, triggered);
    case ContextDone(forced) => CancelKeepsWork(w.loop, forced);
    case _ =>
  }

  lemma EventsStepTasks(cfg: Config, w: World, e: Event)
    requires WorkersMatch(w) && Enabled(cfg, w, e)
    ensures TaskStep(cfg, w, Apply(cfg, w, e))
  {
    match e
    case StartNext(_) => StartSteps(cfg, w, e);
    case Receive(_, _) => ReceiveSteps(cfg, w, e);
    case EndPlan(order) => assert Queueing(w, Apply(cfg, w, e), w.place.got + TasksFor(order, w.nextUid));
    case Finish(n, v) => assert Advancing(w, Apply(cfg, w, e), n, Finished(v));
    case ReleaseSlot(n) => assert Advancing(w, Apply(cfg, w, e), n, Released(w.workers[n].stage.verdict));
    case Send(n) => assert Advancing(w, Apply(cfg, w, e), n, Sent(w.workers[n].stage.verdict));
    case _ => LoopSteps(cfg, w, e);
  }

  // ----- Preservation of the task invariants -----

  ghost predicate TaskInv(cfg: Config, w: World) {
    WorkersMatch(w) && SlotsCounted(cfg, w) && MessagesMatch(w) && WaitingBehind(w) && StepsBudgeted(cfg, w) &&
    LaunchesCounted(w)
  }

  lemma LaunchingKeeps(cfg: Config, w: World, w': World)
    requires TaskInv(cfg, w) && Launching(cfg, w, w')
    ensures TaskInv(cfg, w')
  {
    LaunchingGoroutines(cfg, w, w');
    LaunchingCounts(cfg, w, w');
  }

  lemma LaunchingGoroutines(cfg: Config, w: World, w': World)
    requires WorkersMatch(w) && SlotsCounted(cfg, w) && MessagesMatch(w) && Launching(cfg, w, w')
    ensures WorkersMatch(w') && SlotsCounted(cfg, w') && MessagesMatch(w')
  {
    assert Holding(w') == Holding(w) + {w.loop.ready[0].node};
    assert Messages(w') == Messages(w);
  }

  lemma LaunchingCounts(cfg: Config, w: World, w': World)
    requires StepsBudgeted(cfg, w) && LaunchesCounted(w) && Launching(cfg, w, w')
    ensures StepsBudgeted(cfg, w') && LaunchesCounted(w')
  {
    assert w'.loop.inFlight.Keys == w.loop.inFlight.Keys + {w.loop.ready[0].node};
  }

  lemma LandingKeeps(cfg: Config, w: World, w': World)
    requires TaskInv(cfg, w) && Landing(w, w')
    ensures TaskInv(cfg, w')
  {
    LandingGoroutines(cfg, w, w');
    LandingMessages(w, w');
    LandingCounts(cfg, w, w');
  }

  lemma LandingGoroutines(cfg: Config, w: World, w': World)
    requires WorkersMatch(w) && SlotsCounted(cfg, w) && WaitingBehind(w) && Landing(w, w')
    ensures WorkersMatch(w') && SlotsCounted(cfg, w') && WaitingBehind(w')
  {
    assert Holding(w') == Holding(w);
  }

  lemma LandingMessages(w: World, w': World)
    requires MessagesMatch(w) && Landing(w, w')
    ensures MessagesMatch(w')
  {
    var n := w.done[0];
    ListsMembers(w.done, Messages(w));
    assert n in w.done && w.done == [n] + w'.done;
    assert Messages(w') == Messages(w) - {n};
    assert multiset(Messages(w)) == multiset(Messages(w) - {n}) + multiset{n};
    assert multiset(w.done) == multiset{n} + multiset(w'.done);
    assert multiset(w'.done) == multiset(w.done) - multiset{n};
  }

  lemma LandingCounts(cfg: Config, w: World, w': World)
    requires WorkersMatch(w) && StepsBudgeted(cfg, w) && LaunchesCounted(w) && Landing(w, w')
    ensures StepsBudgeted(cfg, w') && LaunchesCounted(w')
  {
    assert w'.loop.inFlight.Keys == w.loop.inFlight.Keys - {w.done[0]};
  }

  lemma AdvancingKeeps(cfg: Config, w: World, w': World, n: NodeID, stage: Stage)
    requires TaskInv(cfg, w) && Advancing(w, w', n, stage)
    ensures TaskInv(cfg, w')
  {
    assert Holding(w') == if stage.Released? then Holding(w) - {n} else Holding(w);
    AdvancingMessages(w, w', n, stage);
  }

  lemma AdvancingMessages(w: World, w': World, n: NodeID, stage: Stage)
    requires MessagesMatch(w) && Advancing(w, w', n, stage)
    ensures MessagesMatch(w')
  {
    if stage.Sent? {
      assert n !in Messages(w) && Messages(w') == Messages(w) + {n};
      assert multiset(Messages(w')) == multiset(Messages(w)) + multiset{n};
    } else {
      assert Messages(w') == Messages(w);
    }
  }

  lemma SettingAsideKeeps(cfg: Config, w: World, w': World)
    requires TaskInv(cfg, w) && SettingAside(w, w')
    ensures TaskInv(cfg, w')
  {
    assert Holding(w') == Holding(w) && Messages(w') == Messages(w);
  }

  lemma QueueingKeeps(cfg: Config, w: World, w': World, tasks: seq<Task>)
    requires TaskInv(cfg, w) && Queueing(w, w', tasks)
    ensures TaskInv(cfg, w')
  {
    assert Holding(w') == Holding(w) && Messages(w') == Messages(w);
  }

  lemma BystandingKeeps(cfg: Config, w: World, w': World)
    requires TaskInv(cfg, w) && Bystanding(w, w')
    ensures TaskInv(cfg, w')
  {
    assert Holding(w') == Holding(w) && Messages(w') == Messages(w);
  }

  lemma TaskInvKept(cfg: Config, w: World, w': World)
    requires TaskInv(cfg, w) && TaskStep(cfg, w, w')
    ensures TaskInv(cfg, w')
  {
    if Launching(cfg, w, w') {
      LaunchingKeeps(cfg, w, w');
    } else if Landing(w, w') {
      LandingKeeps(cfg, w, w');
    } else if SettingAside(w, w') {
      SettingAsideKeeps(cfg, w, w');
    } else if tasks :| Queueing(w, w', tasks) {
      QueueingKeeps(cfg, w, w', tasks);
    } else if n, stage :| Advancing(w, w', n, stage) {
      AdvancingKeeps(cfg, w, w', n, stage);
    } else {
      BystandingKeeps(cfg, w, w');
    }
  }

  // ----- Conservation: no task is lost or duplicated on its way from the queue to its result -----

  /** The result of n's own task: it leaves the flights, and what waited behind it becomes ready. */
  lemma OwnLandingConserves(w: World, w': World, n: NodeID)
    requires WorkersMatch(w) && WaitingBehind(w) && n != BLANK && AccountedFor(w, n) && Landing(w, w') && n == w.done[0]
    ensures AccountedFor(w', n)
  {
    OfConcat(n, w.loop.ready, WaitingAt(w.loop, n));
    OwnResultLogged(w, w', n);
    assert WaitingAt(w'.loop, n) == [] && Flying(w'.loop, n) == multiset{};
  }

  /** The flight of n becomes one success or one failure. */
  lemma OwnResultLogged(w: World, w': World, n: NodeID)
    requires WorkersMatch(w) && Landing(w, w') && n == w.done[0]
    ensures Of(n, w'.log.succeeded) + Of(n, w'.log.failed) ==
            Flying(w.loop, n) + Of(n, w.log.succeeded) + Of(n, w.log.failed)
  {
    var t := w.workers[n].task;
    OfConcat(n, w.log.succeeded, [t]);
    OfConcat(n, w.log.failed, [t]);
    assert Of(n, [t]) == multiset{t} == Flying(w.loop, n);
  }

  lemma OtherLandingConserves(w: World, w': World, n: NodeID)
    requires WorkersMatch(w) && WaitingBehind(w) && n != BLANK && AccountedFor(w, n) && Landing(w, w') && n != w.done[0]
    ensures AccountedFor(w', n)
  {
    var m := w.done[0];
    var t, behind := w.workers[m].task, WaitingAt(w.loop, m);
    OfOthers(n, w.loop.ready, behind);
    OfOthers(n, w.log.succeeded, [t]);
    OfOthers(n, w.log.failed, [t]);
    assert WaitingAt(w'.loop, n) == WaitingAt(w.loop, n) && Flying(w'.loop, n) == Flying(w.loop, n);
  }

  lemma LaunchingConserves(cfg: Config, w: World, w': World, n: NodeID)
    requires WorkersMatch(w) && WaitingBehind(w) && n != BLANK && AccountedFor(w, n) && Launching(cfg, w, w')
    ensures AccountedFor(w', n)
  {
    var t := w.loop.ready[0];
    assert n == t.node ==> Flying(w.loop, n) == multiset{};
    assert WaitingAt(w'.loop, n) == WaitingAt(w.loop, n);
  }

  lemma SettingAsideConserves(w: World, w': World, n: NodeID)
    requires n != BLANK && AccountedFor(w, n) && SettingAside(w, w')
    ensures AccountedFor(w', n)
  {
    if n == w.loop.ready[0].node {
      OwnSettingAsideConserves(w, w', n);
    } else {
      OtherSettingAsideConserves(w, w', n);
    }
  }

  lemma OtherSettingAsideConserves(w: World, w': World, n: NodeID)
    requires AccountedFor(w, n) && SettingAside(w, w') && n != w.loop.ready[0].node
    ensures AccountedFor(w', n)
  {
    assert WaitingAt(w'.loop, n) == WaitingAt(w.loop, n) && Flying(w'.loop, n) == Flying(w.loop, n);
    OfOthers(n, w'.loop.ready, [w.loop.ready[0]]);
    assert w.loop.ready == [w.loop.ready[0]] + w'.loop.ready;
  }

  lemma OwnSettingAsideConserves(w: World, w': World, n: NodeID)
    requires n != BLANK && AccountedFor(w, n) && SettingAside(w, w') && n == w.loop.ready[0].node
    ensures AccountedFor(w', n)
  {
    var t := w.loop.ready[0];
    OfConcat(n, WaitingAt(w.loop, n), [t]);
    assert Of(n, [t]) == multiset{t};
    assert Of(n, w.loop.ready) == multiset{t} + Of(n, w'.loop.ready);
    assert Of(n, WaitingAt(w'.loop, n)) == Of(n, WaitingAt(w.loop, n)) + multiset{t};
    assert Flying(w'.loop, n) == Flying(w.loop, n);
  }

  lemma QueueingConserves(w: World, w': World, tasks: seq<Task>, n: NodeID)
    requires n != BLANK && AccountedFor(w, n) && Queueing(w, w', tasks)
    ensures AccountedFor(w', n)
  {
    assert WaitingAt(w'.loop, n) == WaitingAt(w.loop, n) && Flying(w'.loop, n) == Flying(w.loop, n);
    assert w'.log.succeeded == w.log.succeeded && w'.log.failed == w.log.failed;
    OfConcat(n, w.loop.ready, tasks);
    OfConcat(n, w.log.queued, tasks);
  }

  lemma ConservedKept(cfg: Config, w: World, w': World)
    requires WorkersMatch(w) && WaitingBehind(w) && Conserved(w) && TaskStep(cfg, w, w')
    ensures Conserved(w')
  {
    forall n | n != BLANK
      ensures AccountedFor(w', n)
    {
      NodeConserved(cfg, w, w', n);
    }
  }

  lemma NodeConserved(cfg: Config, w: World, w': World, n: NodeID)
    requires WorkersMatch(w) && WaitingBehind(w) && n != BLANK && AccountedFor(w, n) && TaskStep(cfg, w, w')
    ensures AccountedFor(w', n)
  {
    if Launching(cfg, w, w') {
      LaunchingConserves(cfg, w, w', n);
    } else if Landing(w, w') {
      if n == w.done[0] {
        OwnLandingConserves(w, w', n);
      } else {
        OtherLandingConserves(w, w', n);
      }
    } else if SettingAside(w, w') {
      SettingAsideConserves(w, w', n);
    } else if tasks :| Queueing(w, w', tasks) {
      QueueingConserves(w, w', tasks, n);
    }
  }

  // ----- Draining -----

  lemma FailureRecorded(l: Loop, failed: seq<Task>, t: Task)
    requires l.draining && DrainOk(l, failed)
    ensures DrainOk(RecordRerun(l, t), failed + [t])
  {
    if l.pendingIntr.Some? {
      var m := RecordRerun(l, t);
      forall n | Real(n)
        ensures RerunsCover(m, failed + [t], n)
      {
        OfConcat(n, failed, [t]);
        assert RerunsCover(l, failed, n);
        assert Of(n, [t]) == if n == t.node then multiset{t} else multiset{};
      }
    }
  }

  lemma ErrorDrains(l: Loop, failed: seq<Task>, t: Task, verdict: Verdict, forced: bool)
    requires DrainOk(l, failed)
    ensures DrainOk(HandleTaskError(l, t, verdict, forced), failed + [t])
  {
    if l.draining {
      FailureRecorded(l, failed, t);
    } else if forced {
      var m := StartDrainingInterrupt(l, External(true));
      assert DrainOk(m.(rerunNodes := []), failed);
      FailureRecorded(m.(rerunNodes := []), failed, t);
      assert m == m.(rerunNodes := []);
    } else if verdict == Interrupts {
      var m := StartDrainingInterrupt(l, Raised(t));
      forall n | Real(n)
        ensures RerunsCover(m, failed + [t], n)
      {
        assert failed + [t] == [t];
        assert Of(n, [t]) == if n == t.node then multiset{t} else multiset{};
      }
    }
  }

  lemma InterruptDrains(l: Loop, failed: seq<Task>, cause: Interrupt)
    requires DrainOk(l, failed) && !l.draining && !cause.Raised?
    ensures DrainOk(StartDrainingInterrupt(l, cause), failed)
  {
  }

  lemma ResultDrains(l: Loop, failed: seq<Task>, t: Task, verdict: Verdict, after: bool, forced: bool)
    requires DrainOk(l, failed)
    ensures DrainOk(HandleTaskResult(l, t, verdict, after, forced).0,
                    if verdict == Success then failed else failed + [t])
  {
    var landed := if t.node == BLANK then l else Land(l, t.node);
    assert DrainOk(landed, failed);
    if verdict != Success {
      ErrorDrains(landed, failed, t, verdict, forced);
    } else {
      var counted := landed.(executed := landed.executed + 1);
      assert DrainOk(counted, failed);
      if !counted.draining {
        InterruptDrains(counted, failed, StaticAfter(t));
      }
    }
  }

  lemma StartDrains(cfg: Config, w: World, before: bool)
    requires DrainOk(w.loop, w.log.failed) && Enabled(cfg, w, StartNext(before))
    ensures DrainOk(Apply(cfg, w, StartNext(before)).loop, Apply(cfg, w, StartNext(before)).log.failed)
  {
    InterruptDrains(w.loop, w.log.failed, StaticBefore(w.loop.ready[0]));
  }

  lemma FinalizeDrains(l: Loop, failed: seq<Task>, keys: seq<NodeID>, triggered: seq<NodeID>)
    requires DrainOk(l, failed)
    ensures DrainOk(TryFinalize(l, keys, triggered).0, failed)
  {
    if !l.draining {
      InterruptDrains(l, failed, External(false));
    }
  }

  lemma CancelDrains(l: Loop, failed: seq<Task>, forced: bool)
    requires DrainOk(l, failed)
    ensures DrainOk(HandleContextDone(l, forced), failed)
  {
    if !l.draining {
      InterruptDrains(l, failed, External(true));
    }
  }

  lemma DrainOkKept(cfg: Config, w: World, e: Event)
    requires DrainOk(w.loop, w.log.failed) && Enabled(cfg, w, e)
    ensures DrainOk(Apply(cfg, w, e).loop, Apply(cfg, w, e).log.failed)
  {
    match e
    case StartNext(before) => StartDrains(cfg, w, before);
    case Receive(after, forced) =>
      var worker := w.workers[w.done[0]];
      ResultDrains(w.loop, w.log.failed, worker.task, worker.stage.verdict, after, forced);
    case Finalize(keys, triggered) => FinalizeDrains(w.loop, w.log.failed, keys, triggered);
    case ContextDone(forced) => CancelDrains(w.loop, w.log.failed, forced);
    case _ =>
  }

  // ----- Places -----

  /** A head task is refused only because the loop drains now, or no slot is free. */
  lemma RefusalHasReason(l: Loop, maxSteps: int, before: bool, free: bool)
    requires l.ready != [] && StartHead(l, maxSteps, before, free).1.Refused?
    ensures var m := StartHead(l, maxSteps, before, free).0; m.draining || (!free && m.inFlight == l.inFlight)
  {
  }

  lemma SlotsNeedFlights(cfg: Config, w: World)
    requires cfg.maxConcurrency > 0 && WorkersMatch(w) && SlotsCounted(cfg, w) && w.held >= cfg.maxConcurrency
    ensures w.loop.inFlight != map[]
  {
    assert w.loop.inFlight == map[] ==> Holding(w) == {};
  }

  lemma PlaceAfterStart(cfg: Config, w: World, before: bool)
    requires cfg.maxConcurrency > 0 && WorkersMatch(w) && SlotsCounted(cfg, w) && Enabled(cfg, w, StartNext(before))
    ensures PlaceConsistent(cfg, Apply(cfg, w, StartNext(before)))
  {
    var free := w.held < cfg.maxConcurrency;
    var (l, start) := StartHead(w.loop, cfg.maxSteps, before, free);
    if start.Refused? {
      RefusalHasReason(w.loop, cfg.maxSteps, before, free);
      if !free {
        SlotsNeedFlights(cfg, w);
      }
    }
  }

  lemma PlaceAfterPlanning(cfg: Config, w: World, e: Event)
    requires DrainOk(w.loop, w.log.failed) && PlaceConsistent(cfg, w) && Enabled(cfg, w, e)
    requires e.DecidePlan? || e.Consume? || e.EndPlan? || e.Finalize?
    ensures PlaceConsistent(cfg, Apply(cfg, w, e))
  {
  }

  lemma PlaceKept(cfg: Config, w: World, e: Event)
    requires cfg.maxConcurrency > 0 && TaskInv(cfg, w) && DrainOk(w.loop, w.log.failed) && PlaceConsistent(cfg, w) &&
      Enabled(cfg, w, e)
    ensures PlaceConsistent(cfg, Apply(cfg, w, e))
  {
    if e.StartNext? {
      PlaceAfterStart(cfg, w, e.before);
    } else if e.Receive? {
      ReceivePlaces(cfg, w, e);
    } else if e.DecidePlan? || e.Consume? || e.EndPlan? || e.Finalize? {
      PlaceAfterPlanning(cfg, w, e);
    } else if e.Write? || e.FanOut? || e.Finish? || e.ReleaseSlot? || e.Send? {
      assert e.n in w.loop.inFlight;
    }
  }

  lemma IdleAfterStart(cfg: Config, w: World, e: Event)
    requires cfg.maxConcurrency > 0 && TaskInv(cfg, w) && NeverIdle(cfg, w) && Enabled(cfg, w, e) && e.StartNext?
    ensures NeverIdle(cfg, Apply(cfg, w, e))
  {
    var w' := Apply(cfg, w, e);
    if w'.loop.inFlight == map[] && !w'.loop.draining {
      assert w.loop.inFlight == map[];
      assert Holding(w) == {};
      assert w.loop.ready == [w.loop.ready[0]] + w'.loop.ready;
    }
  }

  /** After a result the loop plans afresh, or it is stopping. */
  lemma ReceivePlaces(cfg: Config, w: World, e: Event)
    requires Enabled(cfg, w, e) && e.Receive?
    ensures var w' := Apply(cfg, w, e);
      (w'.place == Top && (w'.loop.draining || w'.loop.pauseRequested)) ||
      (w'.place == Planning(cfg.triggers.Keys, w.pending, {}, true) && w'.pending == [] && !w'.loop.draining &&
       !w'.loop.pauseRequested)
  {
    NoPlanMeansStopping(w.loop, w.workers[w.done[0]].task, w.workers[w.done[0]].stage.verdict, e.after, e.forced);
  }

  lemma IdleAfterReceive(cfg: Config, w: World, e: Event)
    requires Enabled(cfg, w, e) && e.Receive?
    ensures NeverIdle(cfg, Apply(cfg, w, e))
  {
    ReceivePlaces(cfg, w, e);
  }

  lemma IdleWhilePlanning(cfg: Config, w: World, e: Event)
    requires NeverIdle(cfg, w) && Enabled(cfg, w, e) && (e.DecidePlan? || e.Consume?)
    ensures NeverIdle(cfg, Apply(cfg, w, e))
  {
    if e.Consume? {
      assert e.ch in w.available && e.ch in cfg.triggers <==> e.ch in w.available * cfg.triggers.Keys;
    }
  }

  lemma IdleAfterPlanning(cfg: Config, w: World, e: Event)
    requires NeverIdle(cfg, w) && Enabled(cfg, w, e) && e.EndPlan?
    ensures NeverIdle(cfg, Apply(cfg, w, e))
  {
    ListsMembers(e.order, set n | n in w.place.hit && Creatable(cfg, n));
  }

  lemma IdleAtFinalize(cfg: Config, w: World, e: Event)
    requires NeverIdle(cfg, w) && Enabled(cfg, w, e) && e.Finalize?
    ensures NeverIdle(cfg, Apply(cfg, w, e))
  {
    FinalizeKeepsWork(w.loop, e.keys, e.triggered);
  }

  lemma IdleMeanwhile(cfg: Config, w: World, e: Event)
    requires NeverIdle(cfg, w) && Enabled(cfg, w, e)
    requires e.PollExternal? || e.StopStarting? || e.ContextDone?
    ensures NeverIdle(cfg, Apply(cfg, w, e))
  {
  }

  lemma IdleBesideWorkers(cfg: Config, w: World, e: Event)
    requires TaskInv(cfg, w) && NeverIdle(cfg, w) && Enabled(cfg, w, e)
    requires e.Write? || e.FanOut? || e.Finish? || e.ReleaseSlot? || e.Send?
    ensures NeverIdle(cfg, Apply(cfg, w, e))
  {
    assert e.n in w.loop.inFlight;
  }

  lemma NeverIdleKept(cfg: Config, w: World, e: Event)
    requires cfg.maxConcurrency > 0 && TaskInv(cfg, w) && NeverIdle(cfg, w) && Enabled(cfg, w, e)
    ensures NeverIdle(cfg, Apply(cfg, w, e))
  {
    if e.StartNext? {
      IdleAfterStart(cfg, w, e);
    } else if e.Receive? {
      IdleAfterReceive(cfg, w, e);
    } else if e.DecidePlan? || e.Consume? {
      IdleWhilePlanning(cfg, w, e);
    } else if e.EndPlan? {
      IdleAfterPlanning(cfg, w, e);
    } else if e.Finalize? {
      IdleAtFinalize(cfg, w, e);
    } else if e.PollExternal? || e.StopStarting? || e.ContextDone? {
      IdleMeanwhile(cfg, w, e);
    } else {
      IdleBesideWorkers(cfg, w, e);
    }
  }

  lemma InvKept(cfg: Config, w: World, e: Event)
    requires Inv(cfg, w) && Enabled(cfg, w, e)
    ensures Inv(cfg, Apply(cfg, w, e))
  {
    var w' := Apply(cfg, w, e);
    EventsStepTasks(cfg, w, e);
    TaskInvKept(cfg, w, w');
    ConservedKept(cfg, w, w');
    DrainOkKept(cfg, w, e);
    PlaceKept(cfg, w, e);
  }
}
