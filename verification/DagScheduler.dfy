/**
 The eager DAG scheduler as a machine of interleaved steps: the loop goroutine
 (graph/executor_dag.go:123-630), one goroutine per launched task, and the channels that the
 tasks write while the loop plans. Each semaphore operation, channel write, channel
 consumption and message is one step; the scheduler's claims are proved for every run.
 */
module DagScheduler {
  import opened Prelude
  import opened DagLoopState

  /** The compiled graph and the executor's limits. */
  datatype Config = Config(
    nodes: set<NodeID>,
    triggers: map<Channel, set<NodeID>>,
    entry: NodeID,
    startStep: int,
    maxSteps: int,
    maxConcurrency: nat)

  /** A task goroutine: executing, finished but holding its slot, released, result sent. */
  datatype Stage = Running | Finished(verdict: Verdict) | Released(verdict: Verdict) | Sent(verdict: Verdict)

  datatype Worker = Worker(task: Task, stage: Stage)

  /** Where the loop goroutine is. */
  datatype Place =
    | Top
    | Starting
    | CheckingPlan
    | Planning(todo: set<Channel>, got: seq<Task>, hit: set<NodeID>, onResult: bool)
    | Finalizing
    | Waiting
    | Returned(outcome: Outcome)

  /** What happened so far, for stating the claims. */
  datatype Log = Log(queued: seq<Task>, launched: seq<(Task, int)>, succeeded: seq<Task>, failed: seq<Task>)

  datatype World = World(
    loop: Loop,
    place: Place,
    held: nat,                       // occupied slots of the semaphore
    done: seq<NodeID>,               // messages in the results channel, oldest first
    workers: map<NodeID, Worker>,
    available: set<Channel>,
    pending: seq<Task>,              // fan-out tasks not yet planned
    nextUid: nat,
    log: Log)

  datatype Event =
    | PollExternal(requested: bool)
    | StartNext(before: bool)
    | StopStarting
    | DecidePlan
    | Consume(ch: Channel)
    | EndPlan(order: seq<NodeID>)
    | Finalize(keys: seq<NodeID>, triggered: seq<NodeID>)
    | Receive(after: bool, forced: bool)
    | ContextDone(forced: bool)
    | Write(n: NodeID, ch: Channel)
    | FanOut(n: NodeID, target: NodeID)
    | Finish(n: NodeID, verdict: Verdict)
    | ReleaseSlot(n: NodeID)
    | Send(n: NodeID)

  /** xs enumerates s without repetition. */
  predicate Lists(xs: seq<NodeID>, s: set<NodeID>) {
    multiset(xs) == multiset(s)
  }

  lemma ListsMembers(xs: seq<NodeID>, s: set<NodeID>)
    requires Lists(xs, s)
    ensures |xs| == |s| && forall x :: x in xs <==> x in s
  {
    assert |multiset(xs)| == |xs| && |multiset(s)| == |s|;
    assert forall x :: x in xs <==> x in multiset(xs);
    assert forall x :: x in s <==> x in multiset(s);
  }

  /** createDagTask yields a task only for a real node of the graph. */
  predicate Creatable(cfg: Config, n: NodeID) { Real(n) && n in cfg.nodes }

  function Triggered(cfg: Config, w: World): set<NodeID> {
    set ch, n | ch in cfg.triggers && ch in w.available && n in cfg.triggers[ch] :: n
  }

  predicate Enabled(cfg: Config, w: World, e: Event) {
    match e
    case PollExternal(_) => w.place == Top
    case StartNext(_) => w.place == Starting && !w.loop.draining && !w.loop.pauseRequested && w.loop.ready != []
    case StopStarting => w.place == Starting && (w.loop.draining || w.loop.pauseRequested || w.loop.ready == [])
    case DecidePlan => w.place == CheckingPlan
    case Consume(ch) => w.place.Planning? && ch in w.place.todo
    case EndPlan(order) =>
      w.place.Planning? && w.place.todo == {} &&
      Lists(order, set n | n in w.place.hit && Creatable(cfg, n))
    case Finalize(keys, triggered) =>
      w.place == Finalizing && Lists(keys, w.loop.waiting.Keys) && Lists(triggered, Triggered(cfg, w))
    case Receive(_, _) =>
      w.place == Waiting && w.done != [] && w.done[0] in w.workers && w.workers[w.done[0]].stage.Sent?
    case ContextDone(_) => w.place == Waiting
    case Write(n, _) => n in w.workers && w.workers[n].stage.Running?
    case FanOut(n, _) => n in w.workers && w.workers[n].stage.Running?
    case Finish(n, _) => n in w.workers && w.workers[n].stage.Running?
    case ReleaseSlot(n) => n in w.workers && w.workers[n].stage.Finished? && w.held > 0
    case Send(n) => n in w.workers && w.workers[n].stage.Released? && |w.done| < cfg.maxConcurrency
  }

  function TasksFor(order: seq<NodeID>, uid: nat): (ts: seq<Task>)
    ensures |ts| == |order| && forall i :: 0 <= i < |order| ==> ts[i].node == order[i]
  {
    seq(|order|, i requires 0 <= i < |order| => Task(order[i], uid + i))
  }

  function SetStage(w: World, n: NodeID, stage: Stage): World
    requires n in w.workers
  {
    w.(workers := w.workers[n := w.workers[n].(stage := stage)])
  }

  /** Begin planDagTasks: take the fan-out tasks, then visit the trigger channels one by one. */
  function BeginPlan(cfg: Config, w: World, onResult: bool): World {
    w.(place := Planning(cfg.triggers.Keys, w.pending, {}, onResult), pending := [])
  }

  /** The loop's fields become l; a launch takes a slot and starts a goroutine. */
  function Started(w: World, l: Loop, start: StartResult): World
    requires w.loop.ready != []
  {
    var t := w.loop.ready[0];
    match start
    case Refused => w.(loop := l, place := CheckingPlan)
    case Consumed => w.(loop := l)
    case Launched(step) =>
      w.(loop := l, held := w.held + 1, workers := w.workers[t.node := Worker(t, Running)],
         log := w.log.(launched := w.log.launched + [(t, step)]))
  }

  /** The message of node n is taken, the loop's fields become l, and planning begins if asked for. */
  function Received(cfg: Config, w: World, n: NodeID, l: Loop, plan: bool): World
    requires w.done != [] && n in w.workers && w.workers[n].stage.Sent?
  {
    var t := w.workers[n].task;
    var log := if w.workers[n].stage.verdict == Success then w.log.(succeeded := w.log.succeeded + [t])
               else w.log.(failed := w.log.failed + [t]);
    var landed := w.(loop := l, place := Top, done := w.done[1..], workers := w.workers - {n}, log := log);
    if plan then BeginPlan(cfg, landed, true) else landed
  }

  function Apply(cfg: Config, w: World, e: Event): World
    requires Enabled(cfg, w, e)
  {
    match e
    case PollExternal(requested) => w.(loop := RequestPause(w.loop, requested), place := Starting)
    case StartNext(before) =>
      var (l, start) := StartHead(w.loop, cfg.maxSteps, before, w.held < cfg.maxConcurrency);
      Started(w, l, start)
    case StopStarting => w.(place := CheckingPlan)
    case DecidePlan =>
      if w.loop.draining || w.loop.pauseRequested || w.loop.ready != [] then w.(place := Finalizing)
      else BeginPlan(cfg, w, false)
    case Consume(ch) =>
      var p := w.place;
      var hit := if ch in w.available && ch in cfg.triggers then p.hit + cfg.triggers[ch] else p.hit;
      w.(available := w.available - {ch}, place := p.(todo := p.todo - {ch}, hit := hit))
    case EndPlan(order) =>
      var tasks := w.place.got + TasksFor(order, w.nextUid);
      w.(loop := w.loop.(ready := w.loop.ready + tasks),
         place := if w.place.onResult then Top else Finalizing,
         nextUid := w.nextUid + |order|,
         log := w.log.(queued := w.log.queued + tasks))
    case Finalize(keys, triggered) =>
      var (l, outcome) := TryFinalize(w.loop, keys, triggered);
      w.(loop := l, place := if outcome.Some? then Returned(outcome.value) else Waiting)
    case Receive(after, forced) =>
      var n := w.done[0];
      var t, verdict := w.workers[n].task, w.workers[n].stage.verdict;
      var (l, plan) := HandleTaskResult(w.loop, t, verdict, after, forced);
      Received(cfg, w, n, l, plan)
    case ContextDone(forced) => w.(loop := HandleContextDone(w.loop, forced), place := Top)
    case Write(_, ch) => w.(available := w.available + {ch})
    case FanOut(_, target) => w.(pending := w.pending + [Task(target, w.nextUid)], nextUid := w.nextUid + 1)
    case Finish(n, verdict) => SetStage(w, n, Finished(verdict))
    case ReleaseSlot(n) => SetStage(w, n, Released(w.workers[n].stage.verdict)).(held := w.held - 1)
    case Send(n) => SetStage(w, n, Sent(w.workers[n].stage.verdict)).(done := w.done + [n])
  }

  /** The nodes that seed queues: the ones a checkpoint recorded, nothing on a bare resume, else the entry. */
  function SeedNodes(cfg: Config, nextNodes: seq<NodeID>, resumed: bool): seq<NodeID> {
    if nextNodes != [] then nextNodes else if resumed then [] else [cfg.entry]
  }

  function CreatableOf(cfg: Config, ns: seq<NodeID>): (out: seq<NodeID>)
    ensures forall n :: n in out <==> n in ns && Creatable(cfg, n)
  {
    if ns == [] then []
    else (if Creatable(cfg, ns[0]) then [ns[0]] else []) + CreatableOf(cfg, ns[1..])
  }

  /** newDagLoop and seed, over whatever channels and fan-out tasks the execution starts with. */
  ghost predicate Initial(cfg: Config, w: World, nextNodes: seq<NodeID>, resumed: bool) {
    var seeds := TasksFor(CreatableOf(cfg, SeedNodes(cfg, nextNodes, resumed)), 0);
    cfg.maxConcurrency > 0 &&
    w.loop == Loop(0, cfg.startStep, seeds, map[], map[], false, None, false, None, false, []) &&
    w.place == Top && w.held == 0 && w.done == [] && w.workers == map[] &&
    w.log == Log(seeds, [], [], [])
  }

  /** Step i of the run is a possible step of the machine. */
  ghost predicate StepAt(cfg: Config, run: seq<World>, events: seq<Event>, i: nat)
    requires |run| == |events| + 1 && i < |events|
  {
    Enabled(cfg, run[i], events[i]) && run[i + 1] == Apply(cfg, run[i], events[i])
  }

  ghost predicate IsRun(cfg: Config, run: seq<World>, events: seq<Event>, nextNodes: seq<NodeID>, resumed: bool) {
    |run| == |events| + 1 && Initial(cfg, run[0], nextNodes, resumed) &&
    forall i :: 0 <= i < |events| ==> StepAt(cfg, run, events, i)
  }
}
