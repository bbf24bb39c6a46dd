/**
 The state of the eager DAG scheduler's loop (graph/executor_dag.go) and its handlers, each
 as a function on the loop's own fields. The environment (workers, channels, semaphore) and
 the interleavings are in DagScheduler.
 */
module DagLoopState {
  import opened Prelude

  /** Node ids and channel names, numbered. BLANK is the empty id, which nil tasks count as. */
  type NodeID = nat
  type Channel = nat

  const BLANK: NodeID := 0
  const END: NodeID := 1

  /** One scheduled activation of a node; `uid` keeps activations of one node apart. */
  datatype Task = Task(node: NodeID, uid: nat)

  predicate Real(n: NodeID) { n != BLANK && n != END }

  datatype Interrupt =
    | Raised(task: Task)          // the node itself interrupted
    | StaticBefore(task: Task)
    | StaticAfter(task: Task)
    | External(forced: bool)

  datatype DrainError = TaskFailed(task: Task) | ContextCancelled | Interrupted(cause: Interrupt)

  /** How a task's goroutine ended. */
  datatype Verdict = Success | Interrupts | Fails

  datatype Outcome =
    | Completed
    | StepsExhausted
    | Aborted(error: DrainError)
    | Paused(cause: Interrupt, nextNodes: seq<NodeID>)

  /** The fields of dagLoop that only the loop goroutine touches. */
  datatype Loop = Loop(
    executed: nat,
    nextStep: int,
    ready: seq<Task>,
    inFlight: map<NodeID, Task>,
    waiting: map<NodeID, seq<Task>>,
    draining: bool,
    drainErr: Option<DrainError>,
    drainMaxStep: bool,
    pendingIntr: Option<Interrupt>,
    pauseRequested: bool,
    rerunNodes: seq<NodeID>)

  function StartDraining(l: Loop, error: DrainError): Loop {
    if l.draining then l else l.(draining := true, drainErr := Some(error))
  }

  function StartDrainingMaxStep(l: Loop): Loop {
    if l.draining then l else l.(draining := true, drainMaxStep := true)
  }

  function StartDrainingInterrupt(l: Loop, cause: Interrupt): Loop {
    var marked := if l.pendingIntr.None? then l.(pendingIntr := Some(cause)) else l;
    StartDraining(marked, Interrupted(cause))
  }

  function RequestPause(l: Loop, requested: bool): Loop {
    if l.draining || l.pauseRequested || !requested then l else l.(pauseRequested := true)
  }

  /** What startTask did with the head of the ready queue. */
  datatype StartResult = Refused | Consumed | Launched(step: int)

  /**
   startTask followed by the queue update of consumeReadyHead. `before` says that the node's
   static interrupt fires, `free` that the semaphore has a free slot.
   */
  function StartHead(l: Loop, maxSteps: int, before: bool, free: bool): (Loop, StartResult)
    requires l.ready != []
  {
    var t, rest := l.ready[0], l.ready[1..];
    if t.node == BLANK then (l.(ready := rest), Consumed)
    else if t.node in l.inFlight then
      (l.(ready := rest, waiting := l.waiting[t.node := WaitingAt(l, t.node) + [t]]), Consumed)
    else if before && !l.draining && l.pendingIntr.None? then (StartDrainingInterrupt(l, StaticBefore(t)), Refused)
    else if !free then (l, Refused)
    else if l.nextStep >= maxSteps then (StartDrainingMaxStep(l), Refused)
    else (l.(ready := rest, nextStep := l.nextStep + 1, inFlight := l.inFlight[t.node := t]), Launched(l.nextStep))
  }

  function WaitingAt(l: Loop, n: NodeID): seq<Task> {
    if n in l.waiting then l.waiting[n] else []
  }

  function RecordRerun(l: Loop, t: Task): Loop {
    if l.pendingIntr.None? || !Real(t.node) then l else l.(rerunNodes := l.rerunNodes + [t.node])
  }

  function HandleTaskError(l: Loop, t: Task, verdict: Verdict, forced: bool): Loop {
    if l.draining then RecordRerun(l, t)
    else if forced then RecordRerun(StartDrainingInterrupt(l, External(true)), t)
    else if verdict == Interrupts then StartDrainingInterrupt(l, Raised(t))
    else StartDraining(l, TaskFailed(t))
  }

  /** The first half of handleTaskResult: the node is free again, its waiting tasks are ready. */
  function Land(l: Loop, n: NodeID): Loop {
    l.(inFlight := l.inFlight - {n}, ready := l.ready + WaitingAt(l, n), waiting := l.waiting - {n})
  }

  /** handleTaskResult up to planning; the second component says whether it goes on to plan. */
  function HandleTaskResult(l: Loop, t: Task, verdict: Verdict, after: bool, forced: bool): (Loop, bool) {
    var landed := if t.node == BLANK then l else Land(l, t.node);
    if verdict != Success then (HandleTaskError(landed, t, verdict, forced), false)
    else
      var counted := landed.(executed := landed.executed + 1);
      if after && !counted.draining && counted.pendingIntr.None?
      then (StartDrainingInterrupt(counted, StaticAfter(t)), false)
      else (counted, !counted.draining && !counted.pauseRequested)
  }

  function HandleContextDone(l: Loop, forced: bool): Loop {
    if l.draining then l
    else if forced then StartDrainingInterrupt(l, External(true))
    else StartDraining(l, ContextCancelled)
  }

  function StartRequestedExternalInterrupt(l: Loop): Loop {
    if !l.pauseRequested || l.draining || l.pendingIntr.Some? then l
    else StartDrainingInterrupt(l, External(false))
  }

  function NodesOf(ts: seq<Task>): (ns: seq<NodeID>)
    ensures |ns| == |ts| && forall i :: 0 <= i < |ts| ==> ns[i] == ts[i].node
  {
    seq(|ts|, i requires 0 <= i < |ts| => ts[i].node)
  }

  /** appendNode: blank nodes and the end marker are never recorded. */
  function RealNodes(ns: seq<NodeID>): seq<NodeID> {
    if ns == [] then []
    else RealNodes(ns[..|ns| - 1]) + (if Real(ns[|ns| - 1]) then [ns[|ns| - 1]] else [])
  }

  function Copies(n: NodeID, k: nat): seq<NodeID> {
    seq(k, _ => n)
  }

  function WaitingNodes(l: Loop, keys: seq<NodeID>): seq<NodeID> {
    if keys == [] then []
    else
      var n := keys[|keys| - 1];
      WaitingNodes(l, keys[..|keys| - 1]) + Copies(n, |WaitingAt(l, n)|)
  }

  /** Nodes triggered by an available channel that the snapshot does not list yet. */
  function Unseen(seen: seq<NodeID>, triggered: seq<NodeID>): seq<NodeID> {
    if triggered == [] then []
    else
      var n := triggered[|triggered| - 1];
      Unseen(seen, triggered[..|triggered| - 1]) + (if n in seen then [] else [n])
  }

  /** snapshotNextNodes; `keys` lists the waiting nodes and `triggered` is getNextNodes, in some order. */
  function SnapshotNextNodes(l: Loop, keys: seq<NodeID>, triggered: seq<NodeID>): seq<NodeID> {
    var outstanding := RealNodes(NodesOf(l.ready) + WaitingNodes(l, keys) + l.rerunNodes);
    outstanding + RealNodes(Unseen(outstanding, triggered))
  }

  /** tryFinalize: the outcome, when the loop is to return. */
  function TryFinalize(l: Loop, keys: seq<NodeID>, triggered: seq<NodeID>): (Loop, Option<Outcome>) {
    var idle := l.inFlight == map[];
    var m := if l.pauseRequested && idle then StartRequestedExternalInterrupt(l) else l;
    if m.pendingIntr.Some? && idle then (m, Some(Paused(m.pendingIntr.value, SnapshotNextNodes(m, keys, triggered))))
    else if m.draining && idle then
      (m, Some(if m.drainMaxStep || m.drainErr.None? then StepsExhausted else Aborted(m.drainErr.value)))
    else if m.draining || m.pauseRequested || !idle || m.ready != [] then (m, None)
    else (m, Some(Completed))
  }

  // ----- Frames of the handlers -----

  /** Draining bookkeeping leaves the queues, the counters and the flights alone. */
  ghost predicate SameWork(l: Loop, m: Loop) {
    m.executed == l.executed && m.nextStep == l.nextStep && m.ready == l.ready && m.inFlight == l.inFlight &&
    m.waiting == l.waiting
  }

  lemma ErrorKeepsWork(l: Loop, t: Task, verdict: Verdict, forced: bool)
    ensures SameWork(l, HandleTaskError(l, t, verdict, forced))
  {
  }

  lemma ResultLands(l: Loop, t: Task, verdict: Verdict, after: bool, forced: bool)
    requires t.node != BLANK
    ensures SameWork(Land(l, t.node).(executed := l.executed + if verdict == Success then 1 else 0),
                     HandleTaskResult(l, t, verdict, after, forced).0)
  {
    ErrorKeepsWork(Land(l, t.node), t, verdict, forced);
  }

  /** A result that is not followed by planning leaves the loop draining or pausing. */
  lemma NoPlanMeansStopping(l: Loop, t: Task, verdict: Verdict, after: bool, forced: bool)
    ensures var (m, plan) := HandleTaskResult(l, t, verdict, after, forced);
      plan <==> !m.draining && !m.pauseRequested && verdict == Success
    ensures HandleTaskResult(l, t, verdict, after, forced).1 ||
      HandleTaskResult(l, t, verdict, after, forced).0.draining || l.pauseRequested
    ensures HandleTaskResult(l, t, verdict, after, forced).0.pauseRequested == l.pauseRequested
  {
  }

  lemma FinalizeKeepsWork(l: Loop, keys: seq<NodeID>, triggered: seq<NodeID>)
    ensures SameWork(l, TryFinalize(l, keys, triggered).0)
  {
  }

  lemma CancelKeepsWork(l: Loop, forced: bool)
    ensures SameWork(l, HandleContextDone(l, forced))
  {
  }
}
