/**
 The workspace registry as a concurrent protocol (codeexecutor/registry.go:88-254).

 Every lock section, every backend probe and each end of a backend creation is one atomic
 event; any number of acquirers, detached creations, invalidations and backend
 replacements interleave freely. The world keeps the history of the cache bindings and of
 the backend instance, so that claims about "some instant during the call" can be stated.
 */
module RegistryProtocol {
  import opened Prelude
  import opened WorkspaceCache

  /** How a successful acquire obtained its entry: the three return paths. */
  datatype Route = Cached | Validated(probedAt: nat) | Created

  /** Where one call of `acquire` stands. The `nat`s are instants (indices of the history). */
  datatype Phase =
    | Looking
    | Probing(entry: Entry, readAt: nat)
    | Probed(entry: Entry, readAt: nat, current: InstanceID, probedAt: nat)
    | Waiting(call: nat)
    | Returned(entry: Entry, seenAt: nat, route: Route)
    | Failed(error: Error)

  datatype Acquirer = Acquirer(id: WorkspaceID, aware: bool, start: nat, cancelled: bool, retries: nat, phase: Phase)

  /** Where one detached createWorkspace goroutine stands. */
  datatype Progress =
    | Begun
    | Ready(before: InstanceID, readyAt: nat)
    | Building(before: InstanceID, readyAt: nat, begunAt: nat)
    | Built(before: InstanceID, readyAt: nat, ws: Workspace)
    | Settled(outcome: Outcome)
    | Committed(result: Result<Entry, Error>, at: nat)

  datatype Creation = Creation(id: WorkspaceID, aware: bool, progress: Progress)

  datatype World = World(
    cache: Cache<nat>,
    acquirers: map<nat, Acquirer>,
    creations: seq<Creation>,
    bindings: seq<map<WorkspaceID, Entry>>,  // bindings[k] is byID at instant k
    instances: seq<InstanceID>)              // instances[k] is the backend instance at instant k
  {
    function Now(): nat
      requires |bindings| > 0
    {
      |bindings| - 1
    }
  }

  /** What the backend answers to an InstanceID probe. */
  datatype Answer = Current | Blank | Broken

  datatype Event =
    | Call(t: nat, id: WorkspaceID, aware: bool)
    | Cancel(t: nat)
    | LookupSection(t: nat)
    | ProbeBackend(t: nat, answer: Answer)
    | RevalidateSection(t: nat)
    | WakeUp(t: nat)
    | GiveUp(t: nat)
    | ProbeBefore(c: nat, answer: Answer)
    | BeginCreate(c: nat)
    | EndCreate(c: nat, ok: bool)
    | ProbeAfter(c: nat, answer: Answer)
    | CommitSection(c: nat)
    | InvalidateSection(id: WorkspaceID, token: nat)
    | ReplaceInstance(instance: InstanceID)

  /** When an event can happen. The backend contract (never reuse an instance ID) is the last case. */
  predicate Enabled(w: World, e: Event) {
    |w.bindings| > 0 && |w.instances| == |w.bindings| &&
    match e
    case Call(t, _, _) => t !in w.acquirers
    case Cancel(t) => t in w.acquirers
    case LookupSection(t) => t in w.acquirers && w.acquirers[t].phase.Looking?
    case ProbeBackend(t, _) => t in w.acquirers && w.acquirers[t].phase.Probing?
    case RevalidateSection(t) => t in w.acquirers && w.acquirers[t].phase.Probed?
    case WakeUp(t) =>
      t in w.acquirers && w.acquirers[t].phase.Waiting? &&
      w.acquirers[t].phase.call < |w.creations| && w.creations[w.acquirers[t].phase.call].progress.Committed?
    case GiveUp(t) => t in w.acquirers && w.acquirers[t].phase.Waiting? && w.acquirers[t].cancelled
    case ProbeBefore(c, _) => c < |w.creations| && w.creations[c].progress.Begun?
    case BeginCreate(c) => c < |w.creations| && w.creations[c].progress.Ready?
    case EndCreate(c, _) => c < |w.creations| && w.creations[c].progress.Building?
    case ProbeAfter(c, _) => c < |w.creations| && w.creations[c].progress.Built?
    case CommitSection(c) => c < |w.creations| && w.creations[c].progress.Settled?
    case InvalidateSection(_, _) => true
    case ReplaceInstance(instance) => instance != "" && instance !in w.instances
  }

  function SetPhase(w: World, t: nat, phase: Phase): World
    requires t in w.acquirers
  {
    w.(acquirers := w.acquirers[t := w.acquirers[t].(phase := phase)])
  }

  function SetProgress(w: World, c: nat, progress: Progress): World
    requires c < |w.creations|
  {
    w.(creations := w.creations[c := w.creations[c].(progress := progress)])
  }

  /** Unlock with the verdict of a lock section; a Launch registers the call and starts its goroutine. */
  function Follow(w: World, t: nat, verdict: Verdict<nat>, route: Route): World
    requires t in w.acquirers
    requires |w.bindings| > 0
  {
    var a := w.acquirers[t];
    var next := |w.bindings|;
    match verdict
    case Hit(entry) => SetPhase(w, t, Returned(entry, next, route))
    case Fail(error) => SetPhase(w, t, Failed(error))
    case Join(call) => SetPhase(w, t, Waiting(call))
    case Probe(entry) => SetPhase(w, t, Probing(entry, next))
    case Retry => w.(acquirers := w.acquirers[t := a.(phase := Looking, retries := a.retries + 1)])
    case Launch =>
      var call := |w.creations|;
      SetPhase(w, t, Waiting(call)).(
        cache := Register(w.cache, a.id, call),
        creations := w.creations + [Creation(a.id, a.aware, Begun)])
  }

  /** The acquirers, creations and cache after an event; the histories are left to Apply. */
  function Effect(w: World, e: Event): World
    requires Enabled(w, e)
  {
    var next := |w.bindings|;
    var current := w.instances[w.Now()];
    match e
    case Call(t, id, aware) =>
      w.(acquirers := w.acquirers[t := Acquirer(id, aware, next, false, 0, Looking)])
    case Cancel(t) =>
      w.(acquirers := w.acquirers[t := w.acquirers[t].(cancelled := true)])
    case LookupSection(t) =>
      var a := w.acquirers[t];
      Follow(w, t, Lookup(w.cache, a.id, a.aware, a.cancelled), Cached)
    case ProbeBackend(t, answer) =>
      var p := w.acquirers[t].phase;
      (match answer
       case Broken => SetPhase(w, t, Failed(ProbeFailed))
       case Blank => SetPhase(w, t, Failed(InstanceEmpty))
       case Current => SetPhase(w, t, Probed(p.entry, p.readAt, current, next)))
    case RevalidateSection(t) =>
      var a := w.acquirers[t];
      Follow(w, t, Revalidate(w.cache, a.id, a.phase.entry, a.phase.current), Validated(a.phase.probedAt))
    case WakeUp(t) =>
      var p := w.creations[w.acquirers[t].phase.call].progress;
      (match p.result
       case Ok(entry) => SetPhase(w, t, Returned(entry, p.at, Created))
       case Err(error) => SetPhase(w, t, Failed(error)))
    case GiveUp(t) => SetPhase(w, t, Failed(Cancelled))
    case ProbeBefore(c, answer) =>
      if !w.creations[c].aware then SetProgress(w, c, Ready("", next))
      else (match answer
            case Broken => SetProgress(w, c, Settled(Err(ProbeFailed)))
            case Blank => SetProgress(w, c, Settled(Err(InstanceEmpty)))
            case Current => SetProgress(w, c, Ready(current, next)))
    case BeginCreate(c) =>
      var p := w.creations[c].progress;
      SetProgress(w, c, Building(p.before, p.readyAt, next))
    case EndCreate(c, ok) =>
      var p := w.creations[c].progress;
      if ok then SetProgress(w, c, Built(p.before, p.readyAt, Workspace(c, p.begunAt, next)))
      else SetProgress(w, c, Settled(Err(CreateFailed)))
    case ProbeAfter(c, answer) =>
      var p := w.creations[c].progress;
      if !w.creations[c].aware then SetProgress(w, c, Settled(Ok((p.ws, p.before))))
      else (match answer
            case Broken => SetProgress(w, c, Settled(Err(ProbeFailed)))
            case Blank => SetProgress(w, c, Settled(Err(InstanceEmpty)))
            case Current =>
              if current != p.before then SetProgress(w, c, Settled(Err(InstanceChanged)))
              else SetProgress(w, c, Settled(Ok((p.ws, p.before)))))
    case CommitSection(c) =>
      var id, outcome := w.creations[c].id, w.creations[c].progress.outcome;
      SetProgress(w, c, Committed(CommitResult(w.cache, outcome), next)).(cache := Commit(w.cache, id, outcome))
    case InvalidateSection(id, token) => w.(cache := Evict(w.cache, id, token))
    case ReplaceInstance(_) => w
  }

  /** One step of the protocol: the effect of the event, recorded as a new instant. */
  function Apply(w: World, e: Event): World
    requires Enabled(w, e)
  {
    var w' := Effect(w, e);
    var instance := if e.ReplaceInstance? then e.instance else w.instances[w.Now()];
    w'.(bindings := w.bindings + [w'.cache.byID], instances := w.instances + [instance])
  }

  ghost predicate Initial(w: World) {
    w.cache == Cache(map[], map[], 0) && w.acquirers == map[] && w.creations == [] &&
    w.bindings == [map[]] && |w.instances| == 1 && w.instances[0] != ""
  }

  /** `run` lists the worlds of an execution from a fresh registry, one event apart. */
  ghost predicate IsRun(run: seq<World>, events: seq<Event>) {
    |run| == |events| + 1 && Initial(run[0]) &&
    forall i {:trigger events[i]} :: 0 <= i < |events| ==>
      Enabled(run[i], events[i]) && run[i + 1] == Apply(run[i], events[i])
  }

  // ----- Invariant -----

  /** At instant k the cache bound id to e. */
  ghost predicate Bound(w: World, k: int, id: WorkspaceID, e: Entry) {
    0 <= k < |w.bindings| && id in w.bindings[k] && w.bindings[k][id] == e
  }

  ghost predicate InstanceAt(w: World, k: int, instance: InstanceID) {
    0 <= k < |w.instances| && w.instances[k] == instance
  }

  ghost predicate Clocks(w: World) {
    |w.bindings| > 0 && |w.instances| == |w.bindings| && w.bindings[|w.bindings| - 1] == w.cache.byID
  }

  /** Installed tokens lie in 1..nextToken, and nextToken never wraps. */
  ghost predicate TokensInRange(w: World) {
    w.cache.nextToken <= MAX_TOKEN &&
    forall k, id, e :: Bound(w, k, id, e) ==> 0 < e.token <= w.cache.nextToken
  }

  /** A token names one entry under one id for ever. */
  ghost predicate TokensUnique(w: World) {
    forall j, k, id, id', e, e' :: Bound(w, j, id, e) && Bound(w, k, id', e') && e.token == e'.token ==>
      id == id' && e == e'
  }

  /** An entry bound at two instants is bound at every instant between them. */
  ghost predicate BoundContiguously(w: World) {
    forall i, j, k, id, e :: i <= j <= k && Bound(w, i, id, e) && Bound(w, k, id, e) ==> Bound(w, j, id, e)
  }

  ghost predicate InstancesContiguous(w: World) {
    forall i, j, k, x :: i <= j <= k && InstanceAt(w, i, x) && InstanceAt(w, k, x) ==> InstanceAt(w, j, x)
  }

  ghost predicate InstancesNamed(w: World) {
    forall k :: 0 <= k < |w.instances| ==> w.instances[k] != ""
  }

  ghost predicate Uncommitted(w: World, c: nat) {
    c < |w.creations| && !w.creations[c].progress.Committed?
  }

  /** The in-flight table is exactly the set of uncommitted creations, one per id. */
  ghost predicate SingleFlight(w: World) {
    (forall id :: id in w.cache.inflight ==>
     Uncommitted(w, w.cache.inflight[id]) && w.creations[w.cache.inflight[id]].id == id) &&
    (forall c: nat :: Uncommitted(w, c) ==>
     w.creations[c].id in w.cache.inflight && w.cache.inflight[w.creations[c].id] == c)
  }

  /** The backend ran instance `instance` from the beginning to the end of the creation of ws. */
  ghost predicate BuiltInside(w: World, instance: InstanceID, ws: Workspace) {
    ws.begunAt <= ws.doneAt < |w.instances| &&
    forall k :: ws.begunAt <= k <= ws.doneAt ==> InstanceAt(w, k, instance)
  }

  /** An entry that records an instance was built inside it; only legacy managers record none. */
  ghost predicate Inside(w: World, instance: InstanceID, ws: Workspace) {
    instance != "" ==> BuiltInside(w, instance, ws)
  }

  ghost predicate ProbedFirst(w: World, aware: bool, before: InstanceID, readyAt: nat) {
    readyAt < |w.instances| &&
    if aware then before != "" && InstanceAt(w, readyAt, before) else before == ""
  }

  /** The entry was installed at instant k. */
  ghost predicate Fresh(w: World, k: int, id: WorkspaceID, e: Entry) {
    Bound(w, k, id, e) && !Bound(w, k - 1, id, e)
  }

  ghost predicate CreationOk(w: World, c: nat)
    requires c < |w.creations|
  {
    var aware := w.creations[c].aware;
    match w.creations[c].progress
    case Begun => true
    case Ready(before, readyAt) => ProbedFirst(w, aware, before, readyAt)
    case Building(before, readyAt, begunAt) =>
      ProbedFirst(w, aware, before, readyAt) && readyAt <= begunAt < |w.instances|
    case Built(before, readyAt, ws) =>
      ProbedFirst(w, aware, before, readyAt) && readyAt <= ws.begunAt <= ws.doneAt < |w.instances|
    case Settled(outcome) =>
      outcome.Ok? ==> Inside(w, outcome.value.1, outcome.value.0) && (aware <==> outcome.value.1 != "")
    case Committed(result, at) =>
      at < |w.bindings| &&
      (result.Ok? ==> Fresh(w, at, w.creations[c].id, result.value) && (aware <==> result.value.instance != ""))
  }

  ghost predicate CreationsOk(w: World) {
    forall c: nat :: c < |w.creations| ==> CreationOk(w, c)
  }

  ghost predicate EntriesInside(w: World) {
    forall k, id, e :: Bound(w, k, id, e) ==> Inside(w, e.instance, e.ws)
  }

  /** How often the binding of id changed after instant i, up to instant j. */
  ghost function Changes(w: World, id: WorkspaceID, i: nat, j: nat): nat
    requires i <= j < |w.bindings|
    decreases j - i
  {
    if i == j then 0
    else Changes(w, id, i, j - 1) + (if BindingAt(w, id, j - 1) == BindingAt(w, id, j) then 0 else 1)
  }

  ghost function BindingAt(w: World, id: WorkspaceID, k: nat): Option<Entry>
    requires k < |w.bindings|
  {
    if id in w.bindings[k] then Some(w.bindings[k][id]) else None
  }

  /** What holds of one call of acquire at the present instant. */
  ghost predicate AcquirerOk(w: World, t: nat)
    requires t in w.acquirers && |w.bindings| > 0
  {
    var a := w.acquirers[t];
    a.start < |w.bindings| &&
    match a.phase
    case Looking => a.retries <= Changes(w, a.id, a.start, w.Now())
    case Probing(entry, readAt) =>
      a.aware && a.start <= readAt && Bound(w, readAt, a.id, entry) && a.retries <= Changes(w, a.id, a.start, readAt)
    case Probed(entry, readAt, current, probedAt) =>
      a.aware && a.start <= readAt <= probedAt && Bound(w, readAt, a.id, entry) && InstanceAt(w, probedAt, current) &&
      a.retries <= Changes(w, a.id, a.start, readAt)
    case Waiting(call) =>
      a.retries <= Changes(w, a.id, a.start, w.Now()) &&
      call < |w.creations| && w.creations[call].id == a.id &&
      (w.creations[call].progress.Committed? ==> a.start < w.creations[call].progress.at)
    case Returned(entry, seenAt, route) =>
      a.retries <= Changes(w, a.id, a.start, w.Now()) &&
      a.start <= seenAt && Bound(w, seenAt, a.id, entry) &&
      (match route
       case Cached => !a.aware
       case Validated(probedAt) => a.start <= probedAt <= seenAt && InstanceAt(w, probedAt, entry.instance)
       case Created => a.start < seenAt && Fresh(w, seenAt, a.id, entry))
    case Failed(_) => a.retries <= Changes(w, a.id, a.start, w.Now())
  }

  ghost predicate AcquirersOk(w: World)
    requires |w.bindings| > 0
  {
    forall t :: t in w.acquirers ==> AcquirerOk(w, t)
  }

  ghost predicate Inv(w: World) {
    Clocks(w) && TokensInRange(w) && TokensUnique(w) && BoundContiguously(w) && InstancesContiguous(w) &&
    InstancesNamed(w) && SingleFlight(w) && CreationsOk(w) && EntriesInside(w) && AcquirersOk(w)
  }

  // ----- Preservation, one conjunct at a time -----

  ghost predicate Removes(before: map<WorkspaceID, Entry>, after: map<WorkspaceID, Entry>, id: WorkspaceID) {
    id in before && after == before - {id}
  }

  ghost predicate Installs(before: map<WorkspaceID, Entry>, after: map<WorkspaceID, Entry>, id: WorkspaceID, e: Entry) {
    after == before[id := e]
  }

  /** What any event does to the bindings: nothing, one removal, or one installation under a fresh token. */
  ghost predicate BindingStep(w: World, w': World) {
    var before, after := w.cache.byID, w'.cache.byID;
    w.cache.nextToken <= w'.cache.nextToken <= MAX_TOKEN &&
    (after == before ||
     (exists id :: Removes(before, after, id)) ||
     (exists id, e ::
        Installs(before, after, id, e) && e.token == w.cache.nextToken + 1 == w'.cache.nextToken &&
        Inside(w, e.instance, e.ws)))
  }

  lemma EventsStepBindings(w: World, e: Event)
    requires Clocks(w) && CreationsOk(w) && w.cache.nextToken <= MAX_TOKEN && Enabled(w, e)
    ensures BindingStep(w, Apply(w, e))
  {
    var before, after := w.cache.byID, Apply(w, e).cache.byID;
    match e
    case CommitSection(c) =>
      assert CreationOk(w, c);
      var r := CommitResult(w.cache, w.creations[c].progress.outcome);
      if r.Ok? {
        assert Installs(before, after, w.creations[c].id, r.value);
      }
    case InvalidateSection(id, token) =>
      if Names(w.cache, id, token) {
        assert Removes(before, after, id);
      }
    case _ =>
  }

  /** Past instants are not rewritten; the new instant shows the new cache. */
  lemma PastIsFixed(w: World, e: Event)
    requires Clocks(w) && Enabled(w, e)
    ensures var w' := Apply(w, e);
      Clocks(w') && |w'.bindings| == |w.bindings| + 1 && w.bindings <= w'.bindings &&
      (forall k, id, x :: k < |w.bindings| ==> (Bound(w', k, id, x) <==> Bound(w, k, id, x))) &&
      (forall k, x :: k < |w.instances| ==> (InstanceAt(w', k, x) <==> InstanceAt(w, k, x))) &&
      (forall x, ws :: Inside(w, x, ws) ==> Inside(w', x, ws))
  {
  }

  /** The event installed x for id, under the next token. */
  ghost predicate Installed(w: World, e: Event, id: WorkspaceID, x: Entry)
    requires Enabled(w, e)
  {
    x.token == w.cache.nextToken + 1 == Apply(w, e).cache.nextToken && Inside(w, x.instance, x.ws) &&
    Installs(w.cache.byID, Apply(w, e).cache.byID, id, x)
  }

  /** A binding seen at the new instant was already there, or has just been installed. */
  lemma NewBindings(w: World, e: Event, id: WorkspaceID, x: Entry)
    requires Clocks(w) && CreationsOk(w) && TokensInRange(w) && Enabled(w, e)
    requires Bound(Apply(w, e), |w.bindings|, id, x)
    ensures Bound(w, |w.bindings| - 1, id, x) || Installed(w, e, id, x)
  {
    var before, after := w.cache.byID, Apply(w, e).cache.byID;
    EventsStepBindings(w, e);
    if !Bound(w, |w.bindings| - 1, id, x) {
      assert exists id', x' :: Installs(before, after, id', x');
      var id', x' :| Installs(before, after, id', x') &&
        x'.token == w.cache.nextToken + 1 == Apply(w, e).cache.nextToken && Inside(w, x'.instance, x'.ws);
      assert id == id' && x == x';
    }
  }

  /** A binding seen at any instant was seen before the event, or has just been installed. */
  lemma SeenBindings(w: World, e: Event, k: int, id: WorkspaceID, x: Entry)
    requires Clocks(w) && CreationsOk(w) && TokensInRange(w) && Enabled(w, e)
    requires Bound(Apply(w, e), k, id, x)
    ensures (exists i :: Bound(w, i, id, x)) || Installed(w, e, id, x)
  {
    PastIsFixed(w, e);
    if k == |w.bindings| {
      NewBindings(w, e, id, x);
    } else {
      assert Bound(w, k, id, x);
    }
  }

  lemma TokenRangeKept(w: World, e: Event)
    requires Clocks(w) && CreationsOk(w) && TokensInRange(w) && EntriesInside(w) && Enabled(w, e)
    ensures TokensInRange(Apply(w, e)) && EntriesInside(Apply(w, e))
  {
    var w' := Apply(w, e);
    EventsStepBindings(w, e);
    PastIsFixed(w, e);
    forall k, id, x | Bound(w', k, id, x)
      ensures 0 < x.token <= w'.cache.nextToken && Inside(w', x.instance, x.ws)
    {
      SeenBindings(w, e, k, id, x);
    }
  }

  lemma TokensUniqueKept(w: World, e: Event)
    requires Clocks(w) && CreationsOk(w) && TokensInRange(w) && TokensUnique(w) && Enabled(w, e)
    ensures TokensUnique(Apply(w, e))
  {
    var w' := Apply(w, e);
    forall j, k, id, id', x, x' | Bound(w', j, id, x) && Bound(w', k, id', x') && x.token == x'.token
      ensures id == id' && x == x'
    {
      SeenBindings(w, e, j, id, x);
      SeenBindings(w, e, k, id', x');
      if Installed(w, e, id, x) && Installed(w, e, id', x') {
        InstalledOnce(w, e, id, x, id', x');
      }
    }
  }

  /** One event installs at most one entry. */
  lemma InstalledOnce(w: World, e: Event, id: WorkspaceID, x: Entry, id': WorkspaceID, x': Entry)
    requires Clocks(w) && TokensInRange(w) && Enabled(w, e) && Installed(w, e, id, x) && Installed(w, e, id', x')
    ensures id == id' && x == x'
  {
    var after, now := Apply(w, e).cache.byID, w.Now();
    assert after[id] == x && after[id'] == x';
    assert id == id' || Bound(w, now, id, x);
  }

  lemma TokensKept(w: World, e: Event)
    requires Clocks(w) && CreationsOk(w) && TokensInRange(w) && TokensUnique(w) && EntriesInside(w) && Enabled(w, e)
    ensures var w' := Apply(w, e); TokensInRange(w') && TokensUnique(w') && EntriesInside(w')
  {
    TokenRangeKept(w, e);
    TokensUniqueKept(w, e);
  }

  lemma ContiguityKept(w: World, e: Event)
    requires Clocks(w) && CreationsOk(w) && TokensInRange(w) && Enabled(w, e)
    requires BoundContiguously(w) && InstancesContiguous(w) && InstancesNamed(w)
    ensures var w' := Apply(w, e); BoundContiguously(w') && InstancesContiguous(w') && InstancesNamed(w')
  {
    var w' := Apply(w, e);
    PastIsFixed(w, e);
    var now := w.Now();
    forall i, j, k, id, x | i <= j <= k && Bound(w', i, id, x) && Bound(w', k, id, x)
      ensures Bound(w', j, id, x)
    {
      if k == now + 1 && j < k {
        assert Bound(w, i, id, x);
        NewBindings(w, e, id, x);
        assert Bound(w, now, id, x);
      }
    }
    forall i, j, k, x | i <= j <= k && InstanceAt(w', i, x) && InstanceAt(w', k, x)
      ensures InstanceAt(w', j, x)
    {
      if k == now + 1 && j < k {
        assert InstanceAt(w, i, x) && x in w.instances;
        assert InstanceAt(w, now, x);
      }
    }
  }

  lemma SingleFlightKept(w: World, e: Event)
    requires SingleFlight(w) && Enabled(w, e)
    ensures SingleFlight(Apply(w, e))
  {
    var w' := Apply(w, e);
    forall c: nat | Uncommitted(w', c)
      ensures w'.creations[c].id in w'.cache.inflight && w'.cache.inflight[w'.creations[c].id] == c
    {
      UncommittedIsInFlight(w, e, c);
    }
    forall id | id in w'.cache.inflight
      ensures Uncommitted(w', w'.cache.inflight[id]) && w'.creations[w'.cache.inflight[id]].id == id
    {
      InFlightIsUncommitted(w, e, id);
    }
  }

  /** Only CommitSection changes whether a creation is committed, and no event changes its id. */
  lemma CreationIdentity(w: World, e: Event, c: nat)
    requires Enabled(w, e) && c < |w.creations|
    ensures var w' := Apply(w, e);
      c < |w'.creations| && w'.creations[c].id == w.creations[c].id && w'.creations[c].aware == w.creations[c].aware &&
      (w'.creations[c].progress.Committed? <==> w.creations[c].progress.Committed? || e == CommitSection(c))
  {
  }

  /** Every event keeps the in-flight table, except a launch under the next number and a commit. */
  lemma InFlightStep(w: World, e: Event)
    requires Enabled(w, e)
    ensures var w' := Apply(w, e);
      (e.CommitSection? ==>
       w'.cache.inflight == w.cache.inflight - {w.creations[e.c].id} && |w'.creations| == |w.creations|) &&
      (!e.CommitSection? ==>
         (w'.cache.inflight == w.cache.inflight && |w'.creations| == |w.creations|) ||
         (|w'.creations| == |w.creations| + 1 && w'.creations[|w.creations|].progress == Begun &&
          w'.creations[|w.creations|].id !in w.cache.inflight &&
          w'.cache.inflight == w.cache.inflight[w'.creations[|w.creations|].id := |w.creations|]))
  {
  }

  lemma UncommittedIsInFlight(w: World, e: Event, c: nat)
    requires SingleFlight(w) && Enabled(w, e) && Uncommitted(Apply(w, e), c)
    ensures var w' := Apply(w, e);
      w'.creations[c].id in w'.cache.inflight && w'.cache.inflight[w'.creations[c].id] == c
  {
    InFlightStep(w, e);
    if c < |w.creations| {
      CreationIdentity(w, e, c);
      assert Uncommitted(w, c);
      if e.CommitSection? {
        assert Uncommitted(w, e.c);
      }
    }
  }

  lemma InFlightIsUncommitted(w: World, e: Event, id: WorkspaceID)
    requires SingleFlight(w) && Enabled(w, e) && id in Apply(w, e).cache.inflight
    ensures var w' := Apply(w, e);
      Uncommitted(w', w'.cache.inflight[id]) && w'.creations[w'.cache.inflight[id]].id == id
  {
    InFlightStep(w, e);
    var c := Apply(w, e).cache.inflight[id];
    if c < |w.creations| {
      CreationIdentity(w, e, c);
      assert Uncommitted(w, c);
    }
  }

  lemma CreationsKept(w: World, e: Event)
    requires Clocks(w) && TokensInRange(w) && InstancesContiguous(w) && InstancesNamed(w) && CreationsOk(w)
    requires Enabled(w, e)
    ensures CreationsOk(Apply(w, e))
  {
    var w' := Apply(w, e);
    forall c: nat | c < |w'.creations|
      ensures CreationOk(w', c)
    {
      if c < |w.creations| {
        assert CreationOk(w, c);
        CreationKept(w, e, c);
      }
    }
  }

  /** The event is a step of the goroutine of creation c. */
  predicate Advances(e: Event, c: nat) {
    match e
    case ProbeBefore(d, _) => d == c
    case BeginCreate(d) => d == c
    case EndCreate(d, _) => d == c
    case ProbeAfter(d, _) => d == c
    case CommitSection(d) => d == c
    case _ => false
  }

  lemma CreationKept(w: World, e: Event, c: nat)
    requires Clocks(w) && TokensInRange(w) && InstancesContiguous(w) && InstancesNamed(w) && Enabled(w, e)
    requires c < |w.creations| && CreationOk(w, c)
    ensures c < |Apply(w, e).creations| && CreationOk(Apply(w, e), c)
  {
    var w' := Apply(w, e);
    PastIsFixed(w, e);
    if !Advances(e, c) {
      assert w'.creations[c] == w.creations[c];
    } else {
      CreationAdvanced(w, e, c);
    }
  }

  lemma CreationAdvanced(w: World, e: Event, c: nat)
    requires Clocks(w) && TokensInRange(w) && InstancesContiguous(w) && InstancesNamed(w) && Enabled(w, e)
    requires c < |w.creations| && CreationOk(w, c) && Advances(e, c)
    ensures c < |Apply(w, e).creations| && CreationOk(Apply(w, e), c)
  {
    var w' := Apply(w, e);
    var now := w.Now();
    PastIsFixed(w, e);
    assert InstanceAt(w, now, w.instances[now]) && InstanceAt(w', now + 1, w.instances[now]);
    var p := w.creations[c].progress;
    match e
    case ProbeAfter(_, Current) =>
      if w.creations[c].aware && w.instances[now] == p.before {
        assert BuiltInside(w, p.before, p.ws);
        assert Inside(w, p.before, p.ws);
      }
    case CommitSection(_) =>
      var r := CommitResult(w.cache, p.outcome);
      if r.Ok? {
        assert Bound(w', now + 1, w.creations[c].id, r.value);
        assert !Bound(w, now, w.creations[c].id, r.value);
      }
    case _ =>
  }

  /** Counting changes: the past counts the same, and a binding that differs at the end adds one. */
  lemma {:induction false} ChangesStable(w: World, w': World, id: WorkspaceID, i: nat, j: nat)
    requires i <= j < |w.bindings| && w.bindings <= w'.bindings
    ensures Changes(w', id, i, j) == Changes(w, id, i, j)
    decreases j
  {
    if i < j {
      ChangesStable(w, w', id, i, j - 1);
    }
  }

  lemma {:induction false} ChangesGrow(w: World, id: WorkspaceID, i: nat, j: nat, k: nat)
    requires i <= j <= k < |w.bindings|
    ensures Changes(w, id, i, j) <= Changes(w, id, i, k)
    ensures BindingAt(w, id, j) != BindingAt(w, id, k) ==> Changes(w, id, i, j) < Changes(w, id, i, k)
    decreases k
  {
    if j < k {
      ChangesGrow(w, id, i, j, k - 1);
    }
  }

  /** The event is a step of acquirer t. */
  predicate Concerns(e: Event, t: nat) {
    match e
    case Cancel(u) => u == t
    case LookupSection(u) => u == t
    case ProbeBackend(u, _) => u == t
    case RevalidateSection(u) => u == t
    case WakeUp(u) => u == t
    case GiveUp(u) => u == t
    case _ => false
  }

  /** The histories of w' are those of w and one instant more. */
  ghost predicate Ticks(w: World, w': World) {
    Clocks(w) && Clocks(w') && w.bindings <= w'.bindings && w.instances <= w'.instances && w'.Now() == w.Now() + 1
  }

  /** Creations keep their id, and are committed at the new instant or stay as they were committed. */
  ghost predicate CreationsGoOn(w: World, w': World) {
    |w.creations| <= |w'.creations| &&
    forall c :: 0 <= c < |w.creations| ==>
      w'.creations[c].id == w.creations[c].id &&
      (w'.creations[c].progress.Committed? ==>
         w'.creations[c].progress == w.creations[c].progress || w'.creations[c].progress.at == |w.bindings|)
  }

  lemma TimePasses(w: World, e: Event)
    requires Clocks(w) && Enabled(w, e)
    ensures Ticks(w, Apply(w, e))
  {
  }

  lemma CreationsContinue(w: World, e: Event)
    requires Enabled(w, e)
    ensures CreationsGoOn(w, Apply(w, e))
  {
  }

  lemma BystanderStays(w: World, e: Event, t: nat)
    requires Enabled(w, e) && t in w.acquirers && !Concerns(e, t)
    ensures t in Apply(w, e).acquirers && Apply(w, e).acquirers[t] == w.acquirers[t]
  {
  }

  /** The retry bound survives a step: no change of the binding is forgotten. */
  lemma RetryBoundKept(w: World, w': World, t: nat)
    requires Ticks(w, w') && t in w.acquirers && AcquirerOk(w, t)
    ensures var a := w.acquirers[t];
      a.retries <= Changes(w', a.id, a.start, w'.Now()) &&
      (a.phase.Probing? || a.phase.Probed? ==> a.retries <= Changes(w', a.id, a.start, a.phase.readAt)) &&
      (a.phase.Probed? && BindingAt(w, a.id, w.Now()) != Some(a.phase.entry) ==>
         a.retries + 1 <= Changes(w', a.id, a.start, w'.Now()))
  {
    var a, now := w.acquirers[t], w.Now();
    var from := if a.phase.Probing? || a.phase.Probed? then a.phase.readAt else now;
    ChangesStable(w, w', a.id, a.start, from);
    ChangesGrow(w', a.id, a.start, from, now);
    ChangesGrow(w', a.id, a.start, now, now + 1);
    if a.phase.Probed? {
      assert BindingAt(w', a.id, from) == Some(a.phase.entry);
      assert BindingAt(w', a.id, now) == BindingAt(w, a.id, now);
    }
  }

  lemma AcquirerUndisturbed(w: World, w': World, t: nat)
    requires Ticks(w, w') && CreationsGoOn(w, w') && t in w.acquirers && AcquirerOk(w, t)
    requires t in w'.acquirers && w'.acquirers[t] == w.acquirers[t]
    ensures AcquirerOk(w', t)
  {
    RetryBoundKept(w, w', t);
    var a := w.acquirers[t];
    if a.phase.Waiting? {
      assert w'.creations[a.phase.call].id == a.id;
    }
  }

  /** What a verdict has to get right for the acquirer that follows it. */
  ghost predicate GoodVerdict(w: World, w': World, t: nat, verdict: Verdict<nat>, route: Route)
    requires Ticks(w, w') && t in w.acquirers && w.acquirers[t].start <= w.Now()
  {
    var a, now := w.acquirers[t], w'.Now();
    match verdict
    case Hit(entry) =>
      Bound(w', now, a.id, entry) &&
      (match route
       case Cached => !a.aware
       case Validated(probedAt) => a.start <= probedAt <= now && InstanceAt(w', probedAt, entry.instance)
       case Created => false)
    case Probe(entry) => a.aware && Bound(w', now, a.id, entry)
    case Join(call) => Uncommitted(w, call) && w.creations[call].id == a.id
    case Retry => a.retries + 1 <= Changes(w', a.id, a.start, now)
    case _ => true
  }

  /** After the unlock with a good verdict the acquirer is in order. */
  lemma VerdictFollowed(w: World, w': World, t: nat, verdict: Verdict<nat>, route: Route)
    requires Ticks(w, w') && t in w.acquirers && AcquirerOk(w, t) && GoodVerdict(w, w', t, verdict, route)
    requires w'.acquirers == Follow(w, t, verdict, route).acquirers &&
      w'.creations == Follow(w, t, verdict, route).creations
    ensures t in w'.acquirers && AcquirerOk(w', t)
  {
    RetryBoundKept(w, w', t);
    var a, now := w.acquirers[t], w'.Now();
    if a.phase.Probing? || a.phase.Probed? {
      ChangesGrow(w', a.id, a.start, a.phase.readAt, now);
    }
  }

  /** The first lock section leaves its acquirer in order. */
  lemma LookupFollowed(w: World, t: nat)
    requires Clocks(w) && SingleFlight(w) && Enabled(w, LookupSection(t)) && AcquirerOk(w, t)
    ensures t in Apply(w, LookupSection(t)).acquirers && AcquirerOk(Apply(w, LookupSection(t)), t)
  {
    var w', a := Apply(w, LookupSection(t)), w.acquirers[t];
    TimePasses(w, LookupSection(t));
    var verdict := Lookup(w.cache, a.id, a.aware, a.cancelled);
    if verdict.Join? {
      assert Uncommitted(w, verdict.call);
    }
    VerdictFollowed(w, w', t, verdict, Cached);
  }

  /** The second lock section leaves its acquirer in order. */
  lemma RevalidateFollowed(w: World, t: nat)
    requires Clocks(w) && SingleFlight(w) && Enabled(w, RevalidateSection(t)) && AcquirerOk(w, t)
    ensures t in Apply(w, RevalidateSection(t)).acquirers && AcquirerOk(Apply(w, RevalidateSection(t)), t)
  {
    var w', a := Apply(w, RevalidateSection(t)), w.acquirers[t];
    TimePasses(w, RevalidateSection(t));
    RetryBoundKept(w, w', t);
    var verdict := Revalidate(w.cache, a.id, a.phase.entry, a.phase.current);
    if verdict.Join? {
      assert Uncommitted(w, verdict.call);
    }
    VerdictFollowed(w, w', t, verdict, Validated(a.phase.probedAt));
  }

  /** An acquirer whose probe has just been answered is in order. */
  lemma AnswerFollowed(w: World, w': World, t: nat, current: InstanceID)
    requires Ticks(w, w') && t in w.acquirers && AcquirerOk(w, t) && w.acquirers[t].phase.Probing?
    requires t in w'.acquirers && InstanceAt(w', w'.Now(), current)
    requires var p := w.acquirers[t].phase;
      w'.acquirers[t] == w.acquirers[t].(phase := Probed(p.entry, p.readAt, current, w'.Now()))
    ensures AcquirerOk(w', t)
  {
    RetryBoundKept(w, w', t);
  }

  /** An acquirer that has just failed is in order. */
  lemma FailureFollowed(w: World, w': World, t: nat, error: Error)
    requires Ticks(w, w') && t in w.acquirers && AcquirerOk(w, t)
    requires t in w'.acquirers && w'.acquirers[t] == w.acquirers[t].(phase := Failed(error))
    ensures AcquirerOk(w', t)
  {
    RetryBoundKept(w, w', t);
  }

  lemma BackendProbed(w: World, t: nat, answer: Answer)
    requires Clocks(w) && Enabled(w, ProbeBackend(t, answer)) && AcquirerOk(w, t)
    ensures t in Apply(w, ProbeBackend(t, answer)).acquirers && AcquirerOk(Apply(w, ProbeBackend(t, answer)), t)
  {
    var w' := Apply(w, ProbeBackend(t, answer));
    TimePasses(w, ProbeBackend(t, answer));
    match answer
    case Current => AnswerFollowed(w, w', t, w.instances[w.Now()]);
    case Blank => FailureFollowed(w, w', t, InstanceEmpty);
    case Broken => FailureFollowed(w, w', t, ProbeFailed);
  }

  lemma AcquirerStepped(w: World, e: Event, t: nat)
    requires Clocks(w) && CreationsOk(w) && SingleFlight(w) && Enabled(w, e)
    requires t in w.acquirers && AcquirerOk(w, t) && Concerns(e, t)
    ensures t in Apply(w, e).acquirers && AcquirerOk(Apply(w, e), t)
  {
    match e
    case LookupSection(_) => LookupFollowed(w, t);
    case RevalidateSection(_) => RevalidateFollowed(w, t);
    case ProbeBackend(_, answer) => BackendProbed(w, t, answer);
    case Cancel(_) => RetryBoundKept(w, Apply(w, Cancel(t)), t);
    case GiveUp(_) => RetryBoundKept(w, Apply(w, GiveUp(t)), t);
    case WakeUp(_) =>
      RetryBoundKept(w, Apply(w, WakeUp(t)), t);
      assert CreationOk(w, w.acquirers[t].phase.call);
  }

  lemma NewcomerIsInOrder(w: World, e: Event, t: nat)
    requires Clocks(w) && Enabled(w, e) && t !in w.acquirers && t in Apply(w, e).acquirers
    ensures |Apply(w, e).bindings| > 0 && AcquirerOk(Apply(w, e), t)
  {
  }

  lemma AcquirersKept(w: World, e: Event)
    requires Clocks(w) && CreationsOk(w) && SingleFlight(w) && AcquirersOk(w) && Enabled(w, e)
    ensures |Apply(w, e).bindings| > 0 && AcquirersOk(Apply(w, e))
  {
    TimePasses(w, e);
    CreationsContinue(w, e);
    forall t | t in Apply(w, e).acquirers
      ensures AcquirerOk(Apply(w, e), t)
    {
      if t !in w.acquirers {
        NewcomerIsInOrder(w, e, t);
      } else if Concerns(e, t) {
        AcquirerStepped(w, e, t);
      } else {
        BystanderStays(w, e, t);
        AcquirerUndisturbed(w, Apply(w, e), t);
      }
    }
  }

  lemma InvKept(w: World, e: Event)
    requires Inv(w) && Enabled(w, e)
    ensures Inv(Apply(w, e))
  {
    PastIsFixed(w, e);
    TokensKept(w, e);
    ContiguityKept(w, e);
    SingleFlightKept(w, e);
    CreationsKept(w, e);
    AcquirersKept(w, e);
  }
}
