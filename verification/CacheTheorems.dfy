/** What the workspace registry guarantees in every run of its protocol (codeexecutor/registry.go:88-254). */
module CacheTheorems {
  import opened Prelude
  import opened WorkspaceCache
  import opened RegistryProtocol

  lemma InitialInv(w: World)
    requires Initial(w)
    ensures Inv(w)
  {
  }

  /** The invariant holds in every world of every interleaving. */
  lemma {:induction false} RunInv(run: seq<World>, events: seq<Event>, j: nat)
    requires IsRun(run, events) && j < |run|
    ensures Inv(run[j]) && |run[j].bindings| == j + 1
    decreases j
  {
    if j == 0 {
      InitialInv(run[0]);
    } else {
      RunInv(run, events, j - 1);
      InvKept(run[j - 1], events[j - 1]);
    }
  }

  lemma RunLength(run: seq<World>, events: seq<Event>, j: nat)
    requires IsRun(run, events) && j < |run|
    ensures |run[j].bindings| == j + 1
  {
    RunInv(run, events, j);
  }

  /** What a world recorded about instant i is what the run showed at step i. */
  lemma {:induction false} HistoryIsFaithful(run: seq<World>, events: seq<Event>, i: nat, j: nat)
    requires IsRun(run, events) && i <= j < |run|
    ensures |run[j].bindings| == j + 1 == |run[j].instances|
    ensures run[j].bindings[i] == run[i].cache.byID
    ensures |run[i].instances| > 0 && run[j].instances[i] == run[i].instances[|run[i].instances| - 1]
    decreases j
  {
    RunInv(run, events, i);
    RunInv(run, events, j);
    if i < j {
      HistoryIsFaithful(run, events, i, j - 1);
      RunInv(run, events, j - 1);
      assert run[j] == Apply(run[j - 1], events[j - 1]);
      PastIsFixed(run[j - 1], events[j - 1]);
    }
  }

  /** At step k of the run the cache binds id to e. */
  ghost predicate BoundAt(run: seq<World>, k: nat, id: WorkspaceID, e: Entry) {
    k < |run| && id in run[k].cache.byID && run[k].cache.byID[id] == e
  }

  /** The backend instance at step k of the run. */
  ghost predicate InstanceDuring(run: seq<World>, k: nat, instance: InstanceID) {
    k < |run| && |run[k].instances| > 0 && run[k].instances[|run[k].instances| - 1] == instance
  }

  lemma BoundInHistory(run: seq<World>, events: seq<Event>, k: nat, j: nat, id: WorkspaceID, e: Entry)
    requires IsRun(run, events) && k <= j < |run|
    ensures Bound(run[j], k, id, e) <==> BoundAt(run, k, id, e)
    ensures forall x :: InstanceAt(run[j], k, x) <==> InstanceDuring(run, k, x)
  {
    HistoryIsFaithful(run, events, k, j);
    HistoryIsFaithful(run, events, j, j);
  }

  /** Acquirers appear only by a Call, and keep their identity. */
  lemma AcquirerOrigin(w: World, e: Event, t: nat)
    requires Enabled(w, e) && t in Apply(w, e).acquirers
    ensures var a := Apply(w, e).acquirers[t];
      if t in w.acquirers
      then a.id == w.acquirers[t].id && a.aware == w.acquirers[t].aware && a.start == w.acquirers[t].start
      else e == Call(t, a.id, a.aware) && a.start == |w.bindings|
  {
  }

  /** `start` is the step right after the call of acquire. */
  lemma {:induction false} StartIsTheCall(run: seq<World>, events: seq<Event>, j: nat, t: nat)
    requires IsRun(run, events) && j < |run| && t in run[j].acquirers
    ensures var a := run[j].acquirers[t];
      1 <= a.start <= j && events[a.start - 1] == Call(t, a.id, a.aware)
    decreases j
  {
    if j > 0 {
      RunLength(run, events, j - 1);
      assert run[j] == Apply(run[j - 1], events[j - 1]);
      AcquirerOrigin(run[j - 1], events[j - 1], t);
      if t in run[j - 1].acquirers {
        StartIsTheCall(run, events, j - 1, t);
      }
    }
  }

  /**
   Linearizability: whichever return path it takes, a successful acquire returns an entry that
   was the cached binding of its id at some step between its call and its return.
   */
  lemma AcquireLinearizable(run: seq<World>, events: seq<Event>, j: nat, t: nat)
    requires IsRun(run, events) && j < |run| && t in run[j].acquirers && run[j].acquirers[t].phase.Returned?
    ensures var a := run[j].acquirers[t];
      1 <= a.start <= j && events[a.start - 1] == Call(t, a.id, a.aware) &&
      exists k :: a.start <= k <= j && BoundAt(run, k, a.id, a.phase.entry)
  {
    RunInv(run, events, j);
    StartIsTheCall(run, events, j, t);
    var a := run[j].acquirers[t];
    assert AcquirerOk(run[j], t);
    BoundInHistory(run, events, a.phase.seenAt, j, a.id, a.phase.entry);
  }

  /** A hit that was validated by a probe saw the backend run exactly the instance the entry records. */
  lemma ValidatedHitIsCurrent(run: seq<World>, events: seq<Event>, j: nat, t: nat)
    requires IsRun(run, events) && j < |run| && t in run[j].acquirers
    requires run[j].acquirers[t].phase.Returned? && run[j].acquirers[t].phase.route.Validated?
    ensures var a := run[j].acquirers[t];
      exists k :: a.start <= k <= j && InstanceDuring(run, k, a.phase.entry.instance)
  {
    RunInv(run, events, j);
    var a := run[j].acquirers[t];
    assert AcquirerOk(run[j], t);
    BoundInHistory(run, events, a.phase.route.probedAt, j, a.id, a.phase.entry);
  }

  /** Step k installed e under id by a commit. */
  ghost predicate InstalledAt(run: seq<World>, events: seq<Event>, k: nat, id: WorkspaceID, e: Entry) {
    k < |events| && events[k].CommitSection? && !BoundAt(run, k, id, e) && BoundAt(run, k + 1, id, e)
  }

  /**
   No stale workspace: what an instance-aware acquire returns records an instance that the backend
   ran at some step of the call, or was installed during the call.
   */
  lemma AwareReturnsCurrent(run: seq<World>, events: seq<Event>, j: nat, t: nat)
    requires IsRun(run, events) && j < |run| && t in run[j].acquirers
    requires run[j].acquirers[t].aware && run[j].acquirers[t].phase.Returned?
    ensures var a := run[j].acquirers[t];
      (exists k :: a.start <= k <= j && InstanceDuring(run, k, a.phase.entry.instance)) ||
      (exists k :: a.start <= k < j && InstalledAt(run, events, k, a.id, a.phase.entry))
  {
    RunInv(run, events, j);
    var a := run[j].acquirers[t];
    assert AcquirerOk(run[j], t);
    if a.phase.route.Validated? {
      BoundInHistory(run, events, a.phase.route.probedAt, j, a.id, a.phase.entry);
    } else {
      var k := a.phase.seenAt - 1;
      BoundInHistory(run, events, k, j, a.id, a.phase.entry);
      BoundInHistory(run, events, k + 1, j, a.id, a.phase.entry);
      OnlyCommitsInstall(run, events, k, a.id, a.phase.entry);
      assert InstalledAt(run, events, k, a.id, a.phase.entry);
    }
  }

  lemma OnlyCommitsInstall(run: seq<World>, events: seq<Event>, k: nat, id: WorkspaceID, e: Entry)
    requires IsRun(run, events) && k < |events| && !BoundAt(run, k, id, e) && BoundAt(run, k + 1, id, e)
    ensures events[k].CommitSection?
  {
    BindingsChangeOnly(run, events, k);
  }

  /**
   A stale entry is replaced: when a probe has seen another instance than the still cached entry
   records, and nobody is creating the workspace already, the acquire begins a creation and waits.
   */
  lemma StaleEntryIsReplaced(run: seq<World>, events: seq<Event>, j: nat, t: nat)
    requires IsRun(run, events) && j < |events| && events[j] == RevalidateSection(t)
    requires t in run[j].acquirers && run[j].acquirers[t].phase.Probed?
    requires var (a, p) := (run[j].acquirers[t], run[j].acquirers[t].phase);
      p.current != p.entry.instance && BoundAt(run, j, a.id, p.entry) && a.id !in run[j].cache.inflight
    ensures var a := run[j].acquirers[t];
      run[j + 1].creations == run[j].creations + [Creation(a.id, a.aware, Begun)] &&
      t in run[j + 1].acquirers && run[j + 1].acquirers[t].phase == Waiting(|run[j].creations|)
  {
  }

  /**
   Creations begin only on need: for an id that nobody is creating, and that has no entry, or
   whose entry records another instance than an instance-aware call has seen the backend run.
   */
  lemma CreationsAreNeeded(run: seq<World>, events: seq<Event>, j: nat)
    requires IsRun(run, events) && j < |events| && |run[j + 1].creations| > |run[j].creations|
    ensures |run[j + 1].creations| == |run[j].creations| + 1
    ensures var (w, c) := (run[j], run[j + 1].creations[|run[j].creations|]);
      c.progress == Begun && c.id !in w.cache.inflight &&
      (c.id in w.cache.byID ==>
         exists t, k :: t in w.acquirers && w.acquirers[t].aware && w.acquirers[t].id == c.id &&
           w.acquirers[t].start <= k <= j && |run[k].instances| > 0 &&
           !InstanceDuring(run, k, w.cache.byID[c.id].instance))
  {
    RunInv(run, events, j);
    var w := run[j];
    OnlySectionsCreate(w, events[j]);
    if events[j].RevalidateSection? {
      var t := events[j].t;
      assert AcquirerOk(w, t);
      var p := w.acquirers[t].phase;
      BoundInHistory(run, events, p.probedAt, j, w.acquirers[t].id, p.entry);
      assert InstanceDuring(run, p.probedAt, p.current);
    }
  }

  /** Only a lock section begins a creation, for the id of its call. */
  lemma OnlySectionsCreate(w: World, e: Event)
    requires Enabled(w, e) && |Apply(w, e).creations| > |w.creations|
    ensures e.LookupSection? || e.RevalidateSection?
    ensures var (a, created) := (w.acquirers[e.t], Apply(w, e).creations);
      created == w.creations + [Creation(a.id, a.aware, Begun)] && a.id !in w.cache.inflight &&
      (a.id in w.cache.byID ==>
         a.phase.Probed? && w.cache.byID[a.id] == a.phase.entry && a.phase.current != a.phase.entry.instance)
  {
  }

  /**
   A legacy call is answered from the cache at once, whatever is going on; an aware call never is.
   A cancelled call that is not answered fails, and begins nothing.
   */
  lemma FirstLookAnswersIff(run: seq<World>, events: seq<Event>, j: nat, t: nat)
    requires IsRun(run, events) && j < |events| && events[j] == LookupSection(t)
    ensures t in run[j].acquirers && t in run[j + 1].acquirers
    ensures var (a, phase) := (run[j].acquirers[t], run[j + 1].acquirers[t].phase);
      (phase.Returned? <==> !a.aware && a.id in run[j].cache.byID) &&
      (phase.Returned? ==> BoundAt(run, j, a.id, phase.entry)) &&
      (phase.Failed? <==> a.cancelled && !phase.Returned?) &&
      (phase.Failed? ==> run[j + 1].creations == run[j].creations)
  {
  }

  /** An aware call whose id nobody is creating and that is cached goes on to probe the backend about that entry. */
  lemma CachedEntriesAreProbed(run: seq<World>, events: seq<Event>, j: nat, t: nat)
    requires IsRun(run, events) && j < |events| && events[j] == LookupSection(t) && t in run[j].acquirers
    requires var a := run[j].acquirers[t];
      a.aware && !a.cancelled && a.id in run[j].cache.byID && a.id !in run[j].cache.inflight
    ensures t in run[j + 1].acquirers && run[j + 1].acquirers[t].phase.Probing?
    ensures BoundAt(run, j, run[j].acquirers[t].id, run[j + 1].acquirers[t].phase.entry)
  {
  }

  /** After a probe, with nobody creating: a changed binding sends the call round again, a current entry is returned. */
  lemma ProbeDecides(run: seq<World>, events: seq<Event>, j: nat, t: nat)
    requires IsRun(run, events) && j < |events| && events[j] == RevalidateSection(t)
    requires t in run[j].acquirers && run[j].acquirers[t].phase.Probed?
    requires run[j].acquirers[t].id !in run[j].cache.inflight
    ensures t in run[j + 1].acquirers
    ensures var (a, p, b) := (run[j].acquirers[t], run[j].acquirers[t].phase, run[j + 1].acquirers[t]);
      (b.phase.Looking? <==> !BoundAt(run, j, a.id, p.entry)) && (b.phase.Looking? ==> b.retries == a.retries + 1) &&
      (b.phase.Returned? <==> BoundAt(run, j, a.id, p.entry) && p.current == p.entry.instance) &&
      (b.phase.Returned? ==> b.phase.entry == p.entry)
  {
  }

  /** A call joins a creation that is under way, unless it was answered or cancelled first: nobody creates beside it. */
  lemma CreationsAreJoined(run: seq<World>, events: seq<Event>, j: nat, t: nat, c: nat)
    requires IsRun(run, events) && j < |events| && t in run[j].acquirers
    requires Uncommitted(run[j], c) && run[j].creations[c].id == run[j].acquirers[t].id
    requires var a := run[j].acquirers[t];
      events[j] == RevalidateSection(t) ||
      (events[j] == LookupSection(t) && !a.cancelled && (a.aware || a.id !in run[j].cache.byID))
    ensures t in run[j + 1].acquirers && run[j + 1].acquirers[t].phase == Waiting(c)
  {
    RunInv(run, events, j);
  }

  /**
   How one step of a creation ends it, if it does: a probe without an answer, a failed creation, or
   an instance that changed meanwhile; a creation that all goes well for ends with its workspace.
   */
  lemma CreationsSettle(run: seq<World>, events: seq<Event>, j: nat, c: nat)
    requires IsRun(run, events) && j < |events| && c < |run[j].creations| && |run[j].instances| > 0
    ensures c < |run[j + 1].creations|
    ensures var (p, q) := (run[j].creations[c].progress, run[j + 1].creations[c].progress);
      q.Settled? && !p.Settled? <==>
        (events[j].ProbeBefore? && events[j].c == c && run[j].creations[c].aware && events[j].answer != Current) ||
        events[j] == EndCreate(c, false) || (events[j].ProbeAfter? && events[j].c == c)
    ensures var (p, q) := (run[j].creations[c].progress, run[j + 1].creations[c].progress);
      var (aware, current) := (run[j].creations[c].aware, run[j].instances[|run[j].instances| - 1]);
      q.Settled? && !p.Settled? ==>
        match events[j]
        case ProbeBefore(d, answer) =>
          d == c && aware && answer != Current &&
          q.outcome == Err(if answer == Broken then ProbeFailed else InstanceEmpty)
        case EndCreate(d, ok) => d == c && !ok && q.outcome == Err(CreateFailed)
        case ProbeAfter(d, answer) =>
          d == c && p.Built? &&
          q.outcome == (if !aware then Ok((p.ws, p.before))
                        else match answer
                             case Broken => Err(ProbeFailed)
                             case Blank => Err(InstanceEmpty)
                             case Current => if current != p.before then Err(InstanceChanged) else Ok((p.ws, p.before)))
        case _ => false
  {
  }

  /**
   A commit publishes the creation's own failure, or that the tokens are used up, or an entry for
   its workspace under the next token, which it installs; the creation is over either way.
   */
  lemma CommitsPublish(run: seq<World>, events: seq<Event>, j: nat)
    requires IsRun(run, events) && j < |events| && events[j].CommitSection?
    ensures var c := events[j].c;
      c < |run[j].creations| && run[j].creations[c].progress.Settled? && c < |run[j + 1].creations| &&
      var (id, outcome, w) := (run[j].creations[c].id, run[j].creations[c].progress.outcome, run[j]);
      var result :=
        if outcome.Err? then Err(outcome.error)
        else if w.cache.nextToken == 0xFFFF_FFFF_FFFF_FFFF then Err(TokenExhausted)
        else Ok(Entry(outcome.value.0, outcome.value.1, w.cache.nextToken + 1));
      run[j + 1].creations[c].progress == Committed(result, |w.bindings|) && id !in run[j + 1].cache.inflight &&
      run[j + 1].cache.byID == if result.Ok? then w.cache.byID[id := result.value] else w.cache.byID
  {
  }

  /** Why a call fails: it was cancelled, its probe gave nothing, or the creation it waited for failed so. */
  lemma FailuresAreExplained(run: seq<World>, events: seq<Event>, j: nat, t: nat)
    requires IsRun(run, events) && j < |events| && t in run[j].acquirers && t in run[j + 1].acquirers
    requires !run[j].acquirers[t].phase.Failed? && run[j + 1].acquirers[t].phase.Failed?
    ensures var (a, error) := (run[j].acquirers[t], run[j + 1].acquirers[t].phase.error);
      match events[j]
      case LookupSection(u) => u == t && a.cancelled && error == Cancelled
      case GiveUp(u) => u == t && a.cancelled && error == Cancelled
      case ProbeBackend(u, answer) =>
        u == t && ((answer == Broken && error == ProbeFailed) || (answer == Blank && error == InstanceEmpty))
      case WakeUp(u) =>
        u == t && a.phase.Waiting? && a.phase.call < |run[j].creations| &&
        run[j].creations[a.phase.call].progress.Committed? &&
        run[j].creations[a.phase.call].progress.result == Err(error)
      case _ => false
  {
  }

  /** Single flight: two creations of one id are never under way together. */
  lemma SingleFlightAlways(run: seq<World>, events: seq<Event>, j: nat, c: nat, d: nat)
    requires IsRun(run, events) && j < |run|
    requires Uncommitted(run[j], c) && Uncommitted(run[j], d) && run[j].creations[c].id == run[j].creations[d].id
    ensures c == d
  {
    RunInv(run, events, j);
  }

  /** ABA-freedom: an entry seen cached at two steps was cached at every step between them. */
  lemma NoReinstallation(run: seq<World>, events: seq<Event>, i: nat, j: nat, k: nat, id: WorkspaceID, e: Entry)
    requires IsRun(run, events) && i <= j <= k < |run|
    requires BoundAt(run, i, id, e) && BoundAt(run, k, id, e)
    ensures BoundAt(run, j, id, e)
  {
    RunInv(run, events, k);
    BoundInHistory(run, events, i, k, id, e);
    BoundInHistory(run, events, j, k, id, e);
    BoundInHistory(run, events, k, k, id, e);
  }

  /** Every installation carries a larger token than every entry cached at or before it, under any id. */
  lemma TokensIncrease(run: seq<World>, events: seq<Event>, i: nat, j: nat, id: WorkspaceID, e: Entry)
    requires IsRun(run, events) && i <= j < |events| && BoundAt(run, i, id, e)
    requires events[j].CommitSection? && run[j + 1].creations[events[j].c].progress.result.Ok?
    ensures var x := run[j + 1].creations[events[j].c].progress.result.value;
      0 < e.token < x.token <= MAX_TOKEN && BoundAt(run, j + 1, run[j].creations[events[j].c].id, x)
  {
    RunInv(run, events, j);
    BoundInHistory(run, events, i, j, id, e);
    assert Bound(run[j], i, id, e);
  }

  /**
   Exact invalidation: once an acquire has returned an entry, invalidating its handle removes the
   binding exactly when that very entry is still cached, and touches no other binding.
   */
  lemma InvalidateIsExact(run: seq<World>, events: seq<Event>, i: nat, j: nat, t: nat)
    requires IsRun(run, events) && i <= j < |events| && t in run[i].acquirers && run[i].acquirers[t].phase.Returned?
    requires events[j] == InvalidateSection(run[i].acquirers[t].id, run[i].acquirers[t].phase.entry.token)
    ensures var id, e := run[i].acquirers[t].id, run[i].acquirers[t].phase.entry;
      run[j + 1].cache.byID == if BoundAt(run, j, id, e) then run[j].cache.byID - {id} else run[j].cache.byID
  {
    RunInv(run, events, i);
    RunInv(run, events, j);
    var a := run[i].acquirers[t];
    assert AcquirerOk(run[i], t);
    BoundInHistory(run, events, a.phase.seenAt, i, a.id, a.phase.entry);
    BoundInHistory(run, events, a.phase.seenAt, j, a.id, a.phase.entry);
    if a.id in run[j].cache.byID {
      assert Bound(run[j], j, a.id, run[j].cache.byID[a.id]);
    }
  }

  /**
   The bindings change only by a successful commit or an invalidation that names a cached entry:
   failed probes, failed creations, cancellations and a late stale report leave them untouched.
   */
  lemma BindingsChangeOnly(run: seq<World>, events: seq<Event>, j: nat)
    requires IsRun(run, events) && j < |events|
    ensures run[j + 1].cache.byID != run[j].cache.byID <==>
      match events[j]
      case CommitSection(c) =>
        run[j].creations[c].progress.outcome.Ok? && run[j].cache.nextToken < 0xFFFF_FFFF_FFFF_FFFF
      case InvalidateSection(id, token) => id in run[j].cache.byID && run[j].cache.byID[id].token == token
      case _ => false
  {
    var w := run[j];
    RunInv(run, events, j);
    forall id | id in w.cache.byID
      ensures 0 < w.cache.byID[id].token <= w.cache.nextToken
    {
      assert Bound(w, j, id, w.cache.byID[id]);
    }
    if events[j].CommitSection? {
      CommitsPublish(run, events, j);
      var (id, after) := (w.creations[events[j].c].id, run[j + 1].cache.byID);
      assert after != w.cache.byID ==> id in after;
      assert id in after && after[id].token == w.cache.nextToken + 1 ==> after != w.cache.byID;
    }
  }

  /**
   Instance freshness: an entry installed for an instance-aware manager records an instance, and
   the backend ran that instance at every step from the beginning to the end of its creation.
   */
  lemma EntriesAreFresh(run: seq<World>, events: seq<Event>, j: nat, c: nat)
    requires IsRun(run, events) && j < |run| && c < |run[j].creations|
    requires run[j].creations[c].progress.Committed? && run[j].creations[c].progress.result.Ok?
    ensures var e := run[j].creations[c].progress.result.value;
      (run[j].creations[c].aware <==> e.instance != "") &&
      (run[j].creations[c].aware ==>
         e.ws.begunAt <= e.ws.doneAt <= j &&
         forall k :: e.ws.begunAt <= k <= e.ws.doneAt ==> InstanceDuring(run, k, e.instance))
  {
    RunInv(run, events, j);
    assert CreationOk(run[j], c);
    var p := run[j].creations[c].progress;
    var e := p.result.value;
    if run[j].creations[c].aware {
      assert Inside(run[j], e.instance, e.ws);
      forall k | e.ws.begunAt <= k <= e.ws.doneAt
        ensures InstanceDuring(run, k, e.instance)
      {
        BoundInHistory(run, events, k, j, run[j].creations[c].id, e);
        assert InstanceAt(run[j], k, e.instance);
      }
    }
  }

  /** The backend runs the instance it was last replaced by. */
  lemma ReplacementsHappen(run: seq<World>, events: seq<Event>, j: nat, x: InstanceID)
    requires IsRun(run, events) && j < |events|
    ensures InstanceDuring(run, j + 1, x) <==>
      if events[j].ReplaceInstance? then events[j].instance == x else InstanceDuring(run, j, x)
  {
    RunInv(run, events, j);
  }

  /** How many steps after step i, up to step j, changed the binding of id. */
  ghost function RebindingSteps(run: seq<World>, id: WorkspaceID, i: nat, j: nat): nat
    requires i <= j < |run|
    decreases j - i
  {
    if i == j then 0
    else
      var before, after := run[j - 1].cache.byID, run[j].cache.byID;
      var same := (id in before <==> id in after) && (id in before ==> before[id] == after[id]);
      RebindingSteps(run, id, i, j - 1) + (if same then 0 else 1)
  }

  lemma {:induction false} ChangesAreSteps(run: seq<World>, events: seq<Event>, id: WorkspaceID, i: nat, k: nat, j: nat)
    requires IsRun(run, events) && i <= k <= j < |run|
    ensures |run[j].bindings| == j + 1
    ensures Changes(run[j], id, i, k) == RebindingSteps(run, id, i, k)
    decreases k
  {
    HistoryIsFaithful(run, events, k, j);
    if i < k {
      HistoryIsFaithful(run, events, k - 1, j);
      ChangesAreSteps(run, events, id, i, k - 1, j);
    }
  }

  /** Bounded retry: acquire goes round its loop at most once more than its id was rebound meanwhile. */
  lemma RetriesBounded(run: seq<World>, events: seq<Event>, j: nat, t: nat)
    requires IsRun(run, events) && j < |run| && t in run[j].acquirers
    ensures var a := run[j].acquirers[t];
      a.start <= j && a.retries <= RebindingSteps(run, a.id, a.start, j)
  {
    RunInv(run, events, j);
    var a := run[j].acquirers[t];
    assert AcquirerOk(run[j], t);
    if a.phase.Probing? || a.phase.Probed? {
      ChangesGrow(run[j], a.id, a.start, a.phase.readAt, j);
    }
    ChangesAreSteps(run, events, a.id, a.start, j, j);
  }
}
