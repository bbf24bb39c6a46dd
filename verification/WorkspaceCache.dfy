/**
 The critical sections of the workspace registry (codeexecutor/registry.go), each as a
 function on the fields that the registry's mutex protects, and the class whose methods
 run them in place.
 */
module WorkspaceCache {
  import opened Prelude

  type WorkspaceID = string

  /** Identity of the physical environment; "" is what a legacy manager records. */
  type InstanceID = string

  const MAX_TOKEN: nat := 0xFFFF_FFFF_FFFF_FFFF

  /** A created workspace: which creation made it, and the instants at which that creation began and ended. */
  datatype Workspace = Workspace(serial: nat, begunAt: nat, doneAt: nat)

  datatype Entry = Entry(ws: Workspace, instance: InstanceID, token: nat)

  datatype Error =
    | Cancelled
    | ProbeFailed
    | InstanceEmpty
    | CreateFailed
    | InstanceChanged
    | TokenExhausted

  /** The mutex-protected fields. `C` is the type of a creation in progress. */
  datatype Cache<C> = Cache(byID: map<WorkspaceID, Entry>, inflight: map<WorkspaceID, C>, nextToken: nat)

  /** What a lock section of `acquire` tells its caller to do after unlocking. */
  datatype Verdict<C> =
    | Hit(entry: Entry)
    | Fail(error: Error)
    | Join(call: C)
    | Launch
    | Probe(entry: Entry)
    | Retry

  /** The first lock section of `acquire`. */
  function Lookup<C>(c: Cache<C>, id: WorkspaceID, aware: bool, cancelled: bool): Verdict<C> {
    if id in c.byID && !aware then Hit(c.byID[id])
    else if cancelled then Fail(Cancelled)
    else if id in c.inflight then Join(c.inflight[id])
    else if id !in c.byID then Launch
    else Probe(c.byID[id])
  }

  /** The second lock section of `acquire`, after the unlocked probe returned `current`. */
  function Revalidate<C>(c: Cache<C>, id: WorkspaceID, entry: Entry, current: InstanceID): Verdict<C> {
    if id in c.inflight then Join(c.inflight[id])
    else if id !in c.byID || c.byID[id] != entry then Retry
    else if current == entry.instance then Hit(entry)
    else Launch
  }

  /** newCreateCallLocked: makes `call` the creation in progress for `id`. */
  function Register<C>(c: Cache<C>, id: WorkspaceID, call: C): Cache<C> {
    c.(inflight := c.inflight[id := call])
  }

  /** A finished creation: the workspace and the instance probed before it, or the failure. */
  type Outcome = Result<(Workspace, InstanceID), Error>

  /** The result that the locked tail of createWorkspace publishes to every waiter. */
  function CommitResult<C>(c: Cache<C>, outcome: Outcome): Result<Entry, Error> {
    match outcome
    case Err(e) => Err(e)
    case Ok((ws, instance)) =>
      if c.nextToken == MAX_TOKEN then Err(TokenExhausted)
      else Ok(Entry(ws, instance, c.nextToken + 1))
  }

  /** The locked tail of createWorkspace: install the entry on success, retire the call either way. */
  function Commit<C>(c: Cache<C>, id: WorkspaceID, outcome: Outcome): Cache<C> {
    var retired := c.(inflight := c.inflight - {id});
    match CommitResult(c, outcome)
    case Err(_) => retired
    case Ok(entry) => retired.(byID := c.byID[id := entry], nextToken := entry.token)
  }

  /** Whether Invalidate finds the entry that a handle with this id and token names. */
  predicate Names<C>(c: Cache<C>, id: WorkspaceID, token: nat) {
    token != 0 && id in c.byID && c.byID[id].token == token
  }

  function Evict<C>(c: Cache<C>, id: WorkspaceID, token: nat): Cache<C> {
    if Names(c, id, token) then c.(byID := c.byID - {id}) else c
  }

  /** workspaceCreateCall: what the waiters of one creation share with the goroutine that runs it. */
  class CreateCall {
    var done: bool
    var result: Result<Entry, Error>

    constructor ()
      ensures !done
    {
      done := false;
      result := Err(CreateFailed);
    }
  }

  /** WorkspaceHandle: the entry's workspace plus the registry-owned identity of the cache entry. */
  datatype Handle = Handle(ws: Workspace, instance: InstanceID, registry: WorkspaceRegistry?, id: WorkspaceID,
                           token: nat)

  class WorkspaceRegistry {
    var byID: map<WorkspaceID, Entry>
    var inflight: map<WorkspaceID, CreateCall>
    var nextToken: nat

    ghost function State(): Cache<CreateCall>
      reads this
    {
      Cache(byID, inflight, nextToken)
    }

    constructor ()
      ensures State() == Cache(map[], map[], 0)
    {
      byID, inflight, nextToken := map[], map[], 0;
    }

    method NewCreateCallLocked(id: WorkspaceID) returns (call: CreateCall)
      modifies this
      ensures fresh(call) && !call.done
      ensures State() == Register(old(State()), id, call)
    {
      call := new CreateCall();
      inflight := inflight[id := call];
    }

    /** First lock section of `acquire`; a Launch verdict comes with the call it registered. */
    method LookupLocked(id: WorkspaceID, aware: bool, cancelled: bool)
      returns (v: Verdict<CreateCall>, call: Option<CreateCall>)
      modifies this
      ensures v == Lookup(old(State()), id, aware, cancelled)
      ensures v.Launch? <==> call.Some?
      ensures call.Some? ==> fresh(call.value) && !call.value.done
      ensures State() == if v.Launch? then Register(old(State()), id, call.value) else old(State())
    {
      call := None;
      if id in byID && !aware {
        return Hit(byID[id]), None;
      }
      if cancelled {
        return Fail(Cancelled), None;
      }
      if id in inflight {
        return Join(inflight[id]), None;
      }
      if id !in byID {
        var c := NewCreateCallLocked(id);
        return Launch, Some(c);
      }
      v := Probe(byID[id]);
    }

    /** Second lock section of `acquire`. */
    method RevalidateLocked(id: WorkspaceID, entry: Entry, current: InstanceID)
      returns (v: Verdict<CreateCall>, call: Option<CreateCall>)
      modifies this
      ensures v == Revalidate(old(State()), id, entry, current)
      ensures v.Launch? <==> call.Some?
      ensures call.Some? ==> fresh(call.value) && !call.value.done
      ensures State() == if v.Launch? then Register(old(State()), id, call.value) else old(State())
    {
      call := None;
      if id in inflight {
        return Join(inflight[id]), None;
      }
      if id !in byID || byID[id] != entry {
        return Retry, None;
      }
      if current == entry.instance {
        return Hit(entry), None;
      }
      var c := NewCreateCallLocked(id);
      return Launch, Some(c);
    }

    /** The locked tail of createWorkspace, which also wakes every waiter of `call`. */
    method CommitLocked(id: WorkspaceID, call: CreateCall, outcome: Outcome)
      modifies this, call
      ensures State() == Commit(old(State()), id, outcome)
      ensures call.done && call.result == CommitResult(old(State()), outcome)
    {
      var result: Result<Entry, Error>;
      if outcome.Err? {
        result := Err(outcome.error);
      } else if nextToken == MAX_TOKEN {
        result := Err(TokenExhausted);
      } else {
        nextToken := nextToken + 1;
        var entry := Entry(outcome.value.0, outcome.value.1, nextToken);
        byID := byID[id := entry];
        result := Ok(entry);
      }
      call.result := result;
      inflight := inflight - {id};
      call.done := true;
    }

    /** Invalidate: a handle of another registry, or one never issued, evicts nothing. */
    method Invalidate(handle: Handle) returns (removed: bool)
      modifies this
      ensures removed <==> handle.registry == this && Names(old(State()), handle.id, handle.token)
      ensures State() == if removed then Evict(old(State()), handle.id, handle.token) else old(State())
    {
      if handle.registry != this || handle.token == 0 {
        return false;
      }
      if handle.id !in byID || byID[handle.id].token != handle.token {
        return false;
      }
      byID := byID - {handle.id};
      return true;
    }
  }
}
