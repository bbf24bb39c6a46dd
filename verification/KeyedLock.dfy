/**
 Keyed locks whose map entries come and go (codeexecutor/metadata.go:222-260;
 evolution/promotion.go:37-60): the sections that the map's mutex protects, as functions on its
 state and as methods that run them in place, and every interleaving of lockers, cancellations,
 unlocks and releases.
 */
module KeyedLock {
  import opened Prelude

  type Key = nat
  type LockID = nat
  type Thread = nat

  // ----- The critical sections -----

  /** One lock object, shared by all who reached it through the map, and its reference count. */
  class Lock {
    var refs: int

    constructor ()
      ensures refs == 0
    {
      refs := 0;
    }
  }

  class Locker {
    var locks: map<Key, Lock>

    constructor ()
      ensures locks == map[]
    {
      locks := map[];
    }

    /** The locked head of `lock`: find or create the key's lock object and count one more user. */
    method Enter(key: Key) returns (kl: Lock)
      modifies this, locks.Values
      ensures key in old(locks) ==> kl == old(locks)[key] && kl.refs == old(kl.refs) + 1
      ensures key !in old(locks) ==> fresh(kl) && kl.refs == 1
      ensures locks == old(locks)[key := kl]
      ensures forall l :: l in old(locks).Values && l != kl ==> l.refs == old(l.refs)
    {
      if key in locks {
        kl := locks[key];
        assert kl in locks.Values;
      } else {
        kl := new Lock();
        locks := locks[key := kl];
      }
      kl.refs := kl.refs + 1;
    }

    /** releaseRef: count one user less, and forget the key with the last one. */
    method ReleaseRef(key: Key, kl: Lock)
      modifies this, kl
      ensures kl.refs == old(kl.refs) - 1
      ensures locks == if kl.refs == 0 then old(locks) - {key} else old(locks)
    {
      kl.refs := kl.refs - 1;
      if kl.refs == 0 {
        locks := locks - {key};
      }
    }
  }

  // ----- All interleavings -----

  /** A thread holds a reference in each of these phases; it is in the critical region only when Holding. */
  datatype Phase = Waiting | Holding | Leaving

  datatype User = User(key: Key, lock: LockID, phase: Phase)

  /** `taken` are the lock objects whose slot is full; `refs` has one count for every object ever made. */
  datatype World = World(locks: map<Key, LockID>, refs: seq<int>, taken: set<LockID>, users: map<Thread, User>)

  datatype Event =
    | EnterSection(t: Thread, key: Key)
    | Acquire(t: Thread)
    | GiveUp(t: Thread)
    | Unlock(t: Thread)
    | ReleaseSection(t: Thread)

  predicate Enabled(w: World, e: Event) {
    match e
    case EnterSection(t, _) => t !in w.users
    case Acquire(t) => t in w.users && w.users[t].phase.Waiting? && w.users[t].lock !in w.taken
    case GiveUp(t) => t in w.users && w.users[t].phase.Waiting?
    case Unlock(t) => t in w.users && w.users[t].phase.Holding?
    case ReleaseSection(t) => t in w.users && w.users[t].phase.Leaving? && w.users[t].lock < |w.refs|
  }

  function Entered(w: World, t: Thread, key: Key): World {
    if key in w.locks && w.locks[key] < |w.refs| then
      var l := w.locks[key];
      w.(refs := w.refs[l := w.refs[l] + 1], users := w.users[t := User(key, l, Waiting)])
    else
      w.(locks := w.locks[key := |w.refs|], refs := w.refs + [1], users := w.users[t := User(key, |w.refs|, Waiting)])
  }

  function Released(w: World, t: Thread): World
    requires t in w.users && w.users[t].lock < |w.refs|
  {
    var u := w.users[t];
    var left := w.refs[u.lock] - 1;
    w.(locks := if left == 0 then w.locks - {u.key} else w.locks,
       refs := w.refs[u.lock := left],
       users := w.users - {t})
  }

  function Apply(w: World, e: Event): World
    requires Enabled(w, e)
  {
    match e
    case EnterSection(t, key) => Entered(w, t, key)
    case Acquire(t) => w.(taken := w.taken + {w.users[t].lock}, users := w.users[t := w.users[t].(phase := Holding)])
    case GiveUp(t) => w.(users := w.users[t := w.users[t].(phase := Leaving)])
    case Unlock(t) => w.(taken := w.taken - {w.users[t].lock}, users := w.users[t := w.users[t].(phase := Leaving)])
    case ReleaseSection(t) => Released(w, t)
  }

  const INITIAL: World := World(map[], [], {}, map[])

  ghost predicate IsRun(run: seq<World>, events: seq<Event>) {
    |run| == |events| + 1 && run[0] == INITIAL &&
    forall j :: 0 <= j < |events| ==> Enabled(run[j], events[j]) && run[j + 1] == Apply(run[j], events[j])
  }

  // ----- The invariant -----

  function UsersOf(w: World, l: LockID): set<Thread> {
    set t | t in w.users && w.users[t].lock == l
  }

  /** A lock object is bound to a key exactly while it has users, all of whom came for that key. */
  ghost predicate Bindings(w: World) {
    BoundAreUsed(w) && UsedAreBound(w) && BoundOnce(w)
  }

  ghost predicate BoundAreUsed(w: World) {
    forall key :: key in w.locks ==> w.locks[key] < |w.refs| && UsersOf(w, w.locks[key]) != {}
  }

  ghost predicate UsedAreBound(w: World) {
    forall t :: t in w.users ==> w.users[t].key in w.locks && w.locks[w.users[t].key] == w.users[t].lock
  }

  ghost predicate BoundOnce(w: World) {
    forall k1, k2 :: k1 in w.locks && k2 in w.locks && w.locks[k1] == w.locks[k2] ==> k1 == k2
  }

  ghost predicate Counts(w: World) {
    forall l :: 0 <= l < |w.refs| ==> w.refs[l] == |UsersOf(w, l)|
  }

  predicate Holds(w: World, t: Thread) {
    t in w.users && w.users[t].phase.Holding?
  }

  ghost predicate Slots(w: World) {
    (forall s, t :: Holds(w, s) && Holds(w, t) && w.users[s].lock == w.users[t].lock ==> s == t) &&
    (forall l :: l in w.taken <==> exists t :: Holds(w, t) && w.users[t].lock == l)
  }

  ghost predicate Inv(w: World) {
    Bindings(w) && Counts(w) && Slots(w)
  }

  /** The users of a lock object change by the one thread that enters or leaves. */
  lemma UsersAfterEnter(w: World, t: Thread, key: Key, l: LockID)
    requires Inv(w) && t !in w.users
    ensures var w' := Entered(w, t, key);
      UsersOf(w', l) == if w'.users[t].lock == l then UsersOf(w, l) + {t} else UsersOf(w, l)
  {
  }

  lemma UsersAfterRelease(w: World, t: Thread, l: LockID)
    requires Inv(w) && Enabled(w, ReleaseSection(t))
    ensures UsersOf(Released(w, t), l) == if w.users[t].lock == l then UsersOf(w, l) - {t} else UsersOf(w, l)
  {
  }

  /** Slots that nobody touches stay in order. */
  lemma SlotsFrame(w: World, w': World)
    requires Slots(w) && w'.taken == w.taken
    requires forall x :: Holds(w, x) ==> Holds(w', x) && w'.users[x].lock == w.users[x].lock
    requires forall x :: Holds(w', x) ==> Holds(w, x)
    ensures Slots(w')
  {
    forall l | l in w'.taken ensures exists x :: Holds(w', x) && w'.users[x].lock == l {
      var x :| Holds(w, x) && w.users[x].lock == l;
      assert Holds(w', x);
    }
  }

  lemma EnterCounts(w: World, t: Thread, key: Key)
    requires Inv(w) && t !in w.users
    ensures Counts(Entered(w, t, key))
  {
    var w' := Entered(w, t, key);
    assert UsersOf(w, |w.refs|) == {};
    forall l | 0 <= l < |w'.refs| ensures w'.refs[l] == |UsersOf(w', l)| {
      UsersAfterEnter(w, t, key, l);
      assert t !in UsersOf(w, l);
    }
  }

  lemma EnterBinds(w: World, t: Thread, key: Key)
    requires Inv(w) && t !in w.users
    ensures UsedAreBound(Entered(w, t, key)) && BoundOnce(Entered(w, t, key))
  {
  }

  lemma EnterUses(w: World, t: Thread, key: Key)
    requires Inv(w) && t !in w.users
    ensures BoundAreUsed(Entered(w, t, key))
  {
    var w' := Entered(w, t, key);
    forall k | k in w'.locks ensures w'.locks[k] < |w'.refs| && UsersOf(w', w'.locks[k]) != {} {
      UsersAfterEnter(w, t, key, w'.locks[k]);
    }
  }

  lemma EnterSlots(w: World, t: Thread, key: Key)
    requires Slots(w) && t !in w.users
    ensures Slots(Entered(w, t, key))
  {
    SlotsFrame(w, Entered(w, t, key));
  }

  lemma EnterKeeps(w: World, t: Thread, key: Key)
    requires Inv(w) && t !in w.users
    ensures Inv(Entered(w, t, key))
  {
    EnterCounts(w, t, key);
    EnterBinds(w, t, key);
    EnterUses(w, t, key);
    EnterSlots(w, t, key);
  }

  lemma ReleaseCounts(w: World, t: Thread)
    requires Inv(w) && Enabled(w, ReleaseSection(t))
    ensures Counts(Released(w, t))
  {
    var w' := Released(w, t);
    forall l | 0 <= l < |w'.refs| ensures w'.refs[l] == |UsersOf(w', l)| {
      UsersAfterRelease(w, t, l);
      assert l == w.users[t].lock ==> t in UsersOf(w, l);
    }
  }

  lemma ReleaseBinds(w: World, t: Thread)
    requires Inv(w) && Enabled(w, ReleaseSection(t))
    ensures Bindings(Released(w, t))
  {
    var w', u := Released(w, t), w.users[t];
    ReleaseCounts(w, t);
    forall x | x in w'.users ensures w'.users[x].key in w'.locks && w'.locks[w'.users[x].key] == w'.users[x].lock {
      if w.users[x].key == u.key {
        assert x in UsersOf(w', u.lock);
      }
    }
    forall k | k in w'.locks ensures w'.locks[k] < |w'.refs| && UsersOf(w', w'.locks[k]) != {} {
      UsersAfterRelease(w, t, w'.locks[k]);
      assert k == u.key ==> w'.refs[u.lock] != 0;
    }
  }

  lemma ReleaseSlots(w: World, t: Thread)
    requires Slots(w) && Enabled(w, ReleaseSection(t))
    ensures Slots(Released(w, t))
  {
    SlotsFrame(w, Released(w, t));
  }

  lemma ReleaseKeeps(w: World, t: Thread)
    requires Inv(w) && Enabled(w, ReleaseSection(t))
    ensures Inv(Released(w, t))
  {
    ReleaseCounts(w, t);
    ReleaseBinds(w, t);
    ReleaseSlots(w, t);
  }

  /** The phases of a thread that stays. */
  ghost predicate Restaged(w: World, w': World, t: Thread) {
    w'.locks == w.locks && w'.refs == w.refs && t in w.users &&
    exists phase :: w'.users == w.users[t := w.users[t].(phase := phase)]
  }

  lemma RestagedUsers(w: World, w': World, t: Thread, l: LockID)
    requires Restaged(w, w', t)
    ensures UsersOf(w', l) == UsersOf(w, l)
  {
  }

  lemma RestagedCounts(w: World, w': World, t: Thread)
    requires Counts(w) && Restaged(w, w', t)
    ensures Counts(w')
  {
    forall l | 0 <= l < |w'.refs| ensures w'.refs[l] == |UsersOf(w', l)| {
      RestagedUsers(w, w', t, l);
    }
  }

  lemma RestagedBinds(w: World, w': World, t: Thread)
    requires Bindings(w) && Restaged(w, w', t)
    ensures Bindings(w')
  {
    forall k | k in w'.locks ensures w'.locks[k] < |w'.refs| && UsersOf(w', w'.locks[k]) != {} {
      RestagedUsers(w, w', t, w'.locks[k]);
    }
  }

  lemma AcquireSlots(w: World, t: Thread)
    requires Slots(w) && Enabled(w, Acquire(t))
    ensures Slots(Apply(w, Acquire(t)))
  {
    var w' := Apply(w, Acquire(t));
    assert forall x :: x != t ==> (Holds(w', x) <==> Holds(w, x)) && (Holds(w, x) ==> w'.users[x] == w.users[x]);
    assert Holds(w', t);
    forall l | l in w'.taken ensures exists x :: Holds(w', x) && w'.users[x].lock == l {
      if l != w.users[t].lock {
        var x :| Holds(w, x) && w.users[x].lock == l;
        assert Holds(w', x);
      }
    }
  }

  lemma UnlockSlots(w: World, t: Thread)
    requires Slots(w) && Enabled(w, Unlock(t))
    ensures Slots(Apply(w, Unlock(t)))
  {
    var w' := Apply(w, Unlock(t));
    assert Holds(w, t) && !Holds(w', t);
    assert forall x :: x != t ==> (Holds(w', x) <==> Holds(w, x)) && (Holds(w, x) ==> w'.users[x] == w.users[x]);
    forall l | l in w'.taken ensures exists x :: Holds(w', x) && w'.users[x].lock == l {
      var x :| Holds(w, x) && w.users[x].lock == l;
      assert Holds(w', x);
    }
  }

  lemma GiveUpSlots(w: World, t: Thread)
    requires Slots(w) && Enabled(w, GiveUp(t))
    ensures Slots(Apply(w, GiveUp(t)))
  {
    SlotsFrame(w, Apply(w, GiveUp(t)));
  }

  lemma PhaseRestages(w: World, e: Event)
    requires Enabled(w, e) && !e.EnterSection? && !e.ReleaseSection?
    ensures Restaged(w, Apply(w, e), e.t)
  {
    var w' := Apply(w, e);
    assert w'.users == w.users[e.t := w.users[e.t].(phase := w'.users[e.t].phase)];
  }

  lemma PhaseKeeps(w: World, e: Event)
    requires Inv(w) && Enabled(w, e) && !e.EnterSection? && !e.ReleaseSection?
    ensures Inv(Apply(w, e))
  {
    PhaseRestages(w, e);
    RestagedCounts(w, Apply(w, e), e.t);
    RestagedBinds(w, Apply(w, e), e.t);
    match e {
      case Acquire(t) => AcquireSlots(w, t);
      case Unlock(t) => UnlockSlots(w, t);
      case GiveUp(t) => GiveUpSlots(w, t);
    }
  }

  lemma InvKept(w: World, e: Event)
    requires Inv(w) && Enabled(w, e)
    ensures Inv(Apply(w, e))
  {
    match e {
      case EnterSection(t, key) => EnterKeeps(w, t, key);
      case ReleaseSection(t) => ReleaseKeeps(w, t);
      case _ => PhaseKeeps(w, e);
    }
  }

  lemma {:induction false} RunInv(run: seq<World>, events: seq<Event>, j: nat)
    requires IsRun(run, events) && j < |run|
    ensures Inv(run[j])
    decreases j
  {
    if j > 0 {
      RunInv(run, events, j - 1);
      InvKept(run[j - 1], events[j - 1]);
    }
  }

  // ----- Theorems about every run -----

  /** Holders of one key exclude each other, although the key's lock object may have been replaced many times. */
  lemma MutualExclusion(run: seq<World>, events: seq<Event>, j: nat, s: Thread, t: Thread)
    requires IsRun(run, events) && j < |run| && s in run[j].users && t in run[j].users
    requires Holds(run[j], s) && Holds(run[j], t) && run[j].users[s].key == run[j].users[t].key
    ensures s == t
  {
    RunInv(run, events, j);
  }

  /** A key is in the map exactly while it has users, and its count is their number. */
  lemma RefsCountUsers(run: seq<World>, events: seq<Event>, j: nat, key: Key)
    requires IsRun(run, events) && j < |run|
    ensures var w := run[j];
      var users := set t | t in w.users && w.users[t].key == key;
      (key in w.locks <==> users != {}) &&
      (key in w.locks ==> w.locks[key] < |w.refs| && w.refs[w.locks[key]] == |users|)
  {
    var w := run[j];
    RunInv(run, events, j);
    var users := set t | t in w.users && w.users[t].key == key;
    if key in w.locks {
      assert UsersOf(w, w.locks[key]) == users;
    } else {
      assert forall t :: t in w.users ==> w.users[t].key != key;
    }
  }

  /**
   A release takes the key out of the map exactly when no other thread uses the key, and what it
   takes out is the lock object the releaser held.
   */
  lemma ReleaseDeletesItsOwn(run: seq<World>, events: seq<Event>, j: nat, t: Thread)
    requires IsRun(run, events) && j < |events| && events[j] == ReleaseSection(t)
    ensures t in run[j].users
    ensures var w, u := run[j], run[j].users[t];
      var others := set x | x in w.users && x != t && w.users[x].key == u.key;
      u.key in w.locks && w.locks[u.key] == u.lock &&
      run[j + 1].locks == if others == {} then w.locks - {u.key} else w.locks
  {
    var w, u := run[j], run[j].users[t];
    RunInv(run, events, j);
    var others := set x | x in w.users && x != t && w.users[x].key == u.key;
    assert UsersOf(w, u.lock) == others + {t};
  }

  /** While somebody is there, somebody can move: a free slot never leaves only waiters stuck. */
  lemma SomebodyCanMove(run: seq<World>, events: seq<Event>, j: nat)
    requires IsRun(run, events) && j < |run| && run[j].users != map[]
    ensures exists e: Event :: !e.EnterSection? && !e.GiveUp? && Enabled(run[j], e)
  {
    var w := run[j];
    RunInv(run, events, j);
    var t :| t in w.users;
    match w.users[t].phase {
      case Holding => assert Enabled(w, Unlock(t));
      case Leaving => assert Enabled(w, ReleaseSection(t));
      case Waiting =>
        if w.users[t].lock in w.taken {
          var x :| Holds(w, x) && w.users[x].lock == w.users[t].lock;
          assert Enabled(w, Unlock(x));
        } else {
          assert Enabled(w, Acquire(t));
        }
    }
  }

  // ----- The sections and the protocol -----

  /** The fields of a Locker, with the protocol's numbering of its lock objects, are those of a world. */
  ghost predicate Represents(locker: Locker, w: World, objects: seq<Lock>)
    reads locker, objects
  {
    |objects| == |w.refs| &&
    (forall i, k :: 0 <= i < k < |objects| ==> objects[i] != objects[k]) &&
    (forall i :: 0 <= i < |objects| ==> objects[i].refs == w.refs[i]) &&
    locker.locks.Keys == w.locks.Keys &&
    (forall key :: key in w.locks ==> w.locks[key] < |objects| && locker.locks[key] == objects[w.locks[key]])
  }

  /** Enter runs the protocol's EnterSection. */
  method EnterRefines(locker: Locker, ghost w: World, ghost objects: seq<Lock>, ghost t: Thread, key: Key)
    returns (kl: Lock, ghost objects': seq<Lock>)
    requires Represents(locker, w, objects) && t !in w.users
    modifies locker, locker.locks.Values
    ensures Represents(locker, Entered(w, t, key), objects')
    ensures kl == objects'[Entered(w, t, key).users[t].lock]
  {
    kl := locker.Enter(key);
    objects' := if key in w.locks then objects else objects + [kl];
    if key in w.locks {
      assert forall i :: 0 <= i < |objects| && objects[i] != kl ==> objects[i].refs == old(objects[i].refs);
    }
  }

  /** ReleaseRef runs the protocol's ReleaseSection. */
  method ReleaseRefines(locker: Locker, ghost w: World, ghost objects: seq<Lock>, ghost t: Thread, key: Key, kl: Lock)
    requires Represents(locker, w, objects) && Enabled(w, ReleaseSection(t))
    requires w.users[t].key == key && objects[w.users[t].lock] == kl
    modifies locker, kl
    ensures Represents(locker, Released(w, t), objects)
  {
    locker.ReleaseRef(key, kl);
  }
}
