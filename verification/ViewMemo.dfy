/**
 The cycle-safe deep clone of invocation state (agent/invocation.go:1754-2035): cells are
 allocated and filled in place while a memo table `visited` records which address became which,
 and an entry is withdrawn again when its copy is refused.
 */
module ViewMemo {
  import opened Prelude
  import opened ViewHeap

  /** The cloner's state at one instant: heap, allocation limit, memo, unfinished entries, buffer copies. */
  datatype Stage = Stage(
    cells: Heap,
    next: Addr,
    visited: map<Addr, Addr>,
    open: set<Addr>,
    buffers: map<Addr, Addr>)

  /** h is the heap at the start; every finished entry of the memo is a copy, every entry has its own new cell. */
  ghost predicate Sound(h: Heap, g: Stage) {
    Closed(h) && (forall a :: a in h ==> a in g.cells && g.cells[a] == h[a]) &&
    (forall x :: x in g.cells ==> x < g.next) &&
    (forall a, b :: a in g.visited && b in g.visited && g.visited[a] == g.visited[b] ==> a == b) &&
    (forall a :: a in g.visited ==>
     a in h && g.visited[a] in g.cells && g.visited[a] !in h && g.visited[a] !in g.buffers) &&
    g.open <= g.visited.Keys &&
    (forall a :: a in g.visited && a !in g.open ==> CopyOfCell(h, h[a], g.cells[g.visited[a]], g.visited, g.buffers)) &&
    (forall b :: b in g.buffers ==> b in g.cells && b !in h && g.buffers[b] in h && g.cells[b] == h[g.buffers[b]])
  }

  /** Nothing that was there is touched, and everything new has a new address. */
  ghost predicate Grows(g: Stage, g': Stage) {
    g.next <= g'.next && (forall x :: x in g.cells ==> x in g'.cells && g'.cells[x] == g.cells[x]) &&
    Extends(g.buffers, g'.buffers) && (forall b :: b in g'.buffers && b !in g.buffers ==> b >= g.next) &&
    Extends(g.visited, g'.visited) && (forall a :: a in g'.visited && a !in g.visited ==> g'.visited[a] >= g.next) &&
    g'.open == g.open
  }

  /** Every entry of the memo whose copy may yet be refused is on the opaque chain above v. */
  ghost predicate Clear(h: Heap, g: Stage, v: Value) {
    forall a, n: nat :: a in g.visited && OpaqueWithin(h, Ref(a), n) ==> n > 0 && OpaqueWithin(h, v, n - 1)
  }

  /** The outcome of cloning v between two instants. */
  ghost predicate Clones(h: Heap, g: Stage, g': Stage, v: Value, r: Value, ok: bool) {
    Sound(h, g') && Grows(g, g') && ok == !KeptByReference(h, v) &&
    (ok ==> Copy(h, v, r, g'.visited, g'.buffers)) &&
    (!ok ==> g'.visited == g.visited) &&
    NoneKept(h, g, g')
  }

  /** An entry that stays is never withdrawn later. */
  ghost predicate NoneKept(h: Heap, g: Stage, g': Stage) {
    forall a :: a in g'.visited && a !in g.visited ==> !KeptByReference(h, Ref(a))
  }

  // ----- Steps on the memo -----

  function Opened(g: Stage, a: Addr, blank: Cell): Stage {
    g.(cells := g.cells[g.next := blank], next := g.next + 1, visited := g.visited[a := g.next], open := g.open + {a})
  }

  function Written(g: Stage, c: Addr, cell: Cell): Stage {
    g.(cells := g.cells[c := cell])
  }

  function Withdrawn(g: Stage, a: Addr): Stage {
    g.(visited := g.visited - {a}, open := g.open - {a})
  }

  function Finished(g: Stage, a: Addr): Stage {
    g.(open := g.open - {a})
  }

  /** Finished copies stay copies while the memo, the buffers and the heap grow. */
  lemma CopiesStay(h: Heap, g: Stage, g': Stage)
    requires Sound(h, g) && Extends(g.visited, g'.visited) && Extends(g.buffers, g'.buffers)
    requires forall x :: x in g.cells ==> x in g'.cells && g'.cells[x] == g.cells[x]
    ensures forall b :: b in g.visited && b !in g.open ==>
      CopyOfCell(h, h[b], g'.cells[g.visited[b]], g'.visited, g'.buffers)
  {
    forall b | b in g.visited && b !in g.open
      ensures CopyOfCell(h, h[b], g'.cells[g.visited[b]], g'.visited, g'.buffers)
    {
      CopyOfCellMonotone(h, h[b], g.cells[g.visited[b]], g.visited, g.buffers, g'.visited, g'.buffers);
    }
  }

  lemma OpenedSound(h: Heap, g: Stage, a: Addr, blank: Cell)
    requires Sound(h, g) && a in h && a !in g.visited
    ensures Sound(h, Opened(g, a, blank))
  {
    CopiesStay(h, g, Opened(g, a, blank));
  }

  lemma WrittenSound(h: Heap, g: Stage, a: Addr, cell: Cell)
    requires Sound(h, g) && a in g.open
    ensures Sound(h, Written(g, g.visited[a], cell))
  {
  }

  lemma ClosedSound(h: Heap, g: Stage, a: Addr)
    requires Sound(h, g) && a in g.open && CopyOfCell(h, h[a], g.cells[g.visited[a]], g.visited, g.buffers)
    ensures Sound(h, Finished(g, a))
  {
  }

  /** Withdrawing a refused entry leaves the memo as it was, over a heap that has only grown. */
  lemma WithdrawnSound(h: Heap, g: Stage, g': Stage)
    requires Sound(h, g) && Sound(h, g') && g.next <= g'.next
    requires forall x :: x in g.cells ==> x in g'.cells && g'.cells[x] == g.cells[x]
    requires Extends(g.buffers, g'.buffers) && (forall b :: b in g'.buffers && b !in g.buffers ==> b >= g.next)
    ensures Sound(h, g'.(visited := g.visited, open := g.open))
  {
    CopiesStay(h, g, g'.(visited := g.visited));
  }

  lemma GrowsTransitive(f: Stage, g: Stage, g': Stage)
    requires Grows(f, g) && Grows(g, g')
    ensures Grows(f, g')
  {
  }

  /** Between opening the entry of a at g0 and finishing it. */
  ghost predicate InProgress(h: Heap, g0: Stage, g: Stage, a: Addr) {
    Sound(h, g) && a in h && a !in g0.visited && a in g.visited && g.visited[a] == g0.next &&
    g.open == g0.open + {a} && a !in g0.open &&
    g0.next < g.next && (forall x :: x in g0.cells ==> x in g.cells && g.cells[x] == g0.cells[x]) &&
    (forall x :: x in g0.cells ==> x < g0.next) &&
    Extends(g0.buffers, g.buffers) && (forall b :: b in g.buffers && b !in g0.buffers ==> b >= g0.next) &&
    Extends(g0.visited, g.visited) && (forall b :: b in g.visited && b !in g0.visited ==> g.visited[b] >= g0.next)
  }

  lemma StartsInProgress(h: Heap, g0: Stage, a: Addr, blank: Cell)
    requires Sound(h, g0) && a in h && a !in g0.visited
    ensures InProgress(h, g0, Opened(g0, a, blank), a)
  {
    OpenedSound(h, g0, a, blank);
  }

  lemma GrowsInProgress(h: Heap, g0: Stage, g: Stage, g': Stage, a: Addr)
    requires InProgress(h, g0, g, a) && Grows(g, g') && Sound(h, g')
    ensures InProgress(h, g0, g', a) && g'.cells[g0.next] == g.cells[g0.next]
  {
  }

  lemma WritesInProgress(h: Heap, g0: Stage, g: Stage, a: Addr, cell: Cell)
    requires InProgress(h, g0, g, a)
    ensures InProgress(h, g0, Written(g, g0.next, cell), a)
  {
    WrittenSound(h, g, a, cell);
  }

  lemma FinishesProgress(h: Heap, g0: Stage, g: Stage, a: Addr)
    requires InProgress(h, g0, g, a) && CopyOfCell(h, h[a], g.cells[g0.next], g.visited, g.buffers)
    ensures Sound(h, Finished(g, a)) && Grows(g0, Finished(g, a))
  {
    ClosedSound(h, g, a);
    assert g.open - {a} == g0.open;
  }

  // ----- The opaque chain -----

  /** A memo hit is always the copy of a value that will not be refused. */
  lemma HitIsCopyable(h: Heap, g: Stage, a: Addr)
    requires a in g.visited && Clear(h, g, Ref(a))
    ensures !KeptByReference(h, Ref(a))
  {
    forall n: nat ensures !OpaqueWithin(h, Ref(a), n) {
      NoOpaqueCycle(h, a, n);
    }
  }

  lemma ClearBelowPointer(h: Heap, g: Stage, a: Addr, blank: Cell)
    requires a in h && h[a].Pointee? && a !in g.visited && Clear(h, g, Ref(a))
    ensures Clear(h, Opened(g, a, blank), h[a].value)
  {
    var o := Opened(g, a, blank);
    forall b, n: nat | b in o.visited && OpaqueWithin(h, Ref(b), n)
      ensures n > 0 && OpaqueWithin(h, h[a].value, n - 1)
    {
      if b != a {
        assert OpaqueWithin(h, Ref(a), n - 1);
        OpaqueMonotone(h, h[a].value, n - 2);
      }
    }
  }

  lemma ClearUnderIface(h: Heap, g: Stage, inner: Value)
    requires Clear(h, g, Iface(inner))
    ensures Clear(h, g, inner)
  {
    forall a, n: nat | a in g.visited && OpaqueWithin(h, Ref(a), n)
      ensures n > 0 && OpaqueWithin(h, inner, n - 1)
    {
      assert OpaqueWithin(h, Iface(inner), n - 1);
    }
  }

  /** While a container is being copied, no entry of the memo can be refused any more. */
  ghost predicate Settled(h: Heap, g: Stage) {
    forall a :: a in g.visited ==> !KeptByReference(h, Ref(a))
  }

  lemma ContainersSettle(h: Heap, g: Stage, v: Value)
    requires Clear(h, g, v) && !KeptByReference(h, v)
    ensures Settled(h, g)
  {
    forall a | a in g.visited ensures !KeptByReference(h, Ref(a)) {
      forall n: nat ensures !OpaqueWithin(h, Ref(a), n) {
        assert n > 0 ==> !OpaqueWithin(h, v, n - 1);
      }
    }
  }

  lemma SettledIsClear(h: Heap, g: Stage, v: Value)
    requires Settled(h, g)
    ensures Clear(h, g, v)
  {
  }

  /** The outcome of cloning one element of a container between two instants. */
  ghost predicate ClonesElement(h: Heap, g: Stage, g': Stage, v: Value, r: Value) {
    Sound(h, g') && Grows(g, g') && NoneKept(h, g, g') && Settled(h, g') && Element(h, v, r, g'.visited, g'.buffers)
  }

  /** A container's entry is being filled: nothing in the memo can be refused any more. */
  ghost predicate Filling(h: Heap, g0: Stage, g: Stage, a: Addr) {
    InProgress(h, g0, g, a) && Settled(h, g)
  }

  lemma StartsFilling(h: Heap, g0: Stage, a: Addr, blank: Cell)
    requires Sound(h, g0) && a in h && a !in g0.visited && !h[a].Pointee? && Clear(h, g0, Ref(a))
    ensures Filling(h, g0, Opened(g0, a, blank), a)
  {
    StartsInProgress(h, g0, a, blank);
    KeptPointer(h, a);
    ContainersSettle(h, g0, Ref(a));
  }

  lemma ElementFills(h: Heap, g0: Stage, g: Stage, g': Stage, a: Addr, v: Value, r: Value)
    requires Filling(h, g0, g, a) && ClonesElement(h, g, g', v, r)
    ensures Filling(h, g0, g', a) && g0.next in g.cells && g'.cells[g0.next] == g.cells[g0.next]
  {
    GrowsInProgress(h, g0, g, g', a);
  }

  lemma WriteFills(h: Heap, g0: Stage, g: Stage, a: Addr, cell: Cell)
    requires Filling(h, g0, g, a)
    ensures Filling(h, g0, Written(g, g0.next, cell), a)
  {
    WritesInProgress(h, g0, g, a, cell);
  }

  lemma FinishesFilling(h: Heap, g0: Stage, g: Stage, a: Addr)
    requires Filling(h, g0, g, a) && !h[a].Pointee? && CopyOfCell(h, h[a], g.cells[g0.next], g.visited, g.buffers)
    ensures Clones(h, g0, Finished(g, a), Ref(a), Ref(g0.next), true)
  {
    FinishesProgress(h, g0, g, a);
    KeptPointer(h, a);
  }

  // ----- Pointers -----

  lemma RefusedPointer(h: Heap, g0: Stage, g: Stage, a: Addr)
    requires Sound(h, g0) && InProgress(h, g0, g, a) && g.visited == g0.visited[a := g0.next]
    requires KeptByReference(h, Ref(a))
    ensures Clones(h, g0, Withdrawn(g, a), Ref(a), Ref(a), false)
  {
    RefusedSound(h, g0, g, a);
    RefusedGrows(h, g0, g, a);
  }

  lemma RefusedGrows(h: Heap, g0: Stage, g: Stage, a: Addr)
    requires InProgress(h, g0, g, a) && g.visited == g0.visited[a := g0.next]
    ensures Grows(g0, Withdrawn(g, a)) && Withdrawn(g, a).visited == g0.visited
  {
    WithdrawnIsBefore(h, g0, g, a);
  }

  lemma RefusedSound(h: Heap, g0: Stage, g: Stage, a: Addr)
    requires Sound(h, g0) && InProgress(h, g0, g, a) && g.visited == g0.visited[a := g0.next]
    ensures Sound(h, Withdrawn(g, a))
  {
    WithdrawnSound(h, g0, g);
    WithdrawnIsBefore(h, g0, g, a);
  }

  lemma WithdrawnIsBefore(h: Heap, g0: Stage, g: Stage, a: Addr)
    requires InProgress(h, g0, g, a) && g.visited == g0.visited[a := g0.next]
    ensures Withdrawn(g, a) == g.(visited := g0.visited, open := g0.open)
  {
    assert g.visited - {a} == g0.visited;
    assert g.open - {a} == g0.open;
  }

  lemma FinishedPointer(h: Heap, g0: Stage, g: Stage, a: Addr, value: Value)
    requires InProgress(h, g0, g, a) && h[a].Pointee? && NoneKept(h, Opened(g0, a, Pointee(Nil)), g)
    requires !KeptByReference(h, h[a].value) && Copy(h, h[a].value, value, g.visited, g.buffers)
    ensures Clones(h, g0, Finished(Written(g, g0.next, Pointee(value)), a), Ref(a), Ref(g0.next), true)
  {
    KeptPointer(h, a);
    PointerFinishes(h, g0, g, a, value);
    assert NoneKept(h, g0, g);
  }

  lemma PointerFinishes(h: Heap, g0: Stage, g: Stage, a: Addr, value: Value)
    requires InProgress(h, g0, g, a) && h[a].Pointee?
    requires !KeptByReference(h, h[a].value) && Copy(h, h[a].value, value, g.visited, g.buffers)
    ensures var done := Finished(Written(g, g0.next, Pointee(value)), a);
      Sound(h, done) && Grows(g0, done)
  {
    WritesInProgress(h, g0, g, a, Pointee(value));
    FinishesProgress(h, g0, Written(g, g0.next, Pointee(value)), a);
  }

  /** What cloning the target of a freshly opened pointer leaves. */
  lemma TargetCloned(h: Heap, g0: Stage, g: Stage, a: Addr, value: Value, ok: bool)
    requires InProgress(h, g0, Opened(g0, a, Pointee(Nil)), a) && h[a].Pointee?
    requires Clones(h, Opened(g0, a, Pointee(Nil)), g, h[a].value, value, ok)
    ensures InProgress(h, g0, g, a)
  {
    GrowsInProgress(h, g0, Opened(g0, a, Pointee(Nil)), g, a);
  }

  // ----- Known buffers -----

  function Buffered(g: Stage, b: Addr, cell: Cell): Stage {
    g.(cells := g.cells[g.next := cell], next := g.next + 1, buffers := g.buffers[g.next := b])
  }

  lemma BufferedSound(h: Heap, g: Stage, b: Addr)
    requires Sound(h, g) && b in h
    ensures Sound(h, Buffered(g, b, h[b]))
  {
    CopiesStay(h, g, Buffered(g, b, h[b]));
  }

  lemma KnownCloned(h: Heap, g: Stage, b: Addr)
    requires Sound(h, g) && b in h
    ensures Clones(h, g, Buffered(g, b, h[b]), Known(b), Known(g.next), true)
  {
    BufferedSound(h, g, b);
    BufferedGrows(h, g, b);
    assert !KeptByReference(h, Known(b));
  }

  lemma BufferedGrows(h: Heap, g: Stage, b: Addr)
    requires b in h && (forall x :: x in g.cells ==> x < g.next) && (forall x :: x in g.buffers ==> x < g.next)
    ensures Grows(g, Buffered(g, b, h[b]))
  {
  }

  // ----- Slices and maps -----

  lemma ElementsMonotone(h: Heap, g: Stage, g': Stage, vs: seq<Value>, rs: seq<Value>, n: nat)
    requires n <= |vs| && n <= |rs| && Grows(g, g')
    requires forall j :: 0 <= j < n ==> Element(h, vs[j], rs[j], g.visited, g.buffers)
    ensures forall j :: 0 <= j < n ==> Element(h, vs[j], rs[j], g'.visited, g'.buffers)
  {
    forall j | 0 <= j < n ensures Element(h, vs[j], rs[j], g'.visited, g'.buffers) {
      ElementMonotone(h, vs[j], rs[j], g.visited, g.buffers, g'.visited, g'.buffers);
    }
  }

  lemma EntriesMonotone(h: Heap, g: Stage, g': Stage, vs: map<MapKey, Value>, rs: map<MapKey, Value>)
    requires Grows(g, g') && rs.Keys <= vs.Keys
    requires forall key :: key in rs ==> Element(h, vs[key], rs[key], g.visited, g.buffers)
    ensures forall key :: key in rs ==> Element(h, vs[key], rs[key], g'.visited, g'.buffers)
  {
    forall key | key in rs ensures Element(h, vs[key], rs[key], g'.visited, g'.buffers) {
      ElementMonotone(h, vs[key], rs[key], g.visited, g.buffers, g'.visited, g'.buffers);
    }
  }

  /** The first i elements of the slice at a have been filled in. */
  ghost predicate FilledTo(h: Heap, g0: Stage, g: Stage, a: Addr, i: nat) {
    Filling(h, g0, g, a) && h[a].SliceOf? && g0.next in g.cells && g.cells[g0.next].SliceOf? &&
    i <= |h[a].items| == |g.cells[g0.next].items| &&
    forall j :: 0 <= j < i ==> Element(h, h[a].items[j], g.cells[g0.next].items[j], g.visited, g.buffers)
  }

  function WithItem(g: Stage, c: Addr, i: nat, copy: Value): Stage
    requires c in g.cells && g.cells[c].SliceOf? && i < |g.cells[c].items|
  {
    Written(g, c, SliceOf(g.cells[c].items[i := copy]))
  }

  lemma ItemFilled(h: Heap, g0: Stage, g: Stage, g': Stage, a: Addr, i: nat, copy: Value)
    requires FilledTo(h, g0, g, a, i) && i < |h[a].items| && ClonesElement(h, g, g', h[a].items[i], copy)
    ensures g0.next in g'.cells && g'.cells[g0.next] == g.cells[g0.next]
    ensures FilledTo(h, g0, WithItem(g', g0.next, i, copy), a, i + 1)
  {
    ElementFills(h, g0, g, g', a, h[a].items[i], copy);
    ElementsMonotone(h, g, g', h[a].items, g.cells[g0.next].items, i);
    ItemAdded(h, g0, g', a, i, copy);
  }

  lemma ItemAdded(h: Heap, g0: Stage, g: Stage, a: Addr, i: nat, copy: Value)
    requires FilledTo(h, g0, g, a, i) && i < |h[a].items| && Element(h, h[a].items[i], copy, g.visited, g.buffers)
    ensures FilledTo(h, g0, WithItem(g, g0.next, i, copy), a, i + 1)
  {
    WriteFills(h, g0, g, a, SliceOf(g.cells[g0.next].items[i := copy]));
  }

  lemma SliceStarts(h: Heap, g0: Stage, a: Addr, blank: seq<Value>)
    requires Sound(h, g0) && a in h && a !in g0.visited && h[a].SliceOf? && Clear(h, g0, Ref(a)) &&
      |blank| == |h[a].items|
    ensures FilledTo(h, g0, Opened(g0, a, SliceOf(blank)), a, 0)
  {
    StartsFilling(h, g0, a, SliceOf(blank));
  }

  lemma SliceFinished(h: Heap, g0: Stage, g: Stage, a: Addr)
    requires a in h && h[a].SliceOf? && FilledTo(h, g0, g, a, |h[a].items|)
    ensures Clones(h, g0, Finished(g, a), Ref(a), Ref(g0.next), true)
  {
    FinishesFilling(h, g0, g, a);
  }

  /** rs has the entries of vs but those of todo, copied, under the same keys. */
  ghost predicate EntriesBut(h: Heap, vs: map<MapKey, Value>, rs: map<MapKey, Value>, todo: set<MapKey>,
                             m: map<Addr, Addr>, k: map<Addr, Addr>) {
    todo <= vs.Keys && rs.Keys == vs.Keys - todo && forall key :: key in rs ==> Element(h, vs[key], rs[key], m, k)
  }

  lemma OneEntryMore(h: Heap, vs: map<MapKey, Value>, rs: map<MapKey, Value>, todo: set<MapKey>,
                     m: map<Addr, Addr>, k: map<Addr, Addr>, key: MapKey, copy: Value)
    requires EntriesBut(h, vs, rs, todo, m, k) && key in todo && Element(h, vs[key], copy, m, k)
    ensures EntriesBut(h, vs, rs[key := copy], todo - {key}, m, k)
  {
  }

  /** All entries of the map at a but those of todo have been filled in. */
  ghost predicate FilledBut(h: Heap, g0: Stage, g: Stage, a: Addr, todo: set<MapKey>) {
    Filling(h, g0, g, a) && h[a].MapOf? && g0.next in g.cells && g.cells[g0.next].MapOf? &&
    EntriesBut(h, h[a].entries, g.cells[g0.next].entries, todo, g.visited, g.buffers)
  }

  function WithEntry(g: Stage, c: Addr, key: MapKey, copy: Value): Stage
    requires c in g.cells && g.cells[c].MapOf?
  {
    Written(g, c, MapOf(g.cells[c].entries[key := copy]))
  }

  lemma EntryFilled(h: Heap, g0: Stage, g: Stage, g': Stage, a: Addr, todo: set<MapKey>, key: MapKey, copy: Value)
    requires FilledBut(h, g0, g, a, todo) && key in todo && ClonesElement(h, g, g', h[a].entries[key], copy)
    ensures g0.next in g'.cells && g'.cells[g0.next] == g.cells[g0.next]
    ensures FilledBut(h, g0, WithEntry(g', g0.next, key, copy), a, todo - {key})
  {
    ElementFills(h, g0, g, g', a, h[a].entries[key], copy);
    EntriesMonotone(h, g, g', h[a].entries, g.cells[g0.next].entries);
    EntryAdded(h, g0, g', a, todo, key, copy);
  }

  lemma EntryAdded(h: Heap, g0: Stage, g: Stage, a: Addr, todo: set<MapKey>, key: MapKey, copy: Value)
    requires FilledBut(h, g0, g, a, todo) && key in todo && Element(h, h[a].entries[key], copy, g.visited, g.buffers)
    ensures FilledBut(h, g0, WithEntry(g, g0.next, key, copy), a, todo - {key})
  {
    WriteFills(h, g0, g, a, MapOf(g.cells[g0.next].entries[key := copy]));
    OneEntryMore(h, h[a].entries, g.cells[g0.next].entries, todo, g.visited, g.buffers, key, copy);
  }

  lemma MapStarts(h: Heap, g0: Stage, a: Addr)
    requires Sound(h, g0) && a in h && a !in g0.visited && h[a].MapOf? && Clear(h, g0, Ref(a))
    ensures FilledBut(h, g0, Opened(g0, a, MapOf(map[])), a, h[a].entries.Keys)
  {
    StartsFilling(h, g0, a, MapOf(map[]));
  }

  lemma MapFinished(h: Heap, g0: Stage, g: Stage, a: Addr)
    requires FilledBut(h, g0, g, a, {})
    ensures Clones(h, g0, Finished(g, a), Ref(a), Ref(g0.next), true)
  {
    FinishesFilling(h, g0, g, a);
  }

  // ----- Structs and arrays -----

  /** The first |copies| parts have been copied since g0. */
  ghost predicate PartsDone(h: Heap, g0: Stage, g: Stage, parts: seq<Value>, copies: seq<Value>) {
    Sound(h, g) && Grows(g0, g) && NoneKept(h, g0, g) && Settled(h, g) && |copies| <= |parts| &&
    forall i :: 0 <= i < |copies| ==> Element(h, parts[i], copies[i], g.visited, g.buffers)
  }

  lemma PartDone(h: Heap, g0: Stage, g: Stage, g': Stage, parts: seq<Value>, copies: seq<Value>, copy: Value)
    requires PartsDone(h, g0, g, parts, copies) && |copies| < |parts| && ClonesElement(h, g, g', parts[|copies|], copy)
    ensures PartsDone(h, g0, g', parts, copies + [copy])
  {
    ElementsMonotone(h, g, g', parts, copies, |copies|);
    GrowsTransitive(g0, g, g');
  }

  // ----- Termination -----

  lemma UnvisitedShrinks(h: Heap, g: Stage, g': Stage)
    requires Extends(g.visited, g'.visited)
    ensures |h.Keys - g'.visited.Keys| <= |h.Keys - g.visited.Keys|
  {
    SubsetSize(h.Keys - g'.visited.Keys, h.Keys - g.visited.Keys);
  }

  lemma UnvisitedLoses(h: Heap, g: Stage, g': Stage, a: Addr)
    requires Extends(g.visited, g'.visited) && a in h && a !in g.visited && a in g'.visited
    ensures |h.Keys - g'.visited.Keys| < |h.Keys - g.visited.Keys|
  {
    SubsetSize(h.Keys - g'.visited.Keys, h.Keys - g.visited.Keys - {a});
  }

  lemma {:induction false} SubsetSize(small: set<Addr>, large: set<Addr>)
    requires small <= large
    ensures |small| <= |large|
  {
    if small != {} {
      var x :| x in small;
      SubsetSize(small - {x}, large - {x});
    }
  }

  // ----- Whole states -----

  function Reset(g: Stage): Stage {
    g.(visited := map[], open := {})
  }

  /** A memo with no unfinished entry describes a finished clone. */
  lemma SoundIsCloned(h: Heap, g: Stage)
    requires Sound(h, g) && g.open == {}
    ensures ClonedHeap(h, g.cells, g.visited, g.buffers)
  {
  }

  /** A finished clone stays one while more is cloned beside it. */
  lemma ClonedStays(h: Heap, g: Stage, g': Stage, m: map<Addr, Addr>)
    requires ClonedHeap(h, g.cells, m, g.buffers) && Sound(h, g') && Grows(Reset(g), g')
    ensures ClonedHeap(h, g'.cells, m, g'.buffers)
  {
    forall a | a in m ensures CopyOfCell(h, h[a], g'.cells[m[a]], m, g'.buffers) {
      CopyOfCellMonotone(h, h[a], g.cells[m[a]], m, g.buffers, m, g'.buffers);
    }
  }

  type StateKey = nat

  /** What the clones of the keys in done are, each with a memo of its own. */
  ghost predicate KeysCloned(h: Heap, g: Stage, state: map<StateKey, Value>, copied: map<StateKey, Value>,
                             shared: set<StateKey>, memos: map<StateKey, map<Addr, Addr>>) {
    copied.Keys <= state.Keys && memos.Keys == copied.Keys - shared &&
    (forall key :: key in copied && key in shared ==> copied[key] == state[key]) &&
    (forall key :: key in memos ==>
      ClonedHeap(h, g.cells, memos[key], g.buffers) && Element(h, state[key], copied[key], memos[key], g.buffers)) &&
    Apart(memos)
  }

  /** The clones of different keys have no cell in common. */
  ghost predicate Apart(memos: map<StateKey, map<Addr, Addr>>) {
    forall p, q, a, b :: p in memos && q in memos && p != q && a in memos[p] && b in memos[q] ==>
      memos[p][a] != memos[q][b]
  }

  lemma KeysStay(h: Heap, g: Stage, g': Stage, state: map<StateKey, Value>, copied: map<StateKey, Value>,
                 shared: set<StateKey>, memos: map<StateKey, map<Addr, Addr>>)
    requires KeysCloned(h, g, state, copied, shared, memos) && Sound(h, g') && Grows(Reset(g), g')
    ensures KeysCloned(h, g', state, copied, shared, memos)
  {
    forall key | key in memos
      ensures ClonedHeap(h, g'.cells, memos[key], g'.buffers) &&
        Element(h, state[key], copied[key], memos[key], g'.buffers)
    {
      ClonedStays(h, g, g', memos[key]);
      ElementMonotone(h, state[key], copied[key], memos[key], g.buffers, memos[key], g'.buffers);
    }
  }

  lemma KeyAdded(h: Heap, g: Stage, g': Stage, state: map<StateKey, Value>, copied: map<StateKey, Value>,
                 shared: set<StateKey>, memos: map<StateKey, map<Addr, Addr>>, key: StateKey, copy: Value)
    requires KeysCloned(h, g, state, copied, shared, memos) && Sound(h, g') && Grows(Reset(g), g')
    requires forall x :: x in g.cells ==> x < g.next
    requires ClonedHeap(h, g'.cells, g'.visited, g'.buffers)
    requires key in state && key !in shared && key !in copied && Element(h, state[key], copy, g'.visited, g'.buffers)
    ensures KeysCloned(h, g', state, copied[key := copy], shared, memos[key := g'.visited])
  {
    KeysStay(h, g, g', state, copied, shared, memos);
    KeyApart(h, g, g', memos, key);
    KeyJoins(h, g', state, copied, shared, memos, key, copy);
  }

  lemma KeyJoins(h: Heap, g: Stage, state: map<StateKey, Value>, copied: map<StateKey, Value>, shared: set<StateKey>,
                 memos: map<StateKey, map<Addr, Addr>>, key: StateKey, copy: Value)
    requires KeysCloned(h, g, state, copied, shared, memos) && ClonedHeap(h, g.cells, g.visited, g.buffers)
    requires key in state && key !in shared && key !in copied && Element(h, state[key], copy, g.visited, g.buffers)
    requires Apart(memos[key := g.visited])
    ensures KeysCloned(h, g, state, copied[key := copy], shared, memos[key := g.visited])
  {
  }

  lemma SharedKeyAdded(h: Heap, g: Stage, state: map<StateKey, Value>, copied: map<StateKey, Value>,
                       shared: set<StateKey>, memos: map<StateKey, map<Addr, Addr>>, key: StateKey)
    requires KeysCloned(h, g, state, copied, shared, memos) && key in state && key in shared
    ensures KeysCloned(h, g, state, copied[key := state[key]], shared, memos)
  {
  }

  lemma KeyApart(h: Heap, g: Stage, g': Stage, memos: map<StateKey, map<Addr, Addr>>, key: StateKey)
    requires Apart(memos) && Grows(Reset(g), g') && key !in memos && (forall x :: x in g.cells ==> x < g.next)
    requires forall p :: p in memos ==> ClonedHeap(h, g.cells, memos[p], g.buffers)
    ensures Apart(memos[key := g'.visited])
  {
    assert forall p, a :: p in memos && a in memos[p] ==> memos[p][a] < g.next;
    assert forall b :: b in g'.visited ==> g'.visited[b] >= g.next;
  }
}
