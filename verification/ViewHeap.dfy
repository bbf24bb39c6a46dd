/**
 The values that invocation state may hold and what a deep copy of them is
 (agent/invocation.go:1754-2035): a heap of pointers, maps, slices and known buffers, possibly
 cyclic and shared, and the relation between such a graph and its clone. Each address is one
 whole cell: pointers into the middle of a cell and overlapping slices do not occur.
 */
module ViewHeap {
  import opened Prelude

  type Addr = nat
  /** Keys are values like others: a map may have pointer keys. */
  type MapKey = Value

  /**
   Opaque is a struct with unexported fields. Ref is a non-nil pointer, map or slice; Known is a
   pointer to a bytes.Buffer, strings.Builder or big.Int. Scalar is any other kind.
   */
  datatype Value =
    | Scalar(bits: int)
    | Nil
    | Opaque(bits: int)
    | Iface(inner: Value)
    | Ref(addr: Addr)
    | Known(buffer: Addr)
    | Struct(fields: seq<Value>)
    | Array(elems: seq<Value>)

  datatype Cell =
    | Pointee(value: Value)
    | MapOf(entries: map<MapKey, Value>)
    | SliceOf(items: seq<Value>)
    | Buffer(bytes: seq<int>)

  type Heap = map<Addr, Cell>

  // ----- Well-formed heaps -----

  predicate ClosedValue(h: Heap, v: Value) {
    match v
    case Iface(inner) => ClosedValue(h, inner)
    case Ref(a) => a in h && !h[a].Buffer?
    case Known(b) => b in h && h[b].Buffer?
    case Struct(fields) => forall i :: 0 <= i < |fields| ==> ClosedValue(h, fields[i])
    case Array(elems) => forall i :: 0 <= i < |elems| ==> ClosedValue(h, elems[i])
    case _ => true
  }

  predicate ClosedCell(h: Heap, c: Cell) {
    match c
    case Pointee(v) => ClosedValue(h, v)
    case MapOf(entries) => forall key :: key in entries ==> ClosedValue(h, key) && ClosedValue(h, entries[key])
    case SliceOf(items) => forall i :: 0 <= i < |items| ==> ClosedValue(h, items[i])
    case Buffer(_) => true
  }

  predicate Closed(h: Heap) {
    forall a :: a in h ==> ClosedCell(h, h[a])
  }

  // ----- Values that cannot be copied -----

  /** v is an opaque struct, or leads to one through interfaces and at most n pointers. */
  predicate OpaqueWithin(h: Heap, v: Value, n: nat)
    decreases n, v
  {
    match v
    case Opaque(_) => true
    case Iface(inner) => OpaqueWithin(h, inner, n)
    case Ref(a) => n > 0 && a in h && h[a].Pointee? && OpaqueWithin(h, h[a].value, n - 1)
    case _ => false
  }

  /** The values whose copy is refused: opaque structs and everything that only points to one. */
  ghost predicate KeptByReference(h: Heap, v: Value) {
    exists n: nat :: OpaqueWithin(h, v, n)
  }

  lemma {:induction false} OpaqueMonotone(h: Heap, v: Value, n: nat)
    requires OpaqueWithin(h, v, n)
    ensures OpaqueWithin(h, v, n + 1)
    decreases n, v
  {
    match v {
      case Iface(inner) => OpaqueMonotone(h, inner, n);
      case Ref(a) => OpaqueMonotone(h, h[a].value, n - 1);
      case _ =>
    }
  }

  /** A pointer whose opaque chain would lead back to itself has none. */
  lemma {:induction false} NoOpaqueCycle(h: Heap, a: Addr, n: nat)
    requires forall k: nat :: OpaqueWithin(h, Ref(a), k) ==> k > 0 && OpaqueWithin(h, Ref(a), k - 1)
    ensures !OpaqueWithin(h, Ref(a), n)
  {
    if n > 0 {
      NoOpaqueCycle(h, a, n - 1);
    }
  }

  lemma KeptIface(h: Heap, inner: Value)
    ensures KeptByReference(h, Iface(inner)) <==> KeptByReference(h, inner)
  {
    assert forall n: nat :: OpaqueWithin(h, Iface(inner), n) <==> OpaqueWithin(h, inner, n);
  }

  lemma KeptPointer(h: Heap, a: Addr)
    requires a in h
    ensures KeptByReference(h, Ref(a)) <==> h[a].Pointee? && KeptByReference(h, h[a].value)
  {
    if h[a].Pointee? && KeptByReference(h, h[a].value) {
      var n: nat :| OpaqueWithin(h, h[a].value, n);
      assert OpaqueWithin(h, Ref(a), n + 1);
    }
    if KeptByReference(h, Ref(a)) {
      var n: nat :| OpaqueWithin(h, Ref(a), n);
      assert OpaqueWithin(h, h[a].value, n - 1);
    }
  }

  // ----- Copies -----

  /** r is a copy of v when the cell a was copied to m[a] and the buffer b is a copy of k[b]. */
  ghost predicate Copy(h: Heap, v: Value, r: Value, m: map<Addr, Addr>, k: map<Addr, Addr>)
    decreases v, 0
  {
    match v
    case Iface(inner) => r.Iface? && Copy(h, inner, r.inner, m, k)
    case Ref(a) => a in m && r == Ref(m[a])
    case Known(b) => r.Known? && r.buffer in k && k[r.buffer] == b
    case Struct(fields) =>
      r.Struct? && |r.fields| == |fields| &&
      forall i :: 0 <= i < |fields| ==> Element(h, fields[i], r.fields[i], m, k)
    case Array(elems) =>
      r.Array? && |r.elems| == |elems| &&
      forall i :: 0 <= i < |elems| ==> Element(h, elems[i], r.elems[i], m, k)
    case _ => r == v
  }

  /** An element that cannot be copied stays what it was. */
  ghost predicate Element(h: Heap, v: Value, r: Value, m: map<Addr, Addr>, k: map<Addr, Addr>)
    decreases v, 1
  {
    if KeptByReference(h, v) then r == v else Copy(h, v, r, m, k)
  }

  ghost predicate CopyOfCell(h: Heap, c: Cell, d: Cell, m: map<Addr, Addr>, k: map<Addr, Addr>) {
    match c
    case Pointee(v) => d.Pointee? && !KeptByReference(h, v) && Copy(h, v, d.value, m, k)
    case MapOf(entries) =>
      d.MapOf? && d.entries.Keys == entries.Keys &&
      forall key :: key in entries ==> Element(h, entries[key], d.entries[key], m, k)
    case SliceOf(items) =>
      d.SliceOf? && |d.items| == |items| &&
      forall i :: 0 <= i < |items| ==> Element(h, items[i], d.items[i], m, k)
    case Buffer(_) => false
  }

  ghost predicate Extends(m: map<Addr, Addr>, n: map<Addr, Addr>) {
    forall a :: a in m ==> a in n && n[a] == m[a]
  }

  lemma {:induction false} CopyMonotone(h: Heap, v: Value, r: Value, m: map<Addr, Addr>, k: map<Addr, Addr>,
                                        m': map<Addr, Addr>, k': map<Addr, Addr>)
    requires Copy(h, v, r, m, k) && Extends(m, m') && Extends(k, k')
    ensures Copy(h, v, r, m', k')
    decreases v
  {
    match v {
      case Iface(inner) => CopyMonotone(h, inner, r.inner, m, k, m', k');
      case Struct(fields) =>
        forall i | 0 <= i < |fields| && !KeptByReference(h, fields[i]) ensures Copy(h, fields[i], r.fields[i], m', k') {
          CopyMonotone(h, fields[i], r.fields[i], m, k, m', k');
        }
      case Array(elems) =>
        forall i | 0 <= i < |elems| && !KeptByReference(h, elems[i]) ensures Copy(h, elems[i], r.elems[i], m', k') {
          CopyMonotone(h, elems[i], r.elems[i], m, k, m', k');
        }
      case _ =>
    }
  }

  lemma ElementMonotone(h: Heap, v: Value, r: Value, m: map<Addr, Addr>, k: map<Addr, Addr>, m': map<Addr, Addr>,
                        k': map<Addr, Addr>)
    requires Element(h, v, r, m, k) && Extends(m, m') && Extends(k, k')
    ensures Element(h, v, r, m', k')
  {
    if !KeptByReference(h, v) {
      CopyMonotone(h, v, r, m, k, m', k');
    }
  }

  lemma CopyOfCellMonotone(h: Heap, c: Cell, d: Cell, m: map<Addr, Addr>, k: map<Addr, Addr>, m': map<Addr, Addr>,
                           k': map<Addr, Addr>)
    requires CopyOfCell(h, c, d, m, k) && Extends(m, m') && Extends(k, k')
    ensures CopyOfCell(h, c, d, m', k')
  {
    match c {
      case Pointee(v) => CopyMonotone(h, v, d.value, m, k, m', k');
      case MapOf(entries) =>
        forall key | key in entries ensures Element(h, entries[key], d.entries[key], m', k') {
          ElementMonotone(h, entries[key], d.entries[key], m, k, m', k');
        }
      case SliceOf(items) =>
        forall i | 0 <= i < |items| ensures Element(h, items[i], d.items[i], m', k') {
          ElementMonotone(h, items[i], d.items[i], m, k, m', k');
        }
      case _ =>
    }
  }

  // ----- A finished clone and the graph it came from -----

  /** h2 holds, beside all of h, a copy m[a] of every cell a of m, in cells of its own. */
  ghost predicate ClonedHeap(h: Heap, h2: Heap, m: map<Addr, Addr>, k: map<Addr, Addr>) {
    Closed(h) && (forall a :: a in h ==> a in h2 && h2[a] == h[a]) &&
    (forall a, b :: a in m && b in m && m[a] == m[b] ==> a == b) &&
    (forall a :: a in m ==> a in h && m[a] in h2 && m[a] !in h && CopyOfCell(h, h[a], h2[m[a]], m, k)) &&
    (forall b :: b in k ==> b in h2 && b !in h && k[b] in h && h2[b] == h[k[b]])
  }

  /** One access a program makes on a value. Keys of maps are not accessed: they are kept as they are. */
  datatype Access = Unwrap | Part(i: nat) | Deref | Item(i: nat) | Entry(key: MapKey)

  function Step(h: Heap, v: Value, s: Access): Option<Value> {
    match s
    case Unwrap => if v.Iface? then Some(v.inner) else None
    case Part(i) =>
      if v.Struct? && i < |v.fields| then Some(v.fields[i])
      else if v.Array? && i < |v.elems| then Some(v.elems[i]) else None
    case Deref => if v.Ref? && v.addr in h && h[v.addr].Pointee? then Some(h[v.addr].value) else None
    case Item(i) =>
      if v.Ref? && v.addr in h && h[v.addr].SliceOf? && i < |h[v.addr].items| then Some(h[v.addr].items[i]) else None
    case Entry(key) =>
      if v.Ref? && v.addr in h && h[v.addr].MapOf? && key in h[v.addr].entries then Some(h[v.addr].entries[key])
        else None
  }

  function Follow(h: Heap, v: Value, path: seq<Access>): Option<Value>
    decreases |path|
  {
    if path == [] then Some(v)
    else
      var next := Step(h, v, path[0]);
      if next.None? then None else Follow(h, next.value, path[1..])
  }

  lemma StepStaysClosed(h: Heap, v: Value, s: Access)
    requires Closed(h) && ClosedValue(h, v) && Step(h, v, s).Some?
    ensures ClosedValue(h, Step(h, v, s).value)
  {
    if v.Ref? {
      assert ClosedCell(h, h[v.addr]);
    }
  }

  /** A copy offers the same accesses as its original, with copies as their outcomes. */
  lemma StepsCorrespond(h: Heap, h2: Heap, v: Value, r: Value, m: map<Addr, Addr>, k: map<Addr, Addr>, s: Access)
    requires ClonedHeap(h, h2, m, k) && ClosedValue(h, v) && Element(h, v, r, m, k)
    ensures Step(h, v, s).Some? <==> Step(h2, r, s).Some?
    ensures Step(h, v, s).Some? ==> Element(h, Step(h, v, s).value, Step(h2, r, s).value, m, k)
  {
    if v.Iface? {
      KeptIface(h, v.inner);
    }
    if v.Ref? {
      KeptPointer(h, v.addr);
      assert !KeptByReference(h, v) ==> CopyOfCell(h, h[v.addr], h2[m[v.addr]], m, k);
    }
  }

  /** The two graphs have the same paths, and every path ends at a value and its copy. */
  lemma {:induction false} PathsCorrespond(h: Heap, h2: Heap, v: Value, r: Value, m: map<Addr, Addr>,
                                           k: map<Addr, Addr>, path: seq<Access>)
    requires ClonedHeap(h, h2, m, k) && ClosedValue(h, v) && Element(h, v, r, m, k)
    ensures Follow(h, v, path).Some? <==> Follow(h2, r, path).Some?
    ensures Follow(h, v, path).Some? ==>
      ClosedValue(h, Follow(h, v, path).value) &&
      Element(h, Follow(h, v, path).value, Follow(h2, r, path).value, m, k)
    decreases |path|
  {
    if path != [] {
      StepsCorrespond(h, h2, v, r, m, k, path[0]);
      if Step(h, v, path[0]).Some? {
        StepStaysClosed(h, v, path[0]);
        PathsCorrespond(h, h2, Step(h, v, path[0]).value, Step(h2, r, path[0]).value, m, k, path[1..]);
      }
    }
  }

  /** What a path of the clone reaches is fresh, unless the original there only leads to an opaque struct. */
  lemma ReachedCellsAreFresh(h: Heap, h2: Heap, v: Value, r: Value, m: map<Addr, Addr>, k: map<Addr, Addr>,
                             path: seq<Access>)
    requires ClonedHeap(h, h2, m, k) && ClosedValue(h, v) && Element(h, v, r, m, k)
    requires Follow(h2, r, path).Some?
    ensures Follow(h, v, path).Some?
    ensures var w, w2 := Follow(h, v, path).value, Follow(h2, r, path).value;
      (w.Ref? <==> w2.Ref?) && (w.Known? <==> w2.Known?) &&
      (w2.Ref? ==> if KeptByReference(h, w) then w2 == w else w2.addr in h2 && w2.addr !in h) &&
      (w2.Known? ==> w2.buffer in h2 && w2.buffer !in h && w.buffer in h && h2[w2.buffer] == h[w.buffer])
  {
    PathsCorrespond(h, h2, v, r, m, k, path);
  }

  /** A map of the clone has the very keys of the original, so a pointer key leads to the same cell in both. */
  lemma KeysAreShared(h: Heap, h2: Heap, v: Value, r: Value, m: map<Addr, Addr>, k: map<Addr, Addr>, path: seq<Access>)
    requires ClonedHeap(h, h2, m, k) && ClosedValue(h, v) && Element(h, v, r, m, k)
    requires Follow(h, v, path).Some? && Follow(h, v, path).value.Ref?
    requires var a := Follow(h, v, path).value.addr; a in h && h[a].MapOf?
    ensures Follow(h2, r, path).Some? && Follow(h2, r, path).value.Ref?
    ensures var a, c := Follow(h, v, path).value.addr, Follow(h2, r, path).value.addr;
      c in h2 && c !in h && h2[c].MapOf? && h2[c].entries.Keys == h[a].entries.Keys
  {
    PathsCorrespond(h, h2, v, r, m, k, path);
    KeptPointer(h, Follow(h, v, path).value.addr);
  }

  /** Two paths meet in the clone exactly where they meet in the original. */
  lemma SharingIsPreserved(h: Heap, h2: Heap, v: Value, r: Value, m: map<Addr, Addr>, k: map<Addr, Addr>,
                           p: seq<Access>, q: seq<Access>)
    requires ClonedHeap(h, h2, m, k) && ClosedValue(h, v) && Element(h, v, r, m, k)
    requires Follow(h, v, p).Some? && Follow(h, v, p).value.Ref? && Follow(h, v, q).Some? && Follow(h, v, q).value.Ref?
    ensures Follow(h2, r, p).Some? && Follow(h2, r, q).Some?
    ensures Follow(h, v, p) == Follow(h, v, q) <==> Follow(h2, r, p) == Follow(h2, r, q)
  {
    PathsCorrespond(h, h2, v, r, m, k, p);
    PathsCorrespond(h, h2, v, r, m, k, q);
  }

  /** What a closed value shows does not depend on cells outside its heap. */
  lemma {:induction false} FollowStaysInside(h: Heap, h2: Heap, v: Value, path: seq<Access>)
    requires Closed(h) && ClosedValue(h, v) && forall a :: a in h ==> a in h2 && h2[a] == h[a]
    ensures Follow(h2, v, path) == Follow(h, v, path)
    decreases |path|
  {
    if path != [] {
      assert Step(h2, v, path[0]) == Step(h, v, path[0]);
      if Step(h, v, path[0]).Some? {
        StepStaysClosed(h, v, path[0]);
        FollowStaysInside(h, h2, Step(h, v, path[0]).value, path[1..]);
      }
    }
  }

  /** Overwriting any cell the clone reaches, short of what it keeps by reference, is invisible in the original. */
  lemma WritesAreIsolated(h: Heap, h2: Heap, v: Value, r: Value, m: map<Addr, Addr>, k: map<Addr, Addr>,
                          path: seq<Access>, cell: Cell, seen: seq<Access>)
    requires ClonedHeap(h, h2, m, k) && ClosedValue(h, v) && Element(h, v, r, m, k)
    requires Follow(h, v, path).Some? && Follow(h, v, path).value.Ref? && !KeptByReference(h, Follow(h, v, path).value)
    ensures Follow(h2, r, path).Some? && Follow(h2, r, path).value.Ref?
    ensures Follow(h2[Follow(h2, r, path).value.addr := cell], v, seen) == Follow(h, v, seen)
  {
    PathsCorrespond(h, h2, v, r, m, k, path);
    FollowStaysInside(h, h2[Follow(h2, r, path).value.addr := cell], v, seen);
  }
}
