/** The cloner of invocation state (agent/invocation.go:1754-2035). */
module ViewClone {
  import opened ViewHeap
  import opened ViewMemo

  class Cloner {
    var cells: Heap
    var next: Addr
    var visited: map<Addr, Addr>
    ghost const source: Heap
    ghost var open: set<Addr>
    ghost var buffers: map<Addr, Addr>

    constructor (heap: Heap, next: Addr)
      requires Closed(heap) && forall x :: x in heap ==> x < next
      ensures source == heap && Now() == Stage(heap, next, map[], {}, map[])
      ensures Sound(heap, Now())
    {
      cells, this.next, visited := heap, next, map[];
      source, open, buffers := heap, {}, map[];
    }

    ghost function Now(): Stage
      reads this
    {
      Stage(cells, next, visited, open, buffers)
    }

    ghost function Unvisited(): set<Addr>
      reads this
    {
      source.Keys - visited.Keys
    }

    /**
     cloneViewState: the values of shared keys are kept, every other value is cloned with a memo of
     its own. The clone of each key is a finished copy, and clones of different keys are disjoint.
     */
    method CloneViewState(state: map<StateKey, Value>, shared: set<StateKey>)
      returns (copied: map<StateKey, Value>, ghost memos: map<StateKey, map<Addr, Addr>>)
      requires Sound(source, Now()) && buffers == map[]
      requires forall key :: key in state ==> ClosedValue(source, state[key])
      modifies this
      ensures copied.Keys == state.Keys && KeysCloned(source, Now(), state, copied, shared, memos)
      ensures Sound(source, Now())
    {
      visited, open, copied, memos := map[], {}, map[], map[];
      var todo := state.Keys;
      while todo != {}
        invariant todo <= state.Keys && copied.Keys == state.Keys - todo
        invariant Sound(source, Now()) && KeysCloned(source, Now(), state, copied, shared, memos)
      {
        var key :| key in todo;
        todo := todo - {key};
        if key in shared {
          SharedKeyAdded(source, Now(), state, copied, shared, memos, key);
          copied := copied[key := state[key]];
        } else {
          var copy := CloneKey(state, shared, copied, memos, key);
          copied, memos := copied[key := copy], memos[key := visited];
        }
      }
    }

    method CloneKey(state: map<StateKey, Value>, ghost shared: set<StateKey>, ghost copied: map<StateKey, Value>,
                    ghost memos: map<StateKey, map<Addr, Addr>>, key: StateKey) returns (copy: Value)
      requires Sound(source, Now()) && KeysCloned(source, Now(), state, copied, shared, memos)
      requires key in state && key !in shared && key !in copied && ClosedValue(source, state[key])
      modifies this
      ensures Sound(source, Now()) &&
        KeysCloned(source, Now(), state, copied[key := copy], shared, memos[key := visited])
    {
      ghost var before := Now();
      copy := CloneStateValue(state[key]);
      KeyAdded(source, before, Now(), state, copied, shared, memos, key, copy);
    }

    /** cloneStateValue: with a fresh memo; a value that is refused stays as it is. */
    method CloneStateValue(v: Value) returns (r: Value)
      requires Sound(source, Now()) && ClosedValue(source, v)
      modifies this
      ensures Sound(source, Now()) && open == {} && Grows(Reset(old(Now())), Now())
      ensures ClonedHeap(source, cells, visited, buffers) && Element(source, v, r, visited, buffers)
    {
      visited, open := map[], {};
      var cloned, ok := CloneValue(v);
      r := if ok then cloned else v;
    }

    /** cloneStateReflectValue. */
    method CloneValue(v: Value) returns (r: Value, ok: bool)
      requires Sound(source, Now()) && ClosedValue(source, v) && Clear(source, Now(), v)
      modifies this
      ensures Clones(source, old(Now()), Now(), v, r, ok)
      decreases |Unvisited()|, v, 4
    {
      match v {
        case Known(b) => r, ok := CloneKnown(b);
        case Iface(inner) =>
          ClearUnderIface(source, Now(), inner);
          KeptIface(source, inner);
          r, ok := CloneValue(inner);
          r := Iface(r);
        case Ref(a) => r, ok := CloneRef(a);
        case Struct(fields) =>
          ContainersSettle(source, Now(), v);
          var parts := CloneParts(v, fields);
          r, ok := Struct(parts), true;
        case Array(elems) =>
          ContainersSettle(source, Now(), v);
          var parts := CloneParts(v, elems);
          r, ok := Array(parts), true;
        case Opaque(_) =>
          assert OpaqueWithin(source, v, 0);
          r, ok := v, false;
        case _ => r, ok := v, true;
      }
    }

    /** cloneKnownStateReflectValue: a new buffer with the same bytes, at every reference. */
    method CloneKnown(b: Addr) returns (r: Value, ok: bool)
      requires Sound(source, Now()) && ClosedValue(source, Known(b))
      modifies this
      ensures Clones(source, old(Now()), Now(), Known(b), r, ok)
      ensures ok && r == Known(old(next)) && visited == old(visited)
    {
      KnownCloned(source, Now(), b);
      r, ok := Known(next), true;
      buffers := buffers[next := b];
      cells, next := cells[next := cells[b]], next + 1;
      assert Now() == Buffered(old(Now()), b, source[b]);
    }

    /** cloneStateElement: an element that is refused stays as it is. */
    method CloneElement(v: Value) returns (r: Value)
      requires Sound(source, Now()) && ClosedValue(source, v) && Settled(source, Now())
      modifies this
      ensures ClonesElement(source, old(Now()), Now(), v, r)
      decreases |Unvisited()|, v, 5
    {
      SettledIsClear(source, Now(), v);
      var cloned, ok := CloneValue(v);
      r := if ok then cloned else v;
    }

    /** The field and element loops of cloneStateStructValue and cloneStateArrayValue. */
    method CloneParts(ghost whole: Value, parts: seq<Value>) returns (copies: seq<Value>)
      requires whole == Struct(parts) || whole == Array(parts)
      requires Sound(source, Now()) && ClosedValue(source, whole) && Settled(source, Now())
      modifies this
      ensures PartsDone(source, old(Now()), Now(), parts, copies) && |copies| == |parts|
      decreases |Unvisited()|, whole, 1
    {
      copies := [];
      while |copies| < |parts|
        invariant PartsDone(source, old(Now()), Now(), parts, copies)
      {
        ghost var before := Now();
        UnvisitedShrinks(source, old(Now()), before);
        var copy := CloneElement(parts[|copies|]);
        PartDone(source, old(Now()), before, Now(), parts, copies, copy);
        copies := copies + [copy];
      }
    }

    /** The memo test that the pointer, map and slice helpers begin with, and then the helper. */
    method CloneRef(a: Addr) returns (r: Value, ok: bool)
      requires Sound(source, Now()) && ClosedValue(source, Ref(a)) && Clear(source, Now(), Ref(a))
      modifies this
      ensures Clones(source, old(Now()), Now(), Ref(a), r, ok)
      decreases |Unvisited()|, Ref(a), 3
    {
      if a in visited {
        HitIsCopyable(source, Now(), a);
        r, ok := Ref(visited[a]), true;
      } else {
        match cells[a] {
          case Pointee(_) => r, ok := ClonePointer(a);
          case MapOf(_) => r, ok := CloneMap(a);
          case SliceOf(_) => r, ok := CloneSlice(a);
        }
      }
    }

    /** cloneStatePointerValue. */
    method ClonePointer(a: Addr) returns (r: Value, ok: bool)
      requires Sound(source, Now()) && a in source && source[a].Pointee? && a !in visited &&
        Clear(source, Now(), Ref(a))
      modifies this
      ensures Clones(source, old(Now()), Now(), Ref(a), r, ok)
      decreases |Unvisited()|, Ref(a), 2
    {
      ghost var before := Now();
      var c := next;
      StartsInProgress(source, before, a, Pointee(Nil));
      ClearBelowPointer(source, before, a, Pointee(Nil));
      KeptPointer(source, a);
      assert ClosedCell(source, source[a]);
      Open(a, Pointee(Nil));
      UnvisitedLoses(source, before, Now(), a);
      var value;
      value, ok := CloneValue(cells[a].value);
      TargetCloned(source, before, Now(), a, value, ok);
      if ok {
        FinishedPointer(source, before, Now(), a, value);
        Write(c, Pointee(value));
        Finish(a);
        r := Ref(c);
      } else {
        RefusedPointer(source, before, Now(), a);
        Withdraw(a);
        r := Ref(a);
      }
    }

    /** cloneStateSliceValue: a new backing array, filled index by index. */
    method CloneSlice(a: Addr) returns (r: Value, ok: bool)
      requires Sound(source, Now()) && a in source && source[a].SliceOf? && a !in visited &&
        Clear(source, Now(), Ref(a))
      modifies this
      ensures Clones(source, old(Now()), Now(), Ref(a), r, ok)
      decreases |Unvisited()|, Ref(a), 2
    {
      ghost var before := Now();
      var c := next;
      var blank := seq(|cells[a].items|, _ => Nil);
      SliceStarts(source, before, a, blank);
      Open(a, SliceOf(blank));
      UnvisitedLoses(source, before, Now(), a);
      FillSlice(before, a);
      SliceFinished(source, before, Now(), a);
      Finish(a);
      r, ok := Ref(c), true;
    }

    method FillSlice(ghost before: Stage, a: Addr)
      requires FilledTo(source, before, Now(), a, 0)
      modifies this
      ensures FilledTo(source, before, Now(), a, |source[a].items|)
      decreases |Unvisited()| + 1, Ref(a), 1
    {
      for i := 0 to |cells[a].items|
        invariant FilledTo(source, before, Now(), a, i)
        invariant Extends(old(visited), visited)
      {
        UnvisitedShrinks(source, old(Now()), Now());
        FillItem(before, a, i);
      }
    }

    method FillItem(ghost before: Stage, a: Addr, i: nat)
      requires FilledTo(source, before, Now(), a, i) && i < |source[a].items|
      modifies this
      ensures FilledTo(source, before, Now(), a, i + 1) && Extends(old(visited), visited)
      decreases |Unvisited()| + 1, Ref(a), 0
    {
      assert ClosedCell(source, source[a]);
      ghost var now := Now();
      var c := visited[a];
      var copy := CloneElement(cells[a].items[i]);
      ItemFilled(source, before, now, Now(), a, i, copy);
      Write(c, SliceOf(cells[c].items[i := copy]));
    }

    /** cloneStateMapValue: a new map, filled in any order, its keys unchanged. */
    method CloneMap(a: Addr) returns (r: Value, ok: bool)
      requires Sound(source, Now()) && a in source && source[a].MapOf? && a !in visited && Clear(source, Now(), Ref(a))
      modifies this
      ensures Clones(source, old(Now()), Now(), Ref(a), r, ok)
      decreases |Unvisited()|, Ref(a), 2
    {
      ghost var before := Now();
      var c := next;
      MapStarts(source, before, a);
      Open(a, MapOf(map[]));
      UnvisitedLoses(source, before, Now(), a);
      FillMap(before, a);
      MapFinished(source, before, Now(), a);
      Finish(a);
      r, ok := Ref(c), true;
    }

    method FillMap(ghost before: Stage, a: Addr)
      requires a in source && source[a].MapOf? && FilledBut(source, before, Now(), a, source[a].entries.Keys)
      modifies this
      ensures FilledBut(source, before, Now(), a, {})
      decreases |Unvisited()| + 1, Ref(a), 1
    {
      var todo := cells[a].entries.Keys;
      while todo != {}
        invariant FilledBut(source, before, Now(), a, todo)
        invariant Extends(old(visited), visited)
      {
        var key :| key in todo;
        UnvisitedShrinks(source, old(Now()), Now());
        FillEntry(before, a, todo, key);
        todo := todo - {key};
      }
    }

    method FillEntry(ghost before: Stage, a: Addr, ghost todo: set<MapKey>, key: MapKey)
      requires FilledBut(source, before, Now(), a, todo) && key in todo
      modifies this
      ensures FilledBut(source, before, Now(), a, todo - {key}) && Extends(old(visited), visited)
      decreases |Unvisited()| + 1, Ref(a), 0
    {
      assert ClosedCell(source, source[a]);
      ghost var now := Now();
      var c := visited[a];
      var copy := CloneElement(cells[a].entries[key]);
      EntryFilled(source, before, now, Now(), a, todo, key, copy);
      Write(c, MapOf(cells[c].entries[key := copy]));
    }

    // ----- Steps on the heap and the memo -----

    method Write(c: Addr, cell: Cell)
      modifies this
      ensures Now() == Written(old(Now()), c, cell)
    {
      cells := cells[c := cell];
    }

    /** Ends the entry of a, whose cell is complete. */
    method Finish(a: Addr)
      modifies this
      ensures Now() == Finished(old(Now()), a)
    {
      open := open - {a};
    }

    /** Deletes the entry of a. */
    method Withdraw(a: Addr)
      modifies this
      ensures Now() == Withdrawn(old(Now()), a)
    {
      visited, open := visited - {a}, open - {a};
    }

    /** Enters a blank cell for a in the heap and the memo. */
    method Open(a: Addr, blank: Cell)
      modifies this
      ensures Now() == Opened(old(Now()), a, blank)
    {
      cells, next, visited, open := cells[next := blank], next + 1, visited[a := next], open + {a};
    }
  }
}
