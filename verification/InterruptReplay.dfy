/**
 How a node asks for input and is replayed when the graph resumes (graph/resume.go:18-115): an
 ask that finds no value interrupts the node, and every later attempt gives the asks that were
 answered before their own answers again.
 */
module InterruptReplay {
  import opened Prelude

  type Key = nat
  type Input = nat

  /** The three entries of the graph state that an ask looks at; None is an absent entry. */
  datatype State = State(
    used: Option<map<Key, Input>>,
    channel: Option<Input>,
    resumeMap: Option<map<Key, Input>>)

  function Used(s: State): map<Key, Input> {
    if s.used.None? then map[] else s.used.value
  }

  function Mapped(s: State): map<Key, Input> {
    if s.resumeMap.None? then map[] else s.resumeMap.value
  }

  /** The value that Interrupt would hand to this key, if any: replayed, resumed, or mapped. */
  function Answer(s: State, key: Key): Option<Input> {
    if key in Used(s) then Some(Used(s)[key])
    else if s.channel.Some? then s.channel
    else if key in Mapped(s) then Some(Mapped(s)[key])
    else None
  }

  /** Interrupt. */
  function Asked(s: State, key: Key): State {
    var t := s.(used := Some(Used(s)));
    if key in Used(s) then t
    else if s.channel.Some? then t.(used := Some(Used(s)[key := s.channel.value]), channel := None)
    else if key in Mapped(s) then
      t.(used := Some(Used(s)[key := Mapped(s)[key]]), resumeMap := Some(Mapped(s) - {key}))
    else t
  }

  /** ResumeValue for a type whose values are those that `fits` accepts. */
  function ResumeAnswer(s: State, key: Key, fits: set<Input>): Option<Input> {
    if s.channel.Some? && s.channel.value in fits then s.channel
    else if key in Mapped(s) && Mapped(s)[key] in fits then Some(Mapped(s)[key])
    else None
  }

  function Resumed(s: State, key: Key, fits: set<Input>): State {
    if s.channel.Some? && s.channel.value in fits then s.(channel := None)
    else if key in Mapped(s) && Mapped(s)[key] in fits then s.(resumeMap := Some(Mapped(s) - {key}))
    else s
  }

  /** HasResumeValue. */
  predicate HasResumeValue(s: State, key: Key) {
    s.channel.Some? || key in Mapped(s)
  }

  /** The state of one graph run, changed in place. */
  class GraphState {
    var used: Option<map<Key, Input>>
    var channel: Option<Input>
    var resumeMap: Option<map<Key, Input>>

    constructor ()
      ensures Now() == State(None, None, None)
    {
      used, channel, resumeMap := None, None, None;
    }

    function Now(): State
      reads this
    {
      State(used, channel, resumeMap)
    }

    /** Interrupt; None is the interrupt error, which carries the key. */
    method Interrupt(key: Key) returns (r: Option<Input>)
      modifies this
      ensures r == Answer(old(Now()), key) && Now() == Asked(old(Now()), key)
    {
      if used.None? {
        used := Some(map[]);
      }
      if key in used.value {
        return Some(used.value[key]);
      }
      if channel.Some? {
        var v := channel.value;
        used := Some(used.value[key := v]);
        channel := None;
        return Some(v);
      }
      if resumeMap.Some? && key in resumeMap.value {
        var v := resumeMap.value[key];
        used := Some(used.value[key := v]);
        resumeMap := Some(resumeMap.value - {key});
        return Some(v);
      }
      return None;
    }

    method ResumeValue(key: Key, fits: set<Input>) returns (r: Option<Input>)
      modifies this
      ensures r == ResumeAnswer(old(Now()), key, fits) && Now() == Resumed(old(Now()), key, fits)
    {
      if channel.Some? && channel.value in fits {
        r := channel;
        channel := None;
        return;
      }
      if resumeMap.Some? && key in resumeMap.value && resumeMap.value[key] in fits {
        r := Some(resumeMap.value[key]);
        resumeMap := Some(resumeMap.value - {key});
        return;
      }
      return None;
    }

    method ClearAllResumeValues()
      modifies this
      ensures Now() == old(Now()).(channel := None, resumeMap := None)
    {
      channel, resumeMap := None, None;
    }

    /** One attempt of a node that asks for these keys in order and stops at the first interrupt. */
    method RunNode(keys: seq<Key>) returns (answers: seq<Input>)
      modifies this
      ensures Now() == Attempt(old(Now()), keys).0 && answers == Attempt(old(Now()), keys).1
    {
      answers := [];
      ghost var start := Now();
      assert keys[|answers|..] == keys;
      assert answers + Attempt(start, keys).1 == Attempt(start, keys).1;
      while |answers| < |keys|
        invariant |answers| <= |keys|
        invariant var (s, more) := Attempt(Now(), keys[|answers|..]); Attempt(start, keys) == (s, answers + more)
      {
        ghost var before := Now();
        var rest := keys[|answers|..];
        var answer := Interrupt(keys[|answers|]);
        assert rest[0] == keys[|answers|] && rest[1..] == keys[|answers| + 1..];
        if answer.None? {
          assert Attempt(before, rest) == (Now(), []);
          return;
        }
        var (s, more) := Attempt(Now(), rest[1..]);
        assert answers + ([answer.value] + more) == answers + [answer.value] + more;
        answers := answers + [answer.value];
      }
    }
  }

  // ----- Attempts -----

  /** The state after an attempt, and the answers of its asks up to the one that interrupted. */
  function Attempt(s: State, keys: seq<Key>): (State, seq<Input>)
    decreases |keys|
  {
    if keys == [] then (s, [])
    else
      var t := Asked(s, keys[0]);
      var answer := Answer(s, keys[0]);
      if answer.None? then (t, [])
      else
        var (end, more) := Attempt(t, keys[1..]);
        (end, [answer.value] + more)
  }

  /** The state carried on, after a first attempt and one resume per value. */
  function Session(s: State, keys: seq<Key>, values: seq<Input>): (State, seq<Input>) {
    if values == [] then Attempt(s, keys)
    else Attempt(Session(s, keys, values[..|values| - 1]).0.(channel := Some(values[|values| - 1])), keys)
  }

  ghost predicate Distinct(keys: seq<Key>) {
    forall i, j :: 0 <= i < j < |keys| ==> keys[i] != keys[j]
  }

  /** The first i keys were answered with these values, no other key was, and nothing is waiting. */
  ghost predicate Answered(s: State, keys: seq<Key>, values: seq<Input>) {
    |values| <= |keys| && s.channel == None && s.resumeMap == None &&
    (forall i :: 0 <= i < |values| ==> keys[i] in Used(s) && Used(s)[keys[i]] == values[i]) &&
    (forall i :: |values| <= i < |keys| ==> keys[i] !in Used(s))
  }

  /** Asks that were answered before give their own answers again and change nothing else. */
  lemma {:induction false} ReplaysThen(s: State, keys: seq<Key>, values: seq<Input>)
    requires |values| <= |keys| && forall i :: 0 <= i < |values| ==> keys[i] in Used(s) && Used(s)[keys[i]] == values[i]
    ensures var (t, more) := Attempt(s, keys[|values|..]);
      Attempt(s, keys).1 == values + more && Used(Attempt(s, keys).0) == Used(t) &&
      Attempt(s, keys).0.channel == t.channel && Attempt(s, keys).0.resumeMap == t.resumeMap
  {
    if values == [] {
      assert keys[0..] == keys;
    } else {
      var t := Asked(s, keys[0]);
      assert Used(t) == Used(s);
      ReplaysThen(t, keys[1..], values[1..]);
      assert keys[1..][|values| - 1..] == keys[|values|..];
      SameUse(t, s, keys[|values|..]);
    }
  }

  /** Whether the map of used interrupts exists makes no difference to an attempt. */
  lemma {:induction false} SameUse(s: State, t: State, keys: seq<Key>)
    requires Used(s) == Used(t) && s.channel == t.channel && s.resumeMap == t.resumeMap
    ensures Attempt(s, keys).1 == Attempt(t, keys).1
    ensures var (x, y) := (Attempt(s, keys).0, Attempt(t, keys).0);
      Used(x) == Used(y) && x.channel == y.channel && x.resumeMap == y.resumeMap
    decreases |keys|
  {
    if keys != [] {
      SameUse(Asked(s, keys[0]), Asked(t, keys[0]), keys[1..]);
    }
  }

  lemma FirstAttempt(s: State, keys: seq<Key>)
    requires Answered(s, keys, [])
    ensures Answered(Attempt(s, keys).0, keys, []) && Attempt(s, keys).1 == []
  {
  }

  /** One resume answers exactly one more ask, and the node stops at the next. */
  lemma ResumeAnswersOne(s: State, keys: seq<Key>, values: seq<Input>, v: Input)
    requires Distinct(keys) && Answered(s, keys, values) && |values| < |keys|
    ensures var (t, answers) := Attempt(s.(channel := Some(v)), keys);
      Answered(t, keys, values + [v]) && answers == values + [v]
  {
    var r := s.(channel := Some(v));
    var n := |values|;
    ReplaysThen(r, keys, values);
    var u := Asked(r, keys[n]);
    assert keys[n..][1..] == keys[n + 1..];
    assert keys[n..][0] == keys[n];
    if n + 1 < |keys| {
      assert keys[n + 1..][0] == keys[n + 1];
      assert Answer(u, keys[n + 1]) == None;
      assert Attempt(u, keys[n + 1..]) == (Asked(u, keys[n + 1]), []);
    }
  }

  /**
   Replay: after i resumes, a node that asks for n distinct keys has its first i asks answered by
   the i values in order, and is interrupted at the next ask, or is complete when i is n.
   */
  lemma {:induction false} ResumesAnswerInOrder(keys: seq<Key>, values: seq<Input>)
    requires Distinct(keys) && |values| <= |keys|
    ensures var (s, answers) := Session(State(None, None, None), keys, values);
      answers == values && Answered(s, keys, values)
  {
    var start := State(None, None, None);
    if values == [] {
      FirstAttempt(start, keys);
    } else {
      var n := |values| - 1;
      ResumesAnswerInOrder(keys, values[..n]);
      assert values == values[..n] + [values[n]];
      ResumeAnswersOne(Session(start, keys, values[..n]).0, keys, values[..n], values[n]);
    }
  }

  // ----- Any sequence of asks, reads and resumes -----

  /** What can happen to the state between two looks at it. Take is a ResumeValue. */
  datatype Move =
    | Ask(key: Key)
    | Take(key: Key, fits: set<Input>)
    | Supply(v: Input)
    | SupplyMap(values: map<Key, Input>)
    | Clear

  function Moved(s: State, m: Move): State {
    match m
    case Ask(key) => Asked(s, key)
    case Take(key, fits) => Resumed(s, key, fits)
    case Supply(v) => s.(channel := Some(v))
    case SupplyMap(values) => s.(resumeMap := Some(values))
    case Clear => s.(channel := None, resumeMap := None)
  }

  function After(s: State, moves: seq<Move>): State {
    if moves == [] then s else Moved(After(s, moves[..|moves| - 1]), moves[|moves| - 1])
  }

  /** An ask answers exactly when its key was answered before or a value is waiting for it. */
  lemma AnswersIff(s: State, key: Key)
    ensures Answer(s, key).Some? <==> key in Used(s) || HasResumeValue(s, key)
    ensures Answer(s, key).Some? ==> key in Used(Asked(s, key)) && Used(Asked(s, key))[key] == Answer(s, key).value
  {
  }

  /**
   A read answers exactly when a value of its type waits: the channel's, or else the key's in the
   map. It uses up what it returns and leaves everything else.
   */
  lemma ReadsIff(s: State, key: Key, fits: set<Input>, v: Input)
    ensures ResumeAnswer(s, key, fits) == Some(v) <==>
      v in fits &&
      (s.channel == Some(v) ||
       (!(s.channel.Some? && s.channel.value in fits) && key in Mapped(s) && Mapped(s)[key] == v))
    ensures var t := Resumed(s, key, fits);
      t.used == s.used &&
      (t.channel == if s.channel.Some? && s.channel.value in fits then None else s.channel) &&
      (Mapped(t) == if ResumeAnswer(s, key, fits).Some? && t.channel == s.channel then Mapped(s) - {key} else Mapped(s))
  {
  }

  lemma {:induction false} UsedStays(s: State, moves: seq<Move>, key: Key)
    requires key in Used(s)
    ensures key in Used(After(s, moves)) && Used(After(s, moves))[key] == Used(s)[key]
  {
    if moves != [] {
      UsedStays(s, moves[..|moves| - 1], key);
    }
  }

  /** Whatever is asked, read and supplied meanwhile, a key that was answered gets the same answer for ever. */
  lemma SameKeySameValue(s: State, key: Key, moves: seq<Move>)
    requires Answer(s, key).Some?
    ensures Answer(After(Asked(s, key), moves), key) == Answer(s, key)
  {
    UsedStays(Asked(s, key), moves, key);
  }

  // ----- Where the answers come from -----

  /** A value that was delivered: to an ask of a key not answered before, or to a read. */
  datatype Delivery = Delivery(key: Key, value: Input, read: bool)

  /** The deliveries of one move, at most one. */
  function Delivered(s: State, m: Move): seq<Delivery> {
    match m
    case Ask(key) =>
      if key !in Used(s) && Answer(s, key).Some? then [Delivery(key, Answer(s, key).value, false)] else []
    case Take(key, fits) =>
      if ResumeAnswer(s, key, fits).Some? then [Delivery(key, ResumeAnswer(s, key, fits).value, true)] else []
    case _ => []
  }

  function Deliveries(s: State, moves: seq<Move>): seq<Delivery> {
    if moves == [] then []
    else Deliveries(s, moves[..|moves| - 1]) + Delivered(After(s, moves[..|moves| - 1]), moves[|moves| - 1])
  }

  /** One supplied value: what was put on the channel, or one entry of a map; `at` is -1 for what was there before. */
  datatype Source = Direct(at: int) | Entry(at: int, key: Key)

  /** The source supplies this value to this key. */
  predicate Supplies(s: State, moves: seq<Move>, source: Source, key: Key, value: Input) {
    match source
    case Direct(at) =>
      (at == -1 && s.channel == Some(value)) || (0 <= at < |moves| && moves[at] == Supply(value))
    case Entry(at, k) =>
      k == key &&
      ((at == -1 && key in Mapped(s) && Mapped(s)[key] == value) ||
       (0 <= at < |moves| && moves[at].SupplyMap? && key in moves[at].values && moves[at].values[key] == value))
  }

  /** Every delivery has a source of its own: `sources` lists them in order. */
  ghost predicate Sourced(s: State, moves: seq<Move>, sources: seq<Source>) {
    var ds := Deliveries(s, moves);
    |sources| == |ds| &&
    (forall i :: 0 <= i < |ds| ==> Supplies(s, moves, sources[i], ds[i].key, ds[i].value)) &&
    (forall i, j :: 0 <= i < j < |sources| ==> sources[i] != sources[j])
  }

  /** What waits after the moves came from `channel` and `entries`, and has not been delivered. */
  ghost predicate Waiting(s: State, moves: seq<Move>, sources: seq<Source>, channel: int, entries: int) {
    var t := After(s, moves);
    (t.channel.Some? ==>
       Direct(channel) !in sources && forall key :: Supplies(s, moves, Direct(channel), key, t.channel.value)) &&
    forall key :: key in Mapped(t) ==>
      Entry(entries, key) !in sources && Supplies(s, moves, Entry(entries, key), key, Mapped(t)[key])
  }

  /** One move more keeps the sources there are. */
  lemma SourcesStay(s: State, moves: seq<Move>, m: Move, source: Source, key: Key, value: Input)
    requires Supplies(s, moves, source, key, value)
    ensures Supplies(s, moves + [m], source, key, value) && source.at < |moves|
  {
  }

  /** The source of what a move delivers, which waited until then. */
  ghost function SourceOf(t: State, m: Move, channel: int, entries: int): Source
    requires Delivered(t, m) != []
  {
    if TookDirect(t, m) then Direct(channel) else Entry(entries, Delivered(t, m)[0].key)
  }

  lemma DeliveredWaited(s: State, moves: seq<Move>, m: Move, sources: seq<Source>, channel: int, entries: int)
    requires Waiting(s, moves, sources, channel, entries) && Delivered(After(s, moves), m) != []
    ensures var (t, source) := (After(s, moves), SourceOf(After(s, moves), m, channel, entries));
      |Delivered(t, m)| == 1 && source !in sources &&
      Supplies(s, moves, source, Delivered(t, m)[0].key, Delivered(t, m)[0].value)
  {
  }

  /** What a move leaves waiting was waiting before and is not what it delivered, or is what it supplied. */
  lemma LeftWaiting(t: State, m: Move)
    ensures var u := Moved(t, m);
      (u.channel.Some? ==> m == Supply(u.channel.value) || (u.channel == t.channel && !TookDirect(t, m))) &&
      (forall key :: key in Mapped(u) ==>
        if m.SupplyMap? then key in m.values && m.values[key] == Mapped(u)[key]
        else key in Mapped(t) && Mapped(u)[key] == Mapped(t)[key] && !TookEntry(t, m, key))
  {
  }

  predicate TookDirect(t: State, m: Move) {
    Delivered(t, m) != [] && t.channel.Some? && (m.Ask? || (m.Take? && t.channel.value in m.fits))
  }

  predicate TookEntry(t: State, m: Move, key: Key) {
    Delivered(t, m) != [] && !TookDirect(t, m) && ((m.Ask? && m.key == key) || (m.Take? && m.key == key))
  }

  /** The sources after one move more. */
  ghost function SourcesAfter(t: State, m: Move, sources: seq<Source>, channel: int, entries: int): seq<Source> {
    if Delivered(t, m) == [] then sources else sources + [SourceOf(t, m, channel, entries)]
  }

  /** A value that still waits after the move waited before, or has just been supplied. */
  lemma WaitsOn(s: State, moves: seq<Move>, m: Move, sources: seq<Source>, channel: int, entries: int)
    requires Sourced(s, moves, sources) && Waiting(s, moves, sources, channel, entries)
    ensures Waiting(s, moves + [m], SourcesAfter(After(s, moves), m, sources, channel, entries),
                    if m.Supply? then |moves| else channel, if m.SupplyMap? then |moves| else entries)
  {
    var t := After(s, moves);
    assert (moves + [m])[..|moves|] == moves;
    LeftWaiting(t, m);
    SourcesAreEarlier(s, moves, sources);
    if t.channel.Some? && !m.Supply? {
      forall key ensures Supplies(s, moves + [m], Direct(channel), key, t.channel.value) {
        SourcesStay(s, moves, m, Direct(channel), key, t.channel.value);
      }
    }
    forall key | key in Mapped(t) ensures Supplies(s, moves + [m], Entry(entries, key), key, Mapped(t)[key]) {
      SourcesStay(s, moves, m, Entry(entries, key), key, Mapped(t)[key]);
    }
  }

  lemma SourcesAreEarlier(s: State, moves: seq<Move>, sources: seq<Source>)
    requires Sourced(s, moves, sources)
    ensures forall x :: x in sources ==> x.at < |moves|
  {
    forall x | x in sources
      ensures x.at < |moves|
    {
      var i :| 0 <= i < |sources| && sources[i] == x;
      assert Supplies(s, moves, x, Deliveries(s, moves)[i].key, Deliveries(s, moves)[i].value);
    }
  }

  lemma SourcedOn(s: State, moves: seq<Move>, m: Move, sources: seq<Source>, channel: int, entries: int)
    requires Sourced(s, moves, sources) && Waiting(s, moves, sources, channel, entries)
    ensures Sourced(s, moves + [m], SourcesAfter(After(s, moves), m, sources, channel, entries))
  {
    var t, ds := After(s, moves), Deliveries(s, moves);
    assert (moves + [m])[..|moves|] == moves;
    forall i | 0 <= i < |ds|
      ensures Supplies(s, moves + [m], sources[i], ds[i].key, ds[i].value)
    {
      SourcesStay(s, moves, m, sources[i], ds[i].key, ds[i].value);
    }
    if Delivered(t, m) != [] {
      DeliveredWaited(s, moves, m, sources, channel, entries);
      SourcesStay(s, moves, m, SourceOf(t, m, channel, entries), Delivered(t, m)[0].key, Delivered(t, m)[0].value);
    }
  }

  lemma {:induction false} SourcesTraced(s: State, moves: seq<Move>)
    returns (sources: seq<Source>, channel: int, entries: int)
    ensures Sourced(s, moves, sources) && Waiting(s, moves, sources, channel, entries)
  {
    if moves == [] {
      sources, channel, entries := [], -1, -1;
    } else {
      var n := |moves| - 1;
      var m, t := moves[n], After(s, moves[..n]);
      sources, channel, entries := SourcesTraced(s, moves[..n]);
      assert moves == moves[..n] + [m];
      SourcedOn(s, moves[..n], m, sources, channel, entries);
      WaitsOn(s, moves[..n], m, sources, channel, entries);
      sources := SourcesAfter(t, m, sources, channel, entries);
      channel, entries := if m.Supply? then n else channel, if m.SupplyMap? then n else entries;
    }
  }

  /** Among these deliveries an ask of the key was delivered the value. */
  ghost predicate AskGot(ds: seq<Delivery>, key: Key, value: Input) {
    exists i :: 0 <= i < |ds| && ds[i] == Delivery(key, value, false)
  }

  lemma AskGotEither(a: seq<Delivery>, b: seq<Delivery>, key: Key, value: Input)
    ensures AskGot(a + b, key, value) <==> AskGot(a, key, value) || AskGot(b, key, value)
  {
    if AskGot(a, key, value) {
      var i :| 0 <= i < |a| && a[i] == Delivery(key, value, false);
      assert (a + b)[i] == a[i];
    }
    if AskGot(b, key, value) {
      var i :| 0 <= i < |b| && b[i] == Delivery(key, value, false);
      assert (a + b)[|a| + i] == b[i];
    }
  }

  lemma UsedByMove(t: State, m: Move, key: Key, value: Input)
    ensures key in Used(Moved(t, m)) && Used(Moved(t, m))[key] == value <==>
      (key in Used(t) && Used(t)[key] == value) || AskGot(Delivered(t, m), key, value)
  {
    if AskGot(Delivered(t, m), key, value) {
      assert Delivered(t, m)[0] == Delivery(key, value, false);
    }
    if m == Ask(key) && key !in Used(t) && Answer(t, key) == Some(value) {
      assert Delivered(t, m)[0] == Delivery(key, value, false);
    }
  }

  /** What is recorded as used is what was recorded before, and what asks were delivered. */
  lemma {:induction false} UsedWasDelivered(s: State, moves: seq<Move>, key: Key, value: Input)
    ensures key in Used(After(s, moves)) && Used(After(s, moves))[key] == value <==>
      (key in Used(s) && Used(s)[key] == value) || AskGot(Deliveries(s, moves), key, value)
  {
    if moves != [] {
      var n := |moves| - 1;
      var t := After(s, moves[..n]);
      UsedWasDelivered(s, moves[..n], key, value);
      UsedByMove(t, moves[n], key, value);
      AskGotEither(Deliveries(s, moves[..n]), Delivered(t, moves[n]), key, value);
    }
  }

  /**
   Each supplied value is delivered at most once: over any sequence of asks, reads and supplies,
   every delivery comes from a supplied value of its own. An answered ask of a new key and a
   successful read are deliveries; a replay is none.
   */
  lemma DeliveredOnce(s: State, moves: seq<Move>) returns (sources: seq<Source>)
    ensures Sourced(s, moves, sources)
  {
    var channel, entries;
    sources, channel, entries := SourcesTraced(s, moves);
  }

  /** A value that is put on the channel and supplied in no other way becomes the answer of one key at most, ever. */
  lemma OneKeyPerValue(s: State, moves: seq<Move>, at: int, v: Input, a: Key, b: Key)
    requires forall source, key :: Supplies(s, moves, source, key, v) ==> source == Direct(at)
    requires a in Used(After(s, moves)) && Used(After(s, moves))[a] == v && a !in Used(s)
    requires b in Used(After(s, moves)) && Used(After(s, moves))[b] == v && b !in Used(s)
    ensures a == b
  {
    var sources := DeliveredOnce(s, moves);
    var ds := Deliveries(s, moves);
    UsedWasDelivered(s, moves, a, v);
    UsedWasDelivered(s, moves, b, v);
    var i :| 0 <= i < |ds| && ds[i] == Delivery(a, v, false);
    var j :| 0 <= j < |ds| && ds[j] == Delivery(b, v, false);
    assert Supplies(s, moves, sources[i], a, v) && Supplies(s, moves, sources[j], b, v);
    assert sources[i] == sources[j];
  }

  /** An attempt of a node is a sequence of asks, up to the one that interrupts. */
  lemma {:induction false} AttemptIsAsks(s: State, keys: seq<Key>) returns (asks: seq<Move>)
    ensures |asks| <= |keys| && forall i :: 0 <= i < |asks| ==> asks[i] == Ask(keys[i])
    ensures After(s, asks) == Attempt(s, keys).0
    decreases |keys|
  {
    if keys == [] {
      asks := [];
    } else {
      asks := [];
      var t := Asked(s, keys[0]);
      if Answer(s, keys[0]).Some? {
        asks := AttemptIsAsks(t, keys[1..]);
      }
      AskFirst(s, keys[0], asks);
      asks := [Ask(keys[0])] + asks;
    }
  }

  lemma {:induction false} AskFirst(s: State, key: Key, moves: seq<Move>)
    ensures After(s, [Ask(key)] + moves) == After(Asked(s, key), moves)
  {
    if moves == [] {
      assert [Ask(key)] + moves == [Ask(key)] && [Ask(key)][..0] == [];
    } else {
      var n := |moves| - 1;
      AskFirst(s, key, moves[..n]);
      assert ([Ask(key)] + moves)[..n + 1] == [Ask(key)] + moves[..n];
    }
  }
}
