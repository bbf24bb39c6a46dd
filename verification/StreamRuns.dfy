/**
 Every interleaving of concurrent writers, closers and the one reader of a stream
 (agent/stream_hub.go:227-263, 285-309, 367-421). A blocking select is one event: the case taken.
 */
module StreamRuns {
  import opened Prelude
  import opened StreamHub

  type Thread = nat

  /** Where the reader stands: its poll found nothing, or it is in its blocking select. */
  datatype ReadPhase = Idle | Polled(n: nat) | Awaiting(n: nat)

  /** A Write that has returned. */
  datatype Written = Written(data: Data, result: WriteResult)

  /** `writers` are the writes in progress; accepted, written, delivered and outcomes record what happened so far. */
  datatype World = World(
    pipe: Pipe,
    writers: map<Thread, Data>,
    phase: ReadPhase,
    accepted: seq<Data>,
    written: seq<Written>,
    delivered: Data,
    outcomes: seq<ReadResult>)

  datatype Event =
    | WriteBegin(t: Thread, data: Data)
    | WriteSend(t: Thread)
    | WriteAbort(t: Thread, cancelled: bool)
    | CloseStream(err: Option<StreamError>)
    | ReadBegin(n: nat)
    | ReadCheck
    | ReadReceive
    | ReadEnd
    | ReadCancel

  predicate Enabled(w: World, e: Event) {
    WellFormed(w.pipe) &&
    match e
    case WriteBegin(t, _) => t !in w.writers
    case WriteSend(t) => t in w.writers && |w.pipe.queue| < w.pipe.capacity
    case WriteAbort(t, cancelled) => t in w.writers && (w.pipe.closed || cancelled)
    case CloseStream(_) => true
    case ReadBegin(_) => w.phase.Idle?
    case ReadCheck => w.phase.Polled?
    case ReadReceive => w.phase.Awaiting? && w.pipe.queue != []
    case ReadEnd => w.phase.Awaiting? && w.pipe.closed
    case ReadCancel => w.phase.Awaiting?
  }

  /** The reader's call returns r, having left the stream as p. */
  function Return(w: World, p: Pipe, r: ReadResult): World {
    w.(pipe := p, phase := Idle, outcomes := w.outcomes + [r],
       delivered := w.delivered + (if r.Bytes? then r.data else []))
  }

  /** The writer's call for this data returns r. */
  function Answer(w: World, data: Data, r: WriteResult): World {
    w.(written := w.written + [Written(data, r)])
  }

  function Apply(w: World, e: Event): World
    requires Enabled(w, e)
  {
    match e
    case WriteBegin(t, data) =>
      var r := WriteHead(w.pipe, data);
      if r.None? then w.(writers := w.writers[t := data]) else Answer(w, data, r.value)
    case WriteSend(t) =>
      var data := w.writers[t];
      Answer(w, data, Ok(|data|)).(pipe := Send(w.pipe, data), accepted := w.accepted + [data],
                                   writers := w.writers - {t})
    case WriteAbort(t, cancelled) =>
      Answer(w, w.writers[t], Err(if cancelled then Cancelled else WriterError(w.pipe))).(writers := w.writers - {t})
    case CloseStream(err) => w.(pipe := Close(w.pipe, err))
    case ReadBegin(n) =>
      var (p, r) := ReadHead(w.pipe, n);
      if r.None? then w.(pipe := p, phase := Polled(n)) else Return(w, p, r.value)
    case ReadCheck =>
      if w.pipe.closed then Return(w, w.pipe, Failed(ReaderError(w.pipe))) else w.(phase := Awaiting(w.phase.n))
    case ReadReceive =>
      var (p, data) := Serve(Receive(w.pipe), w.phase.n);
      Return(w, p, Bytes(data))
    case ReadEnd => Return(w, w.pipe, Failed(ReaderError(w.pipe)))
    case ReadCancel => Return(w, w.pipe, Failed(Cancelled))
  }

  ghost predicate IsRun(run: seq<World>, events: seq<Event>) {
    |run| == |events| + 1 && Initial(run[0]) &&
    forall j :: 0 <= j < |events| ==> Enabled(run[j], events[j]) && run[j + 1] == Apply(run[j], events[j])
  }

  predicate Initial(w: World) {
    w.pipe == Pipe([], w.pipe.capacity, false, None, [], 0) && w.writers == map[] && w.phase.Idle? &&
    w.accepted == [] && w.written == [] && w.delivered == [] && w.outcomes == []
  }

  // ----- The invariant -----

  function Flat(chunks: seq<Data>): Data {
    if chunks == [] then [] else chunks[0] + Flat(chunks[1..])
  }

  /** What was accepted and not yet read: the reader's remainder, then the queue. */
  function Rest(p: Pipe): Data
    requires p.off <= |p.buf|
  {
    p.buf[p.off..] + Flat(p.queue)
  }

  predicate Conserved(w: World) {
    w.pipe.off <= |w.pipe.buf| && w.delivered + Rest(w.pipe) == Flat(w.accepted)
  }

  ghost predicate Inv(w: World) {
    WellFormed(w.pipe) && Conserved(w) && w.accepted == Succeeded(w.written) &&
    (forall t :: t in w.writers ==> w.writers[t] != []) &&
    (!w.phase.Idle? ==> w.pipe.off == |w.pipe.buf| && w.phase.n > 0) &&
    (!w.pipe.closed ==> w.pipe.closeErr == None)
  }

  /** The data of the writes that returned without an error, the empty ones aside. */
  function Succeeded(written: seq<Written>): seq<Data> {
    if written == [] then []
    else
      var last := written[|written| - 1];
      Succeeded(written[..|written| - 1]) + (if last.result.Ok? && last.data != [] then [last.data] else [])
  }

  lemma {:induction false} FlatAppend(chunks: seq<Data>, last: Data)
    ensures Flat(chunks + [last]) == Flat(chunks) + last
  {
    if chunks == [] {
      assert chunks + [last] == [last];
    } else {
      FlatAppend(chunks[1..], last);
      assert (chunks + [last])[1..] == chunks[1..] + [last];
    }
  }

  lemma ServeSplits(p: Pipe, n: nat)
    requires WellFormed(p)
    ensures var (q, data) := Serve(p, n);
      WellFormed(q) && data + Rest(q) == Rest(p) && |data| <= n &&
      (n > 0 && p.off < |p.buf| ==> data != []) && q == p.(buf := q.buf, off := q.off)
  {
    var (q, data) := Serve(p, n);
    assert p.buf[p.off..] == data + q.buf[q.off..];
  }

  lemma ReceiveKeepsRest(p: Pipe)
    requires WellFormed(p) && p.queue != [] && p.off == |p.buf|
    ensures WellFormed(Receive(p)) && Rest(Receive(p)) == Rest(p)
  {
    assert p.queue[0][0..] == p.queue[0];
  }

  /** A read either hands on the next bytes, or finds nothing and changes nothing. */
  lemma HeadSplits(p: Pipe, n: nat)
    requires WellFormed(p)
    ensures var (q, r) := ReadHead(p, n);
      WellFormed(q) && q == p.(queue := q.queue, buf := q.buf, off := q.off) &&
      (r.None? <==> n > 0 && Rest(p) == []) && (r.None? ==> q == p) &&
      (r.Some? ==> r.value.Bytes? && r.value.data + Rest(q) == Rest(p) && |r.value.data| <= n &&
                   (n > 0 ==> r.value.data != []))
  {
    if n > 0 {
      if p.off < |p.buf| {
        ServeSplits(p, n);
      } else if p.queue != [] {
        ReceiveKeepsRest(p);
        ServeSplits(Receive(p), n);
      }
    }
  }

  lemma SucceededAppend(written: seq<Written>, last: Written)
    ensures Succeeded(written + [last]) ==
            Succeeded(written) + (if last.result.Ok? && last.data != [] then [last.data] else [])
  {
    assert (written + [last])[..|written|] == written;
  }

  lemma SendAddsToRest(p: Pipe, data: Data)
    requires p.off <= |p.buf|
    ensures Rest(Send(p, data)) == Rest(p) + data
  {
    FlatAppend(p.queue, data);
  }

  lemma SendConserves(w: World, t: Thread)
    requires Inv(w) && Enabled(w, WriteSend(t))
    ensures Inv(Apply(w, WriteSend(t)))
  {
    var data := w.writers[t];
    SucceededAppend(w.written, Written(data, Ok(|data|)));
    FlatAppend(w.accepted, data);
    SendAddsToRest(w.pipe, data);
    assert w.delivered + (Rest(w.pipe) + data) == w.delivered + Rest(w.pipe) + data;
  }

  lemma AnswerConserves(w: World, e: Event)
    requires Inv(w) && Enabled(w, e) && (e.WriteBegin? || e.WriteAbort?)
    ensures Inv(Apply(w, e))
  {
    var w' := Apply(w, e);
    if |w'.written| > |w.written| {
      SucceededAppend(w.written, w'.written[|w.written|]);
    }
  }

  lemma ReturnConserves(w: World, p: Pipe, r: ReadResult)
    requires Inv(w) && WellFormed(p) && p == w.pipe.(queue := p.queue, buf := p.buf, off := p.off)
    requires (if r.Bytes? then r.data else []) + Rest(p) == Rest(w.pipe)
    ensures Inv(Return(w, p, r))
  {
    var data := if r.Bytes? then r.data else [];
    assert w.delivered + data + Rest(p) == w.delivered + (data + Rest(p));
  }

  lemma ReadConserves(w: World, e: Event)
    requires Inv(w) && Enabled(w, e) && (e.ReadBegin? || e.ReadReceive?)
    ensures Inv(Apply(w, e))
  {
    if e.ReadBegin? {
      HeadSplits(w.pipe, e.n);
      var (p, r) := ReadHead(w.pipe, e.n);
      if r.Some? {
        ReturnConserves(w, p, r.value);
      } else {
        assert w.pipe.off == |w.pipe.buf|;
      }
    } else {
      ReceiveKeepsRest(w.pipe);
      ServeSplits(Receive(w.pipe), w.phase.n);
      var (p, data) := Serve(Receive(w.pipe), w.phase.n);
      ReturnConserves(w, p, Bytes(data));
    }
  }

  lemma InvKept(w: World, e: Event)
    requires Inv(w) && Enabled(w, e)
    ensures Inv(Apply(w, e))
  {
    match e {
      case WriteBegin(_, _) => AnswerConserves(w, e);
      case WriteSend(t) => SendConserves(w, t);
      case WriteAbort(_, _) => AnswerConserves(w, e);
      case ReadBegin(_) => ReadConserves(w, e);
      case ReadReceive => ReadConserves(w, e);
      case ReadCheck =>
        assert [] + Rest(w.pipe) == Rest(w.pipe);
        ReturnConserves(w, w.pipe, Failed(ReaderError(w.pipe)));
      case ReadEnd =>
        assert [] + Rest(w.pipe) == Rest(w.pipe);
        ReturnConserves(w, w.pipe, Failed(ReaderError(w.pipe)));
      case ReadCancel =>
        assert [] + Rest(w.pipe) == Rest(w.pipe);
        ReturnConserves(w, w.pipe, Failed(Cancelled));
      case _ =>
    }
  }

  lemma {:induction false} RunInv(run: seq<World>, events: seq<Event>, j: nat)
    requires IsRun(run, events) && j < |run|
    ensures Inv(run[j])
    decreases j
  {
    if j > 0 {
      RunInv(run, events, j - 1);
      InvKept(run[j - 1], events[j - 1]);
    } else {
      assert run[0].delivered + Rest(run[0].pipe) == [];
    }
  }

  // ----- Theorems about every run -----

  /**
   Conservation: at every step, the bytes read, then the reader's remainder, then the queued
   chunks are the accepted writes, each whole and in the order of acceptance.
   */
  lemma BytesConserved(run: seq<World>, events: seq<Event>, j: nat)
    requires IsRun(run, events) && j < |run|
    ensures var p := run[j].pipe;
      p.off <= |p.buf| && run[j].delivered + (p.buf[p.off..] + Flat(p.queue)) == Flat(run[j].accepted)
  {
    RunInv(run, events, j);
  }

  /** A successful Read of a positive size never comes back empty, nor with more than was asked. */
  lemma ReadsAreProductive(run: seq<World>, events: seq<Event>, j: nat)
    requires IsRun(run, events) && j < |events| && |run[j + 1].outcomes| > |run[j].outcomes|
    ensures var r := run[j + 1].outcomes[|run[j + 1].outcomes| - 1];
      var n := if events[j].ReadBegin? then events[j].n else run[j].phase.n;
      r.Bytes? ==> |r.data| <= n && (n > 0 ==> r.data != []) && run[j + 1].delivered == run[j].delivered + r.data
  {
    RunInv(run, events, j);
    var w := run[j];
    if events[j].ReadBegin? {
      HeadSplits(w.pipe, events[j].n);
    } else if events[j].ReadReceive? {
      ServeSplits(Receive(w.pipe), w.phase.n);
    }
  }

  /** The accepted chunks are exactly the data of the writes that returned without an error, in that order. */
  lemma WritesAreAllOrNothing(run: seq<World>, events: seq<Event>, j: nat)
    requires IsRun(run, events) && j < |run|
    ensures run[j].accepted == Succeeded(run[j].written)
  {
    RunInv(run, events, j);
  }

  /** The Write that step j lets return, if any, and whether the step was its cancellation. */
  ghost predicate Answers(run: seq<World>, events: seq<Event>, j: nat, data: Data, r: WriteResult)
    requires |run| == |events| + 1 && j < |events|
  {
    run[j + 1].written == run[j].written + [Written(data, r)]
  }

  /**
   What a Write returns: all of its bytes as it is accepted, or nothing for no data, or its own
   cancellation, or, once the stream is closed, the error of the first close or a closed pipe.
   */
  ghost predicate Explained(w: World, e: Event, w': World, written: Written) {
    match written.result
    case Ok(n) =>
      n == |written.data| && w'.accepted == w.accepted + (if written.data == [] then [] else [written.data])
    case Err(error) =>
      written.data != [] && w'.accepted == w.accepted &&
      ((e.WriteAbort? && e.cancelled && error == Cancelled) || (w.pipe.closed && error == WriterError(w.pipe)))
  }

  lemma AnswerExplained(w: World, e: Event)
    requires Inv(w) && Enabled(w, e)
    ensures var w' := Apply(w, e);
      w'.written == w.written ||
      (|w'.written| == |w.written| + 1 && Explained(w, e, w', w'.written[|w.written|]))
  {
  }

  lemma WriteResultIs(run: seq<World>, events: seq<Event>, j: nat, data: Data, r: WriteResult)
    requires IsRun(run, events) && j < |events| && Answers(run, events, j, data, r)
    ensures Explained(run[j], events[j], run[j + 1], Written(data, r))
  {
    RunInv(run, events, j);
    AnswerExplained(run[j], events[j]);
    assert run[j + 1].written[|run[j].written|] == Written(data, r);
  }

  /** After a close, every Write that fails without being cancelled fails as that close says. */
  lemma ClosedWritesFailAlike(run: seq<World>, events: seq<Event>, i: nat, j: nat, data: Data, r: WriteResult)
    requires IsRun(run, events) && i <= j < |events| && run[i].pipe.closed && Answers(run, events, j, data, r) && r.Err?
    ensures r.error == WriterError(run[i].pipe) ||
      (events[j].WriteAbort? && events[j].cancelled && r.error == Cancelled)
  {
    WriteResultIs(run, events, j, data, r);
    FirstCloseWins(run, events, i, j);
  }

  lemma CloseSticks(w: World, e: Event)
    requires Inv(w) && Enabled(w, e) && w.pipe.closed
    ensures Apply(w, e).pipe.closed && Apply(w, e).pipe.closeErr == w.pipe.closeErr
  {
    if e.ReadBegin? {
      HeadSplits(w.pipe, e.n);
    } else if e.ReadReceive? {
      ServeSplits(Receive(w.pipe), w.phase.n);
    }
  }

  /** Only the first close counts. */
  lemma {:induction false} FirstCloseWins(run: seq<World>, events: seq<Event>, i: nat, j: nat)
    requires IsRun(run, events) && i <= j < |run| && run[i].pipe.closed
    ensures run[j].pipe.closed && run[j].pipe.closeErr == run[i].pipe.closeErr
    decreases j
  {
    if i < j {
      FirstCloseWins(run, events, i, j - 1);
      RunInv(run, events, j - 1);
      CloseSticks(run[j - 1], events[j - 1]);
    }
  }

  /**
   The error a stream is closed with is what everybody gets: after the first close with `err`, a
   read that meets the end fails with it, or with EOF if there was none, and a write that fails
   without being cancelled fails with it, or with a closed pipe.
   */
  lemma CloseErrorIsReported(run: seq<World>, events: seq<Event>, i: nat, j: nat, err: Option<StreamError>)
    requires IsRun(run, events) && i < j < |events|
    requires events[i] == CloseStream(err) && !run[i].pipe.closed
    ensures EndsRead(run, events, j) ==>
      run[j + 1].outcomes == run[j].outcomes + [Failed(if err.Some? then err.value else EOF)]
    ensures forall data, r ::
      Answers(run, events, j, data, r) && r.Err? && !(events[j].WriteAbort? && events[j].cancelled) ==>
        r.error == if err.Some? then err.value else ClosedPipe
  {
    RunInv(run, events, i);
    FirstCloseWins(run, events, i + 1, j);
    forall data, r | Answers(run, events, j, data, r) && r.Err? && !(events[j].WriteAbort? && events[j].cancelled)
      ensures r.error == if err.Some? then err.value else ClosedPipe
    {
      WriteResultIs(run, events, j, data, r);
    }
  }

  /** A read fails only at the end of a closed stream, or because it was cancelled. */
  lemma ReadFailuresAreExplained(run: seq<World>, events: seq<Event>, j: nat)
    requires IsRun(run, events) && j < |events| && |run[j + 1].outcomes| > |run[j].outcomes|
    ensures var r := run[j + 1].outcomes[|run[j].outcomes|];
      r.Failed? ==> EndsRead(run, events, j) || (events[j] == ReadCancel && r.error == Cancelled)
  {
    RunInv(run, events, j);
    if events[j].ReadBegin? {
      HeadSplits(run[j].pipe, events[j].n);
    }
  }

  /** A read that found nothing meets the end if the stream is closed, and else waits; a write begins only before. */
  lemma ClosedStreamEndsIff(run: seq<World>, events: seq<Event>, j: nat)
    requires IsRun(run, events) && j < |events|
    ensures events[j] == ReadCheck ==>
      (run[j + 1].phase.Awaiting? <==> !run[j].pipe.closed) && (run[j + 1].phase.Idle? <==> run[j].pipe.closed)
    ensures events[j].WriteBegin? ==>
      (events[j].t in run[j + 1].writers <==> !run[j].pipe.closed && events[j].data != [])
  {
  }

  /** Step j ends a Read with the stream's end. */
  predicate EndsRead(run: seq<World>, events: seq<Event>, j: nat)
    requires |run| == |events| + 1 && j < |events|
  {
    (events[j] == ReadCheck && run[j].pipe.closed) || events[j] == ReadEnd
  }

  /** The Read that step i began is still going on at step j. */
  predicate ReadingUntil(run: seq<World>, events: seq<Event>, i: nat, j: nat)
    requires |run| == |events| + 1 && i < j < |run|
  {
    events[i].ReadBegin? && forall k :: i < k <= j ==> !run[k].phase.Idle?
  }

  /** b goes on from a with chunks that are not empty. */
  ghost predicate Longer(a: seq<Data>, b: seq<Data>) {
    a <= b && |Flat(b)| >= |Flat(a)| + (|b| - |a|)
  }

  /** While a Read goes on it delivers nothing, and what is accepted meanwhile is not empty. */
  lemma {:induction false} ReadingDelivers(run: seq<World>, events: seq<Event>, i: nat, j: nat)
    requires IsRun(run, events) && i < j < |run| && ReadingUntil(run, events, i, j)
    ensures run[j].delivered == Flat(run[i].accepted) && Longer(run[i].accepted, run[j].accepted)
    decreases j
  {
    RunInv(run, events, j - 1);
    if j == i + 1 {
      ReadFindsNothing(run[i], events[i].n);
    } else {
      ReadingDelivers(run, events, i, j - 1);
      AcceptsWhole(run[j - 1], events[j - 1]);
    }
  }

  lemma ReadFindsNothing(w: World, n: nat)
    requires Inv(w) && Enabled(w, ReadBegin(n)) && !Apply(w, ReadBegin(n)).phase.Idle?
    ensures var w' := Apply(w, ReadBegin(n)); w'.delivered == Flat(w.accepted) && w'.accepted == w.accepted
  {
    HeadSplits(w.pipe, n);
    assert w.delivered + [] == w.delivered;
  }

  /** A step accepts nothing, or one chunk that is not empty. */
  lemma AcceptsWhole(w: World, e: Event)
    requires Inv(w) && Enabled(w, e)
    ensures Longer(w.accepted, Apply(w, e).accepted)
    ensures !Apply(w, e).phase.Idle? ==> Apply(w, e).delivered == w.delivered
  {
    if e.WriteSend? {
      FlatAppend(w.accepted, w.writers[e.t]);
    }
  }

  /** A Read that has not returned has a beginning, so there is an interval for EndIsCompleteIff to speak of. */
  lemma {:induction false} ReadBegan(run: seq<World>, events: seq<Event>, j: nat) returns (i: nat)
    requires IsRun(run, events) && j < |run| && !run[j].phase.Idle?
    ensures i < j && ReadingUntil(run, events, i, j)
    decreases j
  {
    if run[j - 1].phase.Idle? {
      i := j - 1;
    } else {
      i := ReadBegan(run, events, j - 1);
    }
  }

  /**
   When a Read reports the end, every accepted byte has been delivered if and only if no write was accepted
   during that Read.
   */
  lemma EndIsCompleteIff(run: seq<World>, events: seq<Event>, i: nat, j: nat)
    requires IsRun(run, events) && i < j < |events| && ReadingUntil(run, events, i, j) && EndsRead(run, events, j)
    ensures run[j + 1].outcomes == run[j].outcomes + [Failed(ReaderError(run[j].pipe))]
    ensures run[j + 1].delivered == Flat(run[j + 1].accepted) <==> run[j + 1].accepted == run[i].accepted
  {
    ReadingDelivers(run, events, i, j);
    assert run[j + 1].delivered == run[j].delivered + [];
    assert |run[j].accepted| == |run[i].accepted| ==> run[j].accepted == run[i].accepted;
  }

  /** Closed, with no write in progress and the reader between two calls. */
  predicate Quiet(w: World) {
    w.pipe.closed && w.writers == map[] && w.phase.Idle?
  }

  /** What stays so after a quiet moment, while the reader goes on. */
  predicate Quieted(w: World) {
    w.pipe.closed && w.writers == map[] && !w.phase.Awaiting? &&
    (w.phase.Polled? ==> w.pipe.off <= |w.pipe.buf| && Rest(w.pipe) == [])
  }

  lemma QuietedStep(w: World, e: Event)
    requires Inv(w) && Enabled(w, e) && Quieted(w)
    ensures var w' := Apply(w, e);
      Quieted(w') && w'.accepted == w.accepted && w'.pipe.closeErr == w.pipe.closeErr
  {
    CloseSticks(w, e);
    if e.ReadBegin? {
      HeadSplits(w.pipe, e.n);
    }
  }

  /** From a quiet moment on no byte is accepted and no Read ever blocks. */
  lemma {:induction false} QuietStays(run: seq<World>, events: seq<Event>, i: nat, j: nat)
    requires IsRun(run, events) && i <= j < |run| && Quiet(run[i])
    ensures Quieted(run[j]) && run[j].accepted == run[i].accepted && run[j].pipe.closeErr == run[i].pipe.closeErr
    decreases j
  {
    if i < j {
      QuietStays(run, events, i, j - 1);
      RunInv(run, events, j - 1);
      QuietedStep(run[j - 1], events[j - 1]);
    }
  }

  /**
   After a quiet moment, Reads deliver exactly the rest before they report the first close error
   or the end: a Read that returns at step j returned bytes, or had nothing left to return.
   */
  lemma QuietReadsDeliverTheRest(run: seq<World>, events: seq<Event>, i: nat, j: nat)
    requires IsRun(run, events) && i <= j < |events| && Quiet(run[i])
    requires |run[j + 1].outcomes| > |run[j].outcomes|
    ensures var r := run[j + 1].outcomes[|run[j + 1].outcomes| - 1];
      (r.Failed? <==> events[j] == ReadCheck) &&
      (r.Failed? ==> r.error == ReaderError(run[i].pipe) && run[j + 1].delivered == Flat(run[i].accepted))
  {
    QuietStays(run, events, i, j);
    RunInv(run, events, j);
    if events[j].ReadBegin? {
      HeadSplits(run[j].pipe, events[j].n);
    }
    assert run[j].delivered + [] == run[j].delivered;
  }

  /** The Reads of positive size begun between two steps. */
  function PositiveReads(events: seq<Event>, i: nat, j: nat): nat
    requires i <= j <= |events|
    decreases j - i
  {
    if i == j then 0
    else PositiveReads(events, i, j - 1) + (if Positive(events[j - 1]) then 1 else 0)
  }

  predicate Positive(e: Event) {
    e.ReadBegin? && e.n > 0
  }

  lemma QuietStep(w: World, e: Event)
    requires Inv(w) && Enabled(w, e) && w.pipe.closed && w.writers == map[] && !w.phase.Awaiting?
    ensures Apply(w, e).pipe.off <= |Apply(w, e).pipe.buf|
    ensures var rest := Rest(Apply(w, e).pipe);
      |rest| + (if Positive(e) then 1 else 0) <= |Rest(w.pipe)| || rest == []
  {
    if e.ReadBegin? {
      HeadSplits(w.pipe, e.n);
      var (q, r) := ReadHead(w.pipe, e.n);
      if r.Some? {
        assert |r.value.data| + |Rest(q)| == |Rest(w.pipe)|;
      }
    }
  }

  /** How many accepted bytes have not been delivered. */
  function Undelivered(w: World): nat {
    if |Flat(w.accepted)| < |w.delivered| then 0 else |Flat(w.accepted)| - |w.delivered|
  }

  lemma UndeliveredIsRest(w: World)
    requires Conserved(w)
    ensures Undelivered(w) == |Rest(w.pipe)|
  {
    assert |w.delivered + Rest(w.pipe)| == |w.delivered| + |Rest(w.pipe)|;
  }

  lemma QuietStepOfRun(run: seq<World>, events: seq<Event>, i: nat, j: nat)
    requires IsRun(run, events) && i <= j < |events| && Quiet(run[i])
    ensures Undelivered(run[j + 1]) == 0 ||
      Undelivered(run[j + 1]) + (if Positive(events[j]) then 1 else 0) <= Undelivered(run[j])
  {
    RunInv(run, events, j);
    RunInv(run, events, j + 1);
    QuietStays(run, events, i, j);
    QuietStep(run[j], events[j]);
    UndeliveredIsRest(run[j]);
    UndeliveredIsRest(run[j + 1]);
  }

  /**
   After a quiet moment every Read of positive size takes a byte while there is one: as many Reads as bytes
   deliver all.
   */
  lemma {:induction false} QuietReadsProgress(run: seq<World>, events: seq<Event>, i: nat, j: nat)
    requires IsRun(run, events) && i <= j < |run| && Quiet(run[i])
    ensures Undelivered(run[j]) == 0 || Undelivered(run[j]) + PositiveReads(events, i, j) <= Undelivered(run[i])
    decreases j
  {
    if i < j {
      QuietReadsProgress(run, events, i, j - 1);
      QuietStepOfRun(run, events, i, j - 1);
    }
  }

  /** With a write still in progress the end can come early: the reader misses an accepted byte. */
  lemma RacingEndLosesBytes() returns (run: seq<World>, events: seq<Event>)
    ensures IsRun(run, events)
    ensures var last := run[|run| - 1];
      last.outcomes == [Failed(EOF)] && last.accepted == [[1]] && last.delivered == []
  {
    var w0 := World(Pipe([], 1, false, None, [], 0), map[], Idle, [], [], [], []);
    events := [WriteBegin(0, [1]), ReadBegin(1), WriteSend(0), CloseStream(None), ReadCheck];
    var w1 := Apply(w0, events[0]);
    var w2 := Apply(w1, events[1]);
    var w3 := Apply(w2, events[2]);
    var w4 := Apply(w3, events[3]);
    var w5 := Apply(w4, events[4]);
    run := [w0, w1, w2, w3, w4, w5];
  }

  // ----- Undisturbed calls -----

  /** An undisturbed write is a run of one write: begun, and sent at once if it has to be and there is room. */
  lemma WriteAloneIsRun(w: World, t: Thread, data: Data)
    requires Inv(w) && t !in w.writers
    ensures var (p, r) := WriteAlone(w.pipe, data);
      Enabled(w, WriteBegin(t, data)) &&
      var begun := Apply(w, WriteBegin(t, data));
      if t !in begun.writers then r.Some? && p == begun.pipe && begun.written == w.written + [Written(data, r.value)]
      else if |begun.pipe.queue| < begun.pipe.capacity then
        Enabled(begun, WriteSend(t)) &&
        var sent := Apply(begun, WriteSend(t));
        r.Some? && p == sent.pipe && sent.written == w.written + [Written(data, r.value)]
      else r.None? && p == begun.pipe
  {
  }

  /** An undisturbed read is a run of one read: begun, and checked for the end if it found nothing. */
  lemma ReadAloneIsRun(w: World, n: nat)
    requires Inv(w) && w.phase.Idle?
    ensures var (p, r) := ReadAlone(w.pipe, n);
      Enabled(w, ReadBegin(n)) &&
      var begun := Apply(w, ReadBegin(n));
      if begun.phase.Idle? then r.Some? && p == begun.pipe && begun.outcomes == w.outcomes + [r.value]
      else
        Enabled(begun, ReadCheck) &&
        var checked := Apply(begun, ReadCheck);
        p == checked.pipe && checked.outcomes == w.outcomes + (if r.Some? then [r.value] else []) &&
        (r.None? <==> checked.phase.Awaiting?)
  {
    HeadSplits(w.pipe, n);
  }

  // ----- Names -----

  /** A request to open one end, and the outcome of every request of a sequence. */
  type Request = (string, Side)

  function Outcomes(ends: set<Request>, requests: seq<Request>): seq<Result<(), OpenError>>
    decreases |requests|
  {
    if requests == [] then []
    else
      var (next, r) := Open(ends, requests[0].0, requests[0].1);
      [r] + Outcomes(next, requests[1..])
  }

  /**
   One writer and one reader per name: a request succeeds exactly when it names a stream and is the first for
   that end.
   */
  lemma {:induction false} OpenOnce(ends: set<Request>, requests: seq<Request>, i: nat)
    requires i < |requests|
    ensures |Outcomes(ends, requests)| == |requests|
    ensures Outcomes(ends, requests)[i].Ok? <==>
      requests[i].0 != "" && requests[i] !in ends && requests[i] !in requests[..i]
    decreases |requests|
  {
    var (next, r) := Open(ends, requests[0].0, requests[0].1);
    if i > 0 {
      OpenOnce(next, requests[1..], i - 1);
      assert requests[..i] == [requests[0]] + requests[1..][..i - 1];
    } else if |requests| > 1 {
      OpenOnce(next, requests[1..], 0);
    }
  }
}
