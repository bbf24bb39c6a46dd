/**
 Byte streams between the nodes of one graph run (agent/stream_hub.go): the steps of writers and
 the reader on one stream, as functions on its state and as methods that run them in place.
 */
module StreamHub {
  import opened Prelude

  newtype Byte = b: int | 0 <= b < 256

  type Data = seq<Byte>
  type ErrorCode = nat

  const DEFAULT_STREAM_BUFFER_SIZE: nat := 256

  datatype StreamError = EOF | ClosedPipe | Cancelled | Given(code: ErrorCode)

  /** How many bytes were written, or why none. */
  type WriteResult = Result<nat, StreamError>

  datatype ReadResult = Bytes(data: Data) | Failed(error: StreamError)

  /** A stream and what its reader has taken but not yet handed on. */
  datatype Pipe = Pipe(
    queue: seq<Data>,
    capacity: nat,
    closed: bool,
    closeErr: Option<StreamError>,
    buf: Data,
    off: nat)

  predicate WellFormed(p: Pipe) {
    p.off <= |p.buf| && |p.queue| <= p.capacity && forall i :: 0 <= i < |p.queue| ==> p.queue[i] != []
  }

  function Close(p: Pipe, err: Option<StreamError>): Pipe {
    if p.closed then p else p.(closed := true, closeErr := err)
  }

  function WriterError(p: Pipe): StreamError {
    if p.closeErr.Some? then p.closeErr.value else ClosedPipe
  }

  function ReaderError(p: Pipe): StreamError {
    if p.closeErr.Some? then p.closeErr.value else EOF
  }

  /** Hand on what fits into n bytes, and drop the buffer once it is used up. */
  function Serve(p: Pipe, n: nat): (Pipe, Data)
    requires p.off <= |p.buf|
  {
    var m := if n < |p.buf| - p.off then n else |p.buf| - p.off;
    var data := p.buf[p.off..p.off + m];
    (if p.off + m == |p.buf| then p.(buf := [], off := 0) else p.(off := p.off + m), data)
  }

  /** Receive the head of the queue, which is not empty. */
  function Receive(p: Pipe): Pipe
    requires p.queue != []
  {
    p.(queue := p.queue[1..], buf := p.queue[0], off := 0)
  }

  /** Read up to its test for closing; None means that there was nothing to serve. */
  function ReadHead(p: Pipe, n: nat): (Pipe, Option<ReadResult>)
    requires p.off <= |p.buf|
  {
    if n == 0 then (p, Some(Bytes([])))
    else if p.off < |p.buf| then
      var (q, data) := Serve(p, n);
      (q, Some(Bytes(data)))
    else if p.queue == [] then (p, None)
    else if p.queue[0] == [] then (Receive(p), None)
    else
      var (q, data) := Serve(Receive(p), n);
      (q, Some(Bytes(data)))
  }

  /** Write up to its blocking select; None means that the data waits to be sent. */
  function WriteHead(p: Pipe, data: Data): Option<WriteResult> {
    if data == [] then Some(Ok(0))
    else if p.closed then Some(Err(WriterError(p)))
    else None
  }

  function Send(p: Pipe, data: Data): Pipe {
    p.(queue := p.queue + [data])
  }

  /** A whole Write on a stream that nobody else uses; None means that it waits for room. */
  function WriteAlone(p: Pipe, data: Data): (Pipe, Option<WriteResult>) {
    var r := WriteHead(p, data);
    if r.None? && |p.queue| < p.capacity then (Send(p, data), Some(Ok(|data|))) else (p, r)
  }

  // ----- The objects -----

  class Stream {
    const capacity: nat
    var ch: seq<Data>
    var done: bool
    var closeErr: Option<StreamError>
    var writerOpen: bool
    var readerOpen: bool

    constructor (bufSize: int)
      ensures capacity == if bufSize <= 0 then DEFAULT_STREAM_BUFFER_SIZE else bufSize
      ensures ch == [] && !done && closeErr == None && !writerOpen && !readerOpen
    {
      capacity := if bufSize <= 0 then DEFAULT_STREAM_BUFFER_SIZE else bufSize;
      ch, done, closeErr, writerOpen, readerOpen := [], false, None, false, false;
    }

    /** markWriterOpen and markReaderOpen. */
    method MarkOpen(side: Side) returns (ok: bool)
      modifies this`writerOpen, this`readerOpen
      ensures ok == !old(IsOpen(side))
      ensures IsOpen(side)
      ensures forall other: Side :: other != side ==> IsOpen(other) == old(IsOpen(other))
    {
      match side {
        case WriterSide => ok := !writerOpen; writerOpen := true;
        case ReaderSide => ok := !readerOpen; readerOpen := true;
      }
    }

    predicate IsOpen(side: Side)
      reads this`writerOpen, this`readerOpen
    {
      match side
      case WriterSide => writerOpen
      case ReaderSide => readerOpen
    }

    function Now(buf: Data, off: nat): Pipe
      reads this`ch, this`done, this`closeErr
    {
      Pipe(ch, capacity, done, closeErr, buf, off)
    }

    method CloseWithError(err: Option<StreamError>)
      modifies this`done, this`closeErr
      ensures forall buf, off :: Now(buf, off) == Close(old(Now(buf, off)), err)
    {
      if !done {
        closeErr := err;
        done := true;
      }
    }
  }

  class StreamWriter {
    const s: Stream

    constructor (s: Stream)
      ensures this.s == s
    {
      this.s := s;
    }

    /** Write up to its blocking select. */
    method Begin(data: Data) returns (r: Option<WriteResult>)
      ensures forall buf, off :: r == WriteHead(s.Now(buf, off), data)
    {
      if data == [] {
        return Some(Ok(0));
      }
      if s.done {
        return Some(Err(if s.closeErr.Some? then s.closeErr.value else ClosedPipe));
      }
      return None;
    }

    /** The send case of the select, which the channel offers while it has room. */
    method TrySend(data: Data) returns (sent: bool)
      modifies s`ch
      ensures sent <==> |old(s.ch)| < s.capacity
      ensures forall buf, off ::
        s.Now(buf, off) == if sent then Send(old(s.Now(buf, off)), data) else old(s.Now(buf, off))
    {
      sent := |s.ch| < s.capacity;
      if sent {
        s.ch := s.ch + [data];
      }
    }

    /** Write while nobody else uses the stream; None means that it waits. */
    method Write(data: Data) returns (r: Option<WriteResult>)
      modifies s`ch
      ensures forall buf, off :: (s.Now(buf, off), r) == WriteAlone(old(s.Now(buf, off)), data)
    {
      r := Begin(data);
      if r.None? {
        var sent := TrySend(data);
        if sent {
          r := Some(Ok(|data|));
        }
      }
    }
  }

  class StreamReader {
    const s: Stream
    var buf: Data
    var off: nat

    constructor (s: Stream)
      ensures this.s == s && buf == [] && off == 0
    {
      this.s, buf, off := s, [], 0;
    }

    function Now(): Pipe
      reads this, s
    {
      s.Now(buf, off)
    }

    method ServeBuffer(n: nat) returns (data: Data)
      requires off <= |buf|
      modifies this
      ensures (Now(), data) == Serve(old(Now()), n)
    {
      var m := if n < |buf| - off then n else |buf| - off;
      data := buf[off..off + m];
      off := off + m;
      if off == |buf| {
        buf, off := [], 0;
      }
    }

    /** The receive case of a select, which the channel offers while it is not empty. */
    method TryReceive() returns (received: bool)
      modifies this, s`ch
      ensures received <==> old(s.ch) != []
      ensures Now() == if received then Receive(old(Now())) else old(Now())
    {
      received := s.ch != [];
      if received {
        buf, off := s.ch[0], 0;
        s.ch := s.ch[1..];
      }
    }

    method Head(n: nat) returns (r: Option<ReadResult>)
      requires off <= |buf|
      modifies this, s`ch
      ensures (Now(), r) == ReadHead(old(Now()), n)
    {
      if n == 0 {
        return Some(Bytes([]));
      }
      if off == |buf| {
        var received := TryReceive();
        if !received || off == |buf| {
          return None;
        }
      }
      var data := ServeBuffer(n);
      return Some(Bytes(data));
    }

    /** Read while nobody else uses the stream; None means that it waits. */
    method Read(n: nat) returns (r: Option<ReadResult>)
      requires WellFormed(Now())
      modifies this, s`ch
      ensures (Now(), r) == ReadAlone(old(Now()), n)
    {
      r := Head(n);
      if r.None? && s.done {
        r := Some(Failed(if s.closeErr.Some? then s.closeErr.value else EOF));
      }
    }
  }

  /** A whole Read on a stream that nobody else uses. */
  function ReadAlone(p: Pipe, n: nat): (Pipe, Option<ReadResult>)
    requires p.off <= |p.buf|
  {
    var (q, r) := ReadHead(p, n);
    (q, if r.None? && q.closed then Some(Failed(ReaderError(q))) else r)
  }

  // ----- Opening by name -----

  datatype Side = WriterSide | ReaderSide

  datatype OpenError = NameEmpty | AlreadyOpened

  /** The ends that are open, and what opening one more does. */
  function Open(ends: set<(string, Side)>, name: string, side: Side): (set<(string, Side)>, Result<(), OpenError>) {
    if name == "" then (ends, Err(NameEmpty))
    else if (name, side) in ends then (ends, Err(AlreadyOpened))
    else (ends + {(name, side)}, Ok(()))
  }

  class Hub {
    var streams: map<string, Stream>

    constructor ()
      ensures Valid() && Ends() == {}
    {
      streams := map[];
    }

    /** Different names are different streams. */
    ghost predicate Valid()
      reads this
    {
      forall x, y :: x in streams && y in streams && streams[x] == streams[y] ==> x == y
    }

    ghost function Ends(): set<(string, Side)>
      reads this, streams.Values
    {
      set x, side | x in streams && side in {WriterSide, ReaderSide} && streams[x].IsOpen(side) :: (x, side)
    }

    method GetOrCreate(name: string) returns (s: Stream)
      requires Valid()
      modifies this
      ensures Valid() && name in streams && streams[name] == s
      ensures if name in old(streams) then streams == old(streams)
              else streams == old(streams)[name := s] && fresh(s) && !s.writerOpen && !s.readerOpen &&
                   s.Now([], 0) == Pipe([], 256, false, None, [], 0)
    {
      if name in streams {
        return streams[name];
      }
      s := new Stream(DEFAULT_STREAM_BUFFER_SIZE);
      streams := streams[name := s];
    }

    /** OpenWriter and OpenReader up to the object they return. */
    method OpenEnd(name: string, side: Side) returns (s: Stream?, r: Result<(), OpenError>)
      requires Valid()
      modifies this, streams.Values
      ensures Valid() && (Ends(), r) == Open(old(Ends()), name, side)
      ensures r.Ok? ==> name in streams && s == streams[name]
    {
      if name == "" {
        return null, Err(NameEmpty);
      }
      var stream := GetOrCreate(name);
      assert Ends() == old(Ends());
      var ok := stream.MarkOpen(side);
      if ok {
        assert Ends() == old(Ends()) + {(name, side)};
        return stream, Ok(());
      }
      assert Ends() == old(Ends());
      return null, Err(AlreadyOpened);
    }
  }
}
