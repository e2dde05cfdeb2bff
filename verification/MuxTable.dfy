/** The memory a multiplexed connection keeps: the stream table guarded by `muxConn.mu`
    and the per-stream inbox and termination latch. Each function below is one lock region
    or one channel operation; the classes of `MuxConn` are proved against them and the
    interleavings of `MuxMachine` are built from them. */
module MuxTable {
  import opened Wire

  /** The part of `muxConn` guarded by its mutex. P is what the table points to. */
  datatype Table<P> = Table(streams: map<StreamId, P>, closed: bool, closeErr: Option<Error>)

  function EmptyTable<P>(): Table<P> {
    Table(map[], false, None)
  }

  function Lookup<P>(t: Table<P>, id: StreamId): Option<P> {
    if id in t.streams then Some(t.streams[id]) else None
  }

  predicate CanRegister<P>(t: Table<P>, id: StreamId) {
    !t.closed && id !in t.streams
  }

  function Register<P>(t: Table<P>, id: StreamId, p: P): Table<P> {
    if CanRegister(t, id) then t.(streams := t.streams[id := p]) else t
  }

  /** Removal is by ID, whatever the table holds there. */
  function Deregister<P>(t: Table<P>, id: StreamId): Table<P> {
    t.(streams := t.streams - {id})
  }

  /** Closing keeps the first error and empties the table. */
  function CloseTable<P>(t: Table<P>, err: Error): Table<P> {
    Table(map[], true, if t.closed then t.closeErr else Some(err))
  }

  const INBOX_CAP := 64

  /** The part of `muxStream` its channels hold. */
  datatype StreamState = StreamState(inbox: seq<Envelope>, terminated: Option<Error>, rxEnd: bool)

  const FRESH := StreamState([], None, false)

  predicate CanPush(s: StreamState) {
    |s.inbox| < INBOX_CAP
  }

  function Push(s: StreamState, env: Envelope): StreamState {
    s.(inbox := s.inbox + [env])
  }

  function Take(s: StreamState): StreamState
    requires s.inbox != []
  {
    s.(inbox := s.inbox[1..], rxEnd := s.rxEnd || s.inbox[0].flag == FLAG_END)
  }

  /** Only the first terminate has an effect. */
  function Terminate(s: StreamState, err: Error): StreamState {
    if s.terminated.Some? then s else s.(terminated := Some(err))
  }
}
