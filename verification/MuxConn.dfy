/** The connection and stream objects themselves, one method per lock region, channel
    operation or read-loop turn, proved against the functions of `MuxTable` and `StreamIds`. */
module MuxConn {
  import opened Wire
  import opened MuxTable
  import StreamIds

  class MuxStream {
    const id: StreamId
    const dedicated: bool
    const cancelable: bool           // a server stream carries its handler's cancel function
    var inbox: seq<Envelope>
    var terminated: bool
    var terminalErr: Option<Error>
    var rxEnd: bool
    var canceled: bool

    ghost predicate Valid()
      reads this
    {
      terminated <==> terminalErr.Some?
    }

    function View(): StreamState
      reads this
    {
      StreamState(inbox, terminalErr, rxEnd)
    }

    constructor (id: StreamId, dedicated: bool, cancelable: bool)
      ensures Valid() && View() == FRESH && !canceled
      ensures inbox == [] && !terminated && terminalErr == None && !rxEnd
      ensures this.id == id && this.dedicated == dedicated && this.cancelable == cancelable
    {
      this.id, this.dedicated, this.cancelable := id, dedicated, cancelable;
      inbox, terminated, terminalErr, rxEnd, canceled := [], false, None, false, false;
    }

    /** One evaluation of deliver's select: with both cases ready either may be taken, with
        neither the read loop stays blocked. */
    method TryDeliver(env: Envelope, preferDrop: bool) returns (done: bool)
      requires Valid()
      modifies this
      ensures Valid() && terminalErr == old(terminalErr) && canceled == old(canceled)
      ensures done <==> old(CanPush(View()) || View().terminated.Some?)
      ensures || (View() == Push(old(View()), env) && old(CanPush(View())))
              || (View() == old(View()) && (done ==> old(View().terminated.Some?)))
      ensures done && old(View().terminated == None) ==> View() == Push(old(View()), env)
      ensures done <==> |old(inbox)| < 64 || old(terminated)
      ensures inbox == old(inbox) || (inbox == old(inbox) + [env] && done)
      ensures done && !old(terminated) ==> inbox == old(inbox) + [env]
      ensures terminated == old(terminated) && rxEnd == old(rxEnd)
    {
      if |inbox| < INBOX_CAP && !(terminated && preferDrop) {
        inbox := inbox + [env];
        return true;
      }
      return terminated;
    }

    method Terminate(err: Error)
      requires Valid()
      modifies this
      ensures Valid() && View() == MuxTable.Terminate(old(View()), err)
      ensures terminated && terminalErr == (if old(terminated) then old(terminalErr) else Some(err))
      ensures inbox == old(inbox) && rxEnd == old(rxEnd)
      ensures canceled == (old(canceled) || (cancelable && !old(terminated)))
    {
      if !terminated {
        terminalErr := Some(err);
        terminated := true;
        if cancelable {
          canceled := true;
        }
      }
    }

    method AcceptEnvelope(env: Envelope)
      requires Valid()
      modifies this`rxEnd
      ensures Valid() && rxEnd == (old(rxEnd) || env.flag == FLAG_END)
    {
      if env.flag == FLAG_END {
        rxEnd := true;
      }
    }

    /** ReadEnvelope's first select: a delivered frame is preferred to the terminal error. */
    method Poll() returns (r: Option<Envelope>)
      requires Valid()
      modifies this
      ensures Valid() && canceled == old(canceled)
      ensures if old(inbox) == [] then r == None && View() == old(View())
              else r == Some(old(inbox)[0]) && View() == Take(old(View()))
      ensures r.Some? ==>
        inbox == old(inbox)[1..] && rxEnd == (old(rxEnd) || r.value.flag == FLAG_END) && terminalErr == old(terminalErr)
    {
      if inbox == [] {
        return None;
      }
      var env := inbox[0];
      inbox := inbox[1..];
      AcceptEnvelope(env);
      return Some(env);
    }
  }

  class MuxConn {
    var streams: map<StreamId, MuxStream>
    var nextID: StreamId
    var closed: bool
    var closeErr: Option<Error>
    var out: seq<Frame>          // frames written to the socket
    var broken: bool             // writes fail from now on

    ghost predicate Valid()
      reads this, streams.Values
    {
      && (forall id :: id in streams ==> streams[id].id == id && streams[id].Valid())
      && (closed <==> closeErr.Some?)
      && (closed ==> streams == map[])
    }

    function Table(): Table<MuxStream>
      reads this`streams, this`closed, this`closeErr
    {
      MuxTable.Table(streams, closed, closeErr)
    }

    constructor ()
      ensures Valid() && Table() == EmptyTable() && nextID == 0 && out == []
    {
      streams, nextID, closed, closeErr, out, broken := map[], 0, false, None, [], false;
    }

    /** Whether a client can open another stream here. */
    ghost predicate CanOpen()
      reads this
    {
      !closed && StreamIds.Allocate(nextID, streams.Keys).Some?
    }

    /** Registers the next client-initiated stream. */
    method NewStream(dedicated: bool) returns (stream: Option<MuxStream>, err: Option<Error>)
      requires Valid()
      modifies this
      ensures Valid() && broken == old(broken) && out == old(out)
      ensures old(closed) ==> stream == None && err == old(closeErr) && Table() == old(Table()) && nextID == old(nextID)
      ensures !old(closed) ==>
        match StreamIds.Allocate(old(nextID), old(streams).Keys)
        case Some(id) =>
          && stream.Some? && err == None && fresh(stream.value)
          && stream.value.id == id && stream.value.View() == FRESH && stream.value.dedicated == dedicated
          && nextID == id && Table() == MuxTable.Register(old(Table()), id, stream.value)
        case None =>
          && stream == None && err == Some(IdsExhausted) && Table() == old(Table())
          && nextID == StreamIds.Nth(old(nextID), StreamIds.WALK)
    {
      if closed {
        return None, closeErr;
      }
      hide StreamIds.Nth, StreamIds.Allocate, MuxTable.Register, CanRegister;
      var found := FindFree();
      if !found {
        return None, Some(IdsExhausted);
      }
      var s := AddStream(nextID, dedicated);
      return Some(s), None;
    }

    /** Walks to the next free ID, once around at most. */
    method FindFree() returns (found: bool)
      modifies this`nextID
      ensures match StreamIds.Allocate(old(nextID), streams.Keys)
        case Some(id) => found && nextID == id && id !in streams
        case None => !found && nextID == StreamIds.Nth(old(nextID), StreamIds.WALK)
    {
      ghost var live, start := streams.Keys, nextID;
      assert StreamIds.Allocate(start, live) == StreamIds.FirstFree(start, live, 1);
      StreamIds.WalkOver(start, live);
      hide StreamIds.Nth, StreamIds.Allocate, StreamIds.Succ, StreamIds.FirstFree;
      for i := 0 to StreamIds.WALK
        invariant nextID == if i == 0 then start else StreamIds.Nth(start, i)
        invariant StreamIds.Allocate(start, live) == StreamIds.FirstFree(start, live, i + 1)
      {
        StreamIds.NextInWalk(start, nextID, i);
        StreamIds.TryNext(start, live, i + 1);
        nextID := if nextID + 1 == ID_LIMIT then 1 else nextID + 1;
        if nextID !in streams {
          return true;
        }
      }
      return false;
    }

    method AddStream(id: StreamId, dedicated: bool) returns (s: MuxStream)
      requires Valid() && !closed && id !in streams
      modifies this`streams
      ensures Valid() && fresh(s) && s.id == id && s.View() == FRESH && s.dedicated == dedicated
      ensures streams == old(streams)[id := s] && Table() == MuxTable.Register(old(Table()), id, s)
    {
      s := new MuxStream(id, dedicated, false);
      streams := streams[id := s];
    }

    /** Adds a peer-initiated stream; false when closed or when its ID is taken. */
    method Register(stream: MuxStream) returns (ok: bool)
      requires Valid() && stream.Valid()
      modifies this
      ensures Valid() && broken == old(broken) && out == old(out) && nextID == old(nextID)
      ensures ok == old(CanRegister(Table(), stream.id))
      ensures Table() == MuxTable.Register(old(Table()), stream.id, stream)
      ensures ok <==> !old(closed) && stream.id !in old(streams)
      ensures streams == (if ok then old(streams)[stream.id := stream] else old(streams)) && closed == old(closed)
    {
      if closed || stream.id in streams {
        return false;
      }
      streams := streams[stream.id := stream];
      return true;
    }

    method Deregister(id: StreamId)
      requires Valid()
      modifies this
      ensures Valid() && broken == old(broken) && out == old(out) && nextID == old(nextID)
      ensures Table() == MuxTable.Deregister(old(Table()), id)
      ensures streams == old(streams) - {id} && closed == old(closed) && closeErr == old(closeErr)
    {
      streams := streams - {id};
    }

    method Lookup(id: StreamId) returns (r: Option<MuxStream>)
      requires Valid()
      ensures r == MuxTable.Lookup(Table(), id)
      ensures if id in streams then r == Some(streams[id]) else r == None
    {
      return if id in streams then Some(streams[id]) else None;
    }

    /** Marks the connection closed and terminates every stream it held, and no other. */
    method TerminateAll(err: Error)
      requires Valid()
      modifies this, streams.Values
      ensures Valid() && broken == old(broken) && out == old(out) && nextID == old(nextID)
      ensures Table() == CloseTable(old(Table()), err)
      ensures streams == map[] && closed && closeErr == (if old(closed) then old(closeErr) else Some(err))
      ensures forall s :: s in old(streams.Values) ==> s.Valid() && s.View() == MuxTable.Terminate(old(s.View()), err)
      ensures forall s :: s in old(streams.Values) ==>
        s.terminated && s.terminalErr == (if old(s.terminated) then old(s.terminalErr) else Some(err))
    {
      if !closed {
        closed := true;
        closeErr := Some(err);
      }
      var held := streams.Values;
      streams := map[];
      TerminateEach(held, err);
    }

    static method TerminateEach(held: set<MuxStream>, err: Error)
      requires forall s :: s in held ==> s.Valid()
      modifies held
      ensures forall s :: s in held ==> s.Valid() && s.View() == MuxTable.Terminate(old(s.View()), err)
      ensures forall s :: s in held ==>
        s.terminated && s.terminalErr == (if old(s.terminated) then old(s.terminalErr) else Some(err))
    {
      var todo := held;
      while todo != {}
        invariant todo <= held && forall s :: s in held ==> s.Valid()
        invariant forall s :: s in todo ==> s.View() == old(s.View()) && s.terminated == old(s.terminated)
        invariant forall s :: s in held && s !in todo ==>
          && s.View() == MuxTable.Terminate(old(s.View()), err)
          && s.terminated && s.terminalErr == (if old(s.terminated) then old(s.terminalErr) else Some(err))
        decreases |todo|
      {
        var s :| s in todo;
        s.Terminate(err);
        todo := todo - {s};
      }
    }

    method WriteFrame(id: StreamId, env: Envelope) returns (err: Option<Error>)
      requires Valid()
      modifies this`out
      ensures Valid()
      ensures if broken || |env.payload| >= ID_LIMIT then err.Some? && out == old(out)
              else err == None && out == old(out) + [Frame(id, env)]
      ensures |env.payload| > 0xFFFF_FFFF ==> err == Some(TooLarge)
      ensures |env.payload| <= 0xFFFF_FFFF && broken ==> err == Some(Unavailable)
    {
      if |env.payload| >= ID_LIMIT {
        return Some(TooLarge);
      }
      if broken {
        return Some(Unavailable);
      }
      out := out + [Frame(id, env)];
      return None;
    }

    /** A stream's write: refused once the stream has ended or its context has, with either's
        error if both have, otherwise one frame of its ID. */
    method WriteEnvelope(s: MuxStream, ctxErr: Option<Error>, preferCtx: bool, env: Envelope) returns (err: Option<Error>)
      requires Valid() && s.Valid()
      modifies this`out
      ensures Valid() && (out == old(out) || out == old(out) + [Frame(s.id, env)])
      ensures err == None <==> out == old(out) + [Frame(s.id, env)]
      ensures s.terminated || ctxErr.Some? ==>
        err.Some? && ((s.terminated && err == s.terminalErr) || err == ctxErr)
      ensures !s.terminated && ctxErr == None ==>
        err == if |env.payload| > 0xFFFF_FFFF then Some(TooLarge) else if broken then Some(Unavailable) else None
    {
      if s.terminated && !(preferCtx && ctxErr.Some?) {
        return s.terminalErr;
      }
      if ctxErr.Some? {
        return ctxErr;
      }
      err := WriteFrame(s.id, env);
    }

    /** A client's release of its stream: deregister, terminate, and one reset frame unless the
        peer had finished the stream or the connection is the stream's own. */
    method CloseStream(s: MuxStream) returns (closeConn: bool)
      requires Valid() && s.Valid()
      modifies this, s
      ensures Valid() && s.Valid() && broken == old(broken) && closeConn == s.dedicated
      ensures Table() == MuxTable.Deregister(old(Table()), s.id)
      ensures s.View() == MuxTable.Terminate(old(s.View()), StreamClosed)
      ensures s.terminated && s.terminalErr == (if old(s.terminated) then old(s.terminalErr) else Some(StreamClosed))
      ensures out == old(out) + (if s.dedicated || old(s.rxEnd) || broken then [] else [Frame(s.id, RESET)])
    {
      Deregister(s.id);
      var finished := s.rxEnd;
      s.Terminate(StreamClosed);
      if s.dedicated {
        return true;
      }
      if !finished {
        var _ := WriteFrame(s.id, RESET);
      }
      return false;
    }

    /** One turn of the client's read loop with a frame in hand. The result is false when the
        loop is left blocked in deliver. */
    method RouteClient(f: Frame, preferDrop: bool) returns (done: bool)
      requires Valid()
      modifies this, streams.Values
      ensures Valid() && broken == old(broken) && out == old(out)
      ensures match old(MuxTable.Lookup(Table(), f.id))
        case None => done && Table() == old(Table())
        case Some(s) =>
          if f.env.flag == FLAG_RESET then
            && done && Table() == MuxTable.Deregister(old(Table()), f.id)
            && s.View() == MuxTable.Terminate(old(s.View()), ResetByPeer)
            && s.terminalErr == (if old(s.terminated) then old(s.terminalErr) else Some(ResetByPeer))
          else
            && Table() == old(Table())
            && (done <==> old(CanPush(s.View()) || s.View().terminated.Some?))
            && (s.View() == Push(old(s.View()), f.env) || s.View() == old(s.View()))
            && (done && old(s.View().terminated == None) ==> s.View() == Push(old(s.View()), f.env))
      ensures forall s :: s in old(streams.Values) && s.id != f.id ==> s.View() == old(s.View())
    {
      var r := Lookup(f.id);
      match r
      case None => return true;
      case Some(s) =>
        if f.env.flag == FLAG_RESET {
          Deregister(f.id);
          s.Terminate(ResetByPeer);
          return true;
        }
        done := s.TryDeliver(f.env, preferDrop);
    }

    /** One turn of the server's read loop: an unknown ID with a headers flag starts a stream
        whose inbox already holds the headers. */
    method RouteServer(f: Frame, preferDrop: bool) returns (done: bool, started: Option<MuxStream>)
      requires Valid()
      modifies this, streams.Values
      ensures Valid() && broken == old(broken) && out == old(out)
      ensures started.Some? <==> old(CanRegister(Table(), f.id)) && f.env.flag == FLAG_HEADERS
      ensures started.Some? ==>
        && done && fresh(started.value) && started.value.id == f.id
        && started.value.cancelable && !started.value.canceled && !started.value.dedicated
        && started.value.View() == FRESH.(inbox := [f.env])
        && Table() == MuxTable.Register(old(Table()), f.id, started.value)
      ensures started == None ==>
        match old(MuxTable.Lookup(Table(), f.id))
        case None => done && Table() == old(Table())
        case Some(s) =>
          if f.env.flag == FLAG_RESET then
            && done && Table() == MuxTable.Deregister(old(Table()), f.id)
            && s.View() == MuxTable.Terminate(old(s.View()), ContextDone)
            && s.terminalErr == (if old(s.terminated) then old(s.terminalErr) else Some(ContextDone))
            && s.canceled == (old(s.canceled) || (s.cancelable && !old(s.terminated)))
          else
            && Table() == old(Table())
            && (done <==> old(CanPush(s.View()) || s.View().terminated.Some?))
            && (s.View() == Push(old(s.View()), f.env) || s.View() == old(s.View()))
            && (done && old(s.View().terminated == None) ==> s.View() == Push(old(s.View()), f.env))
      ensures forall s :: s in old(streams.Values) && s.id != f.id ==> s.View() == old(s.View())
    {
      var r := Lookup(f.id);
      match r
      case None =>
        if f.env.flag != FLAG_HEADERS {
          return true, None;
        }
        var s := new MuxStream(f.id, false, true);
        var room := s.TryDeliver(f.env, preferDrop);
        var ok := Register(s);
        if ok {
          return true, Some(s);
        }
        return true, None;
      case Some(s) =>
        if f.env.flag == FLAG_RESET {
          Deregister(f.id);
          s.Terminate(ContextDone);
          return true, None;
        }
        done := s.TryDeliver(f.env, preferDrop);
        started := None;
    }
  }

  /** How a dial goes: it works, it fails, or the new connection fails before its first use. */
  datatype Dialed = Up | Refused | Lost(err: Error)

  /** The client transport and its shared connection, replaced when it has failed. */
  class Transport {
    const url: string
    const connectionPerStream: bool
    var shared: MuxConn?

    ghost predicate Valid()
      reads this, shared, if shared == null then {} else shared.streams.Values
    {
      shared != null ==> shared.Valid()
    }

    constructor (url: string, connectionPerStream: bool)
      ensures Valid() && shared == null && this.url == url && this.connectionPerStream == connectionPerStream
    {
      this.url, this.connectionPerStream, shared := url, connectionPerStream, null;
    }

    /** A streaming RPC gets a connection of its own if so configured, and then leaves the shared
        one alone; every other RPC goes to the shared connection. */
    method NewClientStream(unary: bool, dialed: Dialed) returns (stream: Option<MuxStream>, err: Option<Error>)
      requires Valid()
      modifies this, shared
      ensures Valid() && (stream == None <==> err.Some?)
      ensures url == "" ==> stream == None
      ensures stream.Some? ==> stream.value.dedicated == (connectionPerStream && !unary) && stream.value.View() == FRESH
      ensures url == "" || (connectionPerStream && !unary) ==>
        shared == old(shared) && (shared != null ==> shared.Table() == old(shared.Table()))
      ensures url != "" && connectionPerStream && !unary ==>
        && (stream.Some? <==> dialed == Up) && (stream.Some? ==> fresh(stream.value) && stream.value.id == 1)
        && (stream == None ==> err == Some(if dialed.Lost? then dialed.err else Unavailable))
      ensures url != "" && !(connectionPerStream && !unary) ==>
        (stream.Some? <==> dialed == Up || old(shared != null && shared.CanOpen()))
        && (stream.Some? ==> shared != null && MuxTable.Lookup(shared.Table(), stream.value.id) == stream)
    {
      if url == "" {
        return None, Some(Unavailable);
      }
      hide StreamIds.Allocate;
      if connectionPerStream && !unary {
        if dialed == Refused {
          return None, Some(Unavailable);
        }
        var mc := Connect(dialed);
        StreamIds.FirstIsOne();
        stream, err := mc.NewStream(true);
        if err.Some? {
          mc.TerminateAll(ConnClosed);
        }
      } else {
        stream, err := SharedStream(dialed);
      }
    }

    /** A dialed connection; its read loop runs already and may have closed it. */
    method Connect(dialed: Dialed) returns (mc: MuxConn)
      ensures mc.Valid() && fresh(mc) && mc.nextID == 0 && mc.streams.Keys == {}
      ensures mc.Table() == if dialed.Lost? then CloseTable(EmptyTable(), dialed.err) else EmptyTable()
    {
      mc := new MuxConn();
      if dialed.Lost? {
        mc.TerminateAll(dialed.err);
      }
    }

    /** Opens a stream on the shared connection if that works, otherwise on a freshly dialed
        one, which becomes the shared connection. */
    method SharedStream(dialed: Dialed) returns (stream: Option<MuxStream>, err: Option<Error>)
      requires Valid()
      modifies this, shared
      ensures Valid() && (stream == None <==> err.Some?)
      ensures stream.Some? ==>
        && !stream.value.dedicated && stream.value.View() == FRESH
        && shared != null && MuxTable.Lookup(shared.Table(), stream.value.id) == stream
      ensures old(shared != null && shared.CanOpen()) ==>
        && shared == old(shared) && stream.Some?
        && shared.Table() == MuxTable.Register(old(shared.Table()), stream.value.id, stream.value)
      ensures !old(shared != null && shared.CanOpen()) && dialed == Up ==>
        && shared != null && fresh(shared) && stream.Some? && stream.value.id == 1
        && shared.Table() == MuxTable.Register(EmptyTable(), 1, stream.value)
      ensures !old(shared != null && shared.CanOpen()) && dialed == Refused ==>
        stream == None && err == Some(Unavailable) && shared == old(shared)
      ensures !old(shared != null && shared.CanOpen()) && dialed.Lost? ==>
        stream == None && err == Some(dialed.err) && shared != null && fresh(shared) && shared.closed
    {
      hide StreamIds.Allocate;
      if shared != null {
        StreamIds.AllocateIsExact(shared.nextID, shared.streams.Keys);
        stream, err := shared.NewStream(false);
        if err == None {
          return;
        }
      }
      if dialed == Refused {
        return None, Some(Unavailable);
      }
      shared := Connect(dialed);
      StreamIds.FirstIsOne();
      stream, err := shared.NewStream(false);
    }

    /** Drops the shared connection and ends every stream on it; the transport stays usable. */
    method Close()
      requires Valid()
      modifies this, shared, if shared == null then {} else shared.streams.Values
      ensures Valid() && shared == null
      ensures old(shared) != null ==>
        && old(shared).Table() == CloseTable(old(shared.Table()), ConnClosed)
        && (forall s :: s in old(shared.streams.Values) ==> s.View() == MuxTable.Terminate(old(s.View()), ConnClosed))
        && (forall s :: s in old(shared.streams.Values) ==>
              s.terminalErr == (if old(s.terminated) then old(s.terminalErr) else Some(ConnClosed)))
    {
      var conn := shared;
      shared := null;
      if conn != null {
        conn.TerminateAll(ConnClosed);
      }
    }
  }
}
