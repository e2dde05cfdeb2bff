/** The TypeScript client's shared connection, `WebSocketMux`: sockets that come and go under
    one numbering of streams. One event is one turn of the browser's event loop. */
module TsClient {
  import opened Wire
  import opened ByteStream
  import StreamFrames

  datatype ReadyState = Connecting | Open | Closing | Closed

  /** A WebSocket: its ready state, whether its open event has fired, and the messages it
      has delivered. */
  datatype Socket = Socket(state: ReadyState, wasOpen: bool, heard: seq<Frame>)

  /** A stream: the socket it was opened on, what its readable was fed, whether an end-stream
      was, and whether it was failed. */
  datatype Strm = Strm(sock: nat, got: seq<Envelope>, endSeen: bool, failed: bool)

  /** A frame and the socket it was sent on. */
  datatype Sent = Sent(on: nat, frame: Frame)

  datatype Client = Client(
    closeWhenIdle: bool,
    socket: Option<nat>,
    opening: Option<nat>,
    nextStreamId: nat,
    entries: set<nat>,           // the streams messages are routed to
    streams: map<nat, Strm>,     // every stream ever opened
    sockets: seq<Socket>,        // every socket ever dialed
    wire: seq<Sent>)             // everything ever sent, in order

  datatype Event =
    | Dial                       // open() finds no open socket and none on its way
    | OnOpen(k: nat)
    | Fade(k: nat)               // a socket leaves CONNECTING or OPEN; its close event is to come
    | OnError(k: nat)
    | OnClose(k: nat)
    | OnMessage(k: nat, message: Bytes)
    | Resume(k: nat)             // openStream goes on with the socket it awaited
    | Send(n: nat, env: Envelope)
    | Release(n: nat)            // closeStream
    | CloseAll                   // close()

  function NoSockets(closeWhenIdle: bool): Client {
    Client(closeWhenIdle, None, None, 1, {}, map[], [], [])
  }

  /** What route makes of a message: the ID and flag, and whatever follows them. */
  function Parse(message: Bytes): Option<Frame> {
    if |message| < StreamFrames.ID_LEN + 1 then None
    else Some(Frame(FromU32(message[..4]), Envelope(message[4], message[5..])))
  }

  /** The ID a stream's frames carry: a number is stored modulo 2^32. */
  function WireId(n: nat): StreamId {
    n % ID_LIMIT
  }

  predicate IsOpen(c: Client, k: nat) {
    k < |c.sockets| && c.sockets[k].state == Open
  }

  /** A headers frame for this ID was sent on this socket. */
  ghost predicate Headered(wire: seq<Sent>, k: nat, id: StreamId) {
    exists x :: x in wire && x.on == k && x.frame.id == id && x.frame.env.flag == FLAG_HEADERS
  }

  /** A server connection answers only the IDs opened on it, and no stream's writer is handed a
      reset envelope. */
  ghost predicate CanStep(c: Client, e: Event) {
    match e
    case Dial => c.opening == None && !(c.socket.Some? && IsOpen(c, c.socket.value))
    case OnOpen(k) => k < |c.sockets| && c.sockets[k].state == Connecting
    case Fade(k) => k < |c.sockets| && (c.sockets[k].state == Connecting || c.sockets[k].state == Open)
    case OnError(k) => k < |c.sockets| && c.sockets[k].state == Closing
    case OnClose(k) => k < |c.sockets| && c.sockets[k].state == Closing
    case OnMessage(k, m) => IsOpen(c, k) && (Parse(m).Some? ==> Headered(c.wire, k, Parse(m).value.id))
    case Resume(k) => k < |c.sockets| && c.sockets[k].wasOpen
    case Send(n, env) => n in c.streams && env.flag != FLAG_RESET
    case Release(_) => true
    case CloseAll => true
  }

  function SetState(c: Client, k: nat, state: ReadyState): Client
    requires k < |c.sockets|
  {
    c.(sockets := c.sockets[k := c.sockets[k].(state := state)])
  }

  /** socket.close(). */
  function CloseSocket(c: Client, k: nat): Client {
    if k < |c.sockets| && c.sockets[k].state != Closed then SetState(c, k, Closing) else c
  }

  function SendOn(c: Client, k: nat, n: nat, env: Envelope): Client {
    if IsOpen(c, k) then c.(wire := c.wire + [Sent(k, Frame(WireId(n), env))]) else c
  }

  function AllFailed(c: Client): map<nat, Strm> {
    map n | n in c.streams :: if n in c.entries then c.streams[n].(failed := true) else c.streams[n]
  }

  function FailAll(c: Client): Client {
    c.(streams := AllFailed(c), entries := {})
  }

  function Fed(o: Strm, env: Envelope): Strm {
    o.(got := o.got + [env], endSeen := o.endSeen || env.flag == FLAG_END)
  }

  function Routed(c: Client, f: Frame): Client {
    if f.id !in c.entries || f.id !in c.streams then c
    else if f.env.flag == FLAG_RESET then
      c.(entries := c.entries - {f.id}, streams := c.streams[f.id := c.streams[f.id].(failed := true)])
    else
      c.(streams := c.streams[f.id := Fed(c.streams[f.id], f.env)])
  }

  /** The end of closeStream: an idle connection is closed if so configured. */
  function CloseIfIdle(c: Client): Client {
    if c.closeWhenIdle && c.entries == {} && c.socket.Some? then
      CloseSocket(c, c.socket.value).(socket := None)
    else
      c
  }

  function Released(c: Client, n: nat): Client {
    if n !in c.entries || n !in c.streams then c
    else
      var d := c.(entries := c.entries - {n});
      CloseIfIdle(if !c.streams[n].endSeen && c.socket.Some? then SendOn(d, c.socket.value, n, RESET) else d)
  }

  function Step(c: Client, e: Event): Client
    requires CanStep(c, e)
  {
    match e
    case Dial => c.(opening := Some(|c.sockets|), sockets := c.sockets + [Socket(Connecting, false, [])])
    case OnOpen(k) =>
      c.(opening := None, socket := Some(k), sockets := c.sockets[k := c.sockets[k].(state := Open, wasOpen := true)])
    case Fade(k) => SetState(c, k, Closing)
    case OnError(k) => c.(opening := None)
    case OnClose(k) =>
      FailAll(SetState(c, k, Closed).(opening := None, socket := if c.socket == Some(k) then None else c.socket))
    case OnMessage(k, m) => (
      match Parse(m)
      case None => c
      case Some(f) => Routed(c.(sockets := c.sockets[k := c.sockets[k].(heard := c.sockets[k].heard + [f])]), f))
    case Resume(k) =>
      var n := c.nextStreamId;
      c.(nextStreamId := n + 1, entries := c.entries + {n}, streams := c.streams[n := Strm(k, [], false, false)])
    case Send(n, env) => SendOn(c, c.streams[n].sock, n, env)
    case Release(n) => Released(c, n)
    case CloseAll =>
      var d := FailAll(c.(socket := None));
      if c.socket.Some? then CloseSocket(d, c.socket.value) else d
  }

  ghost predicate CanRun(c: Client, es: seq<Event>)
    decreases |es|
  {
    es == [] || (CanStep(c, es[0]) && CanRun(Step(c, es[0]), es[1..]))
  }

  ghost function Run(c: Client, es: seq<Event>): Client
    requires CanRun(c, es)
    decreases |es|
  {
    if es == [] then c else Run(Step(c, es[0]), es[1..])
  }

  ghost predicate Reachable(c: Client) {
    exists es :: CanRun(NoSockets(c.closeWhenIdle), es) && Run(NoSockets(c.closeWhenIdle), es) == c
  }

  // What every run keeps

  /** The heard frames of the socket a stream lives on. */
  function HeardFor(c: Client, n: nat): seq<Envelope> {
    if n in c.streams && c.streams[n].sock < |c.sockets| && n < ID_LIMIT then
      Envs(c.sockets[c.streams[n].sock].heard, n)
    else []
  }

  predicate SockOk(c: Client, n: nat) {
    n in c.streams ==>
      1 <= n < c.nextStreamId && c.streams[n].sock < |c.sockets| && c.sockets[c.streams[n].sock].wasOpen
  }

  /** A stream's readable holds a prefix of what its socket delivered for it, all of it while
      the stream is routed to, and knows whether that included an end-stream. */
  predicate FedOk(c: Client, n: nat) {
    n in c.streams && n < ID_LIMIT ==>
      var o := c.streams[n];
      && o.got <= HeardFor(c, n)
      && (o.endSeen <==> HasFlag(o.got, FLAG_END))
      && (n in c.entries ==> o.got == HeardFor(c, n) && !HasFlag(o.got, FLAG_RESET))
  }

  predicate HasFlag(es: seq<Envelope>, flag: byte) {
    exists i :: 0 <= i < |es| && es[i].flag == flag
  }

  /** What a sent frame says about its ID. */
  predicate SentOk(c: Client, x: Sent) {
    x in c.wire && x.frame.env.flag != FLAG_RESET ==>
      x.frame.id in c.streams && c.streams[x.frame.id].sock == x.on
  }

  ghost predicate HeardOk(c: Client, k: nat) {
    k < |c.sockets| ==> forall f :: f in c.sockets[k].heard ==> Headered(c.wire, k, f.id)
  }

  /** How many resets were sent for an ID. */
  function Resets(wire: seq<Sent>, id: StreamId): nat {
    if wire == [] then 0
    else
      var x := wire[|wire| - 1];
      Resets(wire[..|wire| - 1], id) + (if x.frame.id == id && x.frame.env.flag == FLAG_RESET then 1 else 0)
  }

  predicate ResetOk(c: Client, n: nat) {
    n < ID_LIMIT ==> Resets(c.wire, n) <= (if n in c.streams && n !in c.entries then 1 else 0)
  }

  ghost predicate Inv(c: Client) {
    && c.nextStreamId >= 1 && (forall n :: n in c.entries ==> n in c.streams)
    && (forall n :: SockOk(c, n))
    && (c.nextStreamId <= ID_LIMIT ==>
          && (forall n :: FedOk(c, n) && ResetOk(c, n))
          && (forall x :: SentOk(c, x))
          && (forall k :: HeardOk(c, k)))
  }

  lemma InvInit(closeWhenIdle: bool)
    ensures Inv(NoSockets(closeWhenIdle))
  {}

  /** A change that sends nothing, delivers nothing and routes nothing to more streams. */
  ghost predicate Keeps(c: Client, d: Client) {
    && d.wire == c.wire && d.nextStreamId == c.nextStreamId && d.entries <= c.entries
    && d.streams.Keys == c.streams.Keys && |c.sockets| <= |d.sockets|
    && (forall n :: n in c.streams ==> SameStrm(c.streams[n], d.streams[n]))
    && (forall k :: 0 <= k < |c.sockets| ==> SameSocket(c.sockets[k], d.sockets[k]))
    && (forall k :: |c.sockets| <= k < |d.sockets| ==> d.sockets[k].heard == [])
  }

  predicate SameStrm(a: Strm, b: Strm) {
    b.sock == a.sock && b.got == a.got && b.endSeen == a.endSeen
  }

  predicate SameSocket(a: Socket, b: Socket) {
    b.heard == a.heard && (a.wasOpen ==> b.wasOpen)
  }

  lemma KeepsTrans(a: Client, b: Client, c: Client)
    requires Keeps(a, b) && Keeps(b, c)
    ensures Keeps(a, c)
  {
    forall n | n in a.streams ensures SameStrm(a.streams[n], c.streams[n]) {
      assert SameStrm(a.streams[n], b.streams[n]) && SameStrm(b.streams[n], c.streams[n]);
    }
    forall k | 0 <= k < |a.sockets| ensures SameSocket(a.sockets[k], c.sockets[k]) {
      assert SameSocket(a.sockets[k], b.sockets[k]) && SameSocket(b.sockets[k], c.sockets[k]);
    }
    forall k | |a.sockets| <= k < |c.sockets| ensures c.sockets[k].heard == [] {
      if k < |b.sockets| {
        assert SameSocket(b.sockets[k], c.sockets[k]);
      }
    }
  }

  lemma KeepsFed(c: Client, d: Client, n: nat)
    requires Keeps(c, d) && SockOk(c, n) && FedOk(c, n)
    ensures SockOk(d, n) && FedOk(d, n)
  {
    if n in c.streams {
      assert SameStrm(c.streams[n], d.streams[n]);
      assert SameSocket(c.sockets[c.streams[n].sock], d.sockets[c.streams[n].sock]);
      hide Envs, HasFlag;
      assert HeardFor(d, n) == HeardFor(c, n);
    }
  }

  lemma KeepsSock(c: Client, d: Client, n: nat)
    requires Keeps(c, d) && SockOk(c, n)
    ensures SockOk(d, n)
  {
    if n in c.streams {
      assert SameStrm(c.streams[n], d.streams[n]);
      assert SameSocket(c.sockets[c.streams[n].sock], d.sockets[c.streams[n].sock]);
    }
  }

  lemma KeepsInv(c: Client, d: Client)
    requires Inv(c) && Keeps(c, d)
    ensures Inv(d)
  {
    forall n ensures SockOk(d, n) {
      KeepsSock(c, d, n);
    }
    if d.nextStreamId <= ID_LIMIT {
      forall n ensures FedOk(d, n) && ResetOk(d, n) {
        assert SockOk(c, n) && FedOk(c, n) && ResetOk(c, n);
        KeepsFed(c, d, n);
      }
      forall x ensures SentOk(d, x) {
        assert SentOk(c, x);
        KeepsSent(c, d, x);
      }
      forall k ensures HeardOk(d, k) {
        assert HeardOk(c, k);
        KeepsHeard(c, d, k);
      }
    }
  }

  lemma KeepsSent(c: Client, d: Client, x: Sent)
    requires Keeps(c, d) && SentOk(c, x)
    ensures SentOk(d, x)
  {
    if x.frame.id in c.streams {
      assert SameStrm(c.streams[x.frame.id], d.streams[x.frame.id]);
    }
  }

  lemma KeepsHeard(c: Client, d: Client, k: nat)
    requires Keeps(c, d) && HeardOk(c, k)
    ensures HeardOk(d, k)
  {
    if k < |c.sockets| {
      assert SameSocket(c.sockets[k], d.sockets[k]);
    }
  }

  lemma FailAllKeeps(c: Client)
    ensures Keeps(c, FailAll(c))
  {}

  /** Everything but opening a stream, sending and hearing. */
  lemma QuietStep(c: Client, e: Event)
    requires CanStep(c, e) && !e.OnMessage? && !e.Resume? && !e.Send? && !e.Release?
    ensures Keeps(c, Step(c, e))
  {
    match e
    case OnClose(k) => QuietClose(c, k);
    case CloseAll => QuietCloseAll(c);
    case _ =>
  }

  lemma QuietClose(c: Client, k: nat)
    requires CanStep(c, OnClose(k))
    ensures Keeps(c, Step(c, OnClose(k)))
  {
    var d := SetState(c, k, Closed).(opening := None, socket := if c.socket == Some(k) then None else c.socket);
    assert Keeps(c, d);
    FailAllKeeps(d);
    hide FailAll, Keeps;
    KeepsTrans(c, d, FailAll(d));
  }

  lemma QuietCloseAll(c: Client)
    ensures Keeps(c, Step(c, CloseAll))
  {
    var d := c.(socket := None);
    assert Keeps(c, d);
    FailAllKeeps(d);
    var f := FailAll(d);
    assert Keeps(f, Step(c, CloseAll));
    hide FailAll, Keeps;
    KeepsTrans(c, d, f);
    KeepsTrans(c, f, Step(c, CloseAll));
  }

  // Hearing a message

  /** Whoever opened an ID with headers is the stream of that number, on that socket. */
  lemma HeadersOwner(c: Client, k: nat, id: StreamId)
    requires Headered(c.wire, k, id) && forall x :: SentOk(c, x)
    ensures id in c.streams && c.streams[id].sock == k
  {
    var x :| x in c.wire && x.on == k && x.frame.id == id && x.frame.env.flag == FLAG_HEADERS;
    assert SentOk(c, x);
  }

  lemma HasFlagSnoc(es: seq<Envelope>, env: Envelope, flag: byte)
    ensures HasFlag(es + [env], flag) <==> HasFlag(es, flag) || env.flag == flag
  {
    if HasFlag(es, flag) {
      var i :| 0 <= i < |es| && es[i].flag == flag;
      assert (es + [env])[i].flag == flag;
    }
    if env.flag == flag {
      assert (es + [env])[|es|].flag == flag;
    }
  }

  function Listened(c: Client, k: nat, f: Frame): Client
    requires k < |c.sockets|
  {
    c.(sockets := c.sockets[k := c.sockets[k].(heard := c.sockets[k].heard + [f])])
  }

  lemma HeardByOther(c: Client, k: nat, f: Frame, n: nat)
    requires k < |c.sockets| && SockOk(c, n) && FedOk(c, n) && f.id != n
    ensures FedOk(Routed(Listened(c, k, f), f), n)
  {
    var d := Routed(Listened(c, k, f), f);
    if n in c.streams && n < ID_LIMIT {
      EnvsSnoc(c.sockets[k].heard, f, n);
      hide Envs, HasFlag;
      assert d.streams[n] == c.streams[n] && (n in d.entries <==> n in c.entries);
      assert HeardFor(d, n) == HeardFor(c, n);
    }
  }

  lemma HeardForGrows(c: Client, k: nat, f: Frame)
    requires k < |c.sockets| && f.id in c.streams && c.streams[f.id].sock == k
    ensures HeardFor(Routed(Listened(c, k, f), f), f.id) == HeardFor(c, f.id) + [f.env]
  {
    EnvsSnoc(c.sockets[k].heard, f, f.id);
    RoutedStays(Listened(c, k, f), f);
    hide Envs, Routed;
  }

  lemma RoutedStays(c: Client, f: Frame)
    requires f.id in c.streams
    ensures var d := Routed(c, f);
      d.sockets == c.sockets && f.id in d.streams && d.streams[f.id].sock == c.streams[f.id].sock
  {}

  lemma HeardByOwn(c: Client, k: nat, f: Frame)
    requires k < |c.sockets| && FedOk(c, f.id) && f.id in c.streams && c.streams[f.id].sock == k
    ensures FedOk(Routed(Listened(c, k, f), f), f.id)
  {
    var n, o := f.id, c.streams[f.id];
    HeardForGrows(c, k, f);
    hide HeardFor, HasFlag;
    if n in c.entries && f.env.flag != FLAG_RESET {
      HasFlagSnoc(o.got, f.env, FLAG_END);
      HasFlagSnoc(o.got, f.env, FLAG_RESET);
    }
  }

  lemma HeardFed(c: Client, k: nat, f: Frame, n: nat)
    requires k < |c.sockets| && SockOk(c, n) && FedOk(c, n)
    requires f.id in c.streams && c.streams[f.id].sock == k
    ensures FedOk(Routed(Listened(c, k, f), f), n)
  {
    if n == f.id {
      HeardByOwn(c, k, f);
    } else {
      HeardByOther(c, k, f, n);
    }
  }

  lemma HeardRest(c: Client, k: nat, f: Frame)
    requires k < |c.sockets| && Inv(c) && c.nextStreamId <= ID_LIMIT && Headered(c.wire, k, f.id)
    ensures var d := Routed(Listened(c, k, f), f);
      (forall n :: ResetOk(d, n)) && (forall x :: SentOk(d, x)) && (forall j :: HeardOk(d, j))
  {
    var d := Routed(Listened(c, k, f), f);
    assert d.wire == c.wire;
    hide FedOk, SockOk, Headered;
    forall n ensures ResetOk(d, n) {
      assert ResetOk(c, n);
    }
    forall x ensures SentOk(d, x) {
      assert SentOk(c, x);
    }
    forall j ensures HeardOk(d, j) {
      assert HeardOk(c, j);
    }
  }

  lemma HeardSock(c: Client, k: nat, f: Frame, n: nat)
    requires k < |c.sockets| && SockOk(c, n)
    ensures SockOk(Routed(Listened(c, k, f), f), n)
  {}

  lemma InvOnMessage(c: Client, k: nat, m: Bytes)
    requires Inv(c) && CanStep(c, OnMessage(k, m))
    ensures Inv(Step(c, OnMessage(k, m)))
  {
    if Parse(m).Some? {
      var f := Parse(m).value;
      var d := Routed(Listened(c, k, f), f);
      assert Step(c, OnMessage(k, m)) == d;
      assert d.nextStreamId == c.nextStreamId && forall n :: n in d.entries ==> n in d.streams;
      hide Parse, Step, CanStep, Headered, Routed, Listened;
      forall n ensures SockOk(d, n) {
        assert SockOk(c, n);
        HeardSock(c, k, f, n);
      }
      if d.nextStreamId <= ID_LIMIT {
        HeadersOwner(c, k, f.id);
        HeardRest(c, k, f);
        forall n ensures FedOk(d, n) {
          assert SockOk(c, n) && FedOk(c, n);
          HeardFed(c, k, f, n);
        }
      }
    }
  }

  // Opening a stream

  lemma NothingHeardYet(c: Client, k: nat, n: StreamId)
    requires Inv(c) && c.nextStreamId <= ID_LIMIT && n !in c.streams && k < |c.sockets|
    ensures Envs(c.sockets[k].heard, n) == []
  {
    assert HeardOk(c, k);
    var heard := c.sockets[k].heard;
    forall f | f in heard ensures f.id != n {
      HeadersOwner(c, k, f.id);
    }
    NoneFor(heard, n);
  }

  lemma {:induction false} NoneFor(fs: seq<Frame>, id: StreamId)
    requires forall f :: f in fs ==> f.id != id
    ensures Envs(fs, id) == []
  {
    if fs != [] {
      var last := fs[|fs| - 1];
      assert last in fs;
      NoneFor(fs[..|fs| - 1], id);
    }
  }

  lemma ResumeShape(c: Client, k: nat)
    requires k < |c.sockets| && c.sockets[k].wasOpen
    ensures CanStep(c, Resume(k))
    ensures var n := c.nextStreamId;
      Step(c, Resume(k)) == Client(c.closeWhenIdle, c.socket, c.opening, n + 1, c.entries + {n},
                                   c.streams[n := Strm(k, [], false, false)], c.sockets, c.wire)
  {}

  lemma ResumeOld(c: Client, k: nat, n: nat)
    requires CanStep(c, Resume(k)) && SockOk(c, n) && n != c.nextStreamId
    ensures var d := Step(c, Resume(k)); SockOk(d, n) && (FedOk(c, n) ==> FedOk(d, n)) && (ResetOk(c, n) ==> ResetOk(d, n))
  {}

  lemma InvResume(c: Client, k: nat)
    requires Inv(c) && CanStep(c, Resume(k))
    ensures Inv(Step(c, Resume(k)))
  {
    var d, newest := Step(c, Resume(k)), c.nextStreamId;
    assert SockOk(c, newest) && newest !in c.streams;
    assert d.streams[newest] == Strm(k, [], false, false) && d.wire == c.wire && d.sockets == c.sockets;
    assert d.entries == c.entries + {newest} && d.nextStreamId == newest + 1;
    assert d.streams == c.streams[newest := d.streams[newest]];
    if d.nextStreamId <= ID_LIMIT {
      NothingHeardYet(c, k, newest);
      assert ResetOk(c, newest);
    }
    hide Resets, Envs, Headered;
    forall n ensures SockOk(d, n) && (d.nextStreamId <= ID_LIMIT ==> FedOk(d, n) && ResetOk(d, n)) {
      if n != newest {
        assert SockOk(c, n);
        ResumeOld(c, k, n);
      }
    }
    if d.nextStreamId <= ID_LIMIT {
      forall x ensures SentOk(d, x) {
        assert SentOk(c, x);
      }
      forall j ensures HeardOk(d, j) {
        assert HeardOk(c, j);
      }
    }
  }

  // Sending

  lemma ResetsSnoc(wire: seq<Sent>, x: Sent, id: StreamId)
    ensures Resets(wire + [x], id) == Resets(wire, id) + (if x.frame.id == id && x.frame.env.flag == FLAG_RESET then 1 else 0)
  {
    assert (wire + [x])[..|wire|] == wire;
  }

  lemma HeaderedMore(wire: seq<Sent>, x: Sent, k: nat, id: StreamId)
    requires Headered(wire, k, id)
    ensures Headered(wire + [x], k, id)
  {
    var y :| y in wire && y.on == k && y.frame.id == id && y.frame.env.flag == FLAG_HEADERS;
    assert y in wire + [x];
  }

  lemma SmallIds(n: nat)
    requires n < ID_LIMIT
    ensures WireId(n) == n
  {}

  /** One more frame on the wire: what it must satisfy for the invariant to stay. */
  lemma InvWire(c: Client, x: Sent, d: Client)
    requires Inv(c) && d == c.(wire := c.wire + [x])
    requires c.nextStreamId <= ID_LIMIT ==> SentOk(d, x) && forall n :: ResetOk(d, n)
    ensures Inv(d)
  {
    forall n ensures SockOk(d, n) {
      assert SockOk(c, n);
    }
    if d.nextStreamId <= ID_LIMIT {
      forall n ensures FedOk(d, n) {
        assert FedOk(c, n);
      }
      forall y ensures SentOk(d, y) {
        assert SentOk(c, y);
      }
      forall k: nat ensures HeardOk(d, k) {
        assert HeardOk(c, k);
        if k < |c.sockets| {
          forall f | f in c.sockets[k].heard ensures Headered(d.wire, k, f.id) {
            HeaderedMore(c.wire, x, k, f.id);
          }
        }
      }
    }
  }

  lemma InvSend(c: Client, n: nat, env: Envelope)
    requires Inv(c) && CanStep(c, Send(n, env))
    ensures Inv(Step(c, Send(n, env)))
  {
    var k := c.streams[n].sock;
    if IsOpen(c, k) {
      var x := Sent(k, Frame(WireId(n), env));
      var d := c.(wire := c.wire + [x]);
      if c.nextStreamId <= ID_LIMIT {
        assert SockOk(c, n);
        SmallIds(n);
        forall m: nat ensures ResetOk(d, m) {
          assert ResetOk(c, m);
          if m < ID_LIMIT {
            ResetsSnoc(c.wire, x, m);
          }
        }
      }
      hide Resets;
      InvWire(c, x, d);
    }
  }

  /** The stream leaves the map first, so a reset for it is its first and last. */
  lemma InvRelease(c: Client, n: nat)
    requires Inv(c)
    ensures Inv(Released(c, n))
  {
    if n in c.entries && n in c.streams {
      var d := c.(entries := c.entries - {n});
      assert Keeps(c, d);
      KeepsInv(c, d);
      var e := if !c.streams[n].endSeen && c.socket.Some? then SendOn(d, c.socket.value, n, RESET) else d;
      if e != d {
        InvReset(c, n, d);
      }
      assert Released(c, n) == CloseIfIdle(e);
      assert Keeps(e, CloseIfIdle(e));
      hide Inv, Keeps, Released, CloseIfIdle;
      KeepsInv(e, CloseIfIdle(e));
    }
  }

  lemma InvReset(c: Client, n: nat, d: Client)
    requires Inv(c) && Inv(d) && n in c.entries && n in c.streams && d == c.(entries := c.entries - {n})
    requires c.socket.Some? && IsOpen(c, c.socket.value)
    ensures Inv(SendOn(d, c.socket.value, n, RESET))
  {
    var x := Sent(c.socket.value, Frame(WireId(n), RESET));
    var e := d.(wire := d.wire + [x]);
    if c.nextStreamId <= ID_LIMIT {
      assert SockOk(c, n) && ResetOk(c, n);
      SmallIds(n);
      forall m: nat ensures ResetOk(e, m) {
        assert ResetOk(c, m);
        if m < ID_LIMIT {
          ResetsSnoc(c.wire, x, m);
        }
      }
    }
    hide Resets;
    InvWire(d, x, e);
  }

  lemma InvStep(c: Client, e: Event)
    requires Inv(c) && CanStep(c, e)
    ensures Inv(Step(c, e)) && Step(c, e).closeWhenIdle == c.closeWhenIdle
  {
    assert Step(c, e).closeWhenIdle == c.closeWhenIdle;
    hide Inv;
    match e
    case OnMessage(k, m) => InvOnMessage(c, k, m);
    case Resume(k) => InvResume(c, k);
    case Send(n, env) => InvSend(c, n, env);
    case Release(n) => InvRelease(c, n);
    case _ =>
      hide Step, CanStep;
      QuietStep(c, e);
      KeepsInv(c, Step(c, e));
  }

  lemma {:induction false} InvRun(c: Client, es: seq<Event>)
    requires Inv(c) && CanRun(c, es)
    ensures Inv(Run(c, es))
    decreases |es|
  {
    if es != [] {
      InvStep(c, es[0]);
      hide Inv, Step, CanStep;
      InvRun(Step(c, es[0]), es[1..]);
    }
  }

  lemma ReachableInv(c: Client)
    requires Reachable(c)
    ensures Inv(c)
  {
    var es :| CanRun(NoSockets(c.closeWhenIdle), es) && Run(NoSockets(c.closeWhenIdle), es) == c;
    InvInit(c.closeWhenIdle);
    InvRun(NoSockets(c.closeWhenIdle), es);
  }

  // Main results

  /** However sockets fail and are redialed, and with fewer than 2^32 streams: what a stream was
      fed is a prefix of what its own socket delivered for its ID, all of it while the stream is
      in the map; and no other socket ever delivers anything for that ID. */
  lemma MessagesStayOnTheirSocket(c: Client, n: nat)
    requires Reachable(c) && c.nextStreamId <= ID_LIMIT && n in c.streams
    ensures n < ID_LIMIT && c.streams[n].sock < |c.sockets|
    ensures c.streams[n].got <= Envs(c.sockets[c.streams[n].sock].heard, n)
    ensures n in c.entries ==> c.streams[n].got == Envs(c.sockets[c.streams[n].sock].heard, n)
    ensures forall k :: 0 <= k < |c.sockets| && k != c.streams[n].sock ==> Envs(c.sockets[k].heard, n) == []
  {
    ReachableInv(c);
    assert SockOk(c, n) && FedOk(c, n);
    forall k | 0 <= k < |c.sockets| && k != c.streams[n].sock ensures Envs(c.sockets[k].heard, n) == [] {
      assert HeardOk(c, k);
      forall f | f in c.sockets[k].heard ensures f.id != n {
        HeadersOwner(c, k, f.id);
      }
      NoneFor(c.sockets[k].heard, n);
    }
  }

  /** A reset is sent for a stream at most once, only when the stream is released, and never
      once its end-stream or a reset has been heard. */
  lemma OneResetWhileUnfinished(c: Client, e: Event, n: nat)
    requires Reachable(c) && CanStep(c, e) && Step(c, e).nextStreamId <= ID_LIMIT && n < ID_LIMIT
    ensures Resets(c.wire, n) <= 1
    ensures Resets(Step(c, e).wire, n) > Resets(c.wire, n) ==>
      && e == Release(n) && n in c.entries && Resets(c.wire, n) == 0
      && !HasFlag(HeardFor(c, n), FLAG_END) && !HasFlag(HeardFor(c, n), FLAG_RESET)
  {
    ReachableInv(c);
    assert ResetOk(c, n) && FedOk(c, n);
    assert n in c.entries ==> n in c.streams;
    if Step(c, e).wire != c.wire {
      WireGrows(c, e);
      if e.Release? && e.n != n {
        ReleasedId(c, e.n, n);
      }
      var x := Step(c, e).wire[|c.wire|];
      ResetsSnoc(c.wire, x, n);
      hide Resets, Step, CanStep, HeardFor, HasFlag, Inv;
      assert n in c.entries ==> c.streams[n].got == HeardFor(c, n);
    }
  }

  lemma ReleasedId(c: Client, m: nat, n: nat)
    requires Inv(c) && c.nextStreamId <= ID_LIMIT && m in c.entries && m != n && n < ID_LIMIT
    ensures WireId(m) != n
  {
    assert SockOk(c, m);
    SmallIds(m);
  }

  /** What can be put on the wire: a stream's own write, or the reset of a live stream. */
  lemma WireGrows(c: Client, e: Event)
    requires CanStep(c, e) && Step(c, e).wire != c.wire
    ensures |Step(c, e).wire| == |c.wire| + 1 && Step(c, e).wire[..|c.wire|] == c.wire
    ensures var x := Step(c, e).wire[|c.wire|];
      && Step(c, e).wire == c.wire + [x]
      && (|| (e.Send? && x.frame.env.flag != FLAG_RESET)
          || (e.Release? && e.n in c.entries && e.n in c.streams && !c.streams[e.n].endSeen
              && c.socket.Some? && x == Sent(c.socket.value, Frame(WireId(e.n), RESET))))
  {
    assert e.Send? || e.Release?;
  }

  // Where the reset goes

  /** The socket being dialed can still open. */
  predicate Dialing(c: Client) {
    c.opening.Some? && c.opening.value < |c.sockets| && c.sockets[c.opening.value].state == Connecting
  }

  /** No close or error event comes while a socket is being dialed. */
  predicate InTurn(c: Client, e: Event) {
    e.OnClose? || e.OnError? ==> !Dialing(c)
  }

  /** At most one socket is open, and it is the current one. */
  ghost predicate Single(c: Client) {
    && (forall k :: 0 <= k < |c.sockets| && c.sockets[k].state == Connecting ==> c.opening == Some(k))
    && (forall k :: 0 <= k < |c.sockets| && c.sockets[k].state == Open ==> c.socket == Some(k) && c.opening == None)
  }

  ghost predicate Orderly(c: Client, es: seq<Event>)
    requires CanRun(c, es)
    decreases |es|
  {
    es == [] || (InTurn(c, es[0]) && Orderly(Step(c, es[0]), es[1..]))
  }

  /** Sockets only close, and the current one only goes when it does. */
  ghost predicate OnlyCloses(c: Client, d: Client) {
    && |d.sockets| == |c.sockets|
    && (forall k :: 0 <= k < |c.sockets| ==>
          d.sockets[k].state == c.sockets[k].state || (d.sockets[k].state != Open && d.sockets[k].state != Connecting))
    && (forall k :: 0 <= k < |d.sockets| && d.sockets[k].state == Open ==> d.socket == c.socket)
  }

  lemma OnlyClosesSingle(c: Client, d: Client)
    requires Single(c) && OnlyCloses(c, d) && (d.opening == c.opening || (d.opening == None && !Dialing(c)))
    ensures Single(d)
  {}

  lemma ReleaseCloses(c: Client, n: nat)
    requires Single(c)
    ensures OnlyCloses(c, Released(c, n)) && Released(c, n).opening == c.opening
  {}

  lemma CloseAllCloses(c: Client)
    requires Single(c)
    ensures OnlyCloses(c, Step(c, CloseAll)) && Step(c, CloseAll).opening == c.opening
  {
    hide AllFailed;
  }

  lemma OnCloseCloses(c: Client, k: nat)
    requires Single(c) && CanStep(c, OnClose(k))
    ensures OnlyCloses(c, Step(c, OnClose(k))) && Step(c, OnClose(k)).opening == None
  {
    hide AllFailed;
  }

  lemma SingleStep(c: Client, e: Event)
    requires Single(c) && CanStep(c, e) && InTurn(c, e)
    ensures Single(Step(c, e))
  {
    match e
    case Release(n) => hide Single; ReleaseCloses(c, n); OnlyClosesSingle(c, Step(c, e));
    case CloseAll => hide Single, Step; CloseAllCloses(c); OnlyClosesSingle(c, Step(c, e));
    case OnClose(k) => hide Single, Step; OnCloseCloses(c, k); OnlyClosesSingle(c, Step(c, e));
    case _ => hide Released, AllFailed;
  }

  lemma {:induction false} SingleRun(c: Client, es: seq<Event>)
    requires Single(c) && CanRun(c, es) && Orderly(c, es)
    ensures Single(Run(c, es))
    decreases |es|
  {
    if es != [] {
      SingleStep(c, es[0]);
      hide Step, CanStep, Single;
      SingleRun(Step(c, es[0]), es[1..]);
    }
  }

  lemma ReleasedWire(c: Client, n: nat)
    requires n in c.entries && n in c.streams && !c.streams[n].endSeen
    ensures Released(c, n).wire == c.wire +
      (if c.socket.Some? && IsOpen(c, c.socket.value) then [Sent(c.socket.value, Frame(WireId(n), RESET))] else [])
  {
    assert c.wire + [] == c.wire;
  }

  /** Releasing an unfinished stream resets it at its own server if and only if its socket is
      still open. */
  ghost predicate ResetsOwn(c: Client) {
    forall n :: n in c.entries && n in c.streams && !c.streams[n].endSeen ==> ResetOwn(c, n)
  }

  predicate ResetOwn(c: Client, n: nat)
    requires n in c.streams
  {
    Released(c, n).wire == c.wire + [Sent(c.streams[n].sock, Frame(WireId(n), RESET))] <==> IsOpen(c, c.streams[n].sock)
  }

  lemma SingleResetsOwn(c: Client)
    requires Single(c)
    ensures ResetsOwn(c)
  {
    forall n | n in c.entries && n in c.streams && !c.streams[n].endSeen ensures ResetOwn(c, n) {
      ReleasedWire(c, n);
      hide Released;
      var k, w := c.streams[n].sock, Released(c, n).wire;
      if IsOpen(c, k) {
        assert c.sockets[k].state == Open;
      }
      if w == c.wire + [Sent(k, Frame(WireId(n), RESET))] {
        assert w[|c.wire|] == Sent(k, Frame(WireId(n), RESET));
      }
    }
  }

  /** In a run whose close and error events all came while no socket was being dialed, every
      release resets its own server. */
  lemma ResetReachesItsServer(closeWhenIdle: bool, es: seq<Event>)
    requires CanRun(NoSockets(closeWhenIdle), es) && Orderly(NoSockets(closeWhenIdle), es)
    ensures ResetsOwn(Run(NoSockets(closeWhenIdle), es))
  {
    SingleRun(NoSockets(closeWhenIdle), es);
    SingleResetsOwn(Run(NoSockets(closeWhenIdle), es));
  }

  predicate Calm(es: seq<Event>) {
    forall i :: 0 <= i < |es| ==> !es[i].OnClose? && !es[i].OnError?
  }

  lemma {:induction false} CalmIsOrderly(c: Client, es: seq<Event>)
    requires CanRun(c, es) && Calm(es)
    ensures Orderly(c, es)
    decreases |es|
  {
    if es != [] {
      assert !es[0].OnClose? && !es[0].OnError?;
      assert forall i :: 0 <= i < |es[1..]| ==> es[1..][i] == es[i + 1];
      hide Step, CanStep;
      CalmIsOrderly(Step(c, es[0]), es[1..]);
    }
  }

  /** Whatever happens next short of a close or an error, every release resets its own server. */
  ghost predicate StaysOwn(c: Client) {
    forall es :: CanRun(c, es) && Calm(es) ==> ResetsOwn(Run(c, es))
  }

  lemma SingleStaysOwn(c: Client)
    requires Single(c)
    ensures StaysOwn(c)
  {
    forall es | CanRun(c, es) && Calm(es) ensures ResetsOwn(Run(c, es)) {
      CalmIsOrderly(c, es);
      SingleRun(c, es);
      hide Single, Run, CanRun, Orderly;
      SingleResetsOwn(Run(c, es));
    }
  }

  ghost predicate AlwaysStaysOwn(c: Client, es: seq<Event>)
    requires CanRun(c, es)
    decreases |es|
  {
    StaysOwn(c) && (es == [] || AlwaysStaysOwn(Step(c, es[0]), es[1..]))
  }

  lemma RunFirst(c: Client, e: Event, es: seq<Event>)
    requires CanStep(c, e) && CanRun(Step(c, e), es)
    ensures CanRun(c, [e] + es) && Run(c, [e] + es) == Run(Step(c, e), es)
  {
    assert ([e] + es)[1..] == es;
  }

  lemma RunNone(c: Client)
    ensures CanRun(c, []) && Run(c, []) == c
  {}

  /** A second dial, begun because the first was forgotten, opens first; then the first does. */
  function TwoDials(m: nat, j: nat): seq<Event> {
    [Dial, OnOpen(j), Resume(j), OnOpen(m)]
  }

  function AfterTwoDials(c: Client, m: nat): Client
    requires m < |c.sockets|
  {
    var j, n := |c.sockets|, c.nextStreamId;
    c.(opening := None, socket := Some(m), nextStreamId := n + 1, entries := c.entries + {n},
       streams := c.streams[n := Strm(j, [], false, false)],
       sockets := c.sockets[m := c.sockets[m].(state := Open, wasOpen := true)] + [Socket(Open, true, [])])
  }

  lemma TwoDialsRun(c: Client, m: nat)
    requires c.opening == None && m < |c.sockets| && c.sockets[m].state == Connecting
    requires forall k :: 0 <= k < |c.sockets| ==> c.sockets[k].state != Open
    ensures CanRun(c, TwoDials(m, |c.sockets|)) && Run(c, TwoDials(m, |c.sockets|)) == AfterTwoDials(c, m)
  {
    var j := |c.sockets|;
    var a := Step(c, Dial);
    var b := Step(a, OnOpen(j));
    var d := Step(b, Resume(j));
    var e := Step(d, OnOpen(m));
    assert e.sockets == AfterTwoDials(c, m).sockets;
    RunNone(e);
    assert e == AfterTwoDials(c, m);
    hide Step, AfterTwoDials;
    RunFirst(d, OnOpen(m), []);
    RunFirst(b, Resume(j), [OnOpen(m)]);
    RunFirst(a, OnOpen(j), [Resume(j), OnOpen(m)]);
    RunFirst(c, Dial, [OnOpen(j), Resume(j), OnOpen(m)]);
    assert [OnOpen(m)] + [] == [OnOpen(m)];
    assert [Resume(j)] + [OnOpen(m)] == [Resume(j), OnOpen(m)];
    assert [OnOpen(j)] + [Resume(j), OnOpen(m)] == [OnOpen(j), Resume(j), OnOpen(m)];
    assert [Dial] + [OnOpen(j), Resume(j), OnOpen(m)] == TwoDials(m, j);
  }

  /** Every close or error event that comes while a socket is being dialed lets a reset miss its
      server: without any other close, a stream on an open socket can have its reset sent on
      another. */
  lemma ResetCanMissItsServer(c: Client, e: Event) returns (es: seq<Event>, n: nat)
    requires Single(c) && CanStep(c, e) && !InTurn(c, e)
    ensures CanRun(Step(c, e), es) && Calm(es)
    ensures var d := Run(Step(c, e), es);
      && n in d.entries && n in d.streams && !d.streams[n].endSeen && IsOpen(d, d.streams[n].sock)
      && d.socket.Some? && d.socket.value != d.streams[n].sock
      && Released(d, n).wire == d.wire + [Sent(d.socket.value, Frame(WireId(n), RESET))]
  {
    var m, d := c.opening.value, Step(c, e);
    DialForgotten(c, e);
    n := d.nextStreamId;
    es := TwoDials(m, |d.sockets|);
    TwoDialsRun(d, m);
    ReleasedWire(AfterTwoDials(d, m), n);
    hide Single, Step, CanStep, CanRun, Run, Released;
  }

  lemma DialForgotten(c: Client, e: Event)
    requires Single(c) && CanStep(c, e) && !InTurn(c, e)
    ensures var m, d := c.opening.value, Step(c, e);
      && d.opening == None && m < |d.sockets| && d.sockets[m].state == Connecting
      && forall k :: 0 <= k < |d.sockets| ==> d.sockets[k].state != Open
  {
    assert c.sockets[e.k].state == Closing;
    assert forall k :: 0 <= k < |c.sockets| ==> c.sockets[k].state != Open;
    hide AllFailed;
  }

  lemma MissIsSeen(c: Client, e: Event)
    requires Single(c) && CanStep(c, e) && !InTurn(c, e)
    ensures !StaysOwn(Step(c, e))
  {
    var es, n := ResetCanMissItsServer(c, e);
    var d := Run(Step(c, e), es);
    hide Single, Step, CanStep, InTurn, Run, CanRun, Released, Calm;
    var own := Sent(d.streams[n].sock, Frame(WireId(n), RESET));
    var other := Sent(d.socket.value, Frame(WireId(n), RESET));
    assert (d.wire + [own])[|d.wire|] == own && (d.wire + [other])[|d.wire|] == other;
    assert !ResetOwn(d, n);
    assert !ResetsOwn(d);
  }

  lemma {:induction false} StaysOwnIffOrderly(c: Client, es: seq<Event>)
    requires Single(c) && CanRun(c, es)
    ensures Orderly(c, es) <==> AlwaysStaysOwn(c, es)
    decreases |es|
  {
    SingleStaysOwn(c);
    if es != [] {
      var e, d := es[0], Step(c, es[0]);
      if InTurn(c, e) {
        SingleStep(c, e);
        hide Single, Step, CanStep, InTurn, StaysOwn;
        StaysOwnIffOrderly(d, es[1..]);
      } else {
        MissIsSeen(c, e);
        hide Single, Step, CanStep, InTurn, StaysOwn;
      }
    }
  }

  /** Exactly when resets keep to their own server: a run in which they do, after each of its
      events and whatever happens next short of a close or an error, is one in which no close or
      error event came while a socket was being dialed. */
  lemma ResetsKeepToTheirServerIffOrderly(closeWhenIdle: bool, es: seq<Event>)
    requires CanRun(NoSockets(closeWhenIdle), es)
    ensures Orderly(NoSockets(closeWhenIdle), es) <==> AlwaysStaysOwn(NoSockets(closeWhenIdle), es)
  {
    StaysOwnIffOrderly(NoSockets(closeWhenIdle), es);
  }

  // Failures

  predicate NoDial(es: seq<Event>) {
    forall i :: 0 <= i < |es| ==> !es[i].Dial?
  }

  /** Without another dial, the close event of a socket that is not its own can still come while
      the stream is open. */
  ghost predicate CanFailForAnother(c: Client, n: nat)
    requires n in c.streams
  {
    exists es: seq<Event>, k: nat :: FailsForAnother(c, n, es, k)
  }

  ghost predicate FailsForAnother(c: Client, n: nat, es: seq<Event>, k: nat)
    requires n in c.streams
  {
    && CanRun(c, es) && NoDial(es) && k != c.streams[n].sock
    && var d := Run(c, es);
       && CanStep(d, OnClose(k)) && n in d.entries && n in d.streams
       && var f := Step(d, OnClose(k)); n !in f.entries && n in f.streams && f.streams[n].failed
  }

  /** A socket that has had its close event has no more events. */
  predicate Done(c: Client, k: nat) {
    k < |c.sockets| && c.sockets[k].state == Closed
  }

  lemma DoneStays(c: Client, e: Event, k: nat)
    requires CanStep(c, e)
    ensures Done(c, k) ==> Done(Step(c, e), k)
    ensures !e.Dial? ==> |Step(c, e).sockets| == |c.sockets|
  {
    hide AllFailed, Parse;
  }

  lemma {:induction false} DoneForGood(c: Client, es: seq<Event>, k: nat)
    requires CanRun(c, es) && NoDial(es)
    ensures Done(c, k) ==> Done(Run(c, es), k)
    ensures |Run(c, es).sockets| == |c.sockets|
    decreases |es|
  {
    if es != [] {
      DoneStays(c, es[0], k);
      assert !es[0].Dial? && forall i :: 0 <= i < |es[1..]| ==> es[1..][i] == es[i + 1];
      hide Step, CanStep, Done;
      DoneForGood(Step(c, es[0]), es[1..], k);
    }
  }

  /** A close event fails every stream of the map, on whatever socket. */
  lemma CloseFailsAll(c: Client, k: nat, n: nat)
    requires CanStep(c, OnClose(k)) && n in c.entries && n in c.streams
    ensures var f := Step(c, OnClose(k)); n !in f.entries && n in f.streams && f.streams[n].failed
  {}

  lemma OtherCanClose(c: Client, n: nat, k: nat)
    requires n in c.entries && n in c.streams
    requires k < |c.sockets| && k != c.streams[n].sock && c.sockets[k].state != Closed
    ensures CanFailForAnother(c, n)
  {
    if c.sockets[k].state == Closing {
      RunNone(c);
      CloseFailsAll(c, k, n);
      assert FailsForAnother(c, n, [], k);
    } else {
      var d := Step(c, Fade(k));
      RunNone(d);
      RunFirst(c, Fade(k), []);
      assert [Fade(k)] + [] == [Fade(k)];
      CloseFailsAll(d, k, n);
      hide Step, CanRun, Run;
      assert FailsForAnother(c, n, [Fade(k)], k);
    }
  }

  /** Exactly when an open stream can be failed by the close event of a socket it does not use,
      with no further dial: when some other socket has not had its close event yet. */
  lemma StreamIsIsolatedIffOthersAreClosed(c: Client, n: nat)
    requires n in c.entries && n in c.streams
    ensures CanFailForAnother(c, n) <==>
      exists k :: 0 <= k < |c.sockets| && k != c.streams[n].sock && c.sockets[k].state != Closed
  {
    if CanFailForAnother(c, n) {
      var es: seq<Event>, k: nat :| FailsForAnother(c, n, es, k);
      DoneForGood(c, es, k);
      assert k < |c.sockets| && c.sockets[k].state != Closed;
    }
    if k :| 0 <= k < |c.sockets| && k != c.streams[n].sock && c.sockets[k].state != Closed {
      OtherCanClose(c, n, k);
    }
  }

  const UP := Socket(Open, true, [])
  const FADING := Socket(Closing, true, [])
  const DIALING := Socket(Connecting, false, [])

  /** The first socket opens and fades again; its close event is still to come. */
  lemma FirstSocketFades(closeWhenIdle: bool) returns (es: seq<Event>)
    ensures es == [Dial, OnOpen(0), Fade(0)] && CanRun(NoSockets(closeWhenIdle), es)
    ensures Run(NoSockets(closeWhenIdle), es) == NoSockets(closeWhenIdle).(socket := Some(0), sockets := [FADING])
  {
    var c0 := NoSockets(closeWhenIdle);
    es := [];
    RunNone(c0);
    hide CanRun, Run;
    es := Extended(c0, es, Dial, c0.(opening := Some(0), sockets := [DIALING]));
    es := Extended(c0, es, OnOpen(0), c0.(socket := Some(0), sockets := [UP]));
    es := Extended(c0, es, Fade(0), c0.(socket := Some(0), sockets := [FADING]));
  }

  /** And it does happen: the old socket fades, a new one is dialed, and a stream opened on it is
      about to be failed by the old one's close event. */
  lemma RedialedStreamIsNotIsolated(closeWhenIdle: bool) returns (es: seq<Event>)
    ensures es == [Dial, OnOpen(0), Fade(0), Dial, OnOpen(1), Resume(1)] && CanRun(NoSockets(closeWhenIdle), es)
    ensures var c := Run(NoSockets(closeWhenIdle), es);
      && 1 in c.entries && 1 in c.streams && c.streams[1].sock == 1 && IsOpen(c, 1) && c.socket == Some(1)
      && CanFailForAnother(c, 1)
  {
    var c0 := NoSockets(closeWhenIdle);
    es := FirstSocketFades(closeWhenIdle);
    hide CanRun, Run, CanFailForAnother;
    es := Extended(c0, es, Dial, c0.(socket := Some(0), opening := Some(1), sockets := [FADING, DIALING]));
    var c5 := c0.(socket := Some(1), sockets := [FADING, UP]);
    es := Extended(c0, es, OnOpen(1), c5);
    ResumeShape(c5, 1);
    var c6 := c5.(nextStreamId := 2, entries := {1}, streams := map[1 := Strm(1, [], false, false)]);
    es := Extended(c0, es, Resume(1), c6);
    hide Step, CanStep;
    OtherCanClose(c6, 1, 0);
  }

  lemma {:induction false} RunSnoc(c: Client, es: seq<Event>, e: Event)
    requires CanRun(c, es) && CanStep(Run(c, es), e)
    ensures CanRun(c, es + [e]) && Run(c, es + [e]) == Step(Run(c, es), e)
    decreases |es|
  {
    if es == [] {
      assert es + [e] == [e] && [e][1..] == [];
      RunNone(Step(c, e));
    } else {
      assert (es + [e])[1..] == es[1..] + [e];
      RunSnoc(Step(c, es[0]), es[1..], e);
    }
  }

  /** A run with one more event. */
  lemma Extended(c: Client, es: seq<Event>, e: Event, d: Client) returns (fs: seq<Event>)
    requires CanRun(c, es) && CanStep(Run(c, es), e) && Step(Run(c, es), e) == d
    ensures fs == es + [e] && CanRun(c, fs) && Run(c, fs) == d
  {
    RunSnoc(c, es, e);
    fs := es + [e];
  }
}
