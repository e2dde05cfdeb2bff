/** What the TypeScript client's events do, and what leaves it: the frames of a stream on the wire
    are what was handed to its writer, whole and in order. */
module TsClientEffects {
  import opened Wire
  import opened ByteStream
  import opened TsClient
  import StreamFrames

  // Routing

  /** A message is routed unless it is too short for an ID and a flag, and one that carries a whole
      frame is routed by that frame's ID and flag, with all that follows the ID passed on. */
  lemma RoutesFrames(message: Bytes)
    ensures Parse(message) == None <==> |message| < 5
    ensures StreamFrames.DecodeStreamFrame(message).Some? ==>
      var t := StreamFrames.DecodeStreamFrame(message).value;
      && Parse(message).Some? && Parse(message).value.id == t.streamId && Parse(message).value.env.flag == t.flag
      && [t.flag] + Parse(message).value.env.payload == t.envelope
  {
    if StreamFrames.DecodeStreamFrame(message).Some? {
      assert message[4..] == [message[4]] + message[5..];
    }
  }

  /** A frame for an unknown ID changes nothing. A reset takes the stream out and fails it. Any
      other frame is passed on to its stream, and no other stream notices. */
  lemma RoutedDoes(c: Client, f: Frame)
    requires f.id in c.entries ==> f.id in c.streams
    ensures f.id !in c.entries ==> Routed(c, f) == c
    ensures f.id in c.entries ==>
      var d, o, resets := Routed(c, f), c.streams[f.id], f.env.flag == FLAG_RESET;
      && d == c.(entries := d.entries, streams := d.streams) && d.streams.Keys == c.streams.Keys
      && d.entries == (if resets then c.entries - {f.id} else c.entries)
      && (forall n :: n in c.streams && n != f.id ==> d.streams[n] == c.streams[n])
      && d.streams[f.id]
         == if resets then Strm(o.sock, o.got, o.endSeen, true)
            else Strm(o.sock, o.got + [f.env], o.endSeen || f.env.flag == FLAG_END, o.failed)
  {}

  // Releasing and closing

  /** Releasing a stream of the map takes it out; an unfinished one is reset on the current
      socket if that is open; and the current socket is closed and forgotten exactly if the map is
      empty and the connection closes when idle. Releasing any other stream does nothing. */
  lemma ReleaseDoes(c: Client, n: nat)
    requires n in c.entries ==> n in c.streams
    ensures var d := Step(c, Release(n));
      var resets := n in c.entries && !c.streams[n].endSeen
                    && c.socket.Some? && c.socket.value < |c.sockets| && c.sockets[c.socket.value].state == Open;
      var idles := n in c.entries && c.closeWhenIdle && c.entries == {n} && c.socket.Some?;
      && d.entries == c.entries - {n} && d.streams == c.streams && d.opening == c.opening
      && d.wire == c.wire
           + (if resets then [Sent(c.socket.value, Frame(n % 0x1_0000_0000, Envelope(FLAG_RESET, [])))] else [])
      && d.socket == (if idles then None else c.socket) && |d.sockets| == |c.sockets|
      && forall k :: 0 <= k < |c.sockets| ==>
           d.sockets[k] == if idles && k == c.socket.value && c.sockets[k].state != Closed
                           then c.sockets[k].(state := Closing) else c.sockets[k]
  {}

  /** close() fails every stream of the map, empties it, closes the current socket and forgets it. */
  lemma CloseAllDoes(c: Client)
    ensures var d := Step(c, CloseAll);
      && d.entries == {} && d.socket == None && d.opening == c.opening && d.wire == c.wire
      && d.streams.Keys == c.streams.Keys && |d.sockets| == |c.sockets|
      && (forall n :: n in c.streams ==>
            d.streams[n] == c.streams[n].(failed := c.streams[n].failed || n in c.entries))
      && forall k :: 0 <= k < |c.sockets| ==>
           d.sockets[k] == if c.socket == Some(k) && c.sockets[k].state != Closed
                           then c.sockets[k].(state := Closing) else c.sockets[k]
  {}

  // The wire

  /** What the frames of an ID carry on the wire, resets apart. */
  function Carried(wire: seq<Sent>, id: StreamId): seq<Envelope> {
    if wire == [] then []
    else
      var x := wire[|wire| - 1];
      Carried(wire[..|wire| - 1], id)
      + (if x.frame.id == id && x.frame.env.flag != FLAG_RESET then [x.frame.env] else [])
  }

  lemma CarriedSnoc(wire: seq<Sent>, x: Sent, id: StreamId)
    ensures Carried(wire + [x], id)
         == Carried(wire, id) + (if x.frame.id == id && x.frame.env.flag != FLAG_RESET then [x.frame.env] else [])
  {
    assert (wire + [x])[..|wire|] == wire;
  }

  /** The envelopes a run hands to a stream's writer while the stream's socket is open. */
  ghost function Handed(c: Client, es: seq<Event>, n: nat): seq<Envelope>
    requires CanRun(c, es)
    decreases |es|
  {
    if es == [] then []
    else
      var goes := es[0].Send? && es[0].n == n
                  && c.streams[n].sock < |c.sockets| && c.sockets[c.streams[n].sock].state == Open;
      (if goes then [es[0].env] else [])
      + Handed(Step(c, es[0]), es[1..], n)
  }

  lemma NumbersGrow(c: Client, e: Event)
    requires CanStep(c, e)
    ensures c.nextStreamId <= Step(c, e).nextStreamId
  {
    hide AllFailed;
  }

  lemma {:induction false} NumbersGrowInRun(c: Client, es: seq<Event>)
    requires CanRun(c, es)
    ensures c.nextStreamId <= Run(c, es).nextStreamId
    decreases |es|
  {
    if es != [] {
      NumbersGrow(c, es[0]);
      hide Step, CanStep;
      NumbersGrowInRun(Step(c, es[0]), es[1..]);
    }
  }

  lemma SendCarries(c: Client, m: nat, env: Envelope, n: StreamId)
    requires Inv(c) && CanStep(c, Send(m, env)) && c.nextStreamId <= ID_LIMIT
    ensures var goes := m == n && c.streams[m].sock < |c.sockets| && c.sockets[c.streams[m].sock].state == Open;
      Carried(Step(c, Send(m, env)).wire, n) == Carried(c.wire, n) + (if goes then [env] else [])
  {
    assert SockOk(c, m);
    SmallIds(m);
    CarriedSnoc(c.wire, Sent(c.streams[m].sock, Frame(m, env)), n);
    hide Carried, Inv;
  }

  lemma QuietCarries(c: Client, e: Event, n: StreamId)
    requires CanStep(c, e) && !e.Send?
    ensures Carried(Step(c, e).wire, n) == Carried(c.wire, n)
  {
    hide Carried;
    if Step(c, e).wire != c.wire {
      WireGrows(c, e);
      CarriedSnoc(c.wire, Step(c, e).wire[|c.wire|], n);
    }
    hide Step, CanStep;
  }

  lemma {:induction false} RunCarries(c: Client, es: seq<Event>, n: StreamId)
    requires Inv(c) && CanRun(c, es) && Run(c, es).nextStreamId <= ID_LIMIT
    ensures Carried(Run(c, es).wire, n) == Carried(c.wire, n) + Handed(c, es, n)
    decreases |es|
  {
    if es != [] {
      var e, d := es[0], Step(c, es[0]);
      InvStep(c, e);
      NumbersGrowInRun(c, es);
      if e.Send? {
        SendCarries(c, e.n, e.env, n);
      } else {
        QuietCarries(c, e, n);
      }
      hide Step, Inv, Carried, CanStep;
      RunCarries(d, es[1..], n);
    }
  }

  /** However sockets come and go, and with fewer than 2^32 streams: the frames of an ID on the
      wire are, resets apart, exactly the envelopes handed to that stream's writer while its
      socket was open, whole and in order, and all of them went out on that socket. */
  lemma SentIsWhatWasHanded(closeWhenIdle: bool, es: seq<Event>, n: StreamId)
    requires CanRun(NoSockets(closeWhenIdle), es) && Run(NoSockets(closeWhenIdle), es).nextStreamId <= ID_LIMIT
    ensures var c := Run(NoSockets(closeWhenIdle), es);
      && Carried(c.wire, n) == Handed(NoSockets(closeWhenIdle), es, n)
      && forall x :: x in c.wire && x.frame.id == n && x.frame.env.flag != FLAG_RESET ==>
           n in c.streams && c.streams[n].sock == x.on
  {
    InvInit(closeWhenIdle);
    InvRun(NoSockets(closeWhenIdle), es);
    RunCarries(NoSockets(closeWhenIdle), es, n);
    var c := Run(NoSockets(closeWhenIdle), es);
    assert [] + Handed(NoSockets(closeWhenIdle), es, n) == Handed(NoSockets(closeWhenIdle), es, n);
    hide Run, CanRun, Carried, Handed;
    forall x | x in c.wire && x.frame.id == n && x.frame.env.flag != FLAG_RESET ensures n in c.streams && c.streams[n].sock == x.on {
      assert SentOk(c, x);
    }
  }
}
