/** The objects of the TypeScript client's shared connection, one method per method or event
    handler of `WebSocketMux`, proved against the steps of `TsClient`. */
module TsClientMux {
  import opened Wire
  import opened ByteStream
  import opened TsClient
  import StreamFrames

  class MuxStreamEntry {
    const id: nat
    const sock: nat              // the socket the stream's writer sends on
    var got: seq<Envelope>       // what its readable was fed
    var endSeen: bool
    var failed: bool

    function View(): Strm
      reads this
    {
      Strm(sock, got, endSeen, failed)
    }

    constructor (id: nat, sock: nat)
      ensures this.id == id && View() == Strm(sock, [], false, false)
    {
      this.id, this.sock := id, sock;
      got, endSeen, failed := [], false, false;
    }
  }

  class WebSocketMux {
    const closeWhenIdle: bool
    var socket: Option<nat>
    var opening: Option<nat>
    var nextStreamId: nat
    var entries: map<nat, MuxStreamEntry>
    var readables: map<nat, MuxStreamEntry>   // every stream handed out
    var sockets: seq<Socket>
    var wire: seq<Sent>

    ghost predicate Valid()
      reads this
    {
      && nextStreamId >= 1
      && (forall n :: n in readables ==> n < nextStreamId && readables[n].id == n)
      && (forall n :: n in entries ==> n in readables && readables[n] == entries[n])
    }

    function Strms(): map<nat, Strm>
      reads this`readables, readables.Values
    {
      map n | n in readables :: readables[n].View()
    }

    function View(): Client
      reads this, readables.Values
    {
      Client(closeWhenIdle, socket, opening, nextStreamId, entries.Keys, Strms(), sockets, wire)
    }

    constructor (closeWhenIdle: bool)
      ensures Valid() && View() == NoSockets(closeWhenIdle)
    {
      this.closeWhenIdle := closeWhenIdle;
      socket, opening, nextStreamId := None, None, 1;
      entries, readables, sockets, wire := map[], map[], [], [];
      new;
      assert Strms() == map[];
    }

    function IsOpenSocket(k: nat): bool
      reads this
    {
      k < |sockets| && sockets[k].state == Open
    }

    /** open(): the current socket if it is open, else the one on its way, else a new one. */
    method OpenSocket() returns (k: nat)
      requires Valid()
      modifies this
      ensures Valid() && readables == old(readables)
      ensures if old(socket.Some? && IsOpenSocket(socket.value)) then k == old(socket).value && View() == old(View())
              else if old(opening).Some? then k == old(opening).value && View() == old(View())
              else k == old(|sockets|) && View() == Step(old(View()), Dial)
                   && opening == Some(k) && sockets == old(sockets) + [Socket(Connecting, false, [])]
                   && socket == old(socket) && entries == old(entries)
    {
      if socket.Some? && IsOpenSocket(socket.value) {
        return socket.value;
      }
      if opening == None {
        opening := Some(|sockets|);
        sockets := sockets + [Socket(Connecting, false, [])];
      }
      return opening.value;
    }

    method OnOpen(k: nat)
      requires Valid() && k < |sockets| && sockets[k].state == Connecting
      modifies this
      ensures Valid() && View() == Step(old(View()), Event.OnOpen(k))
      ensures socket == Some(k) && opening == None && IsOpenSocket(k)
      ensures sockets == old(sockets)[k := Socket(Open, true, old(sockets)[k].heard)]
      ensures entries == old(entries) && wire == old(wire) && nextStreamId == old(nextStreamId)
    {
      sockets := sockets[k := sockets[k].(state := Open, wasOpen := true)];
      opening := None;
      socket := Some(k);
    }

    method OnError(k: nat)
      requires Valid() && k < |sockets| && sockets[k].state == Closing
      modifies this
      ensures Valid() && View() == Step(old(View()), Event.OnError(k))
      ensures opening == None && socket == old(socket) && sockets == old(sockets) && entries == old(entries)
    {
      opening := None;
    }

    method MarkFailed(live: set<MuxStreamEntry>)
      modifies live`failed
      ensures forall n :: n in live ==> n.failed
    {
      var todo := live;
      while todo != {}
        invariant todo <= live
        invariant forall n :: n in live && n !in todo ==> n.failed
        decreases |todo|
      {
        var n :| n in todo;
        n.failed := true;
        todo := todo - {n};
      }
    }

    lemma LiveReadables()
      requires Valid()
      ensures entries.Values <= readables.Values
      ensures forall n :: n in readables ==> (readables[n] in entries.Values <==> n in entries)
    {
      forall n | n in readables && readables[n] in entries.Values ensures n in entries {
        var m :| m in entries && entries[m] == readables[n];
      }
    }

    /** Fails every stream of the map, whatever its socket, and empties the map. */
    method FailEveryStream()
      requires Valid()
      modifies this`entries, readables.Values
      ensures Valid() && View() == FailAll(old(View())) && entries == map[]
      ensures forall n :: n in readables ==>
        var o := old(readables[n].View());
        readables[n].View() == Strm(o.sock, o.got, o.endSeen, o.failed || n in old(entries))
    {
      FailReadables();
      hide AllFailed;
      entries := map[];
    }

    method FailReadables()
      requires Valid()
      modifies readables.Values
      ensures Valid() && Strms() == AllFailed(old(View()))
      ensures forall n :: n in readables ==>
        var o := old(readables[n].View());
        readables[n].View() == Strm(o.sock, o.got, o.endSeen, o.failed || n in old(entries))
    {
      LiveReadables();
      ghost var before := View();
      MarkFailed(entries.Values);
      forall n | n in readables ensures readables[n].View() == AllFailed(before)[n] {
        assert before.streams[n] == old(readables[n].View());
      }
    }

    method OnClose(k: nat)
      requires Valid() && k < |sockets| && sockets[k].state == Closing
      modifies this, readables.Values
      ensures Valid() && View() == Step(old(View()), Event.OnClose(k)) && entries == map[] && opening == None
      ensures socket == (if old(socket) == Some(k) then None else old(socket)) && wire == old(wire)
      ensures sockets == old(sockets)[k := old(sockets)[k].(state := Closed)]
      ensures readables == old(readables) && forall n :: n in old(entries) ==> readables[n].failed
    {
      ghost var c := View();
      sockets := sockets[k := sockets[k].(state := Closed)];
      opening := None;
      if socket == Some(k) {
        socket := None;
      }
      ghost var d := SetState(c, k, Closed).(opening := None, socket := if c.socket == Some(k) then None else c.socket);
      assert View() == d;
      hide AllFailed, SetState;
      FailEveryStream();
      assert View() == FailAll(d);
    }

    /** The rest of openStream, once its socket is there. */
    method OpenStream(k: nat) returns (streamId: nat, readable: MuxStreamEntry)
      requires Valid() && k < |sockets| && sockets[k].wasOpen
      modifies this
      ensures Valid() && View() == Step(old(View()), Resume(k))
      ensures streamId == old(nextStreamId) && streamId !in old(readables)
      ensures readables == old(readables)[streamId := readable]
      ensures fresh(readable) && readable.View() == Strm(k, [], false, false)
      ensures nextStreamId == old(nextStreamId) + 1 && entries == old(entries)[streamId := readable]
      ensures wire == old(wire) && socket == old(socket) && sockets == old(sockets)
    {
      ghost var before := Strms();
      ResumeShape(View(), k);
      hide Step, CanStep;
      streamId := nextStreamId;
      nextStreamId := nextStreamId + 1;
      readable := new MuxStreamEntry(streamId, k);
      entries := entries[streamId := readable];
      readables := readables[streamId := readable];
      assert Strms() == before[streamId := Strm(k, [], false, false)];
    }

    /** An open socket takes the envelope as it is, under the number modulo 2^32; any other
        takes nothing. */
    method SendFrame(k: nat, n: nat, env: Envelope)
      requires Valid()
      modifies this`wire
      ensures Valid() && wire == SendOn(old(View()), k, n, env).wire
      ensures wire == old(wire)
        + (if k < |sockets| && sockets[k].state == Open then [Sent(k, Frame(n % 0x1_0000_0000, env))] else [])
    {
      if IsOpenSocket(k) {
        wire := wire + [Sent(k, Frame(WireId(n), env))];
      }
    }

    /** A write to the stream's writable goes to the socket the stream was opened on. */
    method Write(n: nat, env: Envelope)
      requires Valid() && n in readables && env.flag != FLAG_RESET
      modifies this`wire
      ensures Valid() && View() == Step(old(View()), Event.Send(n, env))
      ensures var k := readables[n].sock;
        wire == old(wire)
          + (if k < |sockets| && sockets[k].state == Open then [Sent(k, Frame(n % 0x1_0000_0000, env))] else [])
    {
      SendFrame(readables[n].sock, n, env);
    }

    /** Closing the writable half-closes the stream. */
    method HalfClose(n: nat)
      requires Valid() && n in readables
      modifies this`wire
      ensures Valid() && View() == Step(old(View()), Event.Send(n, Envelope(FLAG_END, [])))
    {
      Write(n, Envelope(FLAG_END, []));
    }

    method CloseSocketOf(k: nat)
      requires Valid()
      modifies this`sockets
      ensures Valid() && View() == CloseSocket(old(View()), k)
    {
      if k < |sockets| && sockets[k].state != Closed {
        sockets := sockets[k := sockets[k].(state := Closing)];
      }
    }

    /** Routes one message. */
    method Route(message: Bytes)
      requires Valid()
      modifies this, readables.Values
      ensures Valid() && readables == old(readables) && sockets == old(sockets)
      ensures View() == match Parse(message) case None => old(View()) case Some(f) => Routed(old(View()), f)
      ensures |message| < 5 || FromU32(message[..4]) !in old(entries) ==> View() == old(View())
    {
      if |message| < StreamFrames.ID_LEN + 1 {
        return;
      }
      var streamId, flag := FromU32(message[..4]), message[4];
      if streamId !in entries {
        return;
      }
      ghost var before := Strms();
      var entry := entries[streamId];
      if flag == FLAG_RESET {
        entries := entries - {streamId};
        entry.failed := true;
        assert Strms() == before[streamId := before[streamId].(failed := true)];
        return;
      }
      if flag == FLAG_END {
        entry.endSeen := true;
      }
      entry.got := entry.got + [Envelope(flag, message[5..])];
      assert Strms() == before[streamId := Fed(before[streamId], Envelope(flag, message[5..]))];
    }

    method CloseIdleSocket()
      requires Valid()
      modifies this`socket, this`sockets
      ensures Valid() && View() == CloseIfIdle(old(View()))
    {
      if closeWhenIdle && entries == map[] && socket.Some? {
        CloseSocketOf(socket.value);
        socket := None;
      }
    }

    /** Releases a stream: at most one reset, and the idle connection closed if so configured. */
    method CloseStream(n: nat)
      requires Valid()
      modifies this
      ensures Valid() && View() == Step(old(View()), Release(n))
    {
      ghost var c := View();
      if n !in entries {
        return;
      }
      var entry := entries[n];
      assert c.streams[n] == entry.View();
      entries := entries - {n};
      ghost var d := c.(entries := c.entries - {n});
      assert View() == d;
      if !entry.endSeen && socket.Some? && IsOpenSocket(socket.value) {
        SendFrame(socket.value, n, RESET);
      }
      assert View() == if !c.streams[n].endSeen && c.socket.Some? then SendOn(d, c.socket.value, n, RESET) else d;
      hide SendOn, CloseIfIdle;
      CloseIdleSocket();
    }

    method Close()
      requires Valid()
      modifies this, readables.Values
      ensures Valid() && View() == Step(old(View()), CloseAll)
    {
      ghost var c := View();
      var current := socket;
      socket := None;
      FailEveryStream();
      ghost var d := FailAll(c.(socket := None));
      assert View() == d;
      assert Step(c, CloseAll) == if c.socket.Some? then CloseSocket(d, c.socket.value) else d;
      hide FailAll, AllFailed, Step, CanStep;
      if current.Some? {
        CloseSocketOf(current.value);
      }
    }
  }
}
