/** What a client writes for one stream, whatever order its calls come in. */
module RpcGrammar {
  import opened Wire
  import opened Rpc
  import opened RpcClient

  datatype Call = SendHeaders | Send(m: Msg) | CloseSend | Receive | Close

  function Called(cfg: ClientCfg, s: ClientState, c: Call): ClientState {
    match c
    case SendHeaders => DoSendHeaders(cfg, s)
    case Send(m) => DoSend(cfg, s, m).1
    case CloseSend => DoCloseSend(s).1
    case Receive => DoReceive(cfg, s).1
    case Close => DoClose(s)
  }

  function AllCalled(cfg: ClientCfg, s: ClientState, calls: seq<Call>): ClientState {
    if calls == [] then s
    else Called(cfg, AllCalled(cfg, s, calls[..|calls| - 1]), calls[|calls| - 1])
  }

  // The grammar: headers (data | compressed)* [end-stream reset*]

  datatype Place = Empty | Body | Ended | Bad

  function Advance(at: Place, flag: byte): Place {
    match at
    case Empty => if flag == FLAG_HEADERS then Body else Bad
    case Body => if flag == FLAG_DATA || flag == FLAG_COMPRESSED then Body else if flag == FLAG_END then Ended else Bad
    case Ended => if flag == FLAG_RESET then Ended else Bad
    case Bad => Bad
  }

  function Scan(w: seq<Envelope>): Place {
    if w == [] then Empty else Advance(Scan(w[..|w| - 1]), w[|w| - 1].flag)
  }

  lemma ScanSnoc(w: seq<Envelope>, env: Envelope)
    ensures Scan(w + [env]) == Advance(Scan(w), env.flag)
  {
    assert (w + [env])[..|w|] == w;
  }

  /** Headers, then messages, for the first k envelopes. */
  predicate Opens(w: seq<Envelope>, k: nat) {
    && 1 <= k <= |w| && w[0].flag == FLAG_HEADERS
    && forall i :: 1 <= i < k ==> w[i].flag == FLAG_DATA || w[i].flag == FLAG_COMPRESSED
  }

  /** And then, if there is more, one end-stream and nothing but resets. */
  predicate Closes(w: seq<Envelope>, k: nat) {
    k < |w| && w[k].flag == FLAG_END && forall i :: k < i < |w| ==> w[i].flag == FLAG_RESET
  }

  lemma PlaceSnoc(w: seq<Envelope>, env: Envelope)
    ensures forall k: nat :: k <= |w| ==> (Opens(w + [env], k) <==> Opens(w, k))
    ensures Opens(w + [env], |w| + 1) <==>
      if w == [] then env.flag == FLAG_HEADERS else Opens(w, |w|) && (env.flag == FLAG_DATA || env.flag == FLAG_COMPRESSED)
    ensures forall k: nat :: k < |w| ==> (Closes(w + [env], k) <==> Closes(w, k) && env.flag == FLAG_RESET)
    ensures Closes(w + [env], |w|) <==> env.flag == FLAG_END
  {
    var more := w + [env];
    assert forall i :: 0 <= i < |w| ==> more[i] == w[i];
    assert more[|w|] == env;
  }

  /** What the scan accepts, spelled out. */
  lemma {:induction false} ScanAccepts(w: seq<Envelope>)
    ensures Scan(w) == Empty <==> w == []
    ensures Scan(w) == Body <==> Opens(w, |w|)
    ensures Scan(w) == Ended <==> exists k :: Opens(w, k) && Closes(w, k)
  {
    if w != [] {
      var before, env := w[..|w| - 1], w[|w| - 1];
      ScanAccepts(before);
      PlaceSnoc(before, env);
      assert before + [env] == w;
      if Scan(w) == Ended && env.flag == FLAG_RESET {
        var k :| Opens(before, k) && Closes(before, k);
        assert Opens(w, k) && Closes(w, k);
      }
      if Scan(w) == Ended && env.flag == FLAG_END {
        assert Opens(w, |before|) && Closes(w, |before|);
      }
      hide Opens, Closes, Scan;
    }
  }

  // The discipline: headers before the half-close, and no message between half-close and Close

  datatype Order = Order(headers: bool, closed: bool, released: bool, ok: bool)

  function Ordered(cfg: ClientCfg, calls: seq<Call>): Order {
    if calls == [] then Order(false, false, false, true)
    else
      var o := Ordered(cfg, calls[..|calls| - 1]);
      match calls[|calls| - 1]
      case SendHeaders => o.(headers := true)
      case Receive => o.(headers := true)
      case Send(m) => o.(headers := true, ok := o.ok && !(o.closed && !o.released && Pack(cfg, m).Ready?))
      case CloseSend => o.(closed := true, ok := o.ok && o.headers)
      case Close => o.(closed := true, released := true, ok := o.ok && o.headers)
  }

  /** Where the frames stand after calls in good order, as long as no write has failed. */
  predicate Settled(s: ClientState, o: Order) {
    && s.headersSent == o.headers && s.closeSent == o.closed && s.conn.closed == o.released
    && (o.released ==> o.closed) && (o.closed ==> o.headers)
    && Scan(s.conn.written) != Bad
    && (s.conn.budget > 0 ==>
          Scan(s.conn.written) == if o.closed then Ended else if o.headers then Body else Empty)
    && (s.conn.budget > 0 ==> s.headersErr == None)
  }

  lemma WriteScan(c: ConnState, env: Envelope)
    ensures var (err, d) := WriteEnv(c, env);
      && (err == None ==> Scan(d.written) == Advance(Scan(c.written), env.flag))
      && (err != None ==> d == c && (c.closed || c.budget == 0))
      && d.closed == c.closed && d.budget <= c.budget <= d.budget + 1
  {
    ScanSnoc(c.written, env);
  }

  lemma PackFlag(cfg: ClientCfg, m: Msg)
    ensures Pack(cfg, m).Ready? ==> Pack(cfg, m).env.flag == FLAG_DATA || Pack(cfg, m).env.flag == FLAG_COMPRESSED
  {}

  /** t differs from s by reading only. */
  predicate OnlyReads(s: ClientState, t: ClientState) {
    && t.headersSent == s.headersSent && t.headersErr == s.headersErr && t.closeSent == s.closeSent
    && t.conn.written == s.conn.written && t.conn.budget == s.conn.budget && t.conn.closed == s.conn.closed
    && t.conn.dedicated == s.conn.dedicated
  }

  lemma RecvHeadersReads(cfg: ClientCfg, s: ClientState)
    ensures OnlyReads(s, DoRecvHeaders(cfg, s))
  {
    hide Surfaced;
    if !s.headersRead {
      ReadKeepsWritten(s.conn);
      hide ReadEnv;
    }
  }

  lemma ReadKeepsWritten(c: ConnState)
    ensures var d := ReadEnv(c).1;
      d.written == c.written && d.closed == c.closed && d.budget == c.budget && d.dedicated == c.dedicated
  {}

  lemma EndReads(cfg: ClientCfg, s: ClientState, payload: Bytes)
    ensures OnlyReads(s, EndOf(cfg, s, payload).1) && EndOf(cfg, s, payload).1.conn == s.conn
  {}

  lemma UnaryEndReads(cfg: ClientCfg, s: ClientState)
    ensures OnlyReads(s, DoUnaryEnd(cfg, s).1)
    ensures DoUnaryEnd(cfg, s).1.conn == ReadEnv(s.conn).1
  {
    var (r, conn) := ReadEnv(s.conn);
    if r.Got? {
      EndReads(cfg, s.(conn := conn), r.env.payload);
    }
    hide EndOf;
  }

  /** What is left of a body read once its first envelope is in hand. */
  lemma BodyReads(cfg: ClientCfg, s: ClientState)
    ensures OnlyReads(s, DoReceiveBody(cfg, s).1)
    ensures var c := DoReceiveBody(cfg, s).1.conn; c == ReadEnv(s.conn).1 || c == ReadEnv(ReadEnv(s.conn).1).1
  {
    var (r, conn) := ReadEnv(s.conn);
    var t := s.(conn := conn);
    assert OnlyReads(s, t);
    UnaryEndReads(cfg, t);
    if r.Got? {
      EndReads(cfg, t, r.env.payload);
    }
    hide EndOf, Unpack, DoUnaryEnd, ReadEnv;
  }

  /** Receiving writes the request headers at most. */
  lemma ReceiveWrites(cfg: ClientCfg, s: ClientState)
    ensures OnlyReads(DoSendHeaders(cfg, s), DoReceive(cfg, s).1)
  {
    var t := DoSendHeaders(cfg, s);
    RecvHeadersReads(cfg, t);
    BodyReads(cfg, DoRecvHeaders(cfg, t));
    hide DoSendHeaders, DoRecvHeaders, DoReceiveBody;
  }

  lemma SettledHeaders(cfg: ClientCfg, s: ClientState, o: Order)
    requires Settled(s, o) && o.ok
    ensures Settled(DoSendHeaders(cfg, s), o.(headers := true))
    ensures DoSendHeaders(cfg, s).conn.budget + 1 >= s.conn.budget
  {
    WriteScan(s.conn, RequestHeaders(cfg));
  }

  lemma SettledSend(cfg: ClientCfg, s: ClientState, o: Order, m: Msg)
    requires Settled(s, o) && o.ok && !(o.closed && !o.released && Pack(cfg, m).Ready?)
    ensures Settled(DoSend(cfg, s, m).1, o.(headers := true))
  {
    SettledHeaders(cfg, s, o);
    var t := DoSendHeaders(cfg, s);
    PackFlag(cfg, m);
    hide Pack, DoSendHeaders;
    if Pack(cfg, m).Ready? {
      WriteScan(t.conn, Pack(cfg, m).env);
    }
  }

  lemma SettledClose(s: ClientState, o: Order)
    requires Settled(s, o) && o.ok && o.headers
    ensures Settled(DoCloseSend(s).1, o.(closed := true))
  {
    WriteScan(s.conn, Envelope(FLAG_END, []));
  }

  lemma SettledRelease(s: ClientState, o: Order)
    requires Settled(s, o) && o.ok && o.headers
    ensures Settled(DoClose(s), o.(closed := true, released := true))
  {
    SettledClose(s, o);
    var t := DoCloseSend(s).1;
    hide DoCloseSend;
    ScanSnoc(t.conn.written, RESET);
  }

  lemma SettledReceive(cfg: ClientCfg, s: ClientState, o: Order)
    requires Settled(s, o) && o.ok
    ensures Settled(DoReceive(cfg, s).1, o.(headers := true))
  {
    SettledHeaders(cfg, s, o);
    ReceiveWrites(cfg, s);
    hide DoReceive, DoSendHeaders;
  }

  lemma SettledStep(cfg: ClientCfg, s: ClientState, o: Order, calls: seq<Call>)
    requires calls != [] && o == Ordered(cfg, calls[..|calls| - 1]) && Ordered(cfg, calls).ok && Settled(s, o)
    ensures Settled(Called(cfg, s, calls[|calls| - 1]), Ordered(cfg, calls))
  {
    hide DoReceive, DoSendHeaders, DoSend, DoClose, DoCloseSend, Settled;
    match calls[|calls| - 1]
    case SendHeaders => SettledHeaders(cfg, s, o);
    case Receive => SettledReceive(cfg, s, o);
    case Send(m) => SettledSend(cfg, s, o, m);
    case CloseSend => SettledClose(s, o);
    case Close => SettledRelease(s, o);
  }

  predicate Untouched(c: ConnState) {
    !c.closed && c.written == [] && !c.rxEnd
  }

  /** In good order the frames are headers once, messages, at most one end-stream, then only
      resets, or, on a connection that fails, the beginning of such a word. */
  lemma {:induction false} RequestGrammar(cfg: ClientCfg, conn: ConnState, calls: seq<Call>)
    requires Untouched(conn) && Ordered(cfg, calls).ok
    ensures Settled(AllCalled(cfg, Fresh(conn), calls), Ordered(cfg, calls))
  {
    if calls != [] {
      var before := calls[..|calls| - 1];
      RequestGrammar(cfg, conn, before);
      SettledStep(cfg, AllCalled(cfg, Fresh(conn), before), Ordered(cfg, before), calls);
    }
  }

  // The order is also necessary

  lemma BudgetOfCall(cfg: ClientCfg, s: ClientState, c: Call)
    ensures Called(cfg, s, c).conn.budget + 2 >= s.conn.budget
    ensures Called(cfg, s, c).conn.dedicated == s.conn.dedicated
  {
    match c
    case SendHeaders => BudgetOfHeaders(cfg, s);
    case Receive =>
      BudgetOfHeaders(cfg, s);
      ReceiveWrites(cfg, s);
      hide DoReceive, DoSendHeaders;
    case Send(m) => BudgetOfSend(cfg, s, m);
    case CloseSend => BudgetOfCloseSend(s);
    case Close =>
      BudgetOfCloseSend(s);
      hide DoCloseSend;
  }

  lemma BudgetOfHeaders(cfg: ClientCfg, s: ClientState)
    ensures DoSendHeaders(cfg, s).conn.budget + 1 >= s.conn.budget
    ensures DoSendHeaders(cfg, s).conn.dedicated == s.conn.dedicated
  {
    hide RequestHeaders;
  }

  lemma BudgetOfSend(cfg: ClientCfg, s: ClientState, m: Msg)
    ensures DoSend(cfg, s, m).1.conn.budget + 2 >= s.conn.budget
    ensures DoSend(cfg, s, m).1.conn.dedicated == s.conn.dedicated
  {
    BudgetOfHeaders(cfg, s);
    hide Pack, DoSendHeaders;
  }

  lemma BudgetOfCloseSend(s: ClientState)
    ensures DoCloseSend(s).1.conn.budget + 1 >= s.conn.budget
    ensures DoCloseSend(s).1.conn.dedicated == s.conn.dedicated
  {}

  /** Nothing repairs a word that is not of the grammar. */
  lemma BadStaysBad(cfg: ClientCfg, s: ClientState, c: Call)
    requires Scan(s.conn.written) == Bad
    ensures Scan(Called(cfg, s, c).conn.written) == Bad
  {
    hide Scan, Surfaced;
    match c
    case SendHeaders => BadHeaders(cfg, s);
    case Receive =>
      BadHeaders(cfg, s);
      ReceiveWrites(cfg, s);
      hide DoReceive, DoSendHeaders;
    case Send(m) => BadSend(cfg, s, m);
    case CloseSend => BadCloseSend(s);
    case Close =>
      BadCloseSend(s);
      hide DoCloseSend;
      ScanSnoc(DoCloseSend(s).1.conn.written, RESET);
  }

  lemma BadHeaders(cfg: ClientCfg, s: ClientState)
    requires Scan(s.conn.written) == Bad
    ensures Scan(DoSendHeaders(cfg, s).conn.written) == Bad
  {
    WriteScan(s.conn, RequestHeaders(cfg));
    hide Scan, RequestHeaders;
  }

  lemma BadSend(cfg: ClientCfg, s: ClientState, m: Msg)
    requires Scan(s.conn.written) == Bad
    ensures Scan(DoSend(cfg, s, m).1.conn.written) == Bad
  {
    BadHeaders(cfg, s);
    var t := DoSendHeaders(cfg, s);
    hide Scan, Pack, DoSendHeaders;
    if Pack(cfg, m).Ready? {
      WriteScan(t.conn, Pack(cfg, m).env);
    }
  }

  lemma BadCloseSend(s: ClientState)
    requires Scan(s.conn.written) == Bad
    ensures Scan(DoCloseSend(s).1.conn.written) == Bad
  {
    WriteScan(s.conn, Envelope(FLAG_END, []));
    hide Scan;
  }

  lemma DisorderShows(cfg: ClientCfg, s: ClientState, o: Order, calls: seq<Call>)
    requires calls != [] && o == Ordered(cfg, calls[..|calls| - 1]) && o.ok && !Ordered(cfg, calls).ok
    requires Settled(s, o) && s.conn.budget >= 2
    ensures Scan(Called(cfg, s, calls[|calls| - 1]).conn.written) == Bad
  {
    match calls[|calls| - 1]
    case Send(m) =>
      assert DoSendHeaders(cfg, s) == s;
      PackFlag(cfg, m);
      WriteScan(s.conn, Pack(cfg, m).env);
    case CloseSend => WriteScan(s.conn, Envelope(FLAG_END, []));
    case Close =>
      WriteScan(s.conn, Envelope(FLAG_END, []));
      ScanSnoc(DoCloseSend(s).1.conn.written, RESET);
  }

  lemma {:induction false} Exactly(cfg: ClientCfg, conn: ConnState, calls: seq<Call>)
    requires Untouched(conn) && conn.budget >= 2 * |calls|
    ensures var s := AllCalled(cfg, Fresh(conn), calls);
      && s.conn.budget + 2 * |calls| >= conn.budget
      && (!Ordered(cfg, calls).ok ==> Scan(s.conn.written) == Bad)
  {
    if calls != [] {
      var before, last := calls[..|calls| - 1], calls[|calls| - 1];
      var s := AllCalled(cfg, Fresh(conn), before);
      Exactly(cfg, conn, before);
      BudgetOfCall(cfg, s, last);
      if !Ordered(cfg, before).ok {
        BadStaysBad(cfg, s, last);
      } else if !Ordered(cfg, calls).ok {
        RequestGrammar(cfg, conn, before);
        DisorderShows(cfg, s, Ordered(cfg, before), calls);
      }
    }
  }

  /** With a working connection, the frames of a stream form a word of the grammar if and only
      if the caller flushed the headers before half-closing and sent no message between the
      half-close and Close. */
  lemma GrammarIffOrdered(cfg: ClientCfg, conn: ConnState, calls: seq<Call>)
    requires Untouched(conn) && conn.budget >= 2 * |calls|
    ensures Scan(AllCalled(cfg, Fresh(conn), calls).conn.written) != Bad <==> Ordered(cfg, calls).ok
  {
    Exactly(cfg, conn, calls);
    if Ordered(cfg, calls).ok {
      RequestGrammar(cfg, conn, calls);
    }
  }

  // Resets

  predicate AnyEnd(rs: seq<ReadResult>) {
    exists i :: 0 <= i < |rs| && rs[i].Got? && rs[i].env.flag == FLAG_END
  }

  /** How far the connection has been read, and whether an end-stream was among it. */
  predicate ReadOff(all: seq<ReadResult>, c: ConnState) {
    && |c.inbound| <= |all| && c.inbound == all[|all| - |c.inbound|..]
    && (c.rxEnd <==> AnyEnd(all[..|all| - |c.inbound|]))
  }

  lemma ReadOffRead(all: seq<ReadResult>, c: ConnState)
    requires ReadOff(all, c)
    ensures ReadOff(all, ReadEnv(c).1)
  {
    if c.inbound != [] {
      var n := |all| - |c.inbound|;
      assert all[..n + 1] == all[..n] + [all[n]] && c.inbound[0] == all[n];
      assert c.inbound[1..] == all[n + 1..];
      if AnyEnd(all[..n]) {
        var i :| 0 <= i < n && all[..n][i].Got? && all[..n][i].env.flag == FLAG_END;
        assert all[..n + 1][i] == all[..n][i];
      }
      if all[n].Got? && all[n].env.flag == FLAG_END {
        assert all[..n + 1][n] == all[n];
      }
    }
  }

  lemma ReadOffBody(cfg: ClientCfg, all: seq<ReadResult>, s: ClientState)
    requires ReadOff(all, s.conn)
    ensures ReadOff(all, DoReceiveBody(cfg, s).1.conn)
  {
    ReadOffRead(all, s.conn);
    ReadOffRead(all, ReadEnv(s.conn).1);
    BodyReads(cfg, s);
    hide ReadOff, DoReceiveBody, ReadEnv;
  }

  lemma ReadOffHeaders(cfg: ClientCfg, all: seq<ReadResult>, s: ClientState)
    requires ReadOff(all, s.conn)
    ensures ReadOff(all, DoSendHeaders(cfg, s).conn) && ReadOff(all, DoRecvHeaders(cfg, s).conn)
  {
    hide Surfaced;
    ReadOffRead(all, s.conn);
    hide ReadOff;
  }

  lemma ReadOffReceive(cfg: ClientCfg, all: seq<ReadResult>, s: ClientState)
    requires ReadOff(all, s.conn)
    ensures ReadOff(all, DoReceive(cfg, s).1.conn)
  {
    var t := DoSendHeaders(cfg, s);
    var u := DoRecvHeaders(cfg, t);
    ReadOffHeaders(cfg, all, s);
    ReadOffHeaders(cfg, all, t);
    ReadOffBody(cfg, all, u);
    hide ReadOff, DoReceiveBody, DoRecvHeaders, DoSendHeaders;
  }

  predicate SameInput(c: ConnState, d: ConnState) {
    d.inbound == c.inbound && d.rxEnd == c.rxEnd
  }

  lemma SendKeepsInput(cfg: ClientCfg, s: ClientState, m: Msg)
    ensures SameInput(s.conn, DoSendHeaders(cfg, s).conn) && SameInput(s.conn, DoSend(cfg, s, m).1.conn)
  {
    hide Pack, RequestHeaders;
  }

  lemma CloseKeepsInput(s: ClientState)
    ensures SameInput(s.conn, DoCloseSend(s).1.conn) && SameInput(s.conn, DoClose(s).conn)
  {}

  lemma ReadOffCall(cfg: ClientCfg, all: seq<ReadResult>, s: ClientState, c: Call)
    requires ReadOff(all, s.conn)
    ensures ReadOff(all, Called(cfg, s, c).conn)
  {
    CloseKeepsInput(s);
    SendKeepsInput(cfg, s, if c.Send? then c.m else []);
    if c == Receive {
      ReadOffReceive(cfg, all, s);
    }
    hide DoReceive, DoSend, DoSendHeaders, DoClose, DoCloseSend, AnyEnd;
  }

  lemma {:induction false} ReadOffCalls(cfg: ClientCfg, conn: ConnState, calls: seq<Call>)
    requires Untouched(conn)
    ensures ReadOff(conn.inbound, AllCalled(cfg, Fresh(conn), calls).conn)
  {
    if calls != [] {
      var before := calls[..|calls| - 1];
      ReadOffCalls(cfg, conn, before);
      ReadOffCall(cfg, conn.inbound, AllCalled(cfg, Fresh(conn), before), calls[|calls| - 1]);
    }
  }

  lemma {:induction false} DedicatedStays(cfg: ClientCfg, conn: ConnState, calls: seq<Call>)
    ensures AllCalled(cfg, Fresh(conn), calls).conn.dedicated == conn.dedicated
  {
    if calls != [] {
      var before := calls[..|calls| - 1];
      DedicatedStays(cfg, conn, before);
      BudgetOfCall(cfg, AllCalled(cfg, Fresh(conn), before), calls[|calls| - 1]);
      hide Called;
    }
  }

  /** Closing a stream on a working shared connection ends its frames with a reset exactly when
      no end-stream has been read; on a dedicated one it never adds any. */
  lemma CloseResetsUnfinished(cfg: ClientCfg, conn: ConnState, calls: seq<Call>)
    requires Untouched(conn) && conn.budget >= 2 * |calls| + 2
    ensures var s := AllCalled(cfg, Fresh(conn), calls);
      && |s.conn.inbound| <= |conn.inbound|
      && DoClose(s).conn.written == DoCloseSend(s).1.conn.written
           + (if conn.dedicated || AnyEnd(conn.inbound[..|conn.inbound| - |s.conn.inbound|]) then [] else [RESET])
  {
    Exactly(cfg, conn, calls);
    ReadOffCalls(cfg, conn, calls);
    DedicatedStays(cfg, conn, calls);
    hide AllCalled, Scan, Ordered;
  }
}
