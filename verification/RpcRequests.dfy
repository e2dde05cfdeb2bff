/** The request direction as a whole: what a client's calls framed is what the procedure's
    successive Receives return. */
module RpcRequests {
  import opened Wire
  import opened Rpc
  import opened RpcServer
  import opened RpcClient
  import opened RpcGrammar
  import opened RpcRoundTrip

  /** The messages that became envelopes: sent before the half-close, and packed. */
  function Framed(cfg: ClientCfg, calls: seq<Call>): seq<Msg> {
    if calls == [] then []
    else
      var before, last := calls[..|calls| - 1], calls[|calls| - 1];
      Framed(cfg, before)
      + (if last.Send? && !Ordered(cfg, before).closed && Pack(cfg, last.m).Ready? then [last.m] else [])
  }

  function Packs(cfg: ClientCfg, ms: seq<Msg>): seq<Envelope> {
    if ms == [] then []
    else
      var p := Pack(cfg, ms[0]);
      (if p.Ready? then [p.env] else []) + Packs(cfg, ms[1..])
  }

  lemma {:induction false} PacksSnoc(cfg: ClientCfg, ms: seq<Msg>, m: Msg)
    ensures Packs(cfg, ms + [m]) == Packs(cfg, ms) + (if Pack(cfg, m).Ready? then [Pack(cfg, m).env] else [])
  {
    hide Pack;
    if ms == [] {
      assert ms + [m] == [m] && [m][1..] == [];
      assert Packs(cfg, []) == [];
    } else {
      assert (ms + [m])[1..] == ms[1..] + [m];
      PacksSnoc(cfg, ms[1..], m);
    }
  }

  const HALF_CLOSE := Envelope(FLAG_END, [])

  /** The frames of calls in good order, up to the resets that may follow. */
  function Word(cfg: ClientCfg, o: Order, ms: seq<Msg>): seq<Envelope> {
    (if o.headers then [RequestHeaders(cfg)] else []) + Packs(cfg, ms) + (if o.closed then [HALF_CLOSE] else [])
  }

  predicate AllResets(es: seq<Envelope>) {
    forall i :: 0 <= i < |es| ==> es[i] == RESET
  }

  /** The stream has written that word, and resets only once it was released. */
  predicate Tells(cfg: ClientCfg, s: ClientState, o: Order, ms: seq<Msg>) {
    && (!o.headers ==> ms == [] && !o.closed)
    && (o.released ==> o.closed)
    && Word(cfg, o, ms) <= s.conn.written
    && AllResets(s.conn.written[|Word(cfg, o, ms)|..])
    && (!o.released ==> s.conn.written == Word(cfg, o, ms))
  }

  lemma HeadersTell(cfg: ClientCfg, s: ClientState, o: Order, ms: seq<Msg>)
    requires Settled(s, o) && Tells(cfg, s, o, ms) && s.conn.budget >= 1
    ensures var t := DoSendHeaders(cfg, s);
      Tells(cfg, t, o.(headers := true), ms) && t.conn.closed == s.conn.closed && t.headersErr == None
    ensures DoSendHeaders(cfg, s).conn.budget + 1 >= s.conn.budget
  {
    hide RequestHeaders, Scan;
    assert Packs(cfg, []) == [];
  }

  lemma MessageTells(cfg: ClientCfg, t: ClientState, o: Order, ms: seq<Msg>, m: Msg)
    requires Tells(cfg, t, o, ms) && o.headers && !o.closed && t.conn.budget >= 1 && !t.conn.closed && Pack(cfg, m).Ready?
    ensures Tells(cfg, t.(conn := WriteEnv(t.conn, Pack(cfg, m).env).1), o, ms + [m])
  {
    PacksSnoc(cfg, ms, m);
    hide Pack, Packs, RequestHeaders;
  }

  lemma SendTells(cfg: ClientCfg, s: ClientState, o: Order, ms: seq<Msg>, m: Msg)
    requires Settled(s, o) && Tells(cfg, s, o, ms) && s.conn.budget >= 2
    requires !(o.closed && !o.released && Pack(cfg, m).Ready?)
    ensures Tells(cfg, DoSend(cfg, s, m).1, o.(headers := true),
                  ms + (if !o.closed && Pack(cfg, m).Ready? then [m] else []))
  {
    HeadersTell(cfg, s, o, ms);
    var t := DoSendHeaders(cfg, s);
    assert ms + [] == ms;
    if Pack(cfg, m).Ready? && !o.closed {
      assert !t.conn.closed;
      hide Pack, DoSendHeaders, Tells, Settled;
      MessageTells(cfg, t, o.(headers := true), ms, m);
    } else {
      hide Pack, DoSendHeaders, Word;
    }
  }

  lemma CloseSendTells(cfg: ClientCfg, s: ClientState, o: Order, ms: seq<Msg>)
    requires Settled(s, o) && Tells(cfg, s, o, ms) && o.headers && s.conn.budget >= 2
    ensures Tells(cfg, DoCloseSend(s).1, o.(closed := true), ms)
    ensures DoCloseSend(s).1.conn.closed == s.conn.closed && DoCloseSend(s).1.conn.budget >= 1
  {
    hide Packs, RequestHeaders, Scan;
  }

  lemma ReleaseTells(cfg: ClientCfg, t: ClientState, o: Order, ms: seq<Msg>)
    requires Tells(cfg, t, o, ms) && o.closed
    ensures Tells(cfg, t.(conn := CloseConn(t.conn)), o.(released := true), ms)
  {
    hide Packs, RequestHeaders;
    assert Word(cfg, o.(released := true), ms) == Word(cfg, o, ms);
    hide Word;
  }

  lemma CallTells(cfg: ClientCfg, s: ClientState, o: Order, ms: seq<Msg>, calls: seq<Call>)
    requires calls != [] && o == Ordered(cfg, calls[..|calls| - 1]) && ms == Framed(cfg, calls[..|calls| - 1])
    requires Ordered(cfg, calls).ok && Settled(s, o) && Tells(cfg, s, o, ms) && s.conn.budget >= 2
    ensures Tells(cfg, Called(cfg, s, calls[|calls| - 1]), Ordered(cfg, calls), Framed(cfg, calls))
  {
    assert ms + [] == ms;
    match calls[|calls| - 1]
    case SendHeaders => hide Tells, DoSendHeaders, Settled; HeadersTell(cfg, s, o, ms);
    case Receive =>
      HeadersTell(cfg, s, o, ms);
      ReceiveWrites(cfg, s);
      hide DoReceive, DoSendHeaders, Word, Settled;
    case Send(m) => hide Tells, DoSend, Settled, Pack; SendTells(cfg, s, o, ms, m);
    case CloseSend => hide Tells, DoCloseSend, Settled; CloseSendTells(cfg, s, o, ms);
    case Close =>
      hide Tells, DoCloseSend, Settled;
      CloseSendTells(cfg, s, o, ms);
      ReleaseTells(cfg, DoCloseSend(s).1, o.(closed := true), ms);
  }

  /** On a working connection calls in good order write exactly the headers, the messages they
      framed, the half-close and resets. */
  lemma {:induction false} CallsTell(cfg: ClientCfg, conn: ConnState, calls: seq<Call>)
    requires Untouched(conn) && conn.budget >= 2 * |calls| && Ordered(cfg, calls).ok
    ensures Tells(cfg, AllCalled(cfg, Fresh(conn), calls), Ordered(cfg, calls), Framed(cfg, calls))
  {
    if calls != [] {
      var before := calls[..|calls| - 1];
      RequestGrammar(cfg, conn, before);
      Exactly(cfg, conn, before);
      CallsTell(cfg, conn, before);
      hide Tells, Called, Settled, Scan;
      CallTells(cfg, AllCalled(cfg, Fresh(conn), before), Ordered(cfg, before), Framed(cfg, before), calls);
    }
  }

  // The procedure's side

  /** n calls of the procedure's Receive. */
  function Takes(v: ServerCfg, req: Header, conn: ConnState, n: nat): (rs: seq<(Option<Msg>, Option<Error>)>)
    ensures |rs| == n
    decreases n
  {
    if n == 0 then []
    else
      var (r, d) := ReadEnv(conn);
      [Decoded(v, req, r)] + Takes(v, req, d, n - 1)
  }

  function Taken(ms: seq<Msg>): seq<(Option<Msg>, Option<Error>)> {
    seq(|ms|, i requires 0 <= i < |ms| => (Some(ms[i]), None))
  }

  lemma DecodedTells(v: ServerCfg, req: Header, r: ReadResult)
    ensures var (m, err) := Decoded(v, req, r);
      && (m == None <==> err.Some?)
      && (err == Some(Eof) <==> r == Failed(Eof) || (r.Got? && r.env.flag == FLAG_END))
      && (r.Failed? ==> err == Some(r.err))
      && (m.Some? ==> r.Got? && (r.env.flag == FLAG_DATA || r.env.flag == FLAG_COMPRESSED))
  {}

  /** Over a whole stream: if the procedure has received n messages and then EOF, the connection
      had carried exactly n message envelopes and then the half-close: an end-stream envelope,
      or its own EOF. A connection that broke never looks like a complete request. */
  lemma {:induction false} RequestEofMeansComplete(v: ServerCfg, req: Header, conn: ConnState, n: nat,
                                                   rs: seq<(Option<Msg>, Option<Error>)>)
    requires rs == Takes(v, req, conn, n + 1) && rs[n].1 == Some(Eof)
    requires forall i :: 0 <= i < n ==> rs[i].0.Some?
    ensures n <= |conn.inbound|
    ensures forall i :: 0 <= i < n ==>
      conn.inbound[i].Got? && (conn.inbound[i].env.flag == FLAG_DATA || conn.inbound[i].env.flag == FLAG_COMPRESSED)
    ensures if n == |conn.inbound| then conn.last == Eof
            else conn.inbound[n] == Failed(Eof) || (conn.inbound[n].Got? && conn.inbound[n].env.flag == FLAG_END)
    decreases n
  {
    var (r, d) := ReadEnv(conn);
    DecodedTells(v, req, r);
    var later := Takes(v, req, d, n);
    assert rs == [Decoded(v, req, r)] + later;
    hide Decoded, Takes;
    if n > 0 {
      assert rs[0].0.Some?;
      assert forall i :: 0 <= i < n ==> later[i] == rs[i + 1];
      RequestEofMeansComplete(v, req, d, n - 1, later);
      assert forall i :: 0 < i < |conn.inbound| ==> conn.inbound[i] == d.inbound[i - 1];
    }
  }

  /** And a failure is told as it is: whatever came before, the receive that meets it returns it. */
  lemma {:induction false} RequestFailureIsTold(v: ServerCfg, req: Header, conn: ConnState, n: nat)
    ensures n < |conn.inbound| && conn.inbound[n].Failed? ==>
      Takes(v, req, conn, n + 1)[n] == (None, Some(conn.inbound[n].err))
    ensures n >= |conn.inbound| ==> Takes(v, req, conn, n + 1)[n] == (None, Some(conn.last))
    decreases n
  {
    var (r, d) := ReadEnv(conn);
    DecodedTells(v, req, r);
    assert Takes(v, req, conn, n + 1) == [Decoded(v, req, r)] + Takes(v, req, d, n);
    hide Decoded, Takes;
    if n > 0 {
      RequestFailureIsTold(v, req, d, n - 1);
      assert conn.inbound != [] ==> forall i :: 0 < i < |conn.inbound| ==> conn.inbound[i] == d.inbound[i - 1];
    }
  }

  /** The server can unpack what this client packs. */
  ghost predicate Understood(c: ClientCfg, v: ServerCfg, ms: seq<Msg>) {
    && CodecInverse(c.codec, v.codec)
    && (Compresses(c) && c.sendCompressor in c.compressors ==>
          c.sendCompressor in v.compressors
          && CompressorInverse(c.compressors[c.sendCompressor], v.compressors[c.sendCompressor]))
    && (forall m :: m in ms && Pack(c, m).Ready? ==> v.readMax == 0 || |Pack(c, m).env.payload| <= v.readMax)
  }

  predicate AllReady(c: ClientCfg, ms: seq<Msg>) {
    forall m :: m in ms ==> Pack(c, m).Ready?
  }

  lemma {:induction false} FramedReady(cfg: ClientCfg, calls: seq<Call>)
    ensures AllReady(cfg, Framed(cfg, calls))
  {
    hide Pack;
    if calls != [] {
      FramedReady(cfg, calls[..|calls| - 1]);
    }
  }

  lemma TakeOne(c: ClientCfg, v: ServerCfg, ms: seq<Msg>)
    requires ms != [] && Understood(c, v, ms) && AllReady(c, ms)
    ensures Pack(c, ms[0]).Ready? && Decoded(v, RequestHeader(c), Got(Pack(c, ms[0]).env)) == (Some(ms[0]), None)
    ensures Packs(c, ms) == [Pack(c, ms[0]).env] + Packs(c, ms[1..]) && Understood(c, v, ms[1..]) && AllReady(c, ms[1..])
  {
    assert ms[0] in ms;
    RequestMessageSurvives(c, v, ms[0]);
    hide Decoded, RequestHeader, CodecInverse, CompressorInverse;
  }

  lemma {:induction false} TakesAll(c: ClientCfg, v: ServerCfg, ms: seq<Msg>, conn: ConnState, rest: seq<ReadResult>)
    requires Understood(c, v, ms) && AllReady(c, ms)
    requires conn.inbound == Gots(Packs(c, ms)) + [Got(HALF_CLOSE)] + rest
    ensures Takes(v, RequestHeader(c), conn, |ms| + 1) == Taken(ms) + [(None, Some(Eof))]
    decreases |ms|
  {
    var req := RequestHeader(c);
    hide RequestHeader;
    var (r, d) := ReadEnv(conn);
    if ms == [] {
      assert conn.inbound == [Got(HALF_CLOSE)] + rest;
      assert Takes(v, req, d, 0) == [];
      assert Decoded(v, req, Got(HALF_CLOSE)) == (None, Some(Eof));
    } else {
      TakeOne(c, v, ms);
      var e, es := Pack(c, ms[0]).env, Packs(c, ms[1..]);
      hide Decoded, Pack, Packs, Understood, AllReady;
      assert Gots([e] + es) == [Got(e)] + Gots(es);
      assert conn.inbound[0] == Got(e) && conn.inbound[1..] == Gots(es) + [Got(HALF_CLOSE)] + rest;
      TakesAll(c, v, ms[1..], d, rest);
      assert Taken(ms) == [(Some(ms[0]), None)] + Taken(ms[1..]);
    }
  }

  /** The request round trip. For every order of calls that is a good one and ends with a
      half-close, the server opens the RPC with the client's own headers, and the procedure's
      successive Receives return exactly the messages the calls framed, in order, then EOF. */
  lemma RequestRoundTrip(c: ClientCfg, v: ServerCfg, conn: ConnState, calls: seq<Call>, at: ConnState, rest: seq<ReadResult>)
    requires Untouched(conn) && conn.budget >= 2 * |calls| && Ordered(c, calls).ok && Ordered(c, calls).closed
    requires Understood(c, v, Framed(c, calls)) && c.procedure != ""
    requires v.json.headersIn(c.json.headersOut(RequestHeader(c))) == Some(RequestHeader(c))
    requires at.inbound == Gots(AllCalled(c, Fresh(conn), calls).conn.written) + rest
    ensures var (r, d) := ReadEnv(at);
      && Opening(v, r) == Some(RequestHeader(c)) && IsRequestHeader(c, RequestHeader(c))
      && Takes(v, RequestHeader(c), d, |Framed(c, calls)| + 1) == Taken(Framed(c, calls)) + [(None, Some(Eof))]
  {
    CallsTell(c, conn, calls);
    hide AllCalled, Framed, Understood, RequestHeader, IsRequestHeader, Takes, Taken, Opening, Word, Settled, Scan;
    ArrivedRequestRoundTrip(c, v, calls, AllCalled(c, Fresh(conn), calls).conn.written, at, rest);
  }

  lemma ArrivalParts(w: seq<Envelope>, h: Envelope, ps: seq<Envelope>, e: Envelope, rest: seq<ReadResult>)
    returns (tail: seq<ReadResult>)
    requires [h] + ps + [e] <= w
    ensures Gots(w) + rest == [Got(h)] + (Gots(ps) + [Got(e)] + tail)
  {
    var more := w[|ps| + 2..];
    tail := Gots(more) + rest;
    assert w == [h] + ps + [e] + more;
    assert Gots(w) == [Got(h)] + Gots(ps) + [Got(e)] + Gots(more);
  }

  /** The same for whatever part of the client's frames has arrived, if the half-close has. */
  lemma ArrivedRequestRoundTrip(c: ClientCfg, v: ServerCfg, calls: seq<Call>, w: seq<Envelope>, at: ConnState,
                                rest: seq<ReadResult>)
    requires Ordered(c, calls).closed && Ordered(c, calls).headers && Word(c, Ordered(c, calls), Framed(c, calls)) <= w
    requires Understood(c, v, Framed(c, calls)) && c.procedure != ""
    requires v.json.headersIn(c.json.headersOut(RequestHeader(c))) == Some(RequestHeader(c))
    requires at.inbound == Gots(w) + rest
    ensures var (r, d) := ReadEnv(at);
      && Opening(v, r) == Some(RequestHeader(c)) && IsRequestHeader(c, RequestHeader(c))
      && Takes(v, RequestHeader(c), d, |Framed(c, calls)| + 1) == Taken(Framed(c, calls)) + [(None, Some(Eof))]
  {
    PathIsThere(c);
    RequestHeaderIsIts(c);
    FramedReady(c, calls);
    var ms := Framed(c, calls);
    assert Word(c, Ordered(c, calls), ms) == [RequestHeaders(c)] + Packs(c, ms) + [HALF_CLOSE];
    hide Framed, Ordered, Understood, Packs, RequestHeader, IsRequestHeader, Word, AllReady, Takes, Taken;
    var tail := ArrivalParts(w, RequestHeaders(c), Packs(c, ms), HALF_CLOSE, rest);
    var d := ReadEnv(at).1;
    assert d.inbound == Gots(Packs(c, ms)) + [Got(HALF_CLOSE)] + tail;
    TakesAll(c, v, ms, d, tail);
  }

  lemma PathIsThere(c: ClientCfg)
    requires c.procedure != ""
    ensures Get(RequestHeader(c), PATH) != ""
  {}
}
