/** The client's half of an RPC: a stream object driven by calls in any order. */
module RpcClient {
  import opened Wire
  import opened Compression
  import opened Rpc

  datatype ClientCfg = ClientCfg(
    json: Json, codec: Codec, compressors: map<string, Compressor>, sendCompressor: string, accept: string,
    sendMax: nat, readMax: nat, unary: bool, request: Header, procedure: string)

  /** The fields of a client stream, with its connection. */
  datatype ClientState = ClientState(
    conn: ConnState,
    headersSent: bool, headersErr: Option<Error>,          // the once-latch of SendHeaders
    closeSent: bool,                                       // the once-latch of CloseSend
    headersRead: bool, headersReadErr: Option<Error>,      // the once-latch of recvHeaders
    rxEnd: bool,
    respHeader: Header, respTrailer: Header)

  datatype Reply = Message(m: Msg) | Fail(err: Error)

  function Fresh(conn: ConnState): ClientState {
    ClientState(conn, false, None, false, false, None, false, map[], map[])
  }

  // Sending

  predicate Compresses(cfg: ClientCfg) {
    cfg.sendCompressor != "" && cfg.sendCompressor != IDENTITY
  }

  function RequestHeader(cfg: ClientCfg): Header {
    var h := cfg.request[PATH := cfg.procedure][CONTENT_TYPE := "application/connect+" + cfg.codec.name];
    var h' := if Compresses(cfg) then h[CONTENT_ENCODING := cfg.sendCompressor] else h;
    if cfg.accept != "" then h'[ACCEPT_ENCODING := cfg.accept] else h'
  }

  /** The procedure's path, the codec's content type and the encodings, over the caller's own. */
  ghost predicate IsRequestHeader(cfg: ClientCfg, h: Header) {
    var encodes := cfg.sendCompressor != "" && cfg.sendCompressor != IDENTITY;
    && PATH in h && h[PATH] == cfg.procedure
    && CONTENT_TYPE in h && h[CONTENT_TYPE] == "application/connect+" + cfg.codec.name
    && (encodes ==> CONTENT_ENCODING in h && h[CONTENT_ENCODING] == cfg.sendCompressor)
    && (cfg.accept != "" ==> ACCEPT_ENCODING in h && h[ACCEPT_ENCODING] == cfg.accept)
    && (forall k :: k != PATH && k != CONTENT_TYPE && (k == CONTENT_ENCODING ==> !encodes)
                    && (k == ACCEPT_ENCODING ==> cfg.accept == "") ==>
          (k in h <==> k in cfg.request) && (k in h ==> h[k] == cfg.request[k]))
  }

  lemma RequestHeaderIsIts(cfg: ClientCfg)
    ensures IsRequestHeader(cfg, RequestHeader(cfg))
    ensures RequestHeaders(cfg).flag == FLAG_HEADERS && RequestHeaders(cfg).payload == cfg.json.headersOut(RequestHeader(cfg))
  {}

  function RequestHeaders(cfg: ClientCfg): Envelope {
    Envelope(FLAG_HEADERS, cfg.json.headersOut(RequestHeader(cfg)))
  }

  function DoSendHeaders(cfg: ClientCfg, s: ClientState): ClientState {
    if s.headersSent then s
    else
      var (err, conn) := WriteEnv(s.conn, RequestHeaders(cfg));
      s.(conn := conn, headersSent := true, headersErr := err)
  }

  datatype Packed = Ready(env: Envelope) | Refused(err: Error)

  /** A message's envelope; a configured compressor that is not registered is not used. */
  function Pack(cfg: ClientCfg, m: Msg): Packed {
    match cfg.codec.marshal(m)
    case None => Refused(Marshal)
    case Some(plain) =>
      var on := Compresses(cfg) && cfg.sendCompressor in cfg.compressors;
      var payload := if on then cfg.compressors[cfg.sendCompressor].compress(plain) else Some(plain);
      if payload == None then Refused(Marshal)
      else if cfg.sendMax > 0 && |payload.value| > cfg.sendMax then Refused(ResourceExhausted)
      else Ready(Envelope(if on then FLAG_COMPRESSED else FLAG_DATA, payload.value))
  }

  function DoSend(cfg: ClientCfg, s: ClientState, m: Msg): (Option<Error>, ClientState) {
    var t := DoSendHeaders(cfg, s);
    if t.headersErr.Some? then (t.headersErr, t)
    else
      match Pack(cfg, m)
      case Refused(e) => (Some(e), t)
      case Ready(env) => var (err, conn) := WriteEnv(t.conn, env); (err, t.(conn := conn))
  }

  function DoCloseSend(s: ClientState): (Option<Error>, ClientState) {
    if s.closeSent then (None, s)
    else
      var (err, conn) := WriteEnv(s.conn, Envelope(FLAG_END, []));
      (err, s.(conn := conn, closeSent := true))
  }

  function DoClose(s: ClientState): ClientState {
    var t := DoCloseSend(s).1;
    t.(conn := CloseConn(t.conn))
  }

  // Receiving

  /** Pseudo-headers are not surfaced to the application. */
  function Surfaced(own: Header, h: Header): Header {
    own + (map k | k in h && !(k != "" && k[0] == ':') :: h[k])
  }

  function DoRecvHeaders(cfg: ClientCfg, s: ClientState): ClientState {
    if s.headersRead then s
    else
      var (r, conn) := ReadEnv(s.conn);
      var t := s.(conn := conn, headersRead := true);
      match r
      case Failed(e) => t.(headersReadErr := Some(e))
      case Got(env) =>
        if env.flag != FLAG_HEADERS then t.(headersReadErr := Some(Protocol))
        else
          match cfg.json.headersIn(env.payload)
          case None => t.(headersReadErr := Some(Protocol))
          case Some(h) => t.(respHeader := Surfaced(s.respHeader, h))
  }

  /** What an end-stream envelope means: the peer's error, or none. */
  function EndOf(cfg: ClientCfg, s: ClientState, payload: Bytes): (Option<Error>, ClientState) {
    var t := s.(rxEnd := true);
    match cfg.json.endIn(payload)
    case None => (Some(Protocol), t)
    case Some(end) =>
      var u := t.(respTrailer := t.respTrailer + end.trailers);
      (if end.err.Some? then Some(Remote(end.err.value.code, end.err.value.message)) else None, u)
  }

  /** The message an envelope carries. */
  function Unpack(cfg: ClientCfg, s: ClientState, env: Envelope): Reply {
    if env.flag != FLAG_DATA && env.flag != FLAG_COMPRESSED then Fail(Protocol)
    else if cfg.readMax > 0 && |env.payload| > cfg.readMax then Fail(ResourceExhausted)
    else if env.flag == FLAG_COMPRESSED && Get(s.respHeader, CONTENT_ENCODING) !in cfg.compressors then Fail(Protocol)
    else
      var plain := if env.flag == FLAG_COMPRESSED
                   then cfg.compressors[Get(s.respHeader, CONTENT_ENCODING)].decompress(env.payload)
                   else Some(env.payload);
      if plain == None then Fail(Marshal)
      else
        var m := cfg.codec.unmarshal(plain.value);
        if m == None then Fail(Marshal) else Message(m.value)
  }

  /** After the single response message of a unary call. */
  function DoUnaryEnd(cfg: ClientCfg, s: ClientState): (Option<Error>, ClientState) {
    var (r, conn) := ReadEnv(s.conn);
    var t := s.(conn := conn);
    match r
    case Failed(e) => (Some(e), t)
    case Got(env) => if env.flag != FLAG_END then (Some(Protocol), t) else EndOf(cfg, t, env.payload)
  }

  function DoReceiveBody(cfg: ClientCfg, s: ClientState): (Reply, ClientState) {
    var (r, conn) := ReadEnv(s.conn);
    var t := s.(conn := conn);
    match r
    case Failed(e) => (Fail(if e == Eof then Protocol else e), t)
    case Got(env) =>
      if env.flag == FLAG_END then
        var (err, u) := EndOf(cfg, t, env.payload);
        (Fail(if err.Some? then err.value else Eof), u)
      else
        var reply := Unpack(cfg, t, env);
        if reply.Fail? || !cfg.unary then (reply, t)
        else
          var (err, u) := DoUnaryEnd(cfg, t);
          (if err.Some? then Fail(err.value) else reply, u)
  }

  function DoReceive(cfg: ClientCfg, s: ClientState): (Reply, ClientState) {
    var t := DoSendHeaders(cfg, s);
    if t.headersErr.Some? then (Fail(t.headersErr.value), t)
    else
      var u := DoRecvHeaders(cfg, t);
      if u.headersReadErr.Some? then (Fail(u.headersReadErr.value), u)
      else if u.rxEnd then (Fail(Eof), u)
      else DoReceiveBody(cfg, u)
  }

  // The stream object

  class ClientStream {
    const cfg: ClientCfg
    const conn: Conn
    var headersSent: bool
    var headersErr: Option<Error>
    var closeSent: bool
    var headersRead: bool
    var headersReadErr: Option<Error>
    var rxEnd: bool
    var respHeader: Header
    var respTrailer: Header

    function View(): ClientState
      reads this, conn
    {
      ClientState(conn.state, headersSent, headersErr, closeSent, headersRead, headersReadErr, rxEnd, respHeader,
                  respTrailer)
    }

    constructor (cfg: ClientCfg, conn: Conn)
      ensures this.cfg == cfg && this.conn == conn && View() == Fresh(conn.state)
    {
      this.cfg, this.conn := cfg, conn;
      headersSent, headersErr, closeSent, headersRead, headersReadErr := false, None, false, false, None;
      rxEnd, respHeader, respTrailer := false, map[], map[];
    }

    method SendHeaders() returns (err: Option<Error>)
      modifies this, conn
      ensures View() == DoSendHeaders(cfg, old(View())) && err == headersErr && headersSent
      ensures old(headersSent) ==> View() == old(View())
      ensures !old(headersSent) ==>
        && conn.state.written == old(conn.state.written) + (if err == None then [RequestHeaders(cfg)] else [])
        && (err == None <==> !old(conn.state.closed) && old(conn.state.budget) > 0)
        && (err.Some? ==> err == Some(if conn.state.closed then StreamClosed else conn.state.writeErr))
    {
      if !headersSent {
        headersSent := true;
        headersErr := conn.WriteEnvelope(RequestHeaders(cfg));
      }
      err := headersErr;
    }

    method Send(m: Msg) returns (err: Option<Error>)
      modifies this, conn
      ensures (err, View()) == DoSend(cfg, old(View()), m)
      // the headers go first, and their error sticks
      ensures headersSent && (old(headersSent) ==> headersErr == old(headersErr))
      ensures headersErr.Some? ==> err == headersErr && conn.state.written == old(conn.state.written)
      // then the message, whole, or nothing and why
      ensures headersErr == None ==>
        var head := old(conn.state.written) + (if old(headersSent) then [] else [RequestHeaders(cfg)]);
        var packs := cfg.sendCompressor != "" && cfg.sendCompressor != IDENTITY && cfg.sendCompressor in cfg.compressors;
        var plain := cfg.codec.marshal(m);
        var payload := if plain.Some? && packs then cfg.compressors[cfg.sendCompressor].compress(plain.value) else plain;
        && (payload == None ==> err == Some(Marshal))
        && (payload.Some? && 0 < cfg.sendMax < |payload.value| ==> err == Some(ResourceExhausted))
        && (payload.Some? && (cfg.sendMax == 0 || |payload.value| <= cfg.sendMax) ==>
              if conn.state.written == head then
                (conn.state.closed || conn.state.budget == 0)
                && err == Some(if conn.state.closed then StreamClosed else conn.state.writeErr)
              else
                conn.state.written == head + [Envelope(if packs then FLAG_COMPRESSED else FLAG_DATA, payload.value)]
                && err == None)
        && (err.Some? <==> conn.state.written == head)
    {
      err := SendHeaders();
      if err.Some? {
        return;
      }
      var payload := cfg.codec.marshal(m);
      if payload == None {
        return Some(Marshal);
      }
      var flag := FLAG_DATA;
      if Compresses(cfg) && cfg.sendCompressor in cfg.compressors {
        payload := cfg.compressors[cfg.sendCompressor].compress(payload.value);
        if payload == None {
          return Some(Marshal);
        }
        flag := FLAG_COMPRESSED;
      }
      if cfg.sendMax > 0 && |payload.value| > cfg.sendMax {
        return Some(ResourceExhausted);
      }
      err := conn.WriteEnvelope(Envelope(flag, payload.value));
    }

    method CloseSend() returns (err: Option<Error>)
      modifies this, conn
      ensures (err, View()) == DoCloseSend(old(View())) && closeSent
      ensures old(closeSent) ==> err == None && View() == old(View())
      ensures !old(closeSent) ==>
        && conn.state.written == old(conn.state.written) + (if err == None then [Envelope(FLAG_END, [])] else [])
        && (err == None <==> !old(conn.state.closed) && old(conn.state.budget) > 0)
        && (err.Some? ==> err == Some(if conn.state.closed then StreamClosed else conn.state.writeErr))
      ensures headersSent == old(headersSent) && headersErr == old(headersErr)
    {
      err := None;
      if !closeSent {
        closeSent := true;
        err := conn.CloseSend();
      }
    }

    method Close()
      modifies this, conn
      ensures View() == DoClose(old(View())) && closeSent && conn.state.closed
      ensures var before := old(conn.state);
        var ends := !old(closeSent) && !before.closed && before.budget > 0;
        var resets := !before.dedicated && !before.rxEnd && before.budget > (if ends then 1 else 0);
        conn.state.written
        == before.written + (if ends then [Envelope(FLAG_END, [])] else []) + (if resets then [Envelope(FLAG_RESET, [])] else [])
    {
      var _ := CloseSend();
      conn.Close();
    }

    method RecvHeaders()
      modifies this, conn
      ensures View() == DoRecvHeaders(cfg, old(View())) && headersRead
      ensures old(headersRead) ==> View() == old(View())
      ensures !old(headersRead) ==>
        var (r, rest) := ReadEnv(old(conn.state));
        var h := if r.Got? && r.env.flag == FLAG_HEADERS then cfg.json.headersIn(r.env.payload) else None;
        && conn.state == rest
        && (r.Failed? ==> headersReadErr == Some(r.err))
        && (r.Got? && h == None ==> headersReadErr == Some(Protocol))
        && (h == None ==> respHeader == old(respHeader))
        && (h.Some? ==> headersReadErr == old(headersReadErr))
        && (h.Some? ==> forall k: string ::
              var mine := k in h.value && (k == "" || k[0] != ':');
              (k in respHeader <==> mine || k in old(respHeader))
              && (k in respHeader ==> respHeader[k] == if mine then h.value[k] else old(respHeader)[k]))
    {
      if headersRead {
        return;
      }
      headersRead := true;
      var r := conn.ReadEnvelope();
      if r.Failed? {
        headersReadErr := Some(r.err);
        return;
      }
      if r.env.flag != FLAG_HEADERS {
        headersReadErr := Some(Protocol);
        return;
      }
      var h := cfg.json.headersIn(r.env.payload);
      if h == None {
        headersReadErr := Some(Protocol);
        return;
      }
      respHeader := Surfaced(respHeader, h.value);
    }

    method TakeEnd(payload: Bytes) returns (err: Option<Error>)
      modifies this
      ensures (err, View()) == EndOf(cfg, old(View()), payload) && rxEnd
      ensures cfg.json.endIn(payload) == None ==> err == Some(Protocol) && respTrailer == old(respTrailer)
      ensures cfg.json.endIn(payload).Some? ==>
        var end := cfg.json.endIn(payload).value;
        && respTrailer == old(respTrailer) + end.trailers
        && (end.err == None ==> err == None)
        && (end.err.Some? ==> err == Some(Remote(end.err.value.code, end.err.value.message)))
    {
      rxEnd := true;
      var end := cfg.json.endIn(payload);
      if end == None {
        return Some(Protocol);
      }
      respTrailer := respTrailer + end.value.trailers;
      err := None;
      if end.value.err.Some? {
        err := Some(Remote(end.value.err.value.code, end.value.err.value.message));
      }
    }

    method ReadUnaryEndStream() returns (err: Option<Error>)
      modifies this, conn
      ensures (err, View()) == DoUnaryEnd(cfg, old(View()))
      ensures var r := ReadEnv(old(conn.state)).0;
        && (r.Failed? ==> err == Some(r.err))
        && (r.Got? && r.env.flag != FLAG_END ==> err == Some(Protocol))
        && (r.Failed? || r.env.flag != FLAG_END ==> rxEnd == old(rxEnd) && respTrailer == old(respTrailer))
        && (r.Got? && r.env.flag == FLAG_END ==>
              rxEnd && (err == None <==> CleanEnd(cfg, r))
              && (cfg.json.endIn(r.env.payload) == None ==> err == Some(Protocol)))
    {
      var r := conn.ReadEnvelope();
      if r.Failed? {
        return Some(r.err);
      }
      if r.env.flag != FLAG_END {
        return Some(Protocol);
      }
      err := TakeEnd(r.env.payload);
    }

    method Receive() returns (reply: Reply)
      modifies this, conn
      ensures (reply, View()) == DoReceive(cfg, old(View()))
    {
      hide DoSendHeaders, DoRecvHeaders, DoUnaryEnd, EndOf;
      var err := SendHeaders();
      if err.Some? {
        return Fail(err.value);
      }
      RecvHeaders();
      if headersReadErr.Some? {
        return Fail(headersReadErr.value);
      }
      if rxEnd {
        return Fail(Eof);
      }
      var r := conn.ReadEnvelope();
      if r.Failed? {
        return Fail(if r.err == Eof then Protocol else r.err);
      }
      if r.env.flag == FLAG_HEADERS {
        return Fail(Protocol);
      }
      if r.env.flag == FLAG_END {
        err := TakeEnd(r.env.payload);
        return Fail(if err.Some? then err.value else Eof);
      }
      reply := Decode(r.env);
      if reply.Message? && cfg.unary {
        err := ReadUnaryEndStream();
        if err.Some? {
          return Fail(err.value);
        }
      }
    }

    method Decode(env: Envelope) returns (reply: Reply)
      ensures reply == Unpack(cfg, View(), env)
      ensures env.flag != FLAG_DATA && env.flag != FLAG_COMPRESSED ==> reply == Fail(Protocol)
      ensures env.flag == FLAG_DATA || env.flag == FLAG_COMPRESSED ==>
        var encoding := Get(respHeader, CONTENT_ENCODING);
        if 0 < cfg.readMax < |env.payload| then reply == Fail(ResourceExhausted)
        else if env.flag == FLAG_COMPRESSED && encoding !in cfg.compressors then reply == Fail(Protocol)
        else
          var plain := if env.flag == FLAG_DATA then Some(env.payload)
                       else cfg.compressors[encoding].decompress(env.payload);
          var m := if plain.Some? then cfg.codec.unmarshal(plain.value) else None;
          reply == if m.Some? then Message(m.value) else Fail(Marshal)
    {
      if env.flag != FLAG_DATA && env.flag != FLAG_COMPRESSED {
        return Fail(Protocol);
      }
      if cfg.readMax > 0 && |env.payload| > cfg.readMax {
        return Fail(ResourceExhausted);
      }
      var payload := Some(env.payload);
      if env.flag == FLAG_COMPRESSED {
        var encoding := Get(respHeader, CONTENT_ENCODING);
        if encoding !in cfg.compressors {
          return Fail(Protocol);
        }
        payload := cfg.compressors[encoding].decompress(env.payload);
        if payload == None {
          return Fail(Marshal);
        }
      }
      var m := cfg.codec.unmarshal(payload.value);
      return if m == None then Fail(Marshal) else Message(m.value);
    }
  }

  // What a receive answers

  /** The headers come first, both ways, and an error of either sticks. */
  lemma ReceiveOpens(cfg: ClientCfg, s: ClientState)
    ensures var (reply, t) := DoReceive(cfg, s);
      && t.headersSent && (s.headersSent ==> t.headersErr == s.headersErr)
      && (t.headersErr.Some? ==> reply == Fail(t.headersErr.value) && t.conn == s.conn)
      && (t.headersErr == None ==> t.headersRead && (s.headersRead ==> t.headersReadErr == s.headersReadErr))
      && (t.headersErr == None && t.headersReadErr.Some? ==> reply == Fail(t.headersReadErr.value))
  {
    var t := DoSendHeaders(cfg, s);
    assert t.headersSent && (s.headersSent ==> t == s) && (t.headersErr.Some? ==> t.conn == s.conn);
    assert t.headersRead == s.headersRead && t.headersReadErr == s.headersReadErr;
    hide DoSendHeaders;
    HeadersLatch(cfg, t);
    BodyKeepsLatches(cfg, DoRecvHeaders(cfg, t));
    hide DoReceiveBody, DoRecvHeaders;
  }

  lemma HeadersLatch(cfg: ClientCfg, t: ClientState)
    ensures var u := DoRecvHeaders(cfg, t);
      && u.headersRead && (t.headersRead ==> u == t) && u.headersSent == t.headersSent && u.headersErr == t.headersErr
  {
    hide Surfaced, ReadEnv;
    if !t.headersRead {
      var (r, conn) := ReadEnv(t.conn);
    }
  }

  lemma BodyKeepsLatches(cfg: ClientCfg, u: ClientState)
    ensures var t := DoReceiveBody(cfg, u).1;
      && t.headersSent == u.headersSent && t.headersErr == u.headersErr
      && t.headersRead == u.headersRead && t.headersReadErr == u.headersReadErr && t.respHeader == u.respHeader
  {
    hide Unpack, ReadEnv;
  }

  /** Then one envelope decides, or two in a unary call: what is decoded is the answer, except
      that a plain end of the connection is a protocol error. */
  lemma ReceiveDecides(cfg: ClientCfg, u: ClientState)
    requires u.headersSent && u.headersErr == None && u.headersRead && u.headersReadErr == None && !u.rxEnd
    ensures var (r, rest) := ReadEnv(u.conn);
      var (reply, t) := DoReceive(cfg, u);
      && (r.Failed? ==> reply == Fail(if r.err == Eof then Protocol else r.err) && t == u.(conn := rest))
      && (r.Got? && r.env.flag == FLAG_END ==>
            (if CleanEnd(cfg, r) then reply == Fail(Eof)
             else if cfg.json.endIn(r.env.payload) == None then reply == Fail(Protocol)
             else var e := cfg.json.endIn(r.env.payload).value.err.value; reply == Fail(Remote(e.code, e.message))))
      && (r.Got? && r.env.flag != FLAG_END && (!cfg.unary || Unpack(cfg, u, r.env).Fail?) ==>
            reply == Unpack(cfg, u, r.env) && t == u.(conn := rest))
  {
    hide Unpack;
    if ReadEnv(u.conn).0.Got? {
      UnpackReadsHeadersOnly(cfg, u, u.(conn := ReadEnv(u.conn).1), ReadEnv(u.conn).0.env);
    }
  }

  /** A unary call returns its message only if a clean end-stream follows. */
  lemma UnaryDecides(cfg: ClientCfg, u: ClientState)
    requires u.headersSent && u.headersErr == None && u.headersRead && u.headersReadErr == None && !u.rxEnd && cfg.unary
    requires var r := ReadEnv(u.conn).0; r.Got? && r.env.flag != FLAG_END && Unpack(cfg, u, r.env).Message?
    ensures var (r, rest) := ReadEnv(u.conn);
      var next, reply := ReadEnv(rest).0, DoReceive(cfg, u).0;
      && (reply == Unpack(cfg, u, r.env) <==> CleanEnd(cfg, next))
      && (next.Failed? ==> reply == Fail(next.err))
      && (next.Got? && next.env.flag != FLAG_END ==> reply == Fail(Protocol))
      && (DoReceive(cfg, u).1.rxEnd <==> next.Got? && next.env.flag == FLAG_END)
  {
    UnpackReadsHeadersOnly(cfg, u, u.(conn := ReadEnv(u.conn).1), ReadEnv(u.conn).0.env);
    hide Unpack;
  }

  // The meaning of EOF

  /** An end-stream envelope that reports no error. */
  predicate CleanEnd(cfg: ClientCfg, r: ReadResult) {
    && r.Got? && r.env.flag == FLAG_END
    && cfg.json.endIn(r.env.payload).Some? && cfg.json.endIn(r.env.payload).value.err == None
  }

  /** A message followed by the connection's own EOF where the end-stream should be. */
  predicate CutUnary(cfg: ClientCfg, s: ClientState) {
    && cfg.unary
    && var (r, conn) := ReadEnv(s.conn);
       r.Got? && r.env.flag != FLAG_END && Unpack(cfg, s, r.env).Message? && ReadEnv(conn).0 == Failed(Eof)
  }

  /** Once headers are in, EOF is reported exactly when the stream had ended before or ends now
      with a clean end-stream envelope, except for a unary call cut after its message. A
      connection that just ends is reported as a protocol error. */
  lemma EofIsSound(cfg: ClientCfg, s: ClientState)
    requires s.headersSent && s.headersErr == None && s.headersRead && s.headersReadErr == None
    ensures DoReceive(cfg, s).0 == Fail(Eof) <==>
      s.rxEnd || CleanEnd(cfg, ReadEnv(s.conn).0) || CutUnary(cfg, s)
    ensures !s.rxEnd && ReadEnv(s.conn).0 == Failed(Eof) ==> DoReceive(cfg, s).0 == Fail(Protocol)
    ensures DoReceive(cfg, s).0 == Fail(Eof) && !CutUnary(cfg, s) ==> DoReceive(cfg, s).1.rxEnd
  {
    hide Unpack;
    if ReadEnv(s.conn).0.Got? {
      UnpackReadsHeadersOnly(cfg, s, s.(conn := ReadEnv(s.conn).1), ReadEnv(s.conn).0.env);
    }
  }

  lemma UnpackReadsHeadersOnly(cfg: ClientCfg, s: ClientState, t: ClientState, env: Envelope)
    requires s.respHeader == t.respHeader
    ensures Unpack(cfg, s, env) == Unpack(cfg, t, env)
    ensures Unpack(cfg, s, env) != Fail(Eof)
  {}

  /** Before the headers are in, EOF means nothing of the kind: a stream's first Receive reports
      EOF without an end-stream exactly when the connection refused the request headers with
      EOF, ended before the response headers, or cut a unary call after its message. */
  lemma FirstEofMayBePremature(cfg: ClientCfg, conn: ConnState)
    ensures var (reply, t) := DoReceive(cfg, Fresh(conn));
      var sent := DoSendHeaders(cfg, Fresh(conn));
      var u := DoRecvHeaders(cfg, sent);
      reply == Fail(Eof) && !t.rxEnd <==>
        || sent.headersErr == Some(Eof)
        || (sent.headersErr == None && ReadEnv(conn).0 == Failed(Eof))
        || (sent.headersErr == None && u.headersReadErr == None && CutUnary(cfg, u))
  {
    var sent := DoSendHeaders(cfg, Fresh(conn));
    if sent.headersErr == None {
      var u := DoRecvHeaders(cfg, sent);
      assert ReadEnv(sent.conn).0 == ReadEnv(conn).0;
      if u.headersReadErr == None {
        EofIsSound(cfg, u);
        assert DoReceive(cfg, u) == DoReceiveBody(cfg, u);
        assert DoReceive(cfg, Fresh(conn)) == DoReceiveBody(cfg, u);
        if CutUnary(cfg, u) {
          CutUnaryStays(cfg, u);
        }
      }
    }
  }

  lemma CutUnaryStays(cfg: ClientCfg, s: ClientState)
    requires CutUnary(cfg, s)
    ensures DoReceiveBody(cfg, s).0 == Fail(Eof) && DoReceiveBody(cfg, s).1.rxEnd == s.rxEnd
  {
    UnpackReadsHeadersOnly(cfg, s, s.(conn := ReadEnv(s.conn).1), ReadEnv(s.conn).0.env);
  }
}
