/** Both halves together: what the procedure sent is what the client's Receive returns. */
module RpcRoundTrip {
  import opened Wire
  import opened Compression
  import opened Rpc
  import opened RpcServer
  import opened RpcClient
  import opened RpcHeaders

  // What the two ends must agree on

  predicate JsonInverse(j: Json, h: Header, e: EndStream) {
    && j.headersIn(j.headersOut(h)) == Some(h)
    && j.endOut(e).Some? && j.endIn(j.endOut(e).value) == Some(e)
  }

  /** Decoding undoes encoding. */
  ghost predicate CodecInverse(out: Codec, back: Codec) {
    forall m :: out.marshal(m).Some? ==> back.unmarshal(out.marshal(m).value) == Some(m)
  }

  ghost predicate CompressorInverse(out: Compressor, back: Compressor) {
    forall b :: out.compress(b).Some? ==> back.decompress(out.compress(b).value) == Some(b)
  }

  /** The client advertised the names it registered, and each of them that the server knows
      names the same compression. */
  ghost predicate Offers(c: ClientCfg, v: ServerCfg, names: seq<string>) {
    && (forall n :: n in names ==> CleanName(n) && n in c.compressors)
    && c.accept == Join(names) && (names != [] || "" !in v.compressors)
    && (forall n :: n in names && n in v.compressors ==> CompressorInverse(v.compressors[n], c.compressors[n]))
  }

  // The shape of a response

  /** The messages the procedure sent that became envelopes, in order. */
  function Sent(cfg: ServerCfg, comp: Option<Compressor>, script: seq<Action>): seq<Msg> {
    if script == [] then []
    else
      var a := script[|script| - 1];
      Sent(cfg, comp, script[..|script| - 1])
      + (if a.Send? && RpcServer.Body(cfg, comp, a.m).Some? then [a.m] else [])
  }

  function Bodies(cfg: ServerCfg, comp: Option<Compressor>, ms: seq<Msg>): seq<Envelope> {
    if ms == [] then []
    else
      var b := RpcServer.Body(cfg, comp, ms[|ms| - 1]);
      Bodies(cfg, comp, ms[..|ms| - 1]) + (if b.Some? then [b.value] else [])
  }

  ghost predicate Shaped(cfg: ServerCfg, req: Header, s: Sender) {
    if s.sent then
      && s.comp == Negotiated(cfg, req)
      && s.frames == [HeadersEnvelope(cfg, req, s.own)] + Bodies(cfg, s.comp, s.msgs)
    else
      s.frames == [] && s.comp == None && s.msgs == []
  }

  lemma ShapeHeaded(cfg: ServerCfg, req: Header, s: Sender)
    requires Shaped(cfg, req, s)
    ensures Shaped(cfg, req, Headed(cfg, req, s)) && Headed(cfg, req, s).sent && Headed(cfg, req, s).msgs == s.msgs
  {
    hide Negotiated, HeadersEnvelope;
    assert Bodies(cfg, s.comp, []) == [];
  }

  lemma ShapeAppend(cfg: ServerCfg, req: Header, t: Sender, m: Msg)
    requires Shaped(cfg, req, t) && t.sent && RpcServer.Body(cfg, t.comp, m).Some?
    ensures Shaped(cfg, req, t.(frames := t.frames + [RpcServer.Body(cfg, t.comp, m).value], msgs := t.msgs + [m]))
  {
    hide Negotiated, RpcServer.Body, HeadersEnvelope;
    var b := RpcServer.Body(cfg, t.comp, m).value;
    assert (t.msgs + [m])[..|t.msgs|] == t.msgs;
    assert Bodies(cfg, t.comp, t.msgs + [m]) == Bodies(cfg, t.comp, t.msgs) + [b];
    hide Bodies;
  }

  lemma ShapeStep(cfg: ServerCfg, req: Header, s: Sender, a: Action)
    requires Shaped(cfg, req, s)
    ensures Shaped(cfg, req, Acted(cfg, req, s, a))
    ensures var t := Acted(cfg, req, s, a);
      t.msgs == s.msgs + (if a.Send? && RpcServer.Body(cfg, Negotiated(cfg, req), a.m).Some? then [a.m] else [])
  {
    ShapeHeaded(cfg, req, s);
    var t := Headed(cfg, req, s);
    assert t.sent ==> t.comp == Negotiated(cfg, req);
    if a.Send? && RpcServer.Body(cfg, t.comp, a.m).Some? {
      ShapeAppend(cfg, req, t, a.m);
    }
    if a.SetHeader? {
      assert Acted(cfg, req, s, a) == s.(header := s.header[a.key := a.value]);
      assert Shaped(cfg, req, s.(header := s.header[a.key := a.value]));
    }
    hide Negotiated, RpcServer.Body, Headed, Shaped;
  }

  lemma {:induction false} PlayedShape(cfg: ServerCfg, req: Header, script: seq<Action>)
    ensures Shaped(cfg, req, Played(cfg, req, script))
    ensures Played(cfg, req, script).msgs == Sent(cfg, Negotiated(cfg, req), script)
  {
    if script != [] {
      var before := script[..|script| - 1];
      PlayedShape(cfg, req, before);
      ShapeStep(cfg, req, Played(cfg, req, before), script[|script| - 1]);
      hide Shaped, Acted, Negotiated, RpcServer.Body;
    }
  }

  lemma ResponseShape(cfg: ServerCfg, req: Header, script: seq<Action>, v: Verdict)
    ensures ResponseWord(cfg, req, script, v)
         == [HeadersEnvelope(cfg, req, OwnHeader(cfg, req, script))]
          + Bodies(cfg, Negotiated(cfg, req), Sent(cfg, Negotiated(cfg, req), script)) + [EndEnvelope(cfg, v)]
  {
    PlayedShape(cfg, req, script);
    ShapeStep(cfg, req, Played(cfg, req, script), SendHeadersNow);
    hide Played, HeadersEnvelope, Negotiated, Bodies, EndEnvelope;
  }

  lemma {:induction false} BodiesCons(cfg: ServerCfg, comp: Option<Compressor>, ms: seq<Msg>)
    requires ms != []
    ensures var b := RpcServer.Body(cfg, comp, ms[0]);
      Bodies(cfg, comp, ms) == (if b.Some? then [b.value] else []) + Bodies(cfg, comp, ms[1..])
  {
    hide RpcServer.Body;
    var n := |ms| - 1;
    if n > 0 {
      BodiesCons(cfg, comp, ms[..n]);
      assert ms[..n][1..] == ms[1..][..n - 1];
    } else {
      assert ms[..0] == ms[1..] == [];
    }
  }

  predicate AllPack(cfg: ServerCfg, comp: Option<Compressor>, ms: seq<Msg>) {
    forall i :: 0 <= i < |ms| ==> RpcServer.Body(cfg, comp, ms[i]).Some?
  }

  lemma {:induction false} SentPack(cfg: ServerCfg, comp: Option<Compressor>, script: seq<Action>)
    ensures AllPack(cfg, comp, Sent(cfg, comp, script))
  {
    hide RpcServer.Body;
    if script != [] {
      SentPack(cfg, comp, script[..|script| - 1]);
    }
  }

  // Compression survives the trip

  /** The client's request, as far as negotiation goes. */
  predicate AcceptIsOwn(c: ClientCfg) {
    c.accept == "" ==> ACCEPT_ENCODING !in c.request
  }

  /** Whatever the server negotiates, the client can undo. */
  lemma NegotiatedIsUsable(c: ClientCfg, v: ServerCfg, names: seq<string>)
    requires Offers(c, v, names) && AcceptIsOwn(c)
    ensures var n := NegotiateCompression(Get(RequestHeader(c), ACCEPT_ENCODING), v.compressors);
      && (n == None ==> Negotiated(v, RequestHeader(c)) == None)
      && (n.Some? ==> n.value in v.compressors && n.value in c.compressors)
      && (n.Some? ==> Negotiated(v, RequestHeader(c)) == Some(v.compressors[n.value]))
      && (n.Some? ==> CompressorInverse(v.compressors[n.value], c.compressors[n.value]))
  {
    assert Get(RequestHeader(c), ACCEPT_ENCODING) == c.accept;
    NegotiatesOwnIffSafe(names, v.compressors);
    if names == [] {
      NothingAdvertised(v.compressors);
    } else {
      OwnListIsShared(names, v.compressors);
    }
  }

  // Receiving a response

  function Gots(w: seq<Envelope>): seq<ReadResult> {
    seq(|w|, i requires 0 <= i < |w| => Got(w[i]))
  }

  /** n calls of Receive. */
  function Receives(c: ClientCfg, s: ClientState, n: nat): (seq<Reply>, ClientState)
    decreases n
  {
    if n == 0 then ([], s)
    else
      var (r, t) := DoReceive(c, s);
      var (rs, u) := Receives(c, t, n - 1);
      ([r] + rs, u)
  }

  function Replies(ms: seq<Msg>): seq<Reply> {
    if ms == [] then [] else [Message(ms[0])] + Replies(ms[1..])
  }

  function Eofs(n: nat): seq<Reply> {
    if n == 0 then [] else [Fail(Eof)] + Eofs(n - 1)
  }

  /** The last reply of a stream: the procedure's error, or EOF. */
  function LastReply(v: Verdict): Reply {
    Fail(if v.err.Some? then Remote(v.err.value.code, v.err.value.message) else Eof)
  }

  /** The response headers are in and the stream has not ended. */
  predicate Flowing(s: ClientState) {
    s.headersSent && s.headersErr == None && s.headersRead && s.headersReadErr == None && !s.rxEnd
  }

  /** The client knows how to unpack what this server packs. */
  ghost predicate Unpacks(c: ClientCfg, s: ClientState, v: ServerCfg, comp: Option<Compressor>) {
    && CodecInverse(v.codec, c.codec)
    && (comp.Some? ==>
          && Get(s.respHeader, CONTENT_ENCODING) in c.compressors
          && CompressorInverse(comp.value, c.compressors[Get(s.respHeader, CONTENT_ENCODING)]))
  }

  predicate InLimit(c: ClientCfg, w: seq<Envelope>) {
    forall e :: e in w ==> c.readMax == 0 || |e.payload| <= c.readMax
  }

  lemma UnpackInvertsBody(c: ClientCfg, s: ClientState, v: ServerCfg, comp: Option<Compressor>, m: Msg)
    requires Unpacks(c, s, v, comp) && RpcServer.Body(v, comp, m).Some?
    requires InLimit(c, [RpcServer.Body(v, comp, m).value])
    ensures Unpack(c, s, RpcServer.Body(v, comp, m).value) == Message(m)
    ensures RpcServer.Body(v, comp, m).value.flag != FLAG_END
  {
    var env := RpcServer.Body(v, comp, m).value;
    assert env in [env];
    var plain := v.codec.marshal(m).value;
    assert c.codec.unmarshal(plain) == Some(m);
    if comp.Some? {
      assert comp.value.compress(plain) == Some(env.payload);
    }
  }

  lemma ReceiveFlowing(c: ClientCfg, s: ClientState)
    requires Flowing(s)
    ensures DoReceive(c, s) == DoReceiveBody(c, s)
  {}

  lemma {:induction false} AfterEnd(c: ClientCfg, s: ClientState, n: nat)
    requires s.headersSent && s.headersErr == None && s.headersRead && s.headersReadErr == None && s.rxEnd
    ensures Receives(c, s, n) == (Eofs(n), s)
  {
    if n > 0 {
      assert DoReceive(c, s) == (Fail(Eof), s);
      AfterEnd(c, s, n - 1);
    }
  }

  lemma ReceivesFirst(c: ClientCfg, s: ClientState, r: Reply, t: ClientState, n: nat)
    requires DoReceive(c, s) == (r, t)
    ensures Receives(c, s, n + 1) == ([r] + Receives(c, t, n).0, Receives(c, t, n).1)
  {}

  lemma TakeMessage(c: ClientCfg, s: ClientState, v: ServerCfg, comp: Option<Compressor>, m: Msg, rest: seq<ReadResult>)
    requires !c.unary && Flowing(s) && Unpacks(c, s, v, comp) && RpcServer.Body(v, comp, m).Some?
    requires InLimit(c, [RpcServer.Body(v, comp, m).value])
    requires s.conn.inbound == [Got(RpcServer.Body(v, comp, m).value)] + rest
    ensures DoReceive(c, s) == (Message(m), s.(conn := s.conn.(inbound := rest)))
  {
    ReceiveFlowing(c, s);
    var t := s.(conn := s.conn.(inbound := rest));
    assert s.conn.inbound[1..] == rest;
    UnpackInvertsBody(c, t, v, comp, m);
    hide Unpack, RpcServer.Body, DoReceive;
  }

  /** The end-stream envelope is what its verdict says. */
  lemma TakeEnd(c: ClientCfg, s: ClientState, v: ServerCfg, verdict: Verdict, rest: seq<ReadResult>)
    requires Flowing(s) && s.conn.inbound == [Got(EndEnvelope(v, verdict))] + rest
    requires v.json.endOut(EndStream(verdict.err, verdict.trailers)).Some?
    requires c.json.endIn(EndEnvelope(v, verdict).payload) == Some(EndStream(verdict.err, verdict.trailers))
    ensures var (r, t) := DoReceive(c, s);
      && r == LastReply(verdict) && t.rxEnd && t.respTrailer == s.respTrailer + verdict.trailers
      && t.headersSent && t.headersErr == None && t.headersRead && t.headersReadErr == None
  {
    ReceiveFlowing(c, s);
    hide Unpack, DoReceive;
  }

  /** The first message's envelope, and what follows it. */
  lemma FirstBody(c: ClientCfg, v: ServerCfg, comp: Option<Compressor>, ms: seq<Msg>, more: seq<ReadResult>)
    requires ms != [] && AllPack(v, comp, ms) && InLimit(c, Bodies(v, comp, ms))
    ensures RpcServer.Body(v, comp, ms[0]).Some? && InLimit(c, [RpcServer.Body(v, comp, ms[0]).value])
    ensures AllPack(v, comp, ms[1..]) && InLimit(c, Bodies(v, comp, ms[1..]))
    ensures Gots(Bodies(v, comp, ms)) + more
         == [Got(RpcServer.Body(v, comp, ms[0]).value)] + (Gots(Bodies(v, comp, ms[1..])) + more)
  {
    FirstPacks(v, comp, ms);
    hide *;
    BodiesCons(v, comp, ms);
    LimitFirst(c, RpcServer.Body(v, comp, ms[0]).value, Bodies(v, comp, ms[1..]));
    GotsFirst(RpcServer.Body(v, comp, ms[0]).value, Bodies(v, comp, ms[1..]), more);
  }

  lemma FirstPacks(v: ServerCfg, comp: Option<Compressor>, ms: seq<Msg>)
    requires ms != [] && AllPack(v, comp, ms)
    ensures RpcServer.Body(v, comp, ms[0]).Some? && AllPack(v, comp, ms[1..])
  {
    hide RpcServer.Body;
  }

  lemma LimitFirst(c: ClientCfg, b: Envelope, bs: seq<Envelope>)
    requires InLimit(c, [b] + bs)
    ensures InLimit(c, [b]) && InLimit(c, bs)
  {
    assert forall e :: e in [b] || e in bs ==> e in [b] + bs;
  }

  lemma GotsFirst(b: Envelope, bs: seq<Envelope>, more: seq<ReadResult>)
    ensures Gots([b] + bs) + more == [Got(b)] + (Gots(bs) + more)
  {
    assert Gots([b] + bs) == [Got(b)] + Gots(bs);
  }

  lemma {:induction false} ReceivesFlow(c: ClientCfg, s: ClientState, v: ServerCfg, comp: Option<Compressor>,
                                        ms: seq<Msg>, verdict: Verdict, rest: seq<ReadResult>, k: nat)
    requires !c.unary && Flowing(s) && Unpacks(c, s, v, comp) && AllPack(v, comp, ms) && InLimit(c, Bodies(v, comp, ms))
    requires s.conn.inbound == Gots(Bodies(v, comp, ms)) + ([Got(EndEnvelope(v, verdict))] + rest)
    requires v.json.endOut(EndStream(verdict.err, verdict.trailers)).Some?
    requires c.json.endIn(EndEnvelope(v, verdict).payload) == Some(EndStream(verdict.err, verdict.trailers))
    ensures Receives(c, s, |ms| + 1 + k).0 == Replies(ms) + [LastReply(verdict)] + Eofs(k)
    ensures Receives(c, s, |ms| + 1 + k).1.respTrailer == s.respTrailer + verdict.trailers
    decreases |ms|
  {
    hide DoReceive, Receives, RpcServer.Body, EndEnvelope, CodecInverse, CompressorInverse, Get, Eofs, LastReply;
    if ms == [] {
      assert s.conn.inbound == [Got(EndEnvelope(v, verdict))] + rest;
      TakeEnd(c, s, v, verdict, rest);
      var (r, t) := DoReceive(c, s);
      AfterEnd(c, t, k);
      ReceivesFirst(c, s, r, t, k);
    } else {
      var more := [Got(EndEnvelope(v, verdict))] + rest;
      FirstBody(c, v, comp, ms, more);
      hide Bodies, Gots, InLimit, AllPack;
      var later := Gots(Bodies(v, comp, ms[1..])) + more;
      TakeMessage(c, s, v, comp, ms[0], later);
      var t := s.(conn := s.conn.(inbound := later));
      assert Unpacks(c, t, v, comp);
      hide Unpacks;
      ReceivesFlow(c, t, v, comp, ms[1..], verdict, rest, k);
      ReceivesFirst(c, s, Message(ms[0]), t, |ms[1..]| + 1 + k);
      assert Replies(ms) == [Message(ms[0])] + Replies(ms[1..]);
      hide Replies;
    }
  }

  /** Client and server are configured to understand each other for this RPC. */
  ghost predicate Matched(c: ClientCfg, v: ServerCfg, names: seq<string>, script: seq<Action>, verdict: Verdict) {
    var req := RequestHeader(c);
    && Offers(c, v, names) && AcceptIsOwn(c) && CodecInverse(v.codec, c.codec) && c.json == v.json
    && JsonInverse(c.json, ResponseHeader(v, req, OwnHeader(v, req, script)), EndStream(verdict.err, verdict.trailers))
    && InLimit(c, ResponseWord(v, req, script, verdict))
  }

  /** A client stream that can send its headers, and whose connection holds a whole response. */
  predicate Answered(c: ClientCfg, conn: ConnState, w: seq<Envelope>, rest: seq<ReadResult>) {
    !conn.closed && conn.budget > 0 && conn.inbound == Gots(w) + rest
  }

  /** The first Receive takes the response headers in. */
  lemma HeadersComeIn(c: ClientCfg, v: ServerCfg, names: seq<string>, script: seq<Action>, verdict: Verdict,
                      conn: ConnState, rest: seq<ReadResult>) returns (u: ClientState)
    requires Matched(c, v, names, script, verdict)
    requires Answered(c, conn, ResponseWord(v, RequestHeader(c), script, verdict), rest)
    ensures Flowing(u) && Unpacks(c, u, v, Negotiated(v, RequestHeader(c))) && u.respTrailer == map[]
    ensures u.headersRead && AreResponseHeaders(v, names, script, u.respHeader)
    ensures var ms := Sent(v, Negotiated(v, RequestHeader(c)), script);
      u.conn.inbound == Gots(Bodies(v, Negotiated(v, RequestHeader(c)), ms)) + [Got(EndEnvelope(v, verdict))] + rest
    ensures DoReceive(c, Fresh(conn)) == DoReceive(c, u)
  {
    var req := RequestHeader(c);
    var own, comp := OwnHeader(v, req, script), Negotiated(v, req);
    var bodies, end := Bodies(v, comp, Sent(v, comp, script)), EndEnvelope(v, verdict);
    var h, more := ResponseHeader(v, req, own), Gots(bodies) + [Got(end)] + rest;
    ResponseShape(v, req, script, verdict);
    NegotiatedIsUsable(c, v, names);
    EncodingSurfaces(v, req, own);
    OfferedArrive(c, v, names, script);
    hide AreResponseHeaders, Gots;
    GotsParts(HeadersEnvelope(v, req, own), bodies, end, rest);
    assert conn.inbound == [Got(HeadersEnvelope(v, req, own))] + more;
    assert HeadersEnvelope(v, req, own).payload == c.json.headersOut(h) && HeadersEnvelope(v, req, own).flag == FLAG_HEADERS;
    hide Bodies, Sent, EndEnvelope, ResponseWord, OwnHeader, Surfaced, ResponseHeader, Negotiated, NegotiateCompression,
         HeadersEnvelope;
    u := TakeHeaders(c, conn, HeadersEnvelope(v, req, own), h, more);
  }

  lemma GotsParts(h: Envelope, bs: seq<Envelope>, end: Envelope, rest: seq<ReadResult>)
    ensures Gots([h] + bs + [end]) + rest == [Got(h)] + (Gots(bs) + [Got(end)] + rest)
  {
    assert Gots([h] + bs + [end]) == [Got(h)] + Gots(bs) + [Got(end)];
  }

  lemma OfferedArrive(c: ClientCfg, v: ServerCfg, names: seq<string>, script: seq<Action>)
    requires Offers(c, v, names) && AcceptIsOwn(c)
    ensures var req := RequestHeader(c);
      AreResponseHeaders(v, names, script, Surfaced(map[], ResponseHeader(v, req, OwnHeader(v, req, script))))
  {
    assert Get(RequestHeader(c), ACCEPT_ENCODING) == Join(names);
    hide RequestHeader, Get, Join, AreResponseHeaders, Surfaced, ResponseHeader, OwnHeader, CleanName, CompressorInverse;
    HeadersArrive(v, RequestHeader(c), names, script);
  }

  lemma EncodingSurfaces(v: ServerCfg, req: Header, own: Header)
    ensures var n := NegotiateCompression(Get(req, ACCEPT_ENCODING), v.compressors);
      n.Some? ==> Get(Surfaced(map[], ResponseHeader(v, req, own)), CONTENT_ENCODING) == n.value
  {}

  lemma TakeHeaders(c: ClientCfg, conn: ConnState, env: Envelope, h: Header, more: seq<ReadResult>) returns (u: ClientState)
    requires !conn.closed && conn.budget > 0 && conn.inbound == [Got(env)] + more
    requires env.flag == FLAG_HEADERS && c.json.headersIn(env.payload) == Some(h)
    ensures Flowing(u) && u.respHeader == Surfaced(map[], h) && u.respTrailer == map[] && u.conn.inbound == more
    ensures DoReceive(c, Fresh(conn)) == DoReceive(c, u)
  {
    hide Surfaced;
    u := DoRecvHeaders(c, DoSendHeaders(c, Fresh(conn)));
    assert conn.inbound[1..] == more;
    ReceiveFlowing(c, u);
  }

  lemma GotsAssoc(es: seq<Envelope>, end: ReadResult, rest: seq<ReadResult>)
    ensures Gots(es) + [end] + rest == Gots(es) + ([end] + rest)
  {
    hide Gots;
  }

  /** The round trip. Whatever the procedure does, successive calls of Receive return exactly
      the messages it sent, in order, then its error or EOF, then EOF on every later call; and
      the trailers are the ones it set. */
  lemma StreamingRoundTrip(c: ClientCfg, v: ServerCfg, names: seq<string>, script: seq<Action>, verdict: Verdict,
                           conn: ConnState, rest: seq<ReadResult>, k: nat)
    requires !c.unary && Matched(c, v, names, script, verdict)
    requires Answered(c, conn, ResponseWord(v, RequestHeader(c), script, verdict), rest)
    ensures var ms := Sent(v, Negotiated(v, RequestHeader(c)), script);
      var (replies, t) := Receives(c, Fresh(conn), |ms| + 1 + k);
      && replies == Replies(ms) + [LastReply(verdict)] + Eofs(k) && t.respTrailer == verdict.trailers
      && AreResponseHeaders(v, names, script, t.respHeader)
  {
    hide AreResponseHeaders, Bodies, Sent, RpcServer.Body, OwnHeader, ResponseWord, Replies, Receives, DoReceive, Unpacks,
         RequestHeader;
    var req := RequestHeader(c);
    var comp := Negotiated(v, req);
    var ms := Sent(v, comp, script);
    var u := HeadersComeIn(c, v, names, script, verdict, conn, rest);
    SentPack(v, comp, script);
    ResponseShape(v, req, script, verdict);
    assert InLimit(c, Bodies(v, comp, ms));
    GotsAssoc(Bodies(v, comp, ms), Got(EndEnvelope(v, verdict)), rest);
    ReceivesFlow(c, u, v, comp, ms, verdict, rest, k);
    SameFirst(c, Fresh(conn), u, |ms| + k);
    ReceivesKeepHeaders(c, u, |ms| + 1 + k);
    assert map[] + verdict.trailers == verdict.trailers;
    hide Matched;
  }

  lemma {:induction false} ReceivesKeepHeaders(c: ClientCfg, s: ClientState, n: nat)
    requires s.headersRead
    ensures Receives(c, s, n).1.respHeader == s.respHeader
    decreases n
  {
    if n > 0 {
      ReceiveKeepsHeaders(c, s);
      hide DoReceive;
      ReceivesKeepHeaders(c, DoReceive(c, s).1, n - 1);
    }
  }

  lemma SameFirst(c: ClientCfg, s: ClientState, u: ClientState, n: nat)
    requires DoReceive(c, s) == DoReceive(c, u)
    ensures Receives(c, s, n + 1) == Receives(c, u, n + 1)
  {}

  /** What successive receives of a unary call return: its one message, or the procedure's
      error, once the end-stream is in; the verdict itself if no message came; and for every two
      messages where one should be, a protocol error before that. */
  function UnaryReplies(ms: seq<Msg>, verdict: Verdict, k: nat): seq<Reply> {
    if ms == [] then [LastReply(verdict)] + Eofs(k)
    else if |ms| == 1 then [if verdict.err == None then Message(ms[0]) else LastReply(verdict)] + Eofs(k)
    else [Fail(Protocol)] + UnaryReplies(ms[2..], verdict, k)
  }

  /** A unary call, whatever the procedure does. With at most one message framed, the first
      Receive returns it, or the procedure's error, only once the end-stream is consumed. With
      more, the first Receive fails, and so does one for every further two. The end-stream comes
      in at last, the trailers are the procedure's, and every later call returns EOF. */
  lemma UnaryRoundTrip(c: ClientCfg, v: ServerCfg, names: seq<string>, script: seq<Action>, verdict: Verdict,
                       conn: ConnState, rest: seq<ReadResult>, k: nat)
    requires c.unary && Matched(c, v, names, script, verdict)
    requires Answered(c, conn, ResponseWord(v, RequestHeader(c), script, verdict), rest)
    ensures var ms := Sent(v, Negotiated(v, RequestHeader(c)), script);
      var (replies, t) := Receives(c, Fresh(conn), |ms| / 2 + 1 + k);
      && replies == UnaryReplies(ms, verdict, k) && t.rxEnd && t.respTrailer == verdict.trailers
      && AreResponseHeaders(v, names, script, t.respHeader)
  {
    hide AreResponseHeaders, Sent, RpcServer.Body, OwnHeader, ResponseWord, Receives, DoReceive, Unpacks, RequestHeader, UnaryReplies;
    var req := RequestHeader(c);
    var comp := Negotiated(v, req);
    var ms := Sent(v, comp, script);
    var u := HeadersComeIn(c, v, names, script, verdict, conn, rest);
    SentPack(v, comp, script);
    ResponseShape(v, req, script, verdict);
    assert InLimit(c, Bodies(v, comp, ms));
    UnaryFlow(c, u, v, comp, ms, verdict, rest, k);
    SameFirst(c, Fresh(conn), u, |ms| / 2 + k);
    ReceivesKeepHeaders(c, u, |ms| / 2 + 1 + k);
    assert map[] + verdict.trailers == verdict.trailers;
  }

  /** The same from the moment the response headers are in. */
  lemma {:induction false} UnaryFlow(c: ClientCfg, u: ClientState, v: ServerCfg, comp: Option<Compressor>, ms: seq<Msg>,
                                     verdict: Verdict, rest: seq<ReadResult>, k: nat)
    requires c.unary && Flowing(u) && Unpacks(c, u, v, comp) && AllPack(v, comp, ms) && InLimit(c, Bodies(v, comp, ms))
    requires u.conn.inbound == Gots(Bodies(v, comp, ms)) + [Got(EndEnvelope(v, verdict))] + rest
    requires v.json.endOut(EndStream(verdict.err, verdict.trailers)).Some?
    requires c.json.endIn(EndEnvelope(v, verdict).payload) == Some(EndStream(verdict.err, verdict.trailers))
    ensures var (replies, t) := Receives(c, u, |ms| / 2 + 1 + k);
      replies == UnaryReplies(ms, verdict, k) && t.rxEnd && t.respTrailer == u.respTrailer + verdict.trailers
    decreases |ms|
  {
    hide RpcServer.Body, EndEnvelope, Receives, DoReceive, CodecInverse, CompressorInverse, Get;
    var (r, t) := DoReceive(c, u);
    if ms == [] {
      assert Bodies(v, comp, ms) == [];
      assert u.conn.inbound == [Got(EndEnvelope(v, verdict))] + rest;
      TakeEnd(c, u, v, verdict, rest);
      AfterEnd(c, t, k);
      ReceivesFirst(c, u, r, t, k);
    } else if |ms| == 1 {
      OneBody(v, comp, ms);
      assert RpcServer.Body(v, comp, ms[0]).value in Bodies(v, comp, ms);
      TakeUnary(c, u, v, comp, ms[0], verdict, rest);
      AfterEnd(c, t, k);
      ReceivesFirst(c, u, r, t, k);
    } else {
      var more := [Got(EndEnvelope(v, verdict))] + rest;
      assert Gots(Bodies(v, comp, ms)) + [Got(EndEnvelope(v, verdict))] + rest == Gots(Bodies(v, comp, ms)) + more;
      TooMany(c, u, v, comp, ms, more);
      assert t.conn.inbound == Gots(Bodies(v, comp, ms[2..])) + [Got(EndEnvelope(v, verdict))] + rest;
      hide Bodies, InLimit;
      UnaryFlow(c, t, v, comp, ms[2..], verdict, rest, k);
      ReceivesFirst(c, u, r, t, |ms[2..]| / 2 + 1 + k);
    }
  }

  lemma OneBody(v: ServerCfg, comp: Option<Compressor>, ms: seq<Msg>)
    requires |ms| == 1 && RpcServer.Body(v, comp, ms[0]).Some?
    ensures Bodies(v, comp, ms) == [RpcServer.Body(v, comp, ms[0]).value]
  {
    BodiesCons(v, comp, ms);
    hide RpcServer.Body;
    assert ms[1..] == [] && Bodies(v, comp, []) == [];
  }

  lemma TwoBodies(v: ServerCfg, comp: Option<Compressor>, ms: seq<Msg>)
    requires |ms| >= 2 && AllPack(v, comp, ms)
    ensures Bodies(v, comp, ms)
         == [RpcServer.Body(v, comp, ms[0]).value, RpcServer.Body(v, comp, ms[1]).value] + Bodies(v, comp, ms[2..])
  {
    BodiesCons(v, comp, ms);
    BodiesCons(v, comp, ms[1..]);
    assert RpcServer.Body(v, comp, ms[0]).Some? && RpcServer.Body(v, comp, ms[1]).Some?;
    assert ms[1..][0] == ms[1] && ms[1..][1..] == ms[2..];
    hide RpcServer.Body, Bodies, AllPack;
  }

  lemma LimitParts(c: ClientCfg, a: Envelope, b: Envelope, es: seq<Envelope>)
    requires InLimit(c, [a, b] + es)
    ensures InLimit(c, [a]) && InLimit(c, [b]) && InLimit(c, es)
  {
    assert forall e :: e in [a] || e in [b] || e in es ==> e in [a, b] + es;
  }

  lemma PackParts(v: ServerCfg, comp: Option<Compressor>, ms: seq<Msg>)
    requires |ms| >= 2 && AllPack(v, comp, ms)
    ensures RpcServer.Body(v, comp, ms[0]).Some? && RpcServer.Body(v, comp, ms[1]).Some? && AllPack(v, comp, ms[2..])
  {
    hide RpcServer.Body;
  }

  /** A second message where a unary call's end-stream should be. */
  lemma TooMany(c: ClientCfg, u: ClientState, v: ServerCfg, comp: Option<Compressor>, ms: seq<Msg>, more: seq<ReadResult>)
    requires c.unary && Flowing(u) && Unpacks(c, u, v, comp) && AllPack(v, comp, ms) && InLimit(c, Bodies(v, comp, ms))
    requires |ms| >= 2 && u.conn.inbound == Gots(Bodies(v, comp, ms)) + more
    ensures var (r, t) := DoReceive(c, u);
      && r == Fail(Protocol) && Flowing(t) && t.respTrailer == u.respTrailer && t.respHeader == u.respHeader
      && t.conn.inbound == Gots(Bodies(v, comp, ms[2..])) + more
    ensures AllPack(v, comp, ms[2..]) && InLimit(c, Bodies(v, comp, ms[2..]))
  {
    hide *;
    TwoBodies(v, comp, ms);
    PackParts(v, comp, ms);
    var a, b := RpcServer.Body(v, comp, ms[0]).value, RpcServer.Body(v, comp, ms[1]).value;
    var es := Bodies(v, comp, ms[2..]);
    LimitParts(c, a, b, es);
    BothUnpack(c, u, v, comp, ms[0], ms[1]);
    GotsOfTwo(a, b, es, more);
    TwoMessages(c, u, a, b, ms[0], Gots(es) + more);
  }

  lemma GotsOfTwo(a: Envelope, b: Envelope, es: seq<Envelope>, more: seq<ReadResult>)
    ensures Gots([a, b] + es) + more == [Got(a), Got(b)] + (Gots(es) + more)
  {
    assert Gots([a, b] + es) == [Got(a), Got(b)] + Gots(es);
  }

  lemma BothUnpack(c: ClientCfg, u: ClientState, v: ServerCfg, comp: Option<Compressor>, m: Msg, n: Msg)
    requires Unpacks(c, u, v, comp) && RpcServer.Body(v, comp, m).Some? && RpcServer.Body(v, comp, n).Some?
    requires InLimit(c, [RpcServer.Body(v, comp, m).value]) && InLimit(c, [RpcServer.Body(v, comp, n).value])
    ensures Unpack(c, u.(conn := ReadEnv(u.conn).1), RpcServer.Body(v, comp, m).value) == Message(m)
    ensures RpcServer.Body(v, comp, m).value.flag != FLAG_END && RpcServer.Body(v, comp, n).value.flag != FLAG_END
  {
    var t := u.(conn := ReadEnv(u.conn).1);
    assert Unpacks(c, t, v, comp);
    hide Unpacks, Unpack, RpcServer.Body, InLimit;
    UnpackInvertsBody(c, t, v, comp, m);
    UnpackInvertsBody(c, t, v, comp, n);
  }

  lemma TwoMessages(c: ClientCfg, u: ClientState, a: Envelope, b: Envelope, m: Msg, later: seq<ReadResult>)
    requires c.unary && Flowing(u) && u.conn.inbound == [Got(a), Got(b)] + later
    requires a.flag != FLAG_END && b.flag != FLAG_END && Unpack(c, u.(conn := ReadEnv(u.conn).1), a) == Message(m)
    ensures var (r, t) := DoReceive(c, u);
      && r == Fail(Protocol) && Flowing(t) && t.respTrailer == u.respTrailer && t.respHeader == u.respHeader
      && t.conn.inbound == later
  {
    ReceiveFlowing(c, u);
    var t := u.(conn := ReadEnv(u.conn).1);
    assert t.conn.inbound == [Got(b)] + later;
    assert u.conn.inbound[0] == Got(a) && t.conn.inbound[0] == Got(b) && t.conn.inbound[1..] == later;
    hide Unpack, DoReceive;
  }

  lemma TakeUnary(c: ClientCfg, s: ClientState, v: ServerCfg, comp: Option<Compressor>, m: Msg, verdict: Verdict,
                  rest: seq<ReadResult>)
    requires c.unary && Flowing(s) && Unpacks(c, s, v, comp) && RpcServer.Body(v, comp, m).Some?
    requires InLimit(c, [RpcServer.Body(v, comp, m).value])
    requires s.conn.inbound == Gots([RpcServer.Body(v, comp, m).value]) + [Got(EndEnvelope(v, verdict))] + rest
    requires v.json.endOut(EndStream(verdict.err, verdict.trailers)).Some?
    requires c.json.endIn(EndEnvelope(v, verdict).payload) == Some(EndStream(verdict.err, verdict.trailers))
    ensures var (r, t) := DoReceive(c, s);
      && r == (if verdict.err == None then Message(m) else LastReply(verdict))
      && t.rxEnd && t.respTrailer == s.respTrailer + verdict.trailers
      && t.headersSent && t.headersErr == None && t.headersRead && t.headersReadErr == None
  {
    ReceiveFlowing(c, s);
    var t := s.(conn := ReadEnv(s.conn).1);
    assert s.conn.inbound[0] == Got(RpcServer.Body(v, comp, m).value);
    assert t.conn.inbound[0] == Got(EndEnvelope(v, verdict));
    UnpackInvertsBody(c, t, v, comp, m);
    hide Unpack, RpcServer.Body, DoReceive;
  }

  /** Over a whole stream: if Receive returns messages and then EOF, the connection had carried
      exactly that many message envelopes and then an end-stream envelope without an error. */
  lemma {:induction false} EofMeansComplete(c: ClientCfg, s: ClientState, n: nat)
    requires !c.unary && Flowing(s)
    requires |Receives(c, s, n).0| == n && forall i :: 0 <= i < n ==> Receives(c, s, n).0[i].Message?
    requires DoReceive(c, Receives(c, s, n).1).0 == Fail(Eof)
    ensures n < |s.conn.inbound| && CleanEnd(c, s.conn.inbound[n])
    ensures forall i :: 0 <= i < n ==>
      s.conn.inbound[i].Got? && (s.conn.inbound[i].env.flag == FLAG_DATA || s.conn.inbound[i].env.flag == FLAG_COMPRESSED)
    decreases n
  {
    if n == 0 {
      EofIsSound(c, s);
    } else {
      var (r, t) := DoReceive(c, s);
      ReceivesFirst(c, s, r, t, n - 1);
      assert Receives(c, s, n).0[0] == r;
      MessageTakesOne(c, s);
      var all, later := Receives(c, s, n).0, Receives(c, t, n - 1).0;
      assert all == [r] + later;
      assert forall i :: 0 <= i < |later| ==> later[i] == all[i + 1];
      hide DoReceive, Receives, CleanEnd;
      EofMeansComplete(c, t, n - 1);
      assert forall i :: 0 < i < |s.conn.inbound| ==> s.conn.inbound[i] == t.conn.inbound[i - 1];
    }
  }

  lemma MessageTakesOne(c: ClientCfg, s: ClientState)
    requires !c.unary && Flowing(s) && DoReceive(c, s).0.Message?
    ensures var t := DoReceive(c, s).1;
      && Flowing(t) && s.conn.inbound != [] && t.conn.inbound == s.conn.inbound[1..]
      && s.conn.inbound[0].Got?
      && (s.conn.inbound[0].env.flag == FLAG_DATA || s.conn.inbound[0].env.flag == FLAG_COMPRESSED)
  {
    ReceiveFlowing(c, s);
  }

  /** Requests: every message the client framed reaches the procedure as it was. */
  lemma RequestMessageSurvives(c: ClientCfg, v: ServerCfg, m: Msg)
    requires CodecInverse(c.codec, v.codec) && Pack(c, m).Ready?
    requires v.readMax == 0 || |Pack(c, m).env.payload| <= v.readMax
    requires Pack(c, m).env.flag == FLAG_COMPRESSED ==>
      c.sendCompressor in v.compressors && c.sendCompressor in c.compressors
      && CompressorInverse(c.compressors[c.sendCompressor], v.compressors[c.sendCompressor])
    ensures Decoded(v, RequestHeader(c), Got(Pack(c, m).env)) == (Some(m), None)
  {
    var plain := c.codec.marshal(m).value;
    assert v.codec.unmarshal(plain) == Some(m);
    if Pack(c, m).env.flag == FLAG_COMPRESSED {
      assert Get(RequestHeader(c), CONTENT_ENCODING) == c.sendCompressor;
      assert c.compressors[c.sendCompressor].compress(plain) == Some(Pack(c, m).env.payload);
    }
  }
}
