/** The RPC round trips over the multiplexed connection, whatever else the connection carries
    and however its threads interleave. */
module RpcOverMux {
  import opened Wire
  import opened MuxMachine
  import opened MuxSafety
  import opened EndToEnd
  import opened SystemRuns
  import opened Rpc
  import opened RpcServer
  import opened RpcClient
  import G = RpcGrammar
  import opened RpcRoundTrip
  import opened RpcHeaders
  import opened RpcRequests

  /** A word that ends with its only end-stream. */
  predicate EndsOnce(w: seq<Envelope>) {
    w != [] && forall i :: 0 <= i < |w| ==> (w[i].flag == FLAG_END <==> i == |w| - 1)
  }

  /** Whoever has read an end-stream of such a word has read all of it. */
  lemma EndMeansAll(got: seq<Envelope>, put: seq<Envelope>, w: seq<Envelope>)
    requires got <= put <= w && EndsOnce(w) && HasEnd(got)
    ensures got == w
  {
    var i :| 0 <= i < |got| && got[i].flag == FLAG_END;
    assert w[i] == got[i];
  }

  lemma ResponseEndsOnce(v: ServerCfg, req: Header, script: seq<RpcServer.Action>, verdict: Verdict)
    ensures EndsOnce(ResponseWord(v, req, script, verdict))
  {
    ResponseGrammar(v, req, script, verdict);
    hide ResponseWord;
  }

  /** A client's stream and the server's stream for it, at some point of a disciplined run. */
  ghost predicate Joined(xs: seq<Step>, q: Ptr, p: Ptr) {
    && Disciplined(xs)
    && var s := After(Start(), xs);
       q in s.client.objs && p in s.server.objs && p.id == q.id
  }

  /** If the server's stream has written (part of) an RPC's response, and the client's has read
      an end-stream, then the client has read exactly that response. */
  lemma WholeResponse(xs: seq<Step>, q: Ptr, p: Ptr, v: ServerCfg, req: Header, script: seq<RpcServer.Action>, verdict: Verdict)
    requires Joined(xs, q, p)
    requires After(Start(), xs).server.objs[p].put <= ResponseWord(v, req, script, verdict)
    requires HasEnd(After(Start(), xs).client.objs[q].got)
    ensures After(Start(), xs).client.objs[q].got == ResponseWord(v, req, script, verdict)
  {
    EveryResponseIsFifo(xs, q);
    ResponseEndsOnce(v, req, script, verdict);
    var s := After(Start(), xs);
    hide Disciplined, After, ResponseWord, EndsOnce, HasEnd;
    EndMeansAll(s.client.objs[q].got, s.server.objs[p].put, ResponseWord(v, req, script, verdict));
  }

  /** The streaming round trip over the multiplexed connection. */
  lemma StreamingOverMux(xs: seq<Step>, q: Ptr, p: Ptr, c: ClientCfg, v: ServerCfg, names: seq<string>,
                         script: seq<RpcServer.Action>, verdict: Verdict, conn: ConnState, rest: seq<ReadResult>, k: nat)
    requires Joined(xs, q, p)
    requires After(Start(), xs).server.objs[p].put <= ResponseWord(v, RequestHeader(c), script, verdict)
    requires HasEnd(After(Start(), xs).client.objs[q].got)
    requires !c.unary && Matched(c, v, names, script, verdict)
    requires Answered(c, conn, After(Start(), xs).client.objs[q].got, rest)
    ensures var ms := Sent(v, Negotiated(v, RequestHeader(c)), script);
      var (replies, t) := Receives(c, Fresh(conn), |ms| + 1 + k);
      && replies == Replies(ms) + [LastReply(verdict)] + Eofs(k) && t.respTrailer == verdict.trailers
      && AreResponseHeaders(v, names, script, t.respHeader)
  {
    hide *;
    WholeResponse(xs, q, p, v, RequestHeader(c), script, verdict);
    StreamingRoundTrip(c, v, names, script, verdict, conn, rest, k);
  }

  /** The unary round trip over the multiplexed connection. */
  lemma UnaryOverMux(xs: seq<Step>, q: Ptr, p: Ptr, c: ClientCfg, v: ServerCfg, names: seq<string>,
                     script: seq<RpcServer.Action>, verdict: Verdict, conn: ConnState, rest: seq<ReadResult>, k: nat)
    requires Joined(xs, q, p)
    requires After(Start(), xs).server.objs[p].put <= ResponseWord(v, RequestHeader(c), script, verdict)
    requires HasEnd(After(Start(), xs).client.objs[q].got)
    requires c.unary && Matched(c, v, names, script, verdict)
    requires Answered(c, conn, After(Start(), xs).client.objs[q].got, rest)
    ensures var ms := Sent(v, Negotiated(v, RequestHeader(c)), script);
      var (replies, t) := Receives(c, Fresh(conn), |ms| / 2 + 1 + k);
      && replies == UnaryReplies(ms, verdict, k) && t.rxEnd && t.respTrailer == verdict.trailers
      && AreResponseHeaders(v, names, script, t.respHeader)
  {
    hide *;
    WholeResponse(xs, q, p, v, RequestHeader(c), script, verdict);
    UnaryRoundTrip(c, v, names, script, verdict, conn, rest, k);
  }

  // Requests

  lemma {:induction false} PacksAreMessages(c: ClientCfg, ms: seq<Msg>)
    ensures forall i :: 0 <= i < |Packs(c, ms)| ==>
      Packs(c, ms)[i].flag == FLAG_DATA || Packs(c, ms)[i].flag == FLAG_COMPRESSED
  {
    if ms != [] {
      G.PackFlag(c, ms[0]);
      hide Pack;
      PacksAreMessages(c, ms[1..]);
    }
  }

  /** A request word ends with its only end-stream. */
  lemma WordEndsOnce(c: ClientCfg, o: G.Order, ms: seq<Msg>)
    requires o.headers && o.closed
    ensures EndsOnce(Word(c, o, ms)) && Word(c, o, ms)[0].flag == FLAG_HEADERS
  {
    PacksAreMessages(c, ms);
    var w, ps := Word(c, o, ms), Packs(c, ms);
    hide Packs;
    assert w == [RequestHeaders(c)] + ps + [HALF_CLOSE];
    assert forall i :: 0 <= i < |w| ==> w[i] == if i == 0 then RequestHeaders(c) else if i <= |ps| then ps[i - 1] else HALF_CLOSE;
  }

  /** A reader of a longer list that has read an end-stream has read the whole word. */
  lemma EndMeansWord(got: seq<Envelope>, put: seq<Envelope>, w: seq<Envelope>)
    requires got <= put && w <= put && EndsOnce(w) && HasEnd(got)
    ensures w <= got
  {
    var i :| 0 <= i < |got| && got[i].flag == FLAG_END;
    assert put[i] == got[i];
    if i < |w| {
      assert w[i] == put[i];
    }
  }

  /** If the client's stream has written (part of) what calls in good order and with a half-close
      write, and the server's has read an end-stream, then the server has read that word. */
  lemma WholeRequest(xs: seq<Step>, q: Ptr, p: Ptr, c: ClientCfg, conn: ConnState, calls: seq<G.Call>)
    requires Joined(xs, q, p) && G.Untouched(conn) && conn.budget >= 2 * |calls|
    requires G.Ordered(c, calls).ok && G.Ordered(c, calls).closed
    requires After(Start(), xs).client.objs[q].put <= G.AllCalled(c, Fresh(conn), calls).conn.written
    requires HasEnd(After(Start(), xs).server.objs[p].got)
    ensures G.Ordered(c, calls).headers
    ensures Word(c, G.Ordered(c, calls), Framed(c, calls)) <= After(Start(), xs).server.objs[p].got
  {
    EveryRequestIsFifo(xs, p, q);
    CallsTell(c, conn, calls);
    var o, ms := G.Ordered(c, calls), Framed(c, calls);
    assert o.headers;
    var s := After(Start(), xs);
    var put, got, all := s.client.objs[q].put, s.server.objs[p].got, G.AllCalled(c, Fresh(conn), calls).conn.written;
    assert Word(c, o, ms) <= all;
    hide *;
    WordEndsOnce(c, o, ms);
    HeadersAtOnce(put, all, Word(c, o, ms));
    assert got <= all;
    EndMeansWord(got, all, Word(c, o, ms));
  }

  lemma HeadersAtOnce(put: seq<Envelope>, all: seq<Envelope>, w: seq<Envelope>)
    requires put <= all && w <= all && EndsOnce(w) && w[0].flag == FLAG_HEADERS
    ensures FromHeaders(put) == put
  {
    assert put != [] ==> put[0] == w[0];
  }

  /** The request round trip over the multiplexed connection. */
  lemma RequestOverMux(xs: seq<Step>, q: Ptr, p: Ptr, c: ClientCfg, v: ServerCfg, conn: ConnState, calls: seq<G.Call>,
                       at: ConnState, rest: seq<ReadResult>)
    requires Joined(xs, q, p) && G.Untouched(conn) && conn.budget >= 2 * |calls|
    requires G.Ordered(c, calls).ok && G.Ordered(c, calls).closed
    requires After(Start(), xs).client.objs[q].put <= G.AllCalled(c, Fresh(conn), calls).conn.written
    requires HasEnd(After(Start(), xs).server.objs[p].got)
    requires Understood(c, v, Framed(c, calls)) && c.procedure != ""
    requires v.json.headersIn(c.json.headersOut(RequestHeader(c))) == Some(RequestHeader(c))
    requires at.inbound == Gots(After(Start(), xs).server.objs[p].got) + rest
    ensures var (r, d) := ReadEnv(at);
      && Opening(v, r) == Some(RequestHeader(c)) && IsRequestHeader(c, RequestHeader(c))
      && Takes(v, RequestHeader(c), d, |Framed(c, calls)| + 1) == Taken(Framed(c, calls)) + [(None, Some(Eof))]
  {
    var got := After(Start(), xs).server.objs[p].got;
    hide *;
    WholeRequest(xs, q, p, c, conn, calls);
    ArrivedRequestRoundTrip(c, v, calls, got, at, rest);
  }
}
