/** The server's half of an RPC: HandleRPC and the stream it hands to the procedure. */
module RpcServer {
  import opened Wire
  import opened Compression
  import opened Rpc

  datatype ServerCfg = ServerCfg(
    json: Json, codec: Codec, compressors: map<string, Compressor>, accept: string,
    sendMax: nat, readMax: nat)

  /** What a procedure may do, in any order and any number, before it returns. */
  datatype Action = SetHeader(key: string, value: string) | SendHeadersNow | Send(m: Msg) | Receive

  datatype Verdict = Verdict(err: Option<Fault>, trailers: Header)

  // The words a server writes when nothing fails

  /** `own` and `msgs` are history: the procedure's headers when the headers envelope was
      written, and the messages that became envelopes. */
  datatype Sender = Sender(
    header: Header, sent: bool, comp: Option<Compressor>, frames: seq<Envelope>, own: Header, msgs: seq<Msg>)

  function Negotiated(cfg: ServerCfg, req: Header): Option<Compressor> {
    match NegotiateCompression(Get(req, ACCEPT_ENCODING), cfg.compressors)
    case None => None
    case Some(name) => if name in cfg.compressors then Some(cfg.compressors[name]) else None
  }

  /** The response headers: the handler's own, the content type, and the encodings. */
  function ResponseHeader(cfg: ServerCfg, req: Header, own: Header): Header {
    var h := own[CONTENT_TYPE := "application/connect+" + cfg.codec.name];
    var n := NegotiateCompression(Get(req, ACCEPT_ENCODING), cfg.compressors);
    var h' := if n.Some? then h[CONTENT_ENCODING := n.value] else h;
    if cfg.accept != "" then h'[ACCEPT_ENCODING := cfg.accept] else h'
  }

  function HeadersEnvelope(cfg: ServerCfg, req: Header, own: Header): Envelope {
    Envelope(FLAG_HEADERS, cfg.json.headersOut(ResponseHeader(cfg, req, own)))
  }

  function Headed(cfg: ServerCfg, req: Header, s: Sender): Sender {
    if s.sent then s
    else s.(sent := true, comp := Negotiated(cfg, req), own := s.header,
            frames := s.frames + [HeadersEnvelope(cfg, req, s.header)])
  }

  /** The envelope of a message, unless it does not marshal, compress or fit. */
  function Body(cfg: ServerCfg, comp: Option<Compressor>, m: Msg): Option<Envelope> {
    match cfg.codec.marshal(m)
    case None => None
    case Some(plain) =>
      var packed := if comp.Some? then comp.value.compress(plain) else Some(plain);
      if packed == None || (cfg.sendMax > 0 && |packed.value| > cfg.sendMax) then None
      else Some(Envelope(if comp.Some? then FLAG_COMPRESSED else FLAG_DATA, packed.value))
  }

  function Acted(cfg: ServerCfg, req: Header, s: Sender, a: Action): Sender {
    match a
    case SetHeader(k, v) => s.(header := s.header[k := v])
    case SendHeadersNow => Headed(cfg, req, s)
    case Receive => s
    case Send(m) =>
      var t := Headed(cfg, req, s);
      match Body(cfg, t.comp, m)
      case None => t
      case Some(env) => t.(frames := t.frames + [env], msgs := t.msgs + [m])
  }

  function Played(cfg: ServerCfg, req: Header, script: seq<Action>): Sender {
    if script == [] then Sender(map[], false, None, [], map[], [])
    else Acted(cfg, req, Played(cfg, req, script[..|script| - 1]), script[|script| - 1])
  }

  function EndEnvelope(cfg: ServerCfg, v: Verdict): Envelope {
    var p := cfg.json.endOut(EndStream(v.err, v.trailers));
    Envelope(FLAG_END, if p.Some? then p.value else [])
  }

  /** Everything a server writes for an RPC whose procedure acts and ends like this. */
  function ResponseWord(cfg: ServerCfg, req: Header, script: seq<Action>, v: Verdict): seq<Envelope> {
    Headed(cfg, req, Played(cfg, req, script)).frames + [EndEnvelope(cfg, v)]
  }

  // The stream object

  class ServerStream {
    const cfg: ServerCfg
    const req: Header
    const conn: Conn
    var header: Header
    var headersSent: bool               // the once-latch of SendHeaders
    var headersErr: Option<Error>
    var comp: Option<Compressor>

    constructor (cfg: ServerCfg, req: Header, conn: Conn)
      ensures this.cfg == cfg && this.req == req && this.conn == conn
      ensures header == map[] && !headersSent && headersErr == None && comp == None
    {
      this.cfg, this.req, this.conn := cfg, req, conn;
      header, headersSent, headersErr, comp := map[], false, None, None;
    }

    /** This stream is where the unhindered sender s would be, except that only the first
        `budget` of its frames, counted from `base`, made it out. */
    ghost predicate Tracks(s: Sender, base: seq<Envelope>, budget: nat)
      reads this, conn
    {
      && header == s.header && headersSent == s.sent && comp == s.comp && (!s.sent ==> s.comp == None)
      && !conn.state.closed
      && conn.state.written == base + Upto(s.frames, budget)
      && conn.state.budget == (if |s.frames| <= budget then budget - |s.frames| else 0)
      && (headersErr.Some? ==> conn.state.budget == 0)
    }

    method Write(env: Envelope, ghost s: Sender, ghost base: seq<Envelope>, ghost budget: nat) returns (err: Option<Error>)
      requires Tracks(s, base, budget)
      modifies conn
      ensures Tracks(s.(frames := s.frames + [env]), base, budget)
      ensures err.Some? ==> conn.state.budget == 0
      ensures err == if |s.frames| < budget then None else Some(conn.state.writeErr)
      ensures conn.state.inbound == old(conn.state.inbound)
      ensures conn.state.written == old(conn.state.written) + (if err == None then [env] else [])
    {
      UptoSnoc(s.frames, env, budget);
      err := conn.WriteEnvelope(env);
    }

    method SendHeaders(ghost s: Sender, ghost base: seq<Envelope>, ghost budget: nat) returns (err: Option<Error>)
      requires Tracks(s, base, budget)
      modifies this, conn
      ensures Tracks(Headed(cfg, req, s), base, budget) && err == headersErr && headersSent && header == old(header)
      ensures conn.state.inbound == old(conn.state.inbound)
      // once, and the first outcome sticks
      ensures old(headersSent) ==>
        err == old(headersErr) && comp == old(comp) && conn.state.written == old(conn.state.written)
      ensures !old(headersSent) ==>
        var n := NegotiateCompression(Get(req, ACCEPT_ENCODING), cfg.compressors);
        && comp == (if n.Some? then Some(cfg.compressors[n.value]) else None)
        && conn.state.written == old(conn.state.written) + (if err == None then [HeadersEnvelope(cfg, req, header)] else [])
        && (err.Some? <==> old(conn.state.budget) == 0)
        && (err.Some? ==> err == Some(conn.state.writeErr))
    {
      if !headersSent {
        var h := header[CONTENT_TYPE := "application/connect+" + cfg.codec.name];
        var n := NegotiateCompression(Get(req, ACCEPT_ENCODING), cfg.compressors);
        if n.Some? && n.value in cfg.compressors {
          comp := Some(cfg.compressors[n.value]);
          h := h[CONTENT_ENCODING := n.value];
        }
        if cfg.accept != "" {
          h := h[ACCEPT_ENCODING := cfg.accept];
        }
        headersSent := true;
        headersErr := Write(Envelope(FLAG_HEADERS, cfg.json.headersOut(h)),
                            s.(sent := true, comp := Negotiated(cfg, req), own := s.header), base, budget);
      }
      err := headersErr;
    }

    method Send(m: Msg, ghost s: Sender, ghost base: seq<Envelope>, ghost budget: nat) returns (err: Option<Error>)
      requires Tracks(s, base, budget)
      modifies this, conn
      ensures Tracks(Acted(cfg, req, s, Action.Send(m)), base, budget)
      ensures headersSent && header == old(header)
      ensures headersErr.Some? ==> err == headersErr && conn.state.written == old(conn.state.written)
      // after the headers the message goes out whole, or nothing does, and why
      ensures headersErr == None ==>
        var head := old(conn.state.written) + (if old(headersSent) then [] else [HeadersEnvelope(cfg, req, header)]);
        var plain := cfg.codec.marshal(m);
        var payload := if plain.Some? && comp.Some? then comp.value.compress(plain.value) else plain;
        && (payload == None ==> err == Some(Marshal))
        && (payload.Some? && 0 < cfg.sendMax < |payload.value| ==> err == Some(ResourceExhausted))
        && (payload.Some? && (cfg.sendMax == 0 || |payload.value| <= cfg.sendMax) ==>
              if conn.state.written == head then conn.state.budget == 0 && err == Some(conn.state.writeErr)
              else
                conn.state.written == head + [Envelope(if comp.Some? then FLAG_COMPRESSED else FLAG_DATA, payload.value)]
                && err == None)
        && (err.Some? <==> conn.state.written == head)
    {
      err := SendHeaders(s, base, budget);
      ghost var t := Headed(cfg, req, s);
      if err.Some? {
        var env := Body(cfg, comp, m);
        if env.Some? {
          UptoSnoc(t.frames, env.value, budget);
        }
        return;
      }
      var payload := cfg.codec.marshal(m);
      if payload == None {
        return Some(Marshal);
      }
      var flag := FLAG_DATA;
      if comp.Some? {
        payload := comp.value.compress(payload.value);
        if payload == None {
          return Some(Marshal);
        }
        flag := FLAG_COMPRESSED;
      }
      if cfg.sendMax > 0 && |payload.value| > cfg.sendMax {
        return Some(ResourceExhausted);
      }
      err := Write(Envelope(flag, payload.value), t.(msgs := t.msgs + [m]), base, budget);
    }

    /** Reads the next request message; nothing is written. */
    method Receive() returns (m: Option<Msg>, err: Option<Error>)
      modifies conn
      ensures conn.state == ReadEnv(old(conn.state)).1
      ensures (m, err) == Decoded(cfg, req, ReadEnv(old(conn.state)).0) && (m == None <==> err.Some?)
      ensures var r := ReadEnv(old(conn.state)).0;
        && (r.Failed? ==> err == Some(r.err))
        // EOF is the half-close, explicit or the connection's own
        && (err == Some(Eof) <==> r == Failed(Eof) || (r.Got? && r.env.flag == FLAG_END))
        && (r.Got? && r.env.flag != FLAG_END && r.env.flag != FLAG_DATA && r.env.flag != FLAG_COMPRESSED ==>
              err == Some(Protocol))
        && (r.Got? && (r.env.flag == FLAG_DATA || r.env.flag == FLAG_COMPRESSED) ==>
              var encoding := Get(req, CONTENT_ENCODING);
              if 0 < cfg.readMax < |r.env.payload| then err == Some(ResourceExhausted)
              else if r.env.flag == FLAG_COMPRESSED && encoding !in cfg.compressors then err == Some(Protocol)
              else
                var plain := if r.env.flag == FLAG_DATA then Some(r.env.payload)
                             else cfg.compressors[encoding].decompress(r.env.payload);
                if plain.Some? && cfg.codec.unmarshal(plain.value).Some? then m == cfg.codec.unmarshal(plain.value)
                else err == Some(Marshal))
    {
      var r := conn.ReadEnvelope();
      if r.Failed? {
        return None, Some(r.err);
      }
      var flag, payload := r.env.flag, Some(r.env.payload);
      if flag == FLAG_HEADERS {
        return None, Some(Protocol);
      }
      if flag == FLAG_END {
        return None, Some(Eof);
      }
      if flag != FLAG_DATA && flag != FLAG_COMPRESSED {
        return None, Some(Protocol);
      }
      if cfg.readMax > 0 && |payload.value| > cfg.readMax {
        return None, Some(ResourceExhausted);
      }
      if flag == FLAG_COMPRESSED {
        if Get(req, CONTENT_ENCODING) !in cfg.compressors {
          return None, Some(Protocol);
        }
        payload := cfg.compressors[Get(req, CONTENT_ENCODING)].decompress(payload.value);
        if payload == None {
          return None, Some(Marshal);
        }
      }
      m := cfg.codec.unmarshal(payload.value);
      err := if m == None then Some(Marshal) else None;
    }
  }

  /** What one envelope of a request means to the procedure. */
  function Decoded(cfg: ServerCfg, req: Header, r: ReadResult): (Option<Msg>, Option<Error>) {
    match r
    case Failed(e) => (None, Some(e))
    case Got(env) =>
      if env.flag == FLAG_END then (None, Some(Eof))
      else if env.flag != FLAG_DATA && env.flag != FLAG_COMPRESSED then (None, Some(Protocol))
      else if cfg.readMax > 0 && |env.payload| > cfg.readMax then (None, Some(ResourceExhausted))
      else if env.flag == FLAG_COMPRESSED && Get(req, CONTENT_ENCODING) !in cfg.compressors then (None, Some(Protocol))
      else
        var plain := if env.flag == FLAG_COMPRESSED
                     then cfg.compressors[Get(req, CONTENT_ENCODING)].decompress(env.payload)
                     else Some(env.payload);
        if plain == None then (None, Some(Marshal))
        else
          var m := cfg.codec.unmarshal(plain.value);
          (m, if m == None then Some(Marshal) else None)
  }

  /** The request headers, if the stream opens the way a request must. */
  function Opening(cfg: ServerCfg, r: ReadResult): Option<Header> {
    if r.Failed? || r.env.flag != FLAG_HEADERS then None
    else
      var h := cfg.json.headersIn(r.env.payload);
      if h.Some? && Get(h.value, PATH) != "" then h else None
  }

  /** Serves one RPC. A stream that does not open with usable request headers gets no answer.
      Otherwise the response word is written, as far as the connection lets it. */
  method HandleRPC(cfg: ServerCfg, conn: Conn, script: seq<Action>, verdict: Verdict)
    requires !conn.state.closed
    modifies conn
    ensures var r := ReadEnv(old(conn.state)).0;
      var h := if r.Got? && r.env.flag == FLAG_HEADERS then cfg.json.headersIn(r.env.payload) else None;
      if h == None || PATH !in h.value || h.value[PATH] == "" then
        conn.state.written == old(conn.state.written)
      else
        var word := ResponseWord(cfg, h.value, script, verdict);
        && conn.state.written == old(conn.state.written) + Upto(word, old(conn.state.budget))
        && word[|word| - 1].flag == FLAG_END
        && var p := cfg.json.endOut(EndStream(verdict.err, verdict.trailers));
           word[|word| - 1].payload == if p.Some? then p.value else []
  {
    ghost var base, budget := conn.state.written, conn.state.budget;
    var r := conn.ReadEnvelope();
    var req := Opening(cfg, r);
    if req == None {
      assert conn.state.written == base + [];
      return;
    }
    var stream := new ServerStream(cfg, req.value, conn);
    assert base + Upto([], budget) == base;
    for i := 0 to |script|
      invariant stream.cfg == cfg && stream.req == req.value && stream.conn == conn
      invariant stream.Tracks(Played(cfg, req.value, script[..i]), base, budget)
    {
      assert script[..i + 1][..i] == script[..i];
      ghost var s := Played(cfg, req.value, script[..i]);
      match script[i]
      case SetHeader(k, v) => stream.header := stream.header[k := v];
      case SendHeadersNow => var _ := stream.SendHeaders(s, base, budget);
      case Send(m) => var _ := stream.Send(m, s, base, budget);
      case Receive => var _, _ := stream.Receive();
    }
    assert script[..|script|] == script;
    ghost var s := Played(cfg, req.value, script);
    var _ := stream.SendHeaders(s, base, budget);
    var p := cfg.json.endOut(EndStream(verdict.err, verdict.trailers));
    var _ := stream.Write(Envelope(FLAG_END, if p.Some? then p.value else []), Headed(cfg, req.value, s), base, budget);
  }

  // Response grammar

  /** Headers once, then messages that are all plain or all compressed, then end-stream once. */
  predicate IsResponse(w: seq<Envelope>, compressed: bool) {
    && |w| >= 2 && w[0].flag == FLAG_HEADERS && w[|w| - 1].flag == FLAG_END
    && forall i :: 0 < i < |w| - 1 ==> w[i].flag == if compressed then FLAG_COMPRESSED else FLAG_DATA
  }

  predicate Uniform(w: seq<Envelope>, compressed: bool) {
    forall i :: 0 < i < |w| ==> w[i].flag == if compressed then FLAG_COMPRESSED else FLAG_DATA
  }

  ghost predicate IsBegun(cfg: ServerCfg, req: Header, s: Sender) {
    if s.sent then
      && s.comp == Negotiated(cfg, req)
      && s.frames != [] && s.frames[0].flag == FLAG_HEADERS && Uniform(s.frames, s.comp.Some?)
    else
      s.frames == [] && s.comp == None
  }

  lemma {:induction false} PlayedIsBegun(cfg: ServerCfg, req: Header, script: seq<Action>)
    ensures IsBegun(cfg, req, Played(cfg, req, script))
  {
    if script != [] {
      var before := script[..|script| - 1];
      PlayedIsBegun(cfg, req, before);
      BegunStep(cfg, req, Played(cfg, req, before), script[|script| - 1]);
      hide IsBegun, Acted;
    }
  }

  lemma BegunStep(cfg: ServerCfg, req: Header, s: Sender, a: Action)
    requires IsBegun(cfg, req, s)
    ensures IsBegun(cfg, req, Acted(cfg, req, s, a))
  {
    hide Negotiated;
  }

  /** Whatever the procedure does, the response is a word of the grammar, and on a failing
      connection a prefix of one. */
  lemma ResponseGrammar(cfg: ServerCfg, req: Header, script: seq<Action>, v: Verdict)
    ensures IsResponse(ResponseWord(cfg, req, script, v), Negotiated(cfg, req).Some?)
  {
    PlayedIsBegun(cfg, req, script);
  }
}
