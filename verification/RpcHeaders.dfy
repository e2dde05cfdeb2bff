/** The response headers, from the procedure that sets them to the client that reads them. */
module RpcHeaders {
  import opened Wire
  import opened Compression
  import opened Rpc
  import opened RpcServer
  import opened RpcClient

  /** No action before the i-th makes the response headers go out. */
  predicate Early(script: seq<Action>, i: nat) {
    forall j :: 0 <= j < i && j < |script| ==> script[j].SetHeader? || script[j].Receive?
  }

  /** The procedure set this header in time, and to nothing else in time after that. */
  predicate SetInTime(script: seq<Action>, key: string, value: string) {
    exists i: nat :: i < |script| && script[i] == SetHeader(key, value) && Early(script, i)
      && forall j: nat :: i < j < |script| && Early(script, j) ==> !(script[j].SetHeader? && script[j].key == key)
  }

  /** The application's headers are those the procedure set in time, and no others; the content
      type names the server's codec; the encoding is the first the client listed that the server
      knows; what the server accepts is announced; no pseudo-header shows. */
  ghost predicate AreResponseHeaders(v: ServerCfg, names: seq<string>, script: seq<Action>, h: Header) {
    && (forall k, x :: (k == "" || k[0] != ':') && k != CONTENT_TYPE && k != CONTENT_ENCODING && k != ACCEPT_ENCODING ==>
          (k in h && h[k] == x <==> SetInTime(script, k, x)))
    && CONTENT_TYPE in h && h[CONTENT_TYPE] == "application/connect+" + v.codec.name
    && (forall i :: 0 <= i < |names| && names[i] in v.compressors && (forall j :: 0 <= j < i ==> names[j] !in v.compressors) ==>
          CONTENT_ENCODING in h && h[CONTENT_ENCODING] == names[i])
    && ((forall n :: n in names ==> n !in v.compressors) ==>
          forall x :: CONTENT_ENCODING in h && h[CONTENT_ENCODING] == x <==> SetInTime(script, CONTENT_ENCODING, x))
    && (v.accept != "" ==> ACCEPT_ENCODING in h && h[ACCEPT_ENCODING] == v.accept)
    && (v.accept == "" ==>
          forall x :: ACCEPT_ENCODING in h && h[ACCEPT_ENCODING] == x <==> SetInTime(script, ACCEPT_ENCODING, x))
    && (forall k :: k in h ==> k == "" || k[0] != ':')
  }

  /** The procedure's own response headers, as of the headers envelope. */
  function OwnHeader(cfg: ServerCfg, req: Header, script: seq<Action>): Header {
    Headed(cfg, req, Played(cfg, req, script)).own
  }

  // The procedure's side

  lemma SetInTimeSnoc(script: seq<Action>, a: Action, key: string, value: string)
    ensures SetInTime(script + [a], key, value) <==>
      if Early(script, |script|) && a.SetHeader? && a.key == key then a.value == value else SetInTime(script, key, value)
  {
    var more := script + [a];
    assert forall i: nat :: i < |script| ==> more[i] == script[i];
    assert more[|script|] == a;
    forall i: nat | i <= |script| ensures Early(more, i) <==> Early(script, i) {
      assert forall j: nat :: j < i ==> more[j] == script[j];
    }
    if SetInTime(script, key, value) {
      var i: nat :| i < |script| && script[i] == SetHeader(key, value) && Early(script, i)
        && forall j: nat :: i < j < |script| && Early(script, j) ==> !(script[j].SetHeader? && script[j].key == key);
      assert more[i] == SetHeader(key, value);
    }
    if Early(script, |script|) && a == SetHeader(key, value) {
      assert more[|script|] == SetHeader(key, value) && Early(more, |script|);
    }
    if SetInTime(more, key, value) {
      var i: nat :| i < |more| && more[i] == SetHeader(key, value) && Early(more, i)
        && forall j: nat :: i < j < |more| && Early(more, j) ==> !(more[j].SetHeader? && more[j].key == key);
      if i < |script| {
        assert script[i] == SetHeader(key, value);
        assert forall j: nat :: i < j < |script| && Early(script, j) ==> Early(more, j) && more[j] == script[j];
      }
    }
  }

  ghost predicate Holds(h: Header, script: seq<Action>) {
    forall k, x :: k in h && h[k] == x <==> SetInTime(script, k, x)
  }

  /** Where the headers stand: still with the procedure, or gone out. */
  lemma {:induction false} PlayedHeader(cfg: ServerCfg, req: Header, script: seq<Action>)
    ensures var s := Played(cfg, req, script);
      && (s.sent <==> !Early(script, |script|))
      && (if s.sent then Holds(s.own, script) else Holds(s.header, script))
  {
    if script != [] {
      var before, a := script[..|script| - 1], script[|script| - 1];
      PlayedHeader(cfg, req, before);
      assert before + [a] == script;
      ActedSends(cfg, req, Played(cfg, req, before), a);
      hide Acted, Played;
      assert Early(script, |script|) <==> Early(before, |before|) && (a.SetHeader? || a.Receive?);
      forall k, x ensures SetInTime(script, k, x) <==>
          if Early(before, |before|) && a.SetHeader? && a.key == k then a.value == x else SetInTime(before, k, x)
      {
        SetInTimeSnoc(before, a, k, x);
      }
      hide SetInTime, Early;
    }
  }

  lemma ActedSends(cfg: ServerCfg, req: Header, s: Sender, a: Action)
    ensures var t := Acted(cfg, req, s, a);
      && (t.sent <==> s.sent || a.SendHeadersNow? || a.Send?)
      && (t.own == if s.sent || !t.sent then s.own else s.header)
      && (t.header == if a.SetHeader? then s.header[a.key := a.value] else s.header)
  {
    hide Body, HeadersEnvelope, Negotiated;
  }

  lemma OwnHeaderIs(cfg: ServerCfg, req: Header, script: seq<Action>)
    ensures Holds(OwnHeader(cfg, req, script), script)
  {
    PlayedHeader(cfg, req, script);
    hide Played, Holds;
  }

  // The client's side

  /** How a header the client holds comes from the procedure's and the protocol's own. */
  predicate ComesFrom(cfg: ServerCfg, n: Option<string>, own: Header, h: Header, k: string) {
    if k == CONTENT_TYPE then k in h && h[k] == "application/connect+" + cfg.codec.name
    else if k == CONTENT_ENCODING && n.Some? then k in h && h[k] == n.value
    else if k == ACCEPT_ENCODING && cfg.accept != "" then k in h && h[k] == cfg.accept
    else if k != "" && k[0] == ':' then k !in h
    else (k in h <==> k in own) && (k in h ==> h[k] == own[k])
  }

  lemma SurfacedComes(cfg: ServerCfg, req: Header, own: Header, k: string)
    ensures ComesFrom(cfg, NegotiateCompression(Get(req, ACCEPT_ENCODING), cfg.compressors), own,
                      Surfaced(map[], ResponseHeader(cfg, req, own)), k)
  {
    hide NegotiateCompression;
  }

  ghost predicate IsFirstShared(n: Option<string>, names: seq<string>, known: map<string, Compressor>) {
    && (n == None <==> forall m :: m in names ==> m !in known)
    && (n.Some? ==> exists i :: 0 <= i < |names| && names[i] == n.value && names[i] in known
                                && forall j :: 0 <= j < i ==> names[j] !in known)
  }

  lemma NegotiatesFirst(names: seq<string>, known: map<string, Compressor>)
    requires (forall n :: n in names ==> CleanName(n)) && (names != [] || "" !in known)
    ensures IsFirstShared(NegotiateCompression(Join(names), known), names, known)
  {
    if names == [] {
      NothingAdvertised(known);
    } else {
      OwnListIsShared(names, known);
    }
  }

  lemma FirstIsUnique(n: Option<string>, names: seq<string>, known: map<string, Compressor>, i: nat)
    requires IsFirstShared(n, names, known)
    requires i < |names| && names[i] in known && forall j :: 0 <= j < i ==> names[j] !in known
    ensures n == Some(names[i])
  {
    assert names[i] in names;
  }

  lemma HeadersAre(v: ServerCfg, n: Option<string>, names: seq<string>, script: seq<Action>, own: Header, h: Header)
    requires IsFirstShared(n, names, v.compressors) && Holds(own, script)
    requires forall k :: ComesFrom(v, n, own, h, k)
    ensures AreResponseHeaders(v, names, script, h)
  {
    assert ComesFrom(v, n, own, h, CONTENT_TYPE) && ComesFrom(v, n, own, h, CONTENT_ENCODING);
    assert ComesFrom(v, n, own, h, ACCEPT_ENCODING);
    forall i | 0 <= i < |names| && names[i] in v.compressors && forall j :: 0 <= j < i ==> names[j] !in v.compressors
      ensures n == Some(names[i])
    {
      FirstIsUnique(n, names, v.compressors, i);
    }
    hide SetInTime;
    assert CONTENT_TYPE[0] == 'C' && CONTENT_ENCODING[0] == 'C' && ACCEPT_ENCODING[0] == 'C';
    forall k | k in h ensures k == "" || k[0] != ':' {
      assert ComesFrom(v, n, own, h, k);
    }
    forall k, x | (k == "" || k[0] != ':') && k != CONTENT_TYPE && k != CONTENT_ENCODING && k != ACCEPT_ENCODING
      ensures k in h && h[k] == x <==> SetInTime(script, k, x)
    {
      assert ComesFrom(v, n, own, h, k);
    }
  }

  /** What the client surfaces of the server's headers envelope. */
  lemma HeadersArrive(v: ServerCfg, req: Header, names: seq<string>, script: seq<Action>)
    requires Get(req, ACCEPT_ENCODING) == Join(names) && (forall n :: n in names ==> CleanName(n))
    requires names != [] || "" !in v.compressors
    ensures AreResponseHeaders(v, names, script, Surfaced(map[], ResponseHeader(v, req, OwnHeader(v, req, script))))
  {
    var own := OwnHeader(v, req, script);
    hide *;
    OwnHeaderIs(v, req, script);
    NegotiatesFirst(names, v.compressors);
    var n := NegotiateCompression(Join(names), v.compressors);
    forall k ensures ComesFrom(v, n, own, Surfaced(map[], ResponseHeader(v, req, own)), k) {
      SurfacedComes(v, req, own, k);
    }
    HeadersAre(v, n, names, script, own, Surfaced(map[], ResponseHeader(v, req, own)));
  }

  /** Later receives leave the response headers alone. */
  lemma ReceiveKeepsHeaders(c: ClientCfg, s: ClientState)
    requires s.headersRead
    ensures DoReceive(c, s).1.respHeader == s.respHeader && DoReceive(c, s).1.headersRead
  {
    var t := DoSendHeaders(c, s);
    assert t.headersRead && t.respHeader == s.respHeader;
    hide DoSendHeaders;
    assert DoRecvHeaders(c, t) == t;
    BodyKeepsLatches(c, t);
    hide DoReceiveBody, DoRecvHeaders;
  }
}
