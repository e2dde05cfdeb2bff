/** What both ends of one RPC share: headers, codecs and the Conn they talk through. */
module Rpc {
  import opened Wire
  import opened Compression

  type Header = map<string, string>

  const CONTENT_TYPE := "Content-Type"
  const CONTENT_ENCODING := "Connect-Content-Encoding"
  const ACCEPT_ENCODING := "Connect-Accept-Encoding"
  const PATH := ":path"
  const IDENTITY := "identity"

  function Get(h: Header, k: string): string {
    if k in h then h[k] else ""
  }

  /** A decoded message. */
  type Msg = Bytes

  datatype Codec = Codec(name: string, marshal: Msg -> Option<Bytes>, unmarshal: Bytes -> Option<Msg>)

  /** The error object of an end-stream envelope. */
  datatype Fault = Fault(code: nat, message: string)

  datatype EndStream = EndStream(err: Option<Fault>, trailers: Header)

  /** The JSON forms of headers and end-stream payloads. Headers always marshal. */
  datatype Json = Json(
    headersOut: Header -> Bytes, headersIn: Bytes -> Option<Header>,
    endOut: EndStream -> Option<Bytes>, endIn: Bytes -> Option<EndStream>)

  /** What ReadEnvelope returns. */
  datatype ReadResult = Got(env: Envelope) | Failed(err: Error)

  /** A connection as one RPC sees it. `inbound` is what the peer and the network still hold in
      store, `budget` how many writes still succeed: a failure to write is final. */
  datatype ConnState = ConnState(
    inbound: seq<ReadResult>, last: Error, budget: nat, writeErr: Error,
    written: seq<Envelope>, rxEnd: bool, closed: bool, dedicated: bool)

  function ReadEnv(c: ConnState): (ReadResult, ConnState) {
    if c.inbound == [] then (Failed(c.last), c)
    else
      var r := c.inbound[0];
      (r, c.(inbound := c.inbound[1..], rxEnd := c.rxEnd || (r.Got? && r.env.flag == FLAG_END)))
  }

  function WriteEnv(c: ConnState, env: Envelope): (Option<Error>, ConnState) {
    if c.closed then (Some(StreamClosed), c)
    else if c.budget == 0 then (Some(c.writeErr), c)
    else (None, c.(budget := c.budget - 1, written := c.written + [env]))
  }

  /** Releasing the stream writes a reset past the closed check, unless the peer finished it or
      the connection is its own. */
  function CloseConn(c: ConnState): ConnState {
    var d := c.(closed := true);
    if c.dedicated || c.rxEnd || c.budget == 0 then d
    else d.(budget := c.budget - 1, written := c.written + [RESET])
  }

  /** bidiprotocol.Conn, with the connection's future as its state. */
  class Conn {
    var state: ConnState

    constructor (state: ConnState)
      ensures this.state == state
    {
      this.state := state;
    }

    method ReadEnvelope() returns (r: ReadResult)
      modifies this
      ensures (r, state) == ReadEnv(old(state))
      ensures old(state).inbound == [] ==> r == Failed(old(state).last) && state == old(state)
      ensures old(state).inbound != [] ==> r == old(state).inbound[0] && state.inbound == old(state).inbound[1..]
      ensures state.rxEnd <==> old(state).rxEnd || (r.Got? && r.env.flag == FLAG_END)
      ensures state == old(state).(inbound := state.inbound, rxEnd := state.rxEnd)
    {
      if state.inbound == [] {
        return Failed(state.last);
      }
      r := state.inbound[0];
      state := state.(inbound := state.inbound[1..]);
      if r.Got? && r.env.flag == FLAG_END {
        state := state.(rxEnd := true);
      }
    }

    method WriteEnvelope(env: Envelope) returns (err: Option<Error>)
      modifies this
      ensures (err, state) == WriteEnv(old(state), env)
      ensures err == None <==> !old(state).closed && old(state).budget > 0
      ensures err == None ==>
        state == old(state).(written := old(state).written + [env], budget := old(state).budget - 1)
      ensures err.Some? ==> state == old(state) && err == Some(if state.closed then StreamClosed else state.writeErr)
    {
      if state.closed {
        return Some(StreamClosed);
      }
      if state.budget == 0 {
        return Some(state.writeErr);
      }
      state := state.(budget := state.budget - 1, written := state.written + [env]);
      return None;
    }

    /** Half-close: an explicit end-stream envelope with no payload. */
    method CloseSend() returns (err: Option<Error>)
      modifies this
      ensures (err, state) == WriteEnv(old(state), Envelope(FLAG_END, []))
      ensures state.written == old(state).written + (if err == None then [Envelope(FLAG_END, [])] else [])
      ensures err.Some? ==> (state.closed || state.budget == 0)
                            && err == Some(if state.closed then StreamClosed else state.writeErr)
    {
      err := WriteEnvelope(Envelope(FLAG_END, []));
    }

    method Close()
      modifies this
      ensures state == CloseConn(old(state)) && state.closed
      ensures var resets := !old(state).dedicated && !old(state).rxEnd && old(state).budget > 0;
        && state.written == old(state).written + (if resets then [Envelope(FLAG_RESET, [])] else [])
        && state == old(state).(closed := true, written := state.written,
                                budget := old(state).budget - (if resets then 1 else 0))
    {
      var finished := state.rxEnd;
      state := state.(closed := true);
      if !state.dedicated && !finished && state.budget > 0 {
        state := state.(budget := state.budget - 1, written := state.written + [RESET]);
      }
    }
  }

  /** The first n envelopes, or all of them. */
  function Upto(w: seq<Envelope>, n: nat): seq<Envelope> {
    if n <= |w| then w[..n] else w
  }

  lemma UptoSnoc(w: seq<Envelope>, env: Envelope, n: nat)
    ensures Upto(w + [env], n) == Upto(w, n) + (if |w| < n then [env] else [])
  {}
}
