/** The vocabulary shared by every layer: bytes, envelopes, frames and errors. */
module Wire {

  type byte = b: int | 0 <= b < 0x100
  type Bytes = seq<byte>

  /** A stream ID is an unsigned 32-bit integer. */
  const ID_LIMIT := 0x1_0000_0000
  type StreamId = n: int | 0 <= n < ID_LIMIT

  // Envelope flags are complete byte values, not bit masks.
  const FLAG_DATA: byte := 0x00
  const FLAG_COMPRESSED: byte := 0x01
  const FLAG_END: byte := 0x02
  const FLAG_HEADERS: byte := 0x06
  const FLAG_RESET: byte := 0x07

  datatype Option<+T> = None | Some(value: T)

  datatype Envelope = Envelope(flag: byte, payload: Bytes)

  /** One WebSocket message: an envelope and the stream it belongs to. */
  datatype Frame = Frame(id: StreamId, env: Envelope)

  datatype Error =
    | Eof                    // io.EOF
    | UnexpectedEof          // io.ErrUnexpectedEOF
    | TooLarge               // a payload over a size limit
    | Malformed              // a message that is not exactly one frame
    | ConnClosed             // errConnClosed
    | StreamClosed           // errStreamClosed
    | ContextDone            // a canceled or expired context
    | ResetByPeer            // "stream reset by peer"
    | Unavailable            // the connection broke
    | IdsExhausted           // "stream ID space exhausted"
    | Marshal                // a codec or compressor refused its input
    | Protocol               // "protocol error: ..."
    | ResourceExhausted      // a message over the send or read limit
    | Remote(code: nat, message: string) // an error carried by an end-stream envelope

  const RESET := Envelope(FLAG_RESET, [])

  /** The envelopes a frame list carries for one stream, in order. */
  function Envs(fs: seq<Frame>, id: StreamId): (es: seq<Envelope>)
  {
    if fs == [] then []
    else Envs(fs[..|fs| - 1], id) + (if fs[|fs| - 1].id == id then [fs[|fs| - 1].env] else [])
  }

  lemma EnvsSnoc(fs: seq<Frame>, f: Frame, id: StreamId)
    ensures Envs(fs + [f], id) == Envs(fs, id) + (if f.id == id then [f.env] else [])
  {
    assert (fs + [f])[..|fs|] == fs;
  }

  lemma {:induction false} EnvsConcat(a: seq<Frame>, b: seq<Frame>, id: StreamId)
    ensures Envs(a + b, id) == Envs(a, id) + Envs(b, id)
  {
    if b == [] {
      assert a + b == a;
    } else {
      var n := |b| - 1;
      assert (a + b)[..|a + b| - 1] == a + b[..n];
      EnvsConcat(a, b[..n], id);
    }
  }

  lemma EnvsPrefix(a: seq<Frame>, b: seq<Frame>, id: StreamId)
    requires a <= b
    ensures Envs(a, id) <= Envs(b, id)
  {
    EnvsConcat(a, b[|a|..], id);
    assert b == a + b[|a|..];
  }
}
