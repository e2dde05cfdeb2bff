/** The WebSocket message: a 4-byte stream ID and one whole envelope, as the Go code and the
    TypeScript code each write and read it. */
module StreamFrames {
  import opened Wire
  import opened ByteStream

  const ID_LEN := 4
  const FRAME_HEAD := ID_LEN + HEAD

  /** The bytes of a frame. */
  function FrameBytes(f: Frame): Bytes
    requires Encodable(f.env)
  {
    U32(f.id) + Encode(f.env)
  }

  // Go

  method PutUint32(buf: array<byte>, off: nat, n: int)
    requires off + 4 <= buf.Length && 0 <= n <= MAX_U32
    modifies buf
    ensures buf[..] == old(buf[..off]) + U32(n) + old(buf[off + 4..])
  {
    var b := U32(n);
    buf[off], buf[off + 1], buf[off + 2], buf[off + 3] := b[0], b[1], b[2], b[3];
  }

  /** writeFrame: the message it hands to the socket, or none for an oversized payload. */
  method WriteFrame(f: Frame) returns (msg: Option<Bytes>)
    ensures msg == if Encodable(f.env) then Some(FrameBytes(f)) else None
  {
    if |f.env.payload| > MAX_U32 {
      return None;
    }
    var head := new byte[FRAME_HEAD];
    PutUint32(head, 0, f.id);
    head[4] := f.env.flag;
    PutUint32(head, 5, |f.env.payload|);
    assert head[..] == U32(f.id) + Head(f.env);
    var data := head[..];
    if |f.env.payload| > 0 {
      data := data + f.env.payload;
    }
    assert data == FrameBytes(f);
    return Some(data);
  }

  /** readFrame on a binary message. */
  function ReadFrame(data: Bytes): Option<Frame> {
    if |data| < FRAME_HEAD then None
    else if FromU32(data[5..9]) != |data| - FRAME_HEAD then None
    else Some(Frame(FromU32(data[0..4]), Envelope(data[4], data[FRAME_HEAD..])))
  }

  // TypeScript

  datatype StreamFrame = StreamFrame(streamId: StreamId, flag: byte, envelope: Bytes)

  function DecodeStreamFrame(message: Bytes): Option<StreamFrame> {
    if |message| < ID_LEN + HEAD then None
    else
      var streamId, flag := FromU32(message[..ID_LEN]), message[ID_LEN];
      var declared := FromU32(message[ID_LEN + 1..ID_LEN + 5]);
      if declared != |message| - ID_LEN - HEAD then None
      else Some(StreamFrame(streamId, flag, message[ID_LEN..]))
  }

  /** encodeStreamFrame, and prefixStreamId: a DataView stores a number modulo 2^32. */
  method EncodeStreamFrame(streamId: nat, envelope: Bytes) returns (frame: array<byte>)
    ensures fresh(frame) && frame[..] == U32(streamId % ID_LIMIT) + envelope
  {
    frame := new byte[ID_LEN + |envelope|];
    PutUint32(frame, 0, streamId % ID_LIMIT);
    for i := 0 to |envelope|
      invariant frame[..ID_LEN + i] == U32(streamId % ID_LIMIT) + envelope[..i]
    {
      frame[ID_LEN + i] := envelope[i];
      assert frame[..ID_LEN + i + 1] == frame[..ID_LEN + i] + [envelope[i]];
    }
    assert frame[..] == frame[..ID_LEN + |envelope|] && envelope[..|envelope|] == envelope;
  }

  // Main results

  /** The stream ID, the flag and the payload's length, numbers most significant byte first, then
      the payload. */
  lemma FrameLayout(f: Frame)
    requires Encodable(f.env)
    ensures var b := FrameBytes(f);
      && |b| == 9 + |f.env.payload| && b[4] == f.env.flag && b[9..] == f.env.payload
      && f.id == b[0] as int * 0x100_0000 + b[1] as int * 0x1_0000 + b[2] as int * 0x100 + b[3] as int
      && |f.env.payload| == b[5] as int * 0x100_0000 + b[6] as int * 0x1_0000 + b[7] as int * 0x100 + b[8] as int
  {
    BigEndian(f.id);
    EncodeLayout(f.env);
    var b := FrameBytes(f);
    assert b[..4] == U32(f.id) && b[4..] == Encode(f.env);
    assert b[9..] == b[4..][5..];
  }

  /** Reading inverts writing. */
  lemma ReadInvertsWrite(f: Frame)
    requires Encodable(f.env)
    ensures ReadFrame(FrameBytes(f)) == Some(f)
  {
    var b := FrameBytes(f);
    U32RoundTrip(f.id);
    U32RoundTrip(|f.env.payload|);
    assert b[0..4] == U32(f.id) && b[4] == f.env.flag && b[5..9] == U32(|f.env.payload|);
    assert b[FRAME_HEAD..] == f.env.payload;
  }

  /** Only written messages are accepted. */
  lemma ReadAcceptsOnlyFrames(b: Bytes)
    requires ReadFrame(b).Some?
    ensures Encodable(ReadFrame(b).value.env) && FrameBytes(ReadFrame(b).value) == b
  {
    var f := ReadFrame(b).value;
    U32Onto(b[0..4]);
    U32Onto(b[5..9]);
    assert FrameBytes(f) == b[0..4] + ([b[4]] + b[5..9] + b[FRAME_HEAD..]);
    assert b == b[0..4] + ([b[4]] + b[5..9] + b[FRAME_HEAD..]);
  }

  /** The two languages accept the same messages and see the same frame in them; the envelope
      TypeScript passes on is the encoding of the one Go passes on. */
  lemma LanguagesReadAlike(b: Bytes)
    ensures DecodeStreamFrame(b).Some? <==> ReadFrame(b).Some?
    ensures ReadFrame(b).Some? ==>
      var f, t := ReadFrame(b).value, DecodeStreamFrame(b).value;
      t.streamId == f.id && t.flag == f.env.flag && Encodable(f.env) && t.envelope == Encode(f.env)
  {
    if ReadFrame(b).Some? {
      ReadAcceptsOnlyFrames(b);
      assert b[ID_LEN..] == Encode(ReadFrame(b).value.env);
      assert b[..ID_LEN] == b[0..4];
    }
  }

  /** For an ID below 2^32 both languages write the same bytes, and both read them as that
      frame. */
  lemma LanguagesWriteAlike(f: Frame)
    requires Encodable(f.env)
    ensures U32(f.id % ID_LIMIT) + Encode(f.env) == FrameBytes(f)
    ensures ReadFrame(FrameBytes(f)) == Some(f)
    ensures DecodeStreamFrame(FrameBytes(f)) == Some(StreamFrame(f.id, f.env.flag, Encode(f.env)))
  {
    ReadInvertsWrite(f);
    LanguagesReadAlike(FrameBytes(f));
    hide ReadFrame, DecodeStreamFrame;
  }

  /** Past 2^32 a TypeScript number wraps on the wire to an ID already used. */
  lemma LargeNumbersWrap(streamId: nat)
    ensures FromU32(U32(streamId % ID_LIMIT)) == streamId <==> streamId < ID_LIMIT
  {
    U32RoundTrip(streamId % ID_LIMIT);
  }
}
