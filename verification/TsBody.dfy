/** The TypeScript bridge between envelopes and the bodies of a connect-es handler: the request
    body it builds and the response it writes. */
module TsBody {
  import opened Wire
  import opened ByteStream
  import opened RpcServer

  // Request bodies

  /** A reader of envelopes: what is left, and whether it ends by failing. */
  class EnvelopeReader {
    var left: seq<Envelope>
    const broken: bool

    constructor (left: seq<Envelope>, broken: bool)
      ensures this.left == left && this.broken == broken
    {
      this.left, this.broken := left, broken;
    }

    method Read() returns (value: Option<Envelope>, err: Option<Error>)
      modifies this
      ensures if old(left) != [] then value == Some(old(left)[0]) && err == None && left == old(left)[1..]
              else value == None && err == (if broken then Some(Unavailable) else None) && left == []
    {
      if left == [] {
        return None, if broken then Some(Unavailable) else None;
      }
      value, err := Some(left[0]), None;
      left := left[1..];
    }
  }

  /** Where a request body stops: at its first end-stream or headers envelope. */
  predicate StopsAt(e: Envelope) {
    e.flag == FLAG_END || e.flag == FLAG_HEADERS
  }

  /** The number of envelopes before that. */
  function Length(es: seq<Envelope>): (n: nat)
    ensures n <= |es| && (n < |es| ==> StopsAt(es[n]))
    ensures forall i :: 0 <= i < n ==> !StopsAt(es[i])
  {
    if es == [] || StopsAt(es[0]) then 0 else 1 + Length(es[1..])
  }

  /** How a body ends: an end-stream envelope or the end of the stream is a half-close; a second
      headers envelope is an error, and so is a broken stream. */
  function Outcome(es: seq<Envelope>, broken: bool): Option<Error> {
    var n := Length(es);
    if n < |es| then (if es[n].flag == FLAG_END then None else Some(Protocol))
    else if broken then Some(Unavailable)
    else None
  }

  function Payloads(es: seq<Envelope>): seq<Bytes> {
    seq(|es|, i requires 0 <= i < |es| => es[i].payload)
  }

  /** encodeEnvelope: the length field is stored modulo 2^32. */
  function EncodeEnvelope(flag: byte, data: Bytes): Bytes {
    [flag] + U32(|data| % 0x1_0000_0000) + data
  }

  function Encodings(es: seq<Envelope>): seq<Bytes> {
    seq(|es|, i requires 0 <= i < |es| => EncodeEnvelope(es[i].flag, es[i].payload))
  }

  lemma {:induction false} LengthNext(es: seq<Envelope>, i: nat)
    requires i < |es| && i <= Length(es)
    ensures i == Length(es) <==> StopsAt(es[i])
    decreases i
  {
    if i > 0 {
      LengthNext(es[1..], i - 1);
    }
  }

  /** readUnaryRequestBody: the payloads run together. */
  method ReadUnaryRequestBody(r: EnvelopeReader) returns (body: Bytes, err: Option<Error>)
    modifies r
    ensures err == Outcome(old(r.left), r.broken)
    ensures err == None ==> body == Flat(Payloads(old(r.left)[..Length(old(r.left))]))
  {
    ghost var all := r.left;
    var chunks: seq<Bytes> := [];
    ghost var i := 0;
    body := [];
    while true
      invariant i <= Length(all) && r.left == all[i..] && chunks == Payloads(all[..i])
      decreases |all| - i
    {
      var value;
      value, err := r.Read();
      if err.Some? {
        return;
      }
      if value == None {
        break;
      }
      LengthNext(all, i);
      if value.value.flag == FLAG_END {
        break;
      }
      if value.value.flag == FLAG_HEADERS {
        return [], Some(Protocol);
      }
      chunks := chunks + [value.value.payload];
      assert all[..i + 1] == all[..i] + [all[i]];
      i := i + 1;
    }
    assert i == Length(all);
    body := ConcatBytes(chunks);
  }

  /** A unary body is nothing, and then each payload behind those before it. */
  lemma PayloadsRunTogether(es: seq<Envelope>, e: Envelope)
    ensures Flat(Payloads([])) == [] && Flat(Payloads(es + [e])) == Flat(Payloads(es)) + e.payload
  {
    assert Payloads(es + [e]) == Payloads(es) + [e.payload];
    FlatSnoc(Payloads(es), e.payload);
  }

  /** streamingRequestBody: each envelope encoded as it was, one chunk each. */
  method StreamingRequestBody(r: EnvelopeReader) returns (chunks: seq<Bytes>, err: Option<Error>)
    modifies r
    ensures err == Outcome(old(r.left), r.broken)
    ensures chunks == Encodings(old(r.left)[..Length(old(r.left))])
  {
    ghost var all := r.left;
    chunks := [];
    ghost var i := 0;
    while true
      invariant i <= Length(all) && r.left == all[i..] && chunks == Encodings(all[..i])
      decreases |all| - i
    {
      var value;
      value, err := r.Read();
      if err.Some? || value == None {
        return;
      }
      LengthNext(all, i);
      if value.value.flag == FLAG_END {
        return;
      }
      if value.value.flag == FLAG_HEADERS {
        return chunks, Some(Protocol);
      }
      chunks := chunks + [EncodeEnvelope(value.value.flag, value.value.payload)];
      assert all[..i + 1] == all[..i] + [all[i]];
      i := i + 1;
    }
  }

  function Total(chunks: seq<Bytes>): nat {
    if chunks == [] then 0 else |chunks[0]| + Total(chunks[1..])
  }

  lemma {:induction false} TotalIsLength(chunks: seq<Bytes>)
    ensures |Flat(chunks)| == Total(chunks)
  {
    if chunks != [] {
      TotalIsLength(chunks[1..]);
    }
  }

  lemma {:induction false} FlatConcat(a: seq<Bytes>, b: seq<Bytes>)
    ensures Flat(a + b) == Flat(a) + Flat(b)
  {
    if a == [] {
      assert a + b == b;
    } else {
      assert (a + b)[1..] == a[1..] + b;
      FlatConcat(a[1..], b);
    }
  }

  lemma FlatSnoc(a: seq<Bytes>, c: Bytes)
    ensures Flat(a + [c]) == Flat(a) + c
  {
    FlatConcat(a, [c]);
    assert [c][1..] == [] && c + [] == c;
  }

  /** concatBytes: one buffer, filled at a running offset. */
  method ConcatBytes(chunks: seq<Bytes>) returns (out: Bytes)
    ensures out == Flat(chunks)
  {
    if |chunks| == 1 {
      FlatSnoc([], chunks[0]);
      return chunks[0];
    }
    var total := 0;
    for i := 0 to |chunks|
      invariant total + Total(chunks[i..]) == Total(chunks)
    {
      assert chunks[i..][1..] == chunks[i + 1..];
      total := total + |chunks[i]|;
    }
    var buf := new byte[total];
    var offset := 0;
    TotalIsLength(chunks);
    for i := 0 to |chunks|
      invariant offset == |Flat(chunks[..i])| && offset + |Flat(chunks[i..])| == total
      invariant buf[..offset] == Flat(chunks[..i])
    {
      assert chunks[i..][1..] == chunks[i + 1..] && chunks[..i + 1] == chunks[..i] + [chunks[i]];
      FlatSnoc(chunks[..i], chunks[i]);
      CopyInto(buf, offset, chunks[i]);
      offset := offset + |chunks[i]|;
    }
    assert chunks[..|chunks|] == chunks && chunks[|chunks|..] == [];
    out := buf[..];
  }

  /** Uint8Array.set. */
  method CopyInto(buf: array<byte>, offset: nat, chunk: Bytes)
    requires offset + |chunk| <= buf.Length
    modifies buf
    ensures buf[..offset + |chunk|] == old(buf[..offset]) + chunk
  {
    for k := 0 to |chunk|
      invariant buf[..offset] == old(buf[..offset])
      invariant buf[offset..offset + k] == chunk[..k]
    {
      buf[offset + k] := chunk[k];
    }
    assert buf[..offset + |chunk|] == buf[..offset] + buf[offset..offset + |chunk|];
  }

  lemma EncodesAlike(e: Envelope)
    requires Encodable(e)
    ensures EncodeEnvelope(e.flag, e.payload) == Encode(e)
  {}

  lemma EncodingsNext(es: seq<Envelope>)
    requires es != []
    ensures Flat(Encodings(es)) == EncodeEnvelope(es[0].flag, es[0].payload) + Flat(Encodings(es[1..]))
  {
    assert Encodings(es)[1..] == Encodings(es[1..]);
  }

  lemma {:induction false} EncodingsRunTogether(es: seq<Envelope>)
    requires Fits(es, 0)
    ensures Flat(Encodings(es)) == EncodeAll(es)
  {
    if es != [] {
      FitsParts(es, 0);
      assert es[0] in [es[0]];
      EncodesAlike(es[0]);
      EncodingsNext(es);
      hide EncodeEnvelope, Encode, Encodings, Flat;
      EncodingsRunTogether(es[1..]);
    }
  }

  /** The streaming body, however it is chunked on the way, splits again into exactly the
      envelopes before the first end-stream. */
  lemma StreamingBodyResplits(es: seq<Envelope>)
    requires Fits(es[..Length(es)], 0)
    ensures ReadAll(Flat(Encodings(es[..Length(es)])), Eof, 0) == (es[..Length(es)], Eof)
  {
    EncodingsRunTogether(es[..Length(es)]);
    ReadsBackEverything(es[..Length(es)], Eof, 0);
  }

  /** A body ends well if and only if nothing but messages comes before its end-stream envelope,
      or before a clean end of the stream; a second headers envelope that comes first, or a
      broken stream, makes it fail. */
  lemma BodyEndsWell(es: seq<Envelope>, broken: bool, n: nat)
    requires n <= |es| && forall i :: 0 <= i < n ==> !StopsAt(es[i])
    ensures n < |es| && es[n].flag == FLAG_END ==> Length(es) == n && Outcome(es, broken) == None
    ensures n < |es| && es[n].flag == FLAG_HEADERS ==> Length(es) == n && Outcome(es, broken) == Some(Protocol)
    ensures n == |es| ==> Length(es) == n && Outcome(es, broken) == if broken then Some(Unavailable) else None
  {
    if n < |es| && n < Length(es) {
      assert !StopsAt(es[n]);
    }
  }

  // Responses

  /** What a handler answered, with its headers and end-stream payloads already serialized. */
  datatype Response =
    | Unary(headers: Bytes, encoding: Option<string>, body: seq<Bytes>, end: Bytes)
    | Streaming(headers: Bytes, stream: Option<seq<Bytes>>, end: Bytes)
    | Failure(headers: Bytes, end: Bytes)

  function Lower(s: string): string {
    seq(|s|, i requires 0 <= i < |s| => if 'A' <= s[i] <= 'Z' then s[i] + 32 as char else s[i])
  }

  predicate IsCompressed(r: Response) {
    r.Unary? && r.encoding.Some? && Lower(r.encoding.value) != "identity"
  }

  /** Only "identity", in any mix of upper and lower case, means an uncompressed body. */
  lemma IdentityInAnyCase(r: Response)
    ensures r.Unary? && r.encoding.Some? ==>
      var name, plain := r.encoding.value, "identity";
      IsCompressed(r) <==> |name| != |plain|
                           || exists i :: 0 <= i < |plain| && name[i] != plain[i] && name[i] as int + 32 != plain[i] as int
    ensures !r.Unary? || r.encoding == None ==> !IsCompressed(r)
  {
    if r.Unary? && r.encoding.Some? {
      var name, plain := r.encoding.value, "identity";
      assert forall i :: 0 <= i < |plain| ==> 'a' <= plain[i] <= 'z';
      if |name| == |plain| && forall i :: 0 <= i < |plain| ==> name[i] == plain[i] || name[i] as int + 32 == plain[i] as int {
        assert forall i :: 0 <= i < |plain| ==> Lower(name)[i] == plain[i];
        assert Lower(name) == plain;
      } else if Lower(name) == plain {
        assert |name| == |plain|;
        assert forall i :: 0 <= i < |plain| ==> Lower(name)[i] == plain[i];
      }
    }
  }

  /** A writer of messages; a failed write is final. */
  class Writer {
    var chunks: seq<Bytes>
    var room: nat

    constructor (room: nat)
      ensures chunks == [] && this.room == room
    {
      chunks, this.room := [], room;
    }

    method Write(chunk: Bytes) returns (ok: bool)
      modifies this
      ensures ok == (old(room) > 0)
      ensures if ok then chunks == old(chunks) + [chunk] && room == old(room) - 1 else chunks == old(chunks) && room == 0
    {
      if room == 0 {
        return false;
      }
      chunks, room := chunks + [chunk], room - 1;
      return true;
    }
  }

  /** The writes of a response. */
  function Writes(r: Response): seq<Bytes> {
    var head, end := EncodeEnvelope(FLAG_HEADERS, r.headers), EncodeEnvelope(FLAG_END, r.end);
    match r
    case Unary(_, _, body, _) =>
      [head, EncodeEnvelope(if IsCompressed(r) then FLAG_COMPRESSED else FLAG_DATA, Flat(body)), end]
    case Streaming(_, Some(body), _) => [head] + body
    case Streaming(_, None, _) => [head, end]
    case Failure(_, _) => [head, end]
  }

  function Within(chunks: seq<Bytes>, n: nat): seq<Bytes> {
    if n <= |chunks| then chunks[..n] else chunks
  }

  /** writeResponse and writeErrorResponse: every write in order, up to the first that fails. */
  method WriteResponse(w: Writer, r: Response)
    modifies w
    ensures w.chunks == old(w.chunks) + Within(Writes(r), old(w.room))
  {
    hide EncodeEnvelope, Flat, Lower;
    var ok := w.Write(EncodeEnvelope(FLAG_HEADERS, r.headers));
    if !ok {
      return;
    }
    match r
    case Unary(_, encoding, body, end) =>
      var bytes := ConcatBytes(body);
      var flag := if encoding.Some? && Lower(encoding.value) != "identity" then FLAG_COMPRESSED else FLAG_DATA;
      ok := w.Write(EncodeEnvelope(flag, bytes));
      if ok {
        ok := w.Write(EncodeEnvelope(FLAG_END, end));
      }
    case Streaming(_, body, end) =>
      if body.Some? {
        WriteBody(w, body.value);
      } else {
        ok := w.Write(EncodeEnvelope(FLAG_END, end));
      }
    case Failure(_, end) =>
      ok := w.Write(EncodeEnvelope(FLAG_END, end));
  }

  method WriteBody(w: Writer, body: seq<Bytes>)
    modifies w
    ensures w.chunks == old(w.chunks) + Within(body, old(w.room))
  {
    for i := 0 to |body|
      invariant w.room == old(w.room) - i && i <= old(w.room)
      invariant w.chunks == old(w.chunks) + body[..i]
    {
      var ok := w.Write(body[i]);
      if !ok {
        return;
      }
    }
  }

  /** What connect-es hands over as a streaming body: message envelopes, alike in compression,
      and its own end-stream envelope, in any chunks. */
  ghost predicate Framed(body: seq<Bytes>, es: seq<Envelope>, compressed: bool) {
    && Fits(es, 0) && Flat(body) == EncodeAll(es)
    && es != [] && es[|es| - 1].flag == FLAG_END
    && forall i :: 0 <= i < |es| - 1 ==> es[i].flag == if compressed then FLAG_COMPRESSED else FLAG_DATA
  }

  /** The envelopes of a response, in whose streaming body connect-es framed es. */
  function Word(r: Response, es: seq<Envelope>): seq<Envelope> {
    var h, e := Envelope(FLAG_HEADERS, r.headers), Envelope(FLAG_END, r.end);
    if r.Unary? then [h, Envelope(if IsCompressed(r) then FLAG_COMPRESSED else FLAG_DATA, Flat(r.body)), e]
    else if r.Streaming? && r.stream.Some? then [h] + es
    else [h, e]
  }

  lemma WordIsWritten(r: Response, es: seq<Envelope>, compressed: bool)
    requires |r.headers| <= MAX_U32 && |r.end| <= MAX_U32
    requires r.Unary? ==> |Flat(r.body)| <= MAX_U32 && compressed == IsCompressed(r)
    requires r.Streaming? && r.stream.Some? ==> Framed(r.stream.value, es, compressed)
    ensures Fits(Word(r, es), 0) && Flat(Writes(r)) == EncodeAll(Word(r, es))
  {
    if r.Streaming? && r.stream.Some? {
      HeadThenBody(Envelope(FLAG_HEADERS, r.headers), r.stream.value, es);
    } else {
      assert Writes(r) == Encodings(Word(r, es));
      assert Fits(Word(r, es), 0);
      hide EncodeEnvelope, Writes, Encodings, Word;
      EncodingsRunTogether(Word(r, es));
    }
  }

  lemma WordIsGrammatical(r: Response, es: seq<Envelope>, compressed: bool)
    requires |r.headers| <= MAX_U32 && |r.end| <= MAX_U32
    requires r.Unary? ==> |Flat(r.body)| <= MAX_U32 && compressed == IsCompressed(r)
    requires r.Streaming? && r.stream.Some? ==> Framed(r.stream.value, es, compressed)
    ensures IsResponse(Word(r, es), compressed)
  {
    hide Flat, EncodeAll, Fits;
  }

  /** Whatever the handler answered, a client that splits the written bytes reads headers, then
      the body as connect-es framed it, then end-stream, a word of the same grammar a Go server
      writes, and then the end of the stream. */
  lemma ResponseIsGrammatical(r: Response, es: seq<Envelope>, compressed: bool)
    requires |r.headers| <= MAX_U32 && |r.end| <= MAX_U32
    requires r.Unary? ==> |Flat(r.body)| <= MAX_U32 && compressed == IsCompressed(r)
    requires r.Streaming? && r.stream.Some? ==> Framed(r.stream.value, es, compressed)
    ensures ReadAll(Flat(Writes(r)), Eof, 0) == (Word(r, es), Eof) && IsResponse(Word(r, es), compressed)
    ensures var got := ReadAll(Flat(Writes(r)), Eof, 0).0;
      && got[0] == Envelope(FLAG_HEADERS, r.headers)
      && if r.Streaming? && r.stream.Some? then got[1..] == es
         else if r.Unary? then
           got[1..] == [Envelope(if compressed then FLAG_COMPRESSED else FLAG_DATA, Flat(r.body)), Envelope(FLAG_END, r.end)]
         else got[1..] == [Envelope(FLAG_END, r.end)]
  {
    WordIsWritten(r, es, compressed);
    WordIsGrammatical(r, es, compressed);
    hide Word, Writes, Flat, EncodeAll, ReadAll, IsResponse, Framed;
    ReadsBackEverything(Word(r, es), Eof, 0);
  }

  lemma HeadThenBody(h: Envelope, body: seq<Bytes>, es: seq<Envelope>)
    requires Encodable(h) && Fits(es, 0) && Flat(body) == EncodeAll(es)
    ensures Fits([h] + es, 0) && EncodeAll([h] + es) == Flat([EncodeEnvelope(h.flag, h.payload)] + body)
  {
    EncodesAlike(h);
    assert ([h] + es)[1..] == es;
    assert ([Encode(h)] + body)[1..] == body;
  }
}
