/** Envelopes on a byte stream without message boundaries: written head then payload, read back
    through io.ReadFull from a reader that may deliver the bytes in any chunks. */
module ByteStream {
  import opened Wire

  const HEAD := 5
  const MAX_U32 := 0xFFFF_FFFF

  // Big-endian 32-bit integers

  function U32(n: int): (b: Bytes)
    requires 0 <= n <= MAX_U32
    ensures |b| == 4
  {
    [n / 0x100 / 0x100 / 0x100, n / 0x100 / 0x100 % 0x100, n / 0x100 % 0x100, n % 0x100]
  }

  function FromU32(b: Bytes): (n: int)
    requires |b| == 4
    ensures 0 <= n <= MAX_U32
  {
    ((b[0] as int * 0x100 + b[1]) * 0x100 + b[2]) * 0x100 + b[3]
  }

  lemma U32RoundTrip(n: int)
    requires 0 <= n <= MAX_U32
    ensures FromU32(U32(n)) == n
  {}

  lemma U32Onto(b: Bytes)
    requires |b| == 4
    ensures U32(FromU32(b)) == b
  {
    var hi: int := b[0] as int * 0x100 + b[1];
    var mid: int := hi * 0x100 + b[2];
    assert FromU32(b) / 0x100 == mid && mid / 0x100 == hi && hi / 0x100 == b[0];
  }

  /** Most significant byte first. */
  lemma BigEndian(n: int)
    requires 0 <= n <= MAX_U32
    ensures var b := U32(n); n == b[0] as int * 0x100_0000 + b[1] as int * 0x1_0000 + b[2] as int * 0x100 + b[3] as int
  {
    var hi := n / 0x100;
    var top := hi / 0x100;
    assert n == hi * 0x100 + n % 0x100 && hi == top * 0x100 + hi % 0x100 && top == top / 0x100 * 0x100 + top % 0x100;
  }

  // Writing

  predicate Encodable(e: Envelope) {
    |e.payload| <= MAX_U32
  }

  function Head(e: Envelope): (b: Bytes)
    requires Encodable(e)
    ensures |b| == HEAD
  {
    [e.flag] + U32(|e.payload|)
  }

  function Encode(e: Envelope): Bytes
    requires Encodable(e)
  {
    Head(e) + e.payload
  }

  /** A flag byte, the payload's length, the payload. */
  lemma EncodeLayout(e: Envelope)
    requires Encodable(e)
    ensures var b := Encode(e);
      && |b| == 5 + |e.payload| && b[0] == e.flag && b[5..] == e.payload
      && |e.payload| == b[1] as int * 0x100_0000 + b[2] as int * 0x1_0000 + b[3] as int * 0x100 + b[4] as int
  {
    BigEndian(|e.payload|);
    assert Encode(e)[1..5] == U32(|e.payload|);
  }

  /** A writer that accepts so many more bytes before it fails for good. */
  class ByteWriter {
    var written: Bytes
    var room: nat

    constructor (room: nat)
      ensures written == [] && this.room == room
    {
      written, this.room := [], room;
    }

    method Write(p: Bytes) returns (err: Option<Error>)
      modifies this
      ensures if |p| <= old(room) then err == None && written == old(written) + p && room == old(room) - |p|
              else err.Some? && written == old(written) + p[..old(room)] && room == 0
    {
      if |p| <= room {
        written, room := written + p, room - |p|;
        return None;
      }
      written, room := written + p[..room], 0;
      return Some(Unavailable);
    }
  }

  /** The whole encoding, nothing at all for a payload over the 32-bit limit, or on a failing
      writer as much of the encoding as it accepted. */
  method WriteEnvelopeChunked(w: ByteWriter, e: Envelope) returns (err: Option<Error>)
    modifies w
    ensures !Encodable(e) ==> err == Some(TooLarge) && w.written == old(w.written)
    ensures Encodable(e) ==>
      if |Encode(e)| <= old(w.room) then err == None && w.written == old(w.written) + Encode(e)
      else err.Some? && w.written == old(w.written) + Encode(e)[..old(w.room)]
  {
    if |e.payload| > MAX_U32 {
      return Some(TooLarge);
    }
    err := w.Write(Head(e));
    if err.Some? {
      return;
    }
    if |e.payload| > 0 {
      err := w.Write(e.payload);
    } else {
      assert Encode(e) == Head(e);
    }
  }

  // Reading

  function Flat(chunks: seq<Bytes>): Bytes {
    if chunks == [] then [] else chunks[0] + Flat(chunks[1..])
  }

  /** An io.Reader: at most one chunk per Read, empty reads allowed, and at the end an error
      that may come with the last bytes or after them. */
  class ChunkReader {
    var chunks: seq<Bytes>
    const end: Error
    const eager: bool

    function Rest(): Bytes
      reads this
    {
      Flat(chunks)
    }

    constructor (chunks: seq<Bytes>, end: Error, eager: bool)
      ensures this.chunks == chunks && this.end == end && this.eager == eager
    {
      this.chunks, this.end, this.eager := chunks, end, eager;
    }

    method Read(buf: array<byte>, off: nat) returns (n: nat, err: Option<Error>)
      requires off < buf.Length
      modifies this, buf
      ensures off + n <= buf.Length && n <= |old(Rest())|
      ensures buf[off..off + n] == old(Rest())[..n] && buf[..off] == old(buf[..off])
      ensures Rest() == old(Rest())[n..]
      ensures err.Some? ==> err == Some(end) && Rest() == []
      ensures err == None ==> old(chunks) != [] && (n > 0 || |chunks| < |old(chunks)|)
    {
      if chunks == [] {
        return 0, Some(end);
      }
      var c := chunks[0];
      n := if |c| <= buf.Length - off then |c| else buf.Length - off;
      for i := 0 to n
        invariant buf[off..off + i] == c[..i] && buf[..off] == old(buf[..off]) && chunks == old(chunks)
      {
        buf[off + i] := c[i];
      }
      assert old(Rest()) == c + Flat(chunks[1..]);
      if n == |c| {
        chunks := chunks[1..];
      } else {
        chunks := [c[n..]] + chunks[1..];
      }
      err := if eager && chunks == [] then Some(end) else None;
    }
  }

  /** The error of a read that wanted more bytes than were left. */
  function ShortError(left: Bytes, end: Error): Error {
    if left != [] && end == Eof then UnexpectedEof else end
  }

  /** io.ReadFull: the buffer is filled from the stream, however it is chunked, or the stream
      is used up. */
  method ReadFull(r: ChunkReader, buf: array<byte>) returns (err: Option<Error>)
    requires buf.Length > 0
    modifies r, buf
    ensures if |old(r.Rest())| >= buf.Length
            then err == None && buf[..] == old(r.Rest())[..buf.Length] && r.Rest() == old(r.Rest())[buf.Length..]
            else err == Some(ShortError(old(r.Rest()), r.end)) && r.Rest() == []
  {
    ghost var all := r.Rest();
    var n := 0;
    err := None;
    while n < buf.Length && err == None
      invariant 0 <= n <= buf.Length && n <= |all|
      invariant buf[..n] == all[..n] && r.Rest() == all[n..]
      invariant err.Some? ==> err == Some(r.end) && r.Rest() == []
      decreases err == None, buf.Length - n, |r.chunks|
    {
      var nn;
      nn, err := r.Read(buf, n);
      assert buf[..n + nn] == buf[..n] + buf[n..n + nn];
      assert all[..n + nn] == all[..n] + all[n..][..nn];
      n := n + nn;
    }
    if n >= buf.Length {
      err := None;
    } else if n > 0 && err == Some(Eof) {
      err := Some(UnexpectedEof);
    }
  }

  datatype ReadOutcome = Got(env: Envelope, rest: Bytes) | Failed(err: Error)

  /** What one envelope read makes of the bytes ahead. A limit of zero is no limit. */
  function ReadOne(b: Bytes, end: Error, limit: nat): ReadOutcome {
    if |b| < HEAD then Failed(ShortError(b, end))
    else
      var flag, length, body := b[0], FromU32(b[1..HEAD]), b[HEAD..];
      if length == 0 then Got(Envelope(flag, []), body)
      else if 0 < limit < length then Failed(TooLarge)
      else if |body| < length then Failed(ShortError(body, end))
      else Got(Envelope(flag, body[..length]), body[length..])
  }

  /** With no whole head there, the reader's own end is the error, made unexpected inside the
      head; a length over the limit is refused before the payload is read; a payload cut short
      fails like a head; and otherwise the envelope is the bytes that follow. */
  lemma ReadOneTells(b: Bytes, end: Error, limit: nat)
    ensures |b| < 5 ==> ReadOne(b, end, limit) == Failed(if b != [] && end == Eof then UnexpectedEof else end)
    ensures |b| >= 5 ==>
      var length := b[1] as int * 0x100_0000 + b[2] as int * 0x1_0000 + b[3] as int * 0x100 + b[4] as int;
      ReadOne(b, end, limit)
      == if 0 < limit < length then Failed(TooLarge)
         else if |b| < 5 + length then Failed(if |b| > 5 && end == Eof then UnexpectedEof else end)
         else Got(Envelope(b[0], b[5..5 + length]), b[5 + length..])
  {
    if |b| >= 5 {
      var length := b[1] as int * 0x100_0000 + b[2] as int * 0x1_0000 + b[3] as int * 0x100 + b[4] as int;
      assert FromU32(b[1..HEAD]) == length;
      if |b| >= 5 + length {
        assert b[5..][..length] == b[5..5 + length] && b[5..][length..] == b[5 + length..];
      }
    }
  }

  method ReadEnvelopeWithSizeLimit(r: ChunkReader, limit: nat) returns (env: Option<Envelope>, err: Option<Error>)
    modifies r
    ensures match ReadOne(old(r.Rest()), r.end, limit)
      case Got(e, rest) => env == Some(e) && err == None && r.Rest() == rest
      case Failed(e) => env == None && err == Some(e)
  {
    var head := new byte[HEAD];
    err := ReadFull(r, head);
    if err.Some? {
      return None, err;
    }
    var flag, length := head[0], FromU32(head[1..HEAD]);
    assert head[1..HEAD] == head[..][1..HEAD];
    if length == 0 {
      return Some(Envelope(flag, [])), None;
    }
    if 0 < limit < length {
      return None, Some(TooLarge);
    }
    var payload := new byte[length];
    err := ReadFull(r, payload);
    if err.Some? {
      return None, err;
    }
    return Some(Envelope(flag, payload[..])), None;
  }

  /** Reads until the first error. */
  function ReadAll(b: Bytes, end: Error, limit: nat): (seq<Envelope>, Error)
    decreases |b|
  {
    match ReadOne(b, end, limit)
    case Failed(e) => ([], e)
    case Got(env, rest) => var (es, e) := ReadAll(rest, end, limit); ([env] + es, e)
  }

  /** Reading on after the first envelope, on fewer bytes. */
  lemma ReadOn(b: Bytes, end: Error, limit: nat)
    ensures var o := ReadOne(b, end, limit);
      if o.Got? then
        |o.rest| < |b| && ReadAll(b, end, limit).0 == [o.env] + ReadAll(o.rest, end, limit).0
        && ReadAll(b, end, limit).1 == ReadAll(o.rest, end, limit).1
      else ReadAll(b, end, limit) == ([], o.err)
  {}

  /** Envelope after envelope until the first error: however the bytes are chunked, the list
      depends on the bytes only. */
  method ReadEnvelopes(r: ChunkReader, limit: nat) returns (es: seq<Envelope>, err: Error)
    modifies r
    ensures (es, err) == ReadAll(old(r.Rest()), r.end, limit)
  {
    ghost var all := ReadAll(r.Rest(), r.end, limit);
    es := [];
    assert [] + all.0 == all.0;
    hide *;
    while true
      invariant all.0 == es + ReadAll(r.Rest(), r.end, limit).0 && all.1 == ReadAll(r.Rest(), r.end, limit).1
      decreases |r.Rest()|
    {
      ReadOn(r.Rest(), r.end, limit);
      var env, failed := ReadEnvelopeWithSizeLimit(r, limit);
      if failed.Some? {
        NoMore(es);
        return es, failed.value;
      }
      OneMore(es, env.value, ReadAll(r.Rest(), r.end, limit).0);
      es := es + [env.value];
    }
  }

  lemma NoMore(es: seq<Envelope>)
    ensures es + [] == es
  {}

  lemma OneMore(es: seq<Envelope>, e: Envelope, more: seq<Envelope>)
    ensures es + ([e] + more) == es + [e] + more
  {}

  // Main results

  predicate Fits(es: seq<Envelope>, limit: nat) {
    forall e :: e in es ==> Encodable(e) && (0 < limit ==> |e.payload| <= limit)
  }

  lemma FitsParts(es: seq<Envelope>, limit: nat)
    requires Fits(es, limit) && es != []
    ensures Fits([es[0]], limit) && Fits(es[1..], limit)
  {}

  function EncodeAll(es: seq<Envelope>): Bytes
    requires Fits(es, 0)
  {
    if es == [] then [] else Encode(es[0]) + EncodeAll(es[1..])
  }

  /** How many of the envelopes lie wholly within the first `cut` bytes. */
  function Whole(es: seq<Envelope>, cut: nat): (n: nat)
    requires Fits(es, 0)
    ensures n <= |es|
  {
    if es == [] || cut < |Encode(es[0])| then 0 else 1 + Whole(es[1..], cut - |Encode(es[0])|)
  }

  /** How many bytes are left over after them. */
  function Leftover(es: seq<Envelope>, cut: nat): nat
    requires Fits(es, 0) && cut <= |EncodeAll(es)|
  {
    if es == [] || cut < |Encode(es[0])| then cut else Leftover(es[1..], cut - |Encode(es[0])|)
  }

  /** The whole envelopes and what is left over make up the bytes, and what is left over is no
      whole envelope. */
  lemma {:induction false} WholeAndLeftover(es: seq<Envelope>, cut: nat)
    requires Fits(es, 0) && cut <= |EncodeAll(es)|
    ensures var n := Whole(es, cut);
      && Fits(es[..n], 0) && |EncodeAll(es[..n])| + Leftover(es, cut) == cut
      && (n < |es| ==> Encodable(es[n]) && Leftover(es, cut) < 5 + |es[n].payload|)
  {
    if es != [] && cut >= |Encode(es[0])| {
      var n := cut - |Encode(es[0])|;
      FitsParts(es, 0);
      FirstFits(es);
      CutLater(es, cut);
      WholeAndLeftover(es[1..], n);
      hide Encode;
      var w := Whole(es[1..], n);
      assert es[..w + 1] == [es[0]] + es[1..][..w];
      assert es[..w + 1][1..] == es[1..][..w];
    }
  }

  lemma ReadOneEncoded(e: Envelope, more: Bytes, end: Error, limit: nat)
    requires Fits([e], limit)
    ensures ReadOne(Encode(e) + more, end, limit) == Got(e, more)
  {
    assert e in [e];
    var b := Encode(e) + more;
    U32RoundTrip(|e.payload|);
    assert b[1..HEAD] == U32(|e.payload|) && b[HEAD..] == e.payload + more && b[0] == e.flag;
  }

  lemma ReadOneCut(e: Envelope, cut: nat, end: Error, limit: nat)
    requires Fits([e], limit) && cut < |Encode(e)|
    ensures ReadOne(Encode(e)[..cut], end, limit)
         == Failed(CutError(cut, end))
  {
    assert e in [e];
    var b := Encode(e)[..cut];
    if cut >= HEAD {
      U32RoundTrip(|e.payload|);
      assert b[..HEAD] == Head(e);
      assert b[1..HEAD] == Head(e)[1..] == U32(|e.payload|);
      assert b[HEAD..] == e.payload[..cut - HEAD];
    }
  }

  /** The error of a stream that ends `left` bytes into an envelope. */
  function CutError(left: nat, end: Error): Error {
    if left == 0 || left == HEAD || end != Eof then end else UnexpectedEof
  }

  /** Whatever bytes of a written envelope list arrive before the stream ends, the reader gets
      exactly the complete envelopes, then an error. With a clean end that error is plain EOF
      only at a boundary or right after the five-byte head of a non-empty envelope. */
  lemma {:induction false} ReadsBackWhatArrived(es: seq<Envelope>, cut: nat, end: Error, limit: nat)
    requires Fits(es, limit) && Fits(es, 0) && cut <= |EncodeAll(es)|
    ensures ReadAll(EncodeAll(es)[..cut], end, limit) == (es[..Whole(es, cut)], CutError(Leftover(es, cut), end))
  {
    hide *;
    if es == [] {
      CutNone(cut, end, limit);
    } else {
      FirstFits(es);
      if cut < |Encode(es[0])| {
        CutFirst(es, cut, end, limit);
      } else {
        var n := cut - |Encode(es[0])|;
        FitsParts(es, limit);
        FitsParts(es, 0);
        CutLater(es, cut);
        ReadsBackWhatArrived(es[1..], n, end, limit);
        ReadAllNext(es[0], EncodeAll(es[1..])[..n], end, limit);
      }
    }
  }

  lemma FirstFits(es: seq<Envelope>)
    requires Fits(es, 0) && es != []
    ensures Encodable(es[0])
  {}

  lemma CutNone(cut: nat, end: Error, limit: nat)
    requires Fits([], 0) && cut <= |EncodeAll([])|
    ensures ReadAll(EncodeAll([])[..cut], end, limit) == ([][..Whole([], cut)], CutError(Leftover([], cut), end))
  {
    assert EncodeAll([])[..cut] == [];
  }

  /** A cut past the first envelope is a cut of the others. */
  lemma CutLater(es: seq<Envelope>, cut: nat)
    requires Fits(es, 0) && es != [] && Fits(es[1..], 0) && Encodable(es[0])
    requires |Encode(es[0])| <= cut <= |EncodeAll(es)|
    ensures var n := cut - |Encode(es[0])|;
      && n <= |EncodeAll(es[1..])|
      && EncodeAll(es)[..cut] == Encode(es[0]) + EncodeAll(es[1..])[..n]
      && Leftover(es, cut) == Leftover(es[1..], n)
      && es[..Whole(es, cut)] == [es[0]] + es[1..][..Whole(es[1..], n)]
  {
    hide Encode;
  }

  lemma CutFirst(es: seq<Envelope>, cut: nat, end: Error, limit: nat)
    requires Fits(es, limit) && Fits(es, 0) && es != [] && cut < |Encode(es[0])|
    ensures ReadAll(EncodeAll(es)[..cut], end, limit) == (es[..Whole(es, cut)], CutError(Leftover(es, cut), end))
  {
    FitsParts(es, limit);
    ReadOneCut(es[0], cut, end, limit);
    assert EncodeAll(es)[..cut] == Encode(es[0])[..cut];
    assert es[..0] == [];
    hide ReadOne, Encode;
  }

  lemma ReadAllNext(e: Envelope, more: Bytes, end: Error, limit: nat)
    requires Fits([e], limit)
    ensures ReadAll(Encode(e) + more, end, limit) == ([e] + ReadAll(more, end, limit).0, ReadAll(more, end, limit).1)
  {
    ReadOneEncoded(e, more, end, limit);
    hide ReadOne;
  }

  /** A complete stream reads back as the very list that was written, then its end. */
  lemma {:induction false} ReadsBackEverything(es: seq<Envelope>, end: Error, limit: nat)
    requires Fits(es, limit) && Fits(es, 0)
    ensures ReadAll(EncodeAll(es), end, limit) == (es, end)
  {
    assert ReadAll([], end, limit) == ([], end);
    if es != [] {
      FitsParts(es, limit);
      ReadAllNext(es[0], EncodeAll(es[1..]), end, limit);
      hide ReadOne, ReadAll, Encode;
      assert [es[0]] + es[1..] == es;
      ReadsBackEverything(es[1..], end, limit);
    }
  }

  /** Plain EOF in the middle of a list means a boundary, or a head without its payload. */
  lemma {:induction false} LeftoverBounds(es: seq<Envelope>, cut: nat)
    requires Fits(es, 0) && cut <= |EncodeAll(es)|
    ensures Whole(es, cut) == |es| ==> Leftover(es, cut) == 0
    ensures Whole(es, cut) < |es| ==> Leftover(es, cut) < HEAD + |es[Whole(es, cut)].payload|
    ensures Leftover(es, cut) == HEAD ==> Whole(es, cut) < |es| && es[Whole(es, cut)].payload != []
  {
    if es != [] && cut >= |Encode(es[0])| {
      FitsParts(es, 0);
      LeftoverBounds(es[1..], cut - |Encode(es[0])|);
    }
  }
}
