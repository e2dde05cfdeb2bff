/** Compression negotiation: the client advertises the names it registered, the server picks
    the first of them it knows. */
module Compression {
  import opened Wire

  datatype Compressor = Compressor(name: string, compress: Bytes -> Option<Bytes>, decompress: Bytes -> Option<Bytes>)

  // Strings

  /** strings.Split on commas. */
  function Split(s: string): (parts: seq<string>)
    ensures parts != []
  {
    if s == [] then [[]]
    else
      var rest := Split(s[1..]);
      if s[0] == ',' then [[]] + rest else [[s[0]] + rest[0]] + rest[1..]
  }

  /** strings.Join with commas. */
  function Join(parts: seq<string>): string {
    if parts == [] then [] else if |parts| == 1 then parts[0] else parts[0] + "," + Join(parts[1..])
  }

  /** Unicode white space. */
  predicate IsSpace(c: char) {
    || '\U{0009}' <= c <= '\U{000D}' || c == ' ' || c == '\U{0085}' || c == '\U{00A0}' || c == '\U{1680}'
    || '\U{2000}' <= c <= '\U{200A}' || c == '\U{2028}' || c == '\U{2029}' || c == '\U{202F}' || c == '\U{205F}'
    || c == '\U{3000}'
  }

  function TrimLeft(s: string): string {
    if s != [] && IsSpace(s[0]) then TrimLeft(s[1..]) else s
  }

  function TrimRight(s: string): string {
    if s != [] && IsSpace(s[|s| - 1]) then TrimRight(s[..|s| - 1]) else s
  }

  function TrimSpace(s: string): string {
    TrimRight(TrimLeft(s))
  }

  // Negotiation

  function FirstKnown(parts: seq<string>, known: map<string, Compressor>): (r: Option<string>)
    ensures r.Some? ==> r.value in known
  {
    if parts == [] then None
    else if TrimSpace(parts[0]) in known then Some(TrimSpace(parts[0]))
    else FirstKnown(parts[1..], known)
  }

  /** The first accepted compressor the server knows. */
  function NegotiateCompression(acceptEncoding: string, known: map<string, Compressor>): (r: Option<string>)
    ensures r.Some? ==> r.value in known
  {
    FirstKnown(Split(acceptEncoding), known)
  }

  /** A name that survives being listed: no comma, no outer white space, not empty. */
  predicate CleanName(n: string) {
    n != [] && ',' !in n && !IsSpace(n[0]) && !IsSpace(n[|n| - 1])
  }

  lemma {:induction false} SplitPlain(n: string)
    requires ',' !in n
    ensures Split(n) == [n]
  {
    if n != [] {
      SplitPlain(n[1..]);
      assert [n[0]] + n[1..] == n;
    }
  }

  lemma {:induction false} SplitFirst(n: string, rest: string)
    requires ',' !in n
    ensures Split(n + "," + rest) == [n] + Split(rest)
  {
    var s := n + "," + rest;
    if n == [] {
      assert s[1..] == rest;
    } else {
      assert s[1..] == n[1..] + "," + rest;
      SplitFirst(n[1..], rest);
      assert [n[0]] + n[1..] == n;
    }
  }

  /** A joined list splits back into its parts. */
  lemma {:induction false} SplitInvertsJoin(parts: seq<string>)
    requires parts != [] && forall p :: p in parts ==> ',' !in p
    ensures Split(Join(parts)) == parts
  {
    assert parts[0] in parts;
    if |parts| == 1 {
      SplitPlain(parts[0]);
    } else {
      SplitFirst(parts[0], Join(parts[1..]));
      assert parts[0] + "," + Join(parts[1..]) == Join(parts);
      SplitInvertsJoin(parts[1..]);
    }
  }

  /** And a split one joins back into the list; no part holds a comma. */
  lemma {:induction false} JoinInvertsSplit(s: string)
    ensures Join(Split(s)) == s && forall p :: p in Split(s) ==> ',' !in p
  {
    if s != [] {
      var rest := Split(s[1..]);
      assert Split(s) == if s[0] == ',' then [[]] + rest else [[s[0]] + rest[0]] + rest[1..];
      JoinInvertsSplit(s[1..]);
      hide Join, Split;
      JoinNext(rest, s[0]);
    }
  }

  lemma JoinNext(rest: seq<string>, c: char)
    requires rest != [] && forall p :: p in rest ==> ',' !in p
    ensures var more := if c == ',' then [[]] + rest else [[c] + rest[0]] + rest[1..];
      Join(more) == [c] + Join(rest) && forall p :: p in more ==> ',' !in p
  {
    assert ([[]] + rest)[1..] == rest;
    assert ([[c] + rest[0]] + rest[1..])[1..] == rest[1..];
  }

  // White space around a name

  predicate AllSpace(s: string) {
    forall i :: 0 <= i < |s| ==> IsSpace(s[i])
  }

  /** The part is that name with white space around it, or none. */
  ghost predicate Pads(part: string, name: string) {
    exists a, b :: AllSpace(a) && AllSpace(b) && part == a + name + b
  }

  lemma {:induction false} TrimLeftPadded(a: string, n: string)
    requires AllSpace(a) && (n == [] || !IsSpace(n[0]))
    ensures TrimLeft(a + n) == n
  {
    if a != [] {
      assert (a + n)[1..] == a[1..] + n;
      TrimLeftPadded(a[1..], n);
    } else {
      assert a + n == n;
    }
  }

  lemma {:induction false} TrimRightPadded(n: string, b: string)
    requires AllSpace(b) && (n == [] || !IsSpace(n[|n| - 1]))
    ensures TrimRight(n + b) == n
  {
    if b != [] {
      assert (n + b)[..|n + b| - 1] == n + b[..|b| - 1];
      TrimRightPadded(n, b[..|b| - 1]);
    } else {
      assert n + b == n;
    }
  }

  /** Trimming takes exactly the white space around a name away. */
  lemma TrimIsInside(part: string, name: string)
    requires Pads(part, name) && name != [] && !IsSpace(name[0]) && !IsSpace(name[|name| - 1])
    ensures TrimSpace(part) == name
  {
    var a, b :| AllSpace(a) && AllSpace(b) && part == a + name + b;
    assert a + name + b == a + (name + b);
    TrimLeftPadded(a, name + b);
    TrimRightPadded(name, b);
  }

  lemma SelfPads(name: string)
    ensures Pads(name, name)
  {
    assert AllSpace("") && name == "" + name + "";
  }

  /** The choice is the first known of the names, whatever white space surrounds them, and there
      is none exactly when no name is known. */
  lemma {:induction false} FirstKnownIsFirst(parts: seq<string>, names: seq<string>, known: map<string, Compressor>)
    requires |parts| == |names| && forall i :: 0 <= i < |names| ==> CleanName(names[i]) && Pads(parts[i], names[i])
    ensures FirstKnown(parts, known).None? ==> forall n :: n in names ==> n !in known
    ensures FirstKnown(parts, known).Some? ==>
      exists i :: 0 <= i < |names| && names[i] == FirstKnown(parts, known).value && names[i] in known
               && forall j :: 0 <= j < i ==> names[j] !in known
  {
    if names != [] {
      TrimIsInside(parts[0], names[0]);
      if names[0] !in known {
        FirstKnownIsFirst(parts[1..], names[1..], known);
        if FirstKnown(parts, known).Some? {
          var i :| 0 <= i < |names| - 1 && names[1..][i] == FirstKnown(parts, known).value && names[1..][i] in known
                && forall j :: 0 <= j < i ==> names[1..][j] !in known;
          assert forall j :: 0 <= j < i + 1 ==> j == 0 || names[j] == names[1..][j - 1];
          assert names[i + 1] == names[1..][i];
        }
      }
    }
  }

  // Options

  /** The listed names are exactly the registered ones, each registered under its own name. */
  ghost predicate Consistent(known: map<string, Compressor>, names: seq<string>) {
    && (forall n :: n in names ==> n in known)
    && (forall n :: n in known ==> n in names && known[n].name == n)
  }

  lemma ConsistentMore(known: map<string, Compressor>, names: seq<string>, c: Compressor)
    requires Consistent(known, names)
    ensures Consistent(known[c.name := c], names + [c.name])
  {}

  /** A message codec, by the name it registers under. */
  datatype NamedCodec = NamedCodec(name: string, version: nat)

  const PROTO := "proto"
  const JSON := "json"

  /** The registered codecs and compressors, the latter in order of registration. */
  class Options {
    var Codecs: map<string, NamedCodec>
    var SendCodecName: string
    var SendCodec: Option<NamedCodec>
    var Compressors: map<string, Compressor>
    var CompressorNames: seq<string>
    var AcceptCompression: string

    ghost predicate Valid()
      reads this
    {
      PROTO in Codecs && Consistent(Compressors, CompressorNames)
    }

    /** Defaults: one compressor, already advertised once finalized. */
    constructor (default: Compressor, sendCodecName: string)
      ensures Valid() && SendCodecName == sendCodecName && SendCodec == None
      ensures Codecs == map[PROTO := NamedCodec(PROTO, 0), JSON := NamedCodec(JSON, 0)]
      ensures CompressorNames == [default.name] && AcceptCompression == ""
      ensures Compressors == map[default.name := default]
    {
      Compressors, CompressorNames, AcceptCompression := map[default.name := default], [default.name], "";
      Codecs := map[PROTO := NamedCodec(PROTO, 0), JSON := NamedCodec(JSON, 0)];
      SendCodecName, SendCodec := sendCodecName, None;
    }

    /** Registers codecs; a later one of the same name replaces the earlier, and none is lost. */
    method AddCodecs(cs: seq<NamedCodec>)
      requires Valid()
      modifies this`Codecs
      ensures Valid() && Codecs == old(Codecs) + CodecsByName(cs)
    {
      ghost var known := Codecs;
      assert cs[..0] == [] && known + CodecsByName([]) == known;
      for i := 0 to |cs|
        invariant Valid() && Codecs == known + CodecsByName(cs[..i])
      {
        assert cs[..i + 1][..i] == cs[..i];
        Codecs := Codecs[cs[i].name := cs[i]];
      }
      assert cs[..|cs|] == cs;
    }

    /** Registers compressors in order; a later one of the same name replaces the earlier. */
    method AddCompressors(cs: seq<Compressor>)
      requires Valid()
      modifies this`Compressors, this`CompressorNames
      ensures Valid() && AcceptCompression == old(AcceptCompression)
      ensures CompressorNames == old(CompressorNames) + Names(cs)
      ensures Compressors == old(Compressors) + ByName(cs)
    {
      NoneRegistered(Compressors, CompressorNames);
      ghost var known, names := Compressors, CompressorNames;
      assert cs[..0] == [];
      hide Consistent, Names, ByName;
      for i := 0 to |cs|
        invariant Valid() && AcceptCompression == old(AcceptCompression)
        invariant CompressorNames == names + Names(cs[..i])
        invariant Compressors == known + ByName(cs[..i])
      {
        RegisteredNext(known, names, cs, i);
        ConsistentMore(Compressors, CompressorNames, cs[i]);
        Compressors := Compressors[cs[i].name := cs[i]];
        CompressorNames := CompressorNames + [cs[i].name];
      }
      assert cs[..|cs|] == cs;
    }

    method Finalize()
      requires Valid()
      modifies this`AcceptCompression, this`SendCodec
      ensures Valid() && AcceptCompression == Join(CompressorNames)
      ensures SendCodec == Some(Codecs[if SendCodecName in Codecs then SendCodecName else PROTO])
    {
      SendCodec := if SendCodecName in Codecs then Some(Codecs[SendCodecName]) else None;
      if SendCodec == None {
        SendCodec := Some(Codecs[PROTO]);
      }
      AcceptCompression := Join(CompressorNames);
    }
  }

  function Names(cs: seq<Compressor>): (names: seq<string>)
    ensures |names| == |cs| && forall i :: 0 <= i < |cs| ==> names[i] == cs[i].name
  {
    if cs == [] then [] else Names(cs[..|cs| - 1]) + [cs[|cs| - 1].name]
  }

  function CodecsByName(cs: seq<NamedCodec>): map<string, NamedCodec> {
    if cs == [] then map[] else CodecsByName(cs[..|cs| - 1])[cs[|cs| - 1].name := cs[|cs| - 1]]
  }

  function ByName(cs: seq<Compressor>): map<string, Compressor> {
    if cs == [] then map[] else ByName(cs[..|cs| - 1])[cs[|cs| - 1].name := cs[|cs| - 1]]
  }

  /** Registered are exactly the last compressors of each name. */
  lemma {:induction false} RegistersLast(cs: seq<Compressor>, c: Compressor)
    ensures c.name in ByName(cs) && ByName(cs)[c.name] == c
       <==> exists i: nat :: i < |cs| && cs[i] == c && forall j: nat :: i < j < |cs| ==> cs[j].name != c.name
    ensures forall n :: n in ByName(cs) ==> ByName(cs)[n].name == n
  {
    if cs != [] {
      var last := |cs| - 1;
      RegistersLast(cs[..last], c);
      assert forall i: nat :: i < last ==> cs[..last][i] == cs[i];
    }
  }

  lemma {:induction false} RegistersLastCodec(cs: seq<NamedCodec>, c: NamedCodec)
    ensures c.name in CodecsByName(cs) && CodecsByName(cs)[c.name] == c
       <==> exists i: nat :: i < |cs| && cs[i] == c && forall j: nat :: i < j < |cs| ==> cs[j].name != c.name
    ensures forall n :: n in CodecsByName(cs) ==> CodecsByName(cs)[n].name == n
  {
    if cs != [] {
      var last := |cs| - 1;
      RegistersLastCodec(cs[..last], c);
      assert forall i: nat :: i < last ==> cs[..last][i] == cs[i];
    }
  }

  lemma RegisteredNext(known: map<string, Compressor>, names: seq<string>, cs: seq<Compressor>, i: nat)
    requires i < |cs|
    ensures names + Names(cs[..i + 1]) == names + Names(cs[..i]) + [cs[i].name]
    ensures known + ByName(cs[..i + 1]) == (known + ByName(cs[..i]))[cs[i].name := cs[i]]
  {
    assert cs[..i + 1][..i] == cs[..i];
  }

  lemma NoneRegistered(known: map<string, Compressor>, names: seq<string>)
    ensures names + Names([]) == names && known + ByName([]) == known
  {}

  // Main result

  /** Whatever a server negotiates from a client's list, with or without white space around the
      commas, is a name the server knows and the client listed, and the first such; nothing is
      negotiated only when they share no name. */
  lemma NegotiatedIsShared(parts: seq<string>, names: seq<string>, known: map<string, Compressor>)
    requires names != [] && |parts| == |names|
    requires forall i :: 0 <= i < |names| ==> CleanName(names[i]) && Pads(parts[i], names[i])
    ensures var r := NegotiateCompression(Join(parts), known);
      && (r.None? <==> forall n :: n in names ==> n !in known)
      && (r.Some? ==> exists i :: 0 <= i < |names| && names[i] == r.value && names[i] in known
                              && forall j :: 0 <= j < i ==> names[j] !in known)
  {
    forall p | p in parts ensures ',' !in p {
      var i :| 0 <= i < |parts| && parts[i] == p;
      PaddingHasNoComma(p, names[i]);
    }
    SplitInvertsJoin(parts);
    FirstKnownIsFirst(parts, names, known);
  }

  lemma PaddingHasNoComma(part: string, name: string)
    requires Pads(part, name) && ',' !in name
    ensures ',' !in part
  {
    var a, b :| AllSpace(a) && AllSpace(b) && part == a + name + b;
  }

  /** The same for a list that is advertised without white space. */
  lemma OwnListIsShared(names: seq<string>, known: map<string, Compressor>)
    requires names != [] && forall n :: n in names ==> CleanName(n)
    ensures var r := NegotiateCompression(Join(names), known);
      && (r.None? <==> forall n :: n in names ==> n !in known)
      && (r.Some? ==> exists i :: 0 <= i < |names| && names[i] == r.value && names[i] in known
                              && forall j :: 0 <= j < i ==> names[j] !in known)
  {
    forall i | 0 <= i < |names| ensures CleanName(names[i]) && Pads(names[i], names[i]) {
      SelfPads(names[i]);
    }
    NegotiatedIsShared(names, names, known);
  }

  /** For one, a name the server does not know and one it does, with a space after the comma. */
  lemma SpacedListNegotiates(c: Compressor)
    ensures NegotiateCompression("br, gzip", map["gzip" := c]) == Some("gzip")
  {
    SpacedParts();
    hide Pads, CleanName, Join, NegotiateCompression;
    NegotiatedIsShared(["br", " gzip"], ["br", "gzip"], map["gzip" := c]);
    assert "gzip" in ["br", "gzip"];
  }

  lemma SpacedParts()
    ensures Join(["br", " gzip"]) == "br, gzip"
    ensures CleanName("br") && Pads("br", "br") && CleanName("gzip") && Pads(" gzip", "gzip")
  {
    SelfPads("br");
    assert AllSpace(" ") && AllSpace("") && " gzip" == " " + "gzip" + "";
    assert ["br", " gzip"][1..] == [" gzip"];
    hide Pads;
  }

  /** An empty list still splits into one part, the empty name. */
  lemma NothingAdvertised(known: map<string, Compressor>)
    ensures NegotiateCompression(Join([]), known) == if "" in known then Some("") else None
  {
    assert Split("") == [""] && TrimSpace("") == "" && [""][1..] == [];
    assert FirstKnown([], known) == None;
  }

  /** Exactly when negotiation stays within what the client advertised: when it advertised
      something, or the server has no compressor with an empty name. */
  lemma NegotiatesOwnIffSafe(names: seq<string>, known: map<string, Compressor>)
    requires forall n :: n in names ==> CleanName(n)
    ensures var r := NegotiateCompression(Join(names), known);
      (r.Some? ==> r.value in names) <==> (names != [] || "" !in known)
  {
    if names == [] {
      NothingAdvertised(known);
    } else {
      OwnListIsShared(names, known);
    }
    hide NegotiateCompression, Join, CleanName;
  }

  /** For one: a server with an unnamed compressor answers a client that advertises nothing
      with it. */
  lemma EmptyNameIsNegotiated(c: Compressor)
    ensures NegotiateCompression("", map["" := c]) == Some("")
  {
    NegotiatesOwnIffSafe([], map["" := c]);
    NothingAdvertised(map["" := c]);
  }
}
