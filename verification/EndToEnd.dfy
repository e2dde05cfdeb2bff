/** A client and a server connection joined by two lossless, ordered wires: what a stream's
    consumer reads on one side is a prefix of what its peer wrote on the other. */
module EndToEnd {
  import opened Wire
  import opened MuxTable
  import opened MuxMachine
  import opened MuxSafety
  import opened MuxHistory

  datatype System = System(client: Mux, server: Mux)

  datatype Step =
    | AtClient(e: Event)
    | AtServer(e: Event)
    | ToServer   // the oldest frame in flight reaches the server
    | ToClient

  function Start(): System {
    System(Init(Client), Init(Server))
  }

  predicate CanStep(s: System, x: Step) {
    match x
    case AtClient(e) => !e.Arrive? && Enabled(s.client, e)
    case AtServer(e) => !e.Arrive? && Enabled(s.server, e)
    case ToServer => |s.server.inc| < |s.client.out|
    case ToClient => |s.client.inc| < |s.server.out|
  }

  function Next(s: System, x: Step): System
    requires CanStep(s, x)
  {
    match x
    case AtClient(e) => s.(client := Apply(s.client, e))
    case AtServer(e) => s.(server := Apply(s.server, e))
    case ToServer => s.(server := Apply(s.server, Arrive(s.client.out[|s.server.inc|])))
    case ToClient => s.(client := Apply(s.client, Arrive(s.server.out[|s.client.inc|])))
  }

  predicate CanRun(s: System, xs: seq<Step>)
    decreases |xs|
  {
    xs == [] || (CanStep(s, xs[0]) && CanRun(Next(s, xs[0]), xs[1..]))
  }

  function After(s: System, xs: seq<Step>): System
    requires CanRun(s, xs)
    decreases |xs|
  {
    if xs == [] then s else After(Next(s, xs[0]), xs[1..])
  }

  ghost predicate Reached(s: System) {
    exists xs :: CanRun(Start(), xs) && After(Start(), xs) == s
  }

  // Invariant

  ghost predicate MuxOk(m: Mux) {
    Inv(m) && History(m)
  }

  /** Nothing came for a client stream's ID before the stream was opened. */
  ghost predicate QuietBefore(c: Mux, p: Ptr) {
    p in c.objs && Unique(c) ==> c.objs[p].from <= |c.inc| && Envs(c.inc[..c.objs[p].from], p.id) == []
  }

  ghost predicate SystemOk(s: System) {
    && MuxOk(s.client) && MuxOk(s.server) && s.client.role == Client && s.server.role == Server
    && s.server.inc <= s.client.out && s.client.inc <= s.server.out
    && (forall p :: QuietBefore(s.client, p))
  }

  lemma MuxStep(m: Mux, e: Event)
    requires MuxOk(m) && Enabled(m, e)
    ensures MuxOk(Apply(m, e))
    ensures Apply(m, e).role == m.role && m.out <= Apply(m, e).out
    ensures Apply(m, e).inc == m.inc + (if e.Arrive? then [e.f] else [])
  {
    InvStep(m, e);
    HistoryStep(m, e);
    ObjsGrow(m, e);
  }

  lemma NoFrames(fs: seq<Frame>, id: StreamId, i: nat)
    requires Envs(fs, id) == [] && i < |fs|
    ensures fs[i].id != id
  {
    assert fs[..i + 1] == fs[..i] + [fs[i]];
    EnvsSnoc(fs[..i], fs[i], id);
    EnvsPrefix(fs[..i + 1], fs, id);
  }

  /** A client that never used an ID has never been sent anything for it. */
  lemma NothingYet(s: System, id: StreamId)
    requires SystemOk(s) && !Known(s.client, id)
    ensures Envs(s.client.inc, id) == []
  {
    assert WroteOk(s.client, id) && WroteOk(s.server, id);
    EnvsPrefix(s.server.inc, s.client.out, id);
    EnvsPrefix(s.client.inc, s.server.out, id);
    if Known(s.server, id) {
      var p :| p in s.server.objs && p.id == id;
      assert BegunOk(s.server, p);
      NoFrames(s.server.inc, id, s.server.objs[p].from);
    }
  }

  lemma QuietStep(s: System, x: Step, p: Ptr)
    requires SystemOk(s) && CanStep(s, x)
    ensures QuietBefore(Next(s, x).client, p)
  {
    if x.AtClient? || x.ToClient? {
      var c, e := s.client, if x.AtClient? then x.e else Arrive(s.server.out[|s.client.inc|]);
      var d := Apply(c, e);
      ObjsGrow(c, e);
      if p in d.objs && Unique(d) {
        assert Unique(c) by {
          assert forall q :: q in c.objs ==> q in d.objs;
        }
        if p in c.objs {
          assert QuietBefore(c, p);
          ObjKept(c, e, p);
          assert d.inc[..c.objs[p].from] == c.inc[..c.objs[p].from] by {
            MuxStep(c, e);
          }
        } else {
          NewObj(c, e, p);
          assert !Known(c, p.id) by {
            assert forall q :: q in c.objs && q.id == p.id ==> q in d.objs && q == p;
          }
          NothingYet(s, p.id);
          EnvsPrefix(c.inc[..Looked(c)], c.inc, p.id);
        }
      }
    }
  }

  lemma SystemStep(s: System, x: Step)
    requires SystemOk(s) && CanStep(s, x)
    ensures SystemOk(Next(s, x))
  {
    hide QuietBefore, MuxOk;
    forall p ensures QuietBefore(Next(s, x).client, p) {
      QuietStep(s, x, p);
    }
    match x
    case AtClient(e) => MuxStep(s.client, e);
    case AtServer(e) => MuxStep(s.server, e);
    case ToServer => MuxStep(s.server, Arrive(s.client.out[|s.server.inc|]));
    case ToClient => MuxStep(s.client, Arrive(s.server.out[|s.client.inc|]));
  }

  lemma {:induction false} SystemRun(s: System, xs: seq<Step>)
    requires SystemOk(s) && CanRun(s, xs)
    ensures SystemOk(After(s, xs))
    decreases |xs|
  {
    if xs != [] {
      SystemStep(s, xs[0]);
      SystemRun(Next(s, xs[0]), xs[1..]);
    }
  }

  lemma ReachedOk(s: System)
    requires Reached(s)
    ensures SystemOk(s)
  {
    var xs :| CanRun(Start(), xs) && After(Start(), xs) == s;
    InvInit(Client);
    InvInit(Server);
    SystemRun(Start(), xs);
  }

  // Main results

  /** Requests: what a server stream reads begins with a headers envelope that the client's
      stream of that ID wrote, and continues exactly as that stream wrote it. */
  lemma RequestsAreFifo(s: System, p: Ptr) returns (q: Ptr, k: nat)
    requires Reached(s) && Unique(s.client) && p in s.server.objs
    ensures q in s.client.objs && q.id == p.id
    ensures var wrote := s.client.objs[q].put;
      k < |wrote| && wrote[k].flag == FLAG_HEADERS && s.server.objs[p].got <= wrote[k..]
  {
    ReachedOk(s);
    var o, out := s.server.objs[p], s.client.out;
    assert BegunOk(s.server, p) && FifoOk(s.server, p, o);
    assert WroteOk(s.client, p.id);
    hide Inv, History, FrameOk;
    k := |Envs(out[..o.from], p.id)|;
    SuffixFromHeaders(s.server.inc, out, p.id, o.from, Looked(s.server), o.got);
    if !Known(s.client, p.id) {
      NoFrames(out, p.id, o.from);
    }
    q :| q in s.client.objs && q.id == p.id;
  }

  /** A reader that starts at a headers frame reads a suffix of the ID's envelopes. */
  lemma SuffixFromHeaders(inc: seq<Frame>, out: seq<Frame>, id: StreamId, from: nat, n: int, got: seq<Envelope>)
    requires inc <= out && from < n <= |inc| && IsHeaders(inc[from], id) && got <= Envs(inc[from..n], id)
    ensures var all, k := Envs(out, id), |Envs(out[..from], id)|;
      k < |all| && all[k].flag == FLAG_HEADERS && got <= all[k..]
  {
    EnvsSplit(out, from, id);
    assert inc[from..n] == out[from..][..n - from];
    EnvsPrefix(inc[from..n], out[from..], id);
    EnvsFirst(out[from..], id);
    assert Envs(out, id)[|Envs(out[..from], id)|..] == Envs(out[from..], id);
  }

  lemma EnvsSplit(fs: seq<Frame>, n: nat, id: StreamId)
    requires n <= |fs|
    ensures Envs(fs, id) == Envs(fs[..n], id) + Envs(fs[n..], id)
  {
    assert fs == fs[..n] + fs[n..];
    EnvsConcat(fs[..n], fs[n..], id);
  }

  lemma EnvsFirst(fs: seq<Frame>, id: StreamId)
    requires fs != [] && fs[0].id == id
    ensures Envs(fs, id) != [] && Envs(fs, id)[0] == fs[0].env
  {
    EnvsSplit(fs, 1, id);
    assert fs[..1] == [] + [fs[0]];
    EnvsSnoc([], fs[0], id);
  }

  /** The client opens each ID with one headers frame only. */
  ghost predicate HeadersOnce(fs: seq<Frame>) {
    forall i, j, id :: 0 <= i < |fs| && 0 <= j < |fs| && IsHeaders(fs[i], id) && IsHeaders(fs[j], id) ==> i == j
  }

  /** Then the server starts at most one handler per ID. */
  lemma OneHandlerPerId(s: System)
    requires Reached(s) && HeadersOnce(s.client.out)
    ensures Unique(s.server)
  {
    ReachedOk(s);
    var m := s.server;
    forall p, q | p in m.objs && q in m.objs && p.id == q.id ensures p == q {
      assert BegunOk(m, p) && BegunOk(m, q) && ApartOk(m, p, q);
      assert IsHeaders(s.client.out[m.objs[p].from], p.id) && IsHeaders(s.client.out[m.objs[q].from], p.id);
    }
  }

  predicate OneHeaders(es: seq<Envelope>) {
    forall a, b :: 0 <= a < |es| && 0 <= b < |es| && es[a].flag == FLAG_HEADERS && es[b].flag == FLAG_HEADERS ==> a == b
  }

  lemma FrameIsEnv(fs: seq<Frame>, i: nat, id: StreamId) returns (k: nat)
    requires i < |fs| && fs[i].id == id
    ensures k == |Envs(fs[..i], id)| && k < |Envs(fs, id)| && Envs(fs, id)[k] == fs[i].env
    ensures forall j :: i < j <= |fs| ==> |Envs(fs[..j], id)| > k
  {
    k := |Envs(fs[..i], id)|;
    EnvsSnoc(fs[..i], fs[i], id);
    assert fs[..i + 1] == fs[..i] + [fs[i]];
    EnvsPrefix(fs[..i + 1], fs, id);
    forall j | i < j <= |fs| ensures |Envs(fs[..j], id)| > k {
      assert fs[..i + 1] <= fs[..j];
      EnvsPrefix(fs[..i + 1], fs[..j], id);
    }
  }

  /** IDs that are never reused and streams that write their headers once add up to that. */
  lemma OneHeadersPerStream(s: System)
    requires Reached(s) && Unique(s.client) && forall q :: q in s.client.objs ==> OneHeaders(s.client.objs[q].put)
    ensures HeadersOnce(s.client.out)
  {
    ReachedOk(s);
    var m, out := s.client, s.client.out;
    forall i, j, id | 0 <= i < |out| && 0 <= j < |out| && IsHeaders(out[i], id) && IsHeaders(out[j], id) ensures i == j {
      assert WroteOk(m, id);
      hide Inv, History, FrameOk, WroteOk, Reached, SystemOk;
      var a := FrameIsEnv(out, i, id);
      var b := FrameIsEnv(out, j, id);
      assert Known(m, id) by {
        if !Known(m, id) {
          NoFrames(out, id, i);
        }
      }
      var q :| q in m.objs && q.id == id;
      assert m.objs[q].put == Envs(out, id);
    }
  }

  /** Responses: what a client stream reads is a prefix of what the server's one stream of that
      ID wrote, and it reads nothing while there is no such stream. */
  lemma ResponsesAreFifo(s: System, q: Ptr)
    requires Reached(s) && Unique(s.client) && HeadersOnce(s.client.out) && q in s.client.objs
    ensures Known(s.server, q.id) ==>
      exists p :: p in s.server.objs && p.id == q.id && s.client.objs[q].got <= s.server.objs[p].put
    ensures !Known(s.server, q.id) ==> s.client.objs[q].got == []
  {
    ReachedOk(s);
    OneHandlerPerId(s);
    var o, inc := s.client.objs[q], s.client.inc;
    assert FifoOk(s.client, q, o) && QuietBefore(s.client, q) && WroteOk(s.server, q.id);
    hide Inv, History, FrameOk;
    AllFromTheStart(inc, s.server.out, q.id, o.from, Looked(s.client), o.got);
    if Known(s.server, q.id) {
      var p :| p in s.server.objs && p.id == q.id;
      assert s.client.objs[q].got <= s.server.objs[p].put;
    }
  }

  /** A reader before whose start nothing came reads a prefix of the ID's envelopes. */
  lemma AllFromTheStart(inc: seq<Frame>, out: seq<Frame>, id: StreamId, from: nat, n: int, got: seq<Envelope>)
    requires inc <= out && from <= n <= |inc| && Envs(inc[..from], id) == [] && got <= Envs(inc[from..n], id)
    ensures got <= Envs(out, id)
  {
    EnvsSplit(inc[..n], from, id);
    assert inc[..n][..from] == inc[..from] && inc[..n][from..] == inc[from..n];
    assert inc[..n] <= out;
    EnvsPrefix(inc[..n], out, id);
  }
}
