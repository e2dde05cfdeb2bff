/** When the TypeScript server orphans a stream. It removes an ID twice for every RPC, at the
    close callback and when the promise settles, so a stream that takes a used ID over can be
    removed by its predecessor without any reset: the Go server needs one. */
module TsOrphans {
  import opened Wire
  import opened MuxMachine
  import opened TsServer
  import MuxOwnership
  import MuxReopen
  import R = TsRefinement

  /** How often an ID is opened. */
  function Heads(fs: seq<Frame>, id: StreamId): nat {
    if fs == [] then 0
    else
      var f := fs[|fs| - 1];
      Heads(fs[..|fs| - 1], id) + (if f.id == id && f.env.flag == FLAG_HEADERS then 1 else 0)
  }

  lemma HeadsSnoc(fs: seq<Frame>, f: Frame, id: StreamId)
    ensures Heads(fs + [f], id) == Heads(fs, id) + (if f.id == id && f.env.flag == FLAG_HEADERS then 1 else 0)
  {
    assert (fs + [f])[..|fs|] == fs;
  }

  lemma {:induction false} HeadsMono(fs: seq<Frame>, n: nat, id: StreamId)
    requires n <= |fs|
    ensures Heads(fs[..n], id) <= Heads(fs, id)
    decreases |fs| - n
  {
    if n == |fs| {
      assert fs[..n] == fs;
    } else {
      HeadsSnoc(fs[..n], fs[n], id);
      assert fs[..n] + [fs[n]] == fs[..n + 1];
      HeadsMono(fs, n + 1, id);
    }
  }

  predicate Holds(t: State, p: Ptr) {
    p.id in t.streams && t.streams[p.id] == p
  }

  /** Still being served, not reset, and out of the map: its later frames are dropped and no
      reset or teardown reaches it. */
  predicate Orphan(t: State, p: Ptr) {
    p in t.entries && t.entries[p].life == Running && !t.entries[p].reset && !Holds(t, p)
  }

  // What every run keeps

  predicate Twins(t: State, p: Ptr, q: Ptr) {
    p in t.entries && q in t.entries && p != q && p.id == q.id
  }

  ghost predicate HasTwin(t: State, p: Ptr) {
    exists q :: Twins(t, p, q)
  }

  predicate HolderOk(t: State, id: StreamId) {
    id in t.streams ==>
      var p := t.streams[id];
      p.id == id && p in t.entries && t.entries[p].life == Running && !t.entries[p].reset
  }

  ghost predicate Kept(t: State, fs: seq<Frame>) {
    && (forall id :: HolderOk(t, id))
    && (forall p :: p in t.entries ==> Heads(fs, p.id) >= 1)
    && (forall p, q :: Twins(t, p, q) ==> Heads(fs, p.id) >= 2)
    && (forall p :: Orphan(t, p) ==> HasTwin(t, p))
  }

  function FrameOf(x: Turn): seq<Frame> {
    if x.Start? || x.Other? then [x.f] else []
  }

  lemma KeptStart(t: State, fs: seq<Frame>, f: Frame, gen: nat)
    requires Kept(t, fs) && CanTurn(t, Start(f, gen))
    ensures Kept(Turned(t, Start(f, gen)), fs + [f])
  {
    var u, p := Turned(t, Start(f, gen)), Ptr(f.id, gen);
    forall id ensures HolderOk(u, id) {
      assert HolderOk(t, id);
    }
    forall q | q in u.entries ensures Heads(fs + [f], q.id) >= 1 {
      HeadsSnoc(fs, f, q.id);
    }
    forall q, r | Twins(u, q, r) ensures Heads(fs + [f], q.id) >= 2 {
      HeadsSnoc(fs, f, q.id);
      assert Twins(t, q, r) || q == p || r == p;
    }
    forall q | Orphan(u, q) ensures HasTwin(u, q) {
      assert Orphan(t, q);
      var r :| Twins(t, q, r);
      assert Twins(u, q, r);
    }
  }

  /** Removing an ID, whoever asks for it. */
  lemma KeptRemoved(t: State, fs: seq<Frame>, p: Ptr, life: Life)
    requires Kept(t, fs) && p in t.entries && life != Running && t.entries[p].life != Settled
    ensures Kept(Removed(t, p, life), fs)
  {
    var u := Removed(t, p, life);
    forall id ensures HolderOk(u, id) {
      assert HolderOk(t, id);
    }
    forall q, r | Twins(u, q, r) ensures Heads(fs, q.id) >= 2 {
      assert Twins(t, q, r);
    }
    forall q | Orphan(u, q) ensures HasTwin(u, q) {
      if Orphan(t, q) {
        var r :| Twins(t, q, r);
        assert Twins(u, q, r);
      } else {
        assert Twins(u, q, p);
      }
    }
  }

  lemma KeptOther(t: State, fs: seq<Frame>, f: Frame)
    requires Kept(t, fs) && CanTurn(t, Other(f))
    ensures Kept(Turned(t, Other(f)), fs + [f])
  {
    var u := Turned(t, Other(f));
    assert u.entries.Keys == t.entries.Keys;
    assert HolderOk(t, f.id);
    forall id ensures HolderOk(u, id) {
      assert HolderOk(t, id);
    }
    forall q | q in u.entries ensures Heads(fs + [f], q.id) >= 1 {
      HeadsSnoc(fs, f, q.id);
    }
    forall q, r | Twins(u, q, r) ensures Heads(fs + [f], q.id) >= 2 {
      assert Twins(t, q, r);
      HeadsSnoc(fs, f, q.id);
    }
    forall q | Orphan(u, q) ensures HasTwin(u, q) {
      assert Orphan(t, q);
      var r :| Twins(t, q, r);
      assert Twins(u, q, r);
    }
  }

  lemma KeptEnd(t: State, fs: seq<Frame>)
    requires Kept(t, fs)
    ensures Kept(TornDown(t), fs)
  {
    var u := TornDown(t);
    assert u.entries.Keys == t.entries.Keys;
    forall q, r | Twins(u, q, r) ensures Heads(fs, q.id) >= 2 {
      assert Twins(t, q, r);
    }
    forall q | Orphan(u, q) ensures HasTwin(u, q) {
      assert Orphan(t, q);
      var r :| Twins(t, q, r);
      assert Twins(u, q, r);
    }
  }

  lemma KeptTurn(t: State, fs: seq<Frame>, x: Turn)
    requires Kept(t, fs) && CanTurn(t, x)
    ensures Kept(Turned(t, x), fs + FrameOf(x))
  {
    assert fs + [] == fs;
    hide Kept;
    match x
    case Start(f, gen) => KeptStart(t, fs, f, gen);
    case Other(f) => KeptOther(t, fs, f);
    case Release(p) => KeptRemoved(t, fs, p, Released);
    case Finish(p) => KeptRemoved(t, fs, p, Settled);
    case End => KeptEnd(t, fs);
  }

  lemma {:induction false} KeptTurns(xs: seq<Turn>)
    requires CanTurns(Fresh(), xs)
    ensures Kept(Turns(Fresh(), xs), FramesOf(xs))
    decreases |xs|
  {
    if xs == [] {
      assert Kept(Fresh(), []);
    } else {
      var ys, x := LastTurn(xs);
      hide CanTurns, CanTurn, Turned, Kept;
      KeptTurns(ys);
      FramesSnoc(ys, x);
      KeptTurn(Turns(Fresh(), ys), FramesOf(ys), x);
    }
  }

  lemma LastTurn(xs: seq<Turn>) returns (ys: seq<Turn>, x: Turn)
    requires xs != [] && CanTurns(Fresh(), xs)
    ensures xs == ys + [x] && |ys| < |xs| && CanTurns(Fresh(), ys) && CanTurn(Turns(Fresh(), ys), x)
    ensures Turns(Fresh(), xs) == Turned(Turns(Fresh(), ys), x)
  {
    var m := |xs| - 1;
    ys, x := xs[..m], xs[m];
    assert xs == ys + [x];
    R.PrefixTurns(xs, m);
    TurnsSnoc(Fresh(), ys, x);
  }

  // The schedule that orphans

  /** Between two frames, with every RPC ever started still being served. */
  ghost predicate Plain(t: State, fs: seq<Frame>) {
    && t.serving && Kept(t, fs)
    && (forall p :: p in t.entries ==> t.entries[p].life == Running && p.gen < |fs|)
    && (forall id :: Heads(fs, id) >= 1 ==> Begun(t, id))
  }

  ghost predicate Begun(t: State, id: StreamId) {
    exists p :: p in t.entries && p.id == id
  }

  /** The turn that deals with the next frame. */
  function TurnFor(t: State, f: Frame, gen: nat): Turn {
    if Decide(t.streams, f) == StartStream then Start(f, gen) else Other(f)
  }

  lemma PlainNext(t: State, fs: seq<Frame>, f: Frame)
    requires Plain(t, fs)
    ensures var x := TurnFor(t, f, |fs|); CanTurn(t, x) && Plain(Turned(t, x), fs + [f])
  {
    var x := TurnFor(t, f, |fs|);
    assert HolderOk(t, f.id);
    KeptTurn(t, fs, x);
    PlainEntries(t, fs, f);
    hide Kept, Heads, HolderOk;
    forall id | Heads(fs + [f], id) >= 1 ensures Begun(Turned(t, x), id) {
      BegunNext(t, fs, f, id);
    }
    hide Turned, Begun;
  }

  lemma PlainEntries(t: State, fs: seq<Frame>, f: Frame)
    requires Plain(t, fs)
    ensures var x := TurnFor(t, f, |fs|);
      && CanTurn(t, x) && Turned(t, x).serving && t.entries.Keys <= Turned(t, x).entries.Keys
      && forall p :: p in Turned(t, x).entries ==> Turned(t, x).entries[p].life == Running && p.gen < |fs| + 1
  {
    assert HolderOk(t, f.id);
    hide Kept, Heads, Begun;
  }

  lemma BegunNext(t: State, fs: seq<Frame>, f: Frame, id: StreamId)
    requires Plain(t, fs) && Heads(fs + [f], id) >= 1 && CanTurn(t, TurnFor(t, f, |fs|))
    requires t.entries.Keys <= Turned(t, TurnFor(t, f, |fs|)).entries.Keys
    ensures Begun(Turned(t, TurnFor(t, f, |fs|)), id)
  {
    var u := Turned(t, TurnFor(t, f, |fs|));
    HeadsSnoc(fs, f, id);
    if Begun(t, id) {
      var p :| p in t.entries && p.id == id;
      assert p in u.entries;
    } else {
      hide Kept, Heads, HolderOk;
      if f.id in t.streams {
        HolderIsEntry(t, fs, id);
      } else {
        assert Ptr(id, |fs|) in u.entries;
      }
    }
  }

  lemma HolderIsEntry(t: State, fs: seq<Frame>, id: StreamId)
    requires Kept(t, fs) && id in t.streams
    ensures Begun(t, id)
  {
    assert HolderOk(t, id);
    assert t.streams[id] in t.entries && t.streams[id].id == id;
  }

  lemma {:induction false} HearAll(fs: seq<Frame>) returns (xs: seq<Turn>)
    ensures CanTurns(Fresh(), xs) && FramesOf(xs) == fs && Plain(Turns(Fresh(), xs), fs)
  {
    if fs == [] {
      xs := [];
      assert Kept(Fresh(), []);
    } else {
      var m := |fs| - 1;
      assert fs[..m] + [fs[m]] == fs;
      var ys := HearAll(fs[..m]);
      hide Plain, Kept, Turned, CanTurn, CanTurns;
      var x := TurnFor(Turns(Fresh(), ys), fs[m], m);
      PlainNext(Turns(Fresh(), ys), fs[..m], fs[m]);
      TurnsSnoc(Fresh(), ys, x);
      FramesSnoc(ys, x);
      xs := ys + [x];
    }
  }

  /** Adds one turn to a run. */
  lemma Then(xs: seq<Turn>, x: Turn) returns (ys: seq<Turn>)
    requires CanTurns(Fresh(), xs) && CanTurn(Turns(Fresh(), xs), x)
    ensures CanTurns(Fresh(), ys) && Turns(Fresh(), ys) == Turned(Turns(Fresh(), xs), x)
    ensures FramesOf(ys) == FramesOf(xs) + FrameOf(x)
  {
    TurnsSnoc(Fresh(), xs, x);
    FramesSnoc(xs, x);
    ys := xs + [x];
  }

  /** A run of the TypeScript server on (a prefix of) these frames orphans a stream. */
  ghost predicate CanOrphan(fs: seq<Frame>, id: StreamId) {
    exists xs, p :: Orphans(xs, p) && FramesOf(xs) <= fs && p.id == id
  }

  predicate Orphans(xs: seq<Turn>, p: Ptr) {
    CanTurns(Fresh(), xs) && Orphan(Turns(Fresh(), xs), p)
  }

  /** The ID is held: its RPC is over, the next one starts, and the old promise settles. */
  lemma OrphanHeld(xs: seq<Turn>, f: Frame) returns (ys: seq<Turn>)
    requires CanTurns(Fresh(), xs) && Plain(Turns(Fresh(), xs), FramesOf(xs))
    requires f.env.flag == FLAG_HEADERS && f.id in Turns(Fresh(), xs).streams
    ensures FramesOf(ys) == FramesOf(xs) + [f] && Orphans(ys, Ptr(f.id, |FramesOf(xs)|))
  {
    var t, fs, q := Turns(Fresh(), xs), FramesOf(xs), Ptr(f.id, |FramesOf(xs)|);
    var p := t.streams[f.id];
    assert HolderOk(t, f.id);
    assert q !in t.entries;
    hide Kept, Heads, CanTurns, FramesOf;
    var a := Then(xs, Release(p));
    var b := Then(a, Start(f, q.gen));
    ys := Then(b, Finish(p));
    assert fs + [] + [f] + [] == fs + [f];
  }

  /** The ID is free but was used: the next stream starts, and the old RPC is over. */
  lemma OrphanFree(xs: seq<Turn>, f: Frame, p: Ptr) returns (ys: seq<Turn>)
    requires CanTurns(Fresh(), xs) && Plain(Turns(Fresh(), xs), FramesOf(xs))
    requires f.env.flag == FLAG_HEADERS && f.id !in Turns(Fresh(), xs).streams
    requires p in Turns(Fresh(), xs).entries && p.id == f.id
    ensures FramesOf(ys) == FramesOf(xs) + [f] && Orphans(ys, Ptr(f.id, |FramesOf(xs)|))
  {
    var t, fs, q := Turns(Fresh(), xs), FramesOf(xs), Ptr(f.id, |FramesOf(xs)|);
    assert q !in t.entries;
    hide Kept, Heads, CanTurns, FramesOf;
    var a := Then(xs, Start(f, q.gen));
    ys := Then(a, Release(p));
    assert fs + [f] + [] == fs + [f];
  }

  lemma {:induction false} SecondHead(fs: seq<Frame>, id: StreamId) returns (n: nat)
    requires Heads(fs, id) >= 2
    ensures n < |fs| && fs[n].id == id && fs[n].env.flag == FLAG_HEADERS && Heads(fs[..n], id) >= 1
  {
    var m := |fs| - 1;
    if fs[m].id == id && fs[m].env.flag == FLAG_HEADERS {
      n := m;
    } else {
      n := SecondHead(fs[..m], id);
      assert fs[..m][..n] == fs[..n];
    }
  }

  lemma OrphanNeedsReuse(fs: seq<Frame>, id: StreamId)
    requires CanOrphan(fs, id)
    ensures Heads(fs, id) >= 2
  {
    var xs, p :| Orphans(xs, p) && FramesOf(xs) <= fs && p.id == id;
    KeptTurns(xs);
    var q :| Twins(Turns(Fresh(), xs), p, q);
    HeadsMono(fs, |FramesOf(xs)|, id);
    assert fs[..|FramesOf(xs)|] == FramesOf(xs);
  }

  lemma ReuseOrphans(fs: seq<Frame>, id: StreamId, n: nat) returns (ys: seq<Turn>)
    requires n < |fs| && fs[n].id == id && fs[n].env.flag == FLAG_HEADERS && Heads(fs[..n], id) >= 1
    ensures Orphans(ys, Ptr(id, n)) && FramesOf(ys) == fs[..n + 1]
  {
    var xs := HearAll(fs[..n]);
    var t := Turns(Fresh(), xs);
    assert fs[..n] + [fs[n]] == fs[..n + 1];
    assert Begun(t, id);
    hide CanTurns, Heads, Plain, Turned, CanTurn, Orphans;
    if id in t.streams {
      ys := OrphanHeld(xs, fs[n]);
    } else {
      var p :| p in t.entries && p.id == id;
      ys := OrphanFree(xs, fs[n], p);
    }
  }

  /** The TypeScript server can orphan a stream if and only if its ID is opened twice; no reset
      is needed. */
  lemma OrphanIffReused(fs: seq<Frame>, id: StreamId)
    ensures CanOrphan(fs, id) <==> Heads(fs, id) >= 2
  {
    if CanOrphan(fs, id) {
      OrphanNeedsReuse(fs, id);
    }
    if Heads(fs, id) >= 2 {
      var n := SecondHead(fs, id);
      var ys := ReuseOrphans(fs, id, n);
      hide Orphans;
      assert Orphans(ys, Ptr(id, n)) && FramesOf(ys) <= fs;
    }
  }

  lemma {:induction false} StageNeedsHeads(fs: seq<Frame>, id: StreamId)
    ensures MuxOwnership.Stage(fs, id) >= MuxOwnership.OPENED ==> Heads(fs, id) >= 1
    ensures MuxOwnership.Stage(fs, id) >= MuxOwnership.REOPENED ==> Heads(fs, id) >= 2
  {
    if fs != [] {
      StageNeedsHeads(fs[..|fs| - 1], id);
    }
  }

  /** Where the two servers differ: what orphans a stream of the Go server orphans one of the
      TypeScript server, and the latter alone does exactly for an ID opened again without having
      been reset in between. */
  lemma WhoOrphans(fs: seq<Frame>, id: StreamId)
    ensures MuxReopen.CanOrphan(fs, id) ==> CanOrphan(fs, id)
    ensures CanOrphan(fs, id) && !MuxReopen.CanOrphan(fs, id) <==> Heads(fs, id) >= 2 && !MuxOwnership.Reopens(fs, id)
  {
    OrphanIffReused(fs, id);
    MuxReopen.OrphanIffReopened(fs, id);
    StageNeedsHeads(fs, id);
  }

  // No reuse, no difference

  /** While no ID is opened twice, every promise that settles finds its ID free. */
  lemma {:induction false} UniqueIsHarmless(xs: seq<Turn>)
    requires CanTurns(Fresh(), xs) && forall id :: Heads(FramesOf(xs), id) <= 1
    ensures R.Harmless(Fresh(), xs)
    decreases |xs|
  {
    if xs != [] {
      var ys, x := LastTurn(xs);
      FramesSnoc(ys, x);
      forall id ensures Heads(FramesOf(ys), id) <= 1 {
        assert FramesOf(xs)[..|FramesOf(ys)|] == FramesOf(ys);
        HeadsMono(FramesOf(xs), |FramesOf(ys)|, id);
      }
      UniqueIsHarmless(ys);
      R.HarmlessSnoc(Fresh(), ys, x);
      if x.Finish? {
        KeptTurns(ys);
        var t := Turns(Fresh(), ys);
        assert HolderOk(t, x.p.id);
        if x.p.id in t.streams {
          assert Twins(t, x.p, t.streams[x.p.id]);
        }
      }
    }
  }

  /** So a client that opens each ID once cannot tell the two servers apart. */
  lemma ServersAgreeWithoutReuse(xs: seq<Turn>)
    requires CanTurns(Fresh(), xs) && forall id :: Heads(FramesOf(xs), id) <= 1
    ensures R.GoMatchesAll(xs)
  {
    UniqueIsHarmless(xs);
    R.TsRunIsGoRunIffHarmless(xs);
  }
}
