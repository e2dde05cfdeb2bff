/** Streams do not interfere. Seen through one stream ID, any run of a multiplexed connection
    is a run of a connection that carried nothing but that ID's frames: events of other
    streams change nothing, and connection-wide failure happens to both. */
module MuxProjection {
  import opened Wire
  import opened MuxTable
  import opened MuxMachine
  import opened MuxSafety

  /** The frames of one stream. */
  function Only(fs: seq<Frame>, id: StreamId): seq<Frame> {
    if fs == [] then []
    else Only(fs[..|fs| - 1], id) + (if fs[|fs| - 1].id == id then [fs[|fs| - 1]] else [])
  }

  lemma OnlySnoc(fs: seq<Frame>, f: Frame, id: StreamId)
    ensures Only(fs + [f], id) == Only(fs, id) + (if f.id == id then [f] else [])
  {
    assert (fs + [f])[..|fs|] == fs;
  }

  lemma {:induction false} OnlyConcat(a: seq<Frame>, b: seq<Frame>, id: StreamId)
    ensures Only(a + b, id) == Only(a, id) + Only(b, id)
  {
    if b == [] {
      assert a + b == a;
    } else {
      var n := |b| - 1;
      assert (a + b)[..|a + b| - 1] == a + b[..n];
      OnlyConcat(a, b[..n], id);
    }
  }

  /** How many of the first n frames belong to the stream. */
  function Count(fs: seq<Frame>, n: nat, id: StreamId): nat {
    if n <= |fs| then |Only(fs[..n], id)| else 0
  }

  lemma CountGrows(fs: seq<Frame>, n: nat, id: StreamId)
    requires n < |fs|
    ensures Count(fs, n + 1, id) == Count(fs, n, id) + (if fs[n].id == id then 1 else 0)
    ensures fs[n].id == id ==> Count(fs, n, id) < |Only(fs, id)| && Only(fs, id)[Count(fs, n, id)] == fs[n]
  {
    assert fs[..n + 1] == fs[..n] + [fs[n]];
    OnlySnoc(fs[..n], fs[n], id);
    assert fs == fs[..n + 1] + fs[n + 1..];
    OnlyConcat(fs[..n + 1], fs[n + 1..], id);
  }

  lemma CountOfMore(fs: seq<Frame>, f: Frame, n: nat, id: StreamId)
    requires n <= |fs|
    ensures Count(fs + [f], n, id) == Count(fs, n, id)
  {
    assert (fs + [f])[..n] == fs[..n];
  }

  function SeenObj(inc: seq<Frame>, o: Stream, id: StreamId): Stream {
    o.(from := Count(inc, o.from, id))
  }

  function SeenObjs(inc: seq<Frame>, objs: map<Ptr, Stream>, id: StreamId): map<Ptr, Stream> {
    map p | p in objs && p.id == id :: SeenObj(inc, objs[p], id)
  }

  /** The stream the read loop is busy with, if any. */
  function Busy(rl: ReadLoop): Option<StreamId> {
    match rl
    case Routing(f) => Some(f.id)
    case Starting(f) => Some(f.id)
    case Resetting(p) => Some(p.id)
    case Killing(p) => Some(p.id)
    case Delivering(p, _) => Some(p.id)
    case _ => None
  }

  function SeenLoop(rl: ReadLoop, id: StreamId): ReadLoop {
    if Busy(rl).Some? && Busy(rl).value != id then Reading else rl
  }

  function SeenTable(t: Table<Ptr>, id: StreamId): Table<Ptr> {
    t.(streams := map k | k in t.streams && k == id :: t.streams[k])
  }

  function SeenDoomed(d: map<Ptr, Error>, id: StreamId): map<Ptr, Error> {
    map p | p in d && p.id == id :: d[p]
  }

  /** The connection as one stream ID sees it. */
  function Project(s: Mux, id: StreamId): Mux {
    Mux(s.role, SeenTable(s.table, id), SeenObjs(s.inc, s.objs, id), SeenDoomed(s.doomed, id),
        SeenLoop(s.rl, id), Only(s.inc, id), Count(s.inc, s.nread, id), Only(s.out, id))
  }

  /** Whether an event is the stream's own or connection-wide. */
  predicate Concerns(s: Mux, e: Event, id: StreamId)
    requires Enabled(s, e)
  {
    match e
    case Arrive(f) => f.id == id
    case Loop(l) =>
      if l == Read then s.inc[s.nread].id == id
      else Busy(s.rl) == None || Busy(s.rl) == Some(id)
    case Shutdown => true
    case Doom(p) => p.id == id
    case Open(p) => p.id == id
    case Do(p, _) => p.id == id
  }

  lemma LookedSeen(s: Mux, id: StreamId)
    requires FrameOk(s)
    ensures Looked(Project(s, id)) == Count(s.inc, Looked(s), id)
  {
    if s.rl.Routing? || s.rl.Starting? {
      CountGrows(s.inc, s.nread - 1, id);
    }
  }

  /** One step: the projection takes the same step or does not move. */
  ghost predicate StepSeen(s: Mux, e: Event, id: StreamId)
    requires Enabled(s, e)
  {
    if Concerns(s, e, id)
    then Enabled(Project(s, id), e) && Apply(Project(s, id), e) == Project(Apply(s, e), id)
    else Project(Apply(s, e), id) == Project(s, id)
  }

  lemma SeenArrive(s: Mux, f: Frame, id: StreamId)
    requires Inv(s)
    ensures StepSeen(s, Arrive(f), id)
  {
    OnlySnoc(s.inc, f, id);
    CountOfMore(s.inc, f, s.nread, id);
    var t := Apply(s, Arrive(f));
    forall p | p in s.objs ensures SeenObj(t.inc, s.objs[p], id) == SeenObj(s.inc, s.objs[p], id) {
      assert FifoOk(s, p, s.objs[p]);
      CountOfMore(s.inc, f, s.objs[p].from, id);
    }
    assert SeenObjs(t.inc, s.objs, id) == SeenObjs(s.inc, s.objs, id);
  }

  lemma SeenRead(s: Mux, id: StreamId)
    requires FrameOk(s) && Enabled(s, Loop(Read))
    ensures StepSeen(s, Loop(Read), id)
  {
    CountGrows(s.inc, s.nread, id);
  }

  lemma SetObjSeen(s: Mux, p: Ptr, o: Stream, id: StreamId)
    ensures p.id == id ==> Project(SetObj(s, p, o), id) == SetObj(Project(s, id), p, SeenObj(s.inc, o, id))
    ensures p.id != id ==> Project(SetObj(s, p, o), id) == Project(s, id)
  {
    if p.id == id {
      assert SeenObjs(s.inc, s.objs[p := o], id) == SeenObjs(s.inc, s.objs, id)[p := SeenObj(s.inc, o, id)];
    } else {
      assert SeenObjs(s.inc, s.objs[p := o], id) == SeenObjs(s.inc, s.objs, id);
    }
  }

  lemma DeregisterSeen(t: Table<Ptr>, k: StreamId, id: StreamId)
    ensures k == id ==> SeenTable(Deregister(t, k), id) == Deregister(SeenTable(t, id), k)
    ensures k != id ==> SeenTable(Deregister(t, k), id) == SeenTable(t, id)
  {}

  lemma AddObjSeen(s: Mux, p: Ptr, o: Stream, id: StreamId)
    ensures p.id == id ==> Project(AddObj(s, p, o), id) == AddObj(Project(s, id), p, SeenObj(s.inc, o, id))
    ensures p.id != id ==> Project(AddObj(s, p, o), id) == Project(s, id)
  {
    SetObjSeen(s, p, o, id);
    if CanRegister(s.table, p.id) {
      if p.id == id {
        assert SeenTable(Register(s.table, p.id, p), id) == Register(SeenTable(s.table, id), p.id, p);
      } else {
        assert SeenTable(Register(s.table, p.id, p), id) == SeenTable(s.table, id);
      }
    }
  }

  lemma ValuesSeen(t: Table<Ptr>, id: StreamId, p: Ptr)
    requires forall k :: k in t.streams ==> t.streams[k].id == k
    ensures p in SeenTable(t, id).streams.Values <==> p.id == id && p in t.streams.Values
  {
    if p in SeenTable(t, id).streams.Values {
      var k :| k in SeenTable(t, id).streams && SeenTable(t, id).streams[k] == p;
      assert t.streams[k] == p;
    }
    if p.id == id && p in t.streams.Values {
      var k :| k in t.streams && t.streams[k] == p;
      assert SeenTable(t, id).streams[k] == p;
    }
  }

  lemma CloseConnSeen(s: Mux, err: Error, id: StreamId)
    requires FrameOk(s)
    ensures Project(CloseConn(s, err), id) == CloseConn(Project(s, id), err)
  {
    assert forall k :: k in s.table.streams ==> s.table.streams[k].id == k;
    DoomedSeen(s.table, s.doomed, err, id);
    hide FrameOk, SeenDoomed, SeenObjs, Only, Count, SeenLoop;
    assert SeenTable(CloseTable(s.table, err), id) == CloseTable(SeenTable(s.table, id), err);
  }

  lemma DoomedSeen(t: Table<Ptr>, d: map<Ptr, Error>, err: Error, id: StreamId)
    requires forall k :: k in t.streams ==> t.streams[k].id == k
    ensures SeenDoomed(d + (map p | p in t.streams.Values :: err), id)
         == SeenDoomed(d, id) + (map p | p in SeenTable(t, id).streams.Values :: err)
  {
    forall p: Ptr ensures p in SeenTable(t, id).streams.Values <==> p.id == id && p in t.streams.Values {
      ValuesSeen(t, id, p);
    }
    hide SeenTable;
  }

  lemma ActSeen(role: Role, inc: seq<Frame>, o: Stream, a: Action, id: StreamId)
    ensures CanAct(role, o, a) <==> CanAct(role, SeenObj(inc, o, id), a)
    ensures CanAct(role, o, a) ==>
      && Act(role, SeenObj(inc, o, id), a) == SeenObj(inc, Act(role, o, a), id)
      && Writes(role, SeenObj(inc, o, id), a) == Writes(role, o, a)
  {}

  lemma FramesSeen(k: StreamId, es: seq<Envelope>, id: StreamId)
    requires |es| <= 1
    ensures Only(Frames(k, es), id) == if k == id then Frames(k, es) else []
  {
    if |es| == 1 {
      assert Frames(k, es)[..0] == [];
      assert Frames(k, es) == [Frame(k, es[0])];
    }
  }

  lemma SeenDo(s: Mux, p: Ptr, a: Action, id: StreamId)
    requires Enabled(s, Do(p, a))
    ensures StepSeen(s, Do(p, a), id)
  {
    var o := s.objs[p];
    ActSeen(s.role, s.inc, o, a, id);
    SetObjSeen(s, p, Act(s.role, o, a), id);
    DeregisterSeen(s.table, p.id, id);
    OnlyConcat(s.out, Frames(p.id, Writes(s.role, o, a)), id);
    FramesSeen(p.id, Writes(s.role, o, a), id);
    assert p.id == id ==> p in Project(s, id).objs && Project(s, id).objs[p] == SeenObj(s.inc, o, id);
    hide SeenDoomed, Count, Frames;
    hide Act, CanAct, SeenObjs, SeenTable, Only, Deregister, Writes;
  }

  /** The read loop looks an ID up: the projection finds the same thing. */
  lemma SeenLook(s: Mux, id: StreamId)
    requires s.rl.Routing? && FrameOk(s)
    ensures StepSeen(s, Loop(Look), id)
  {
    var f := s.rl.f;
    assert f.id == id ==> Lookup(SeenTable(s.table, id), id) == Lookup(s.table, id);
    hide SeenObjs, SeenTable, SeenDoomed, Only, Count;
    assert Busy(Route(s, f)) == None || Busy(Route(s, f)) == Some(f.id);
    assert f.id == id ==> Route(Project(s, id), f) == Route(s, f);
  }

  lemma SeenRemove(s: Mux, id: StreamId)
    requires Enabled(s, Loop(Remove))
    ensures StepSeen(s, Loop(Remove), id)
  {
    DeregisterSeen(s.table, s.rl.p.id, id);
    hide SeenObjs, SeenTable, SeenDoomed, Only, Count, Deregister;
  }

  lemma SeenKillPush(s: Mux, l: LoopStep, id: StreamId)
    requires (l == Kill || l == Push) && Enabled(s, Loop(l))
    ensures StepSeen(s, Loop(l), id)
  {
    var p := s.rl.p;
    SetObjSeen(s, p, LoopDo(s, l).objs[p], id);
    assert p.id == id ==> p in Project(s, id).objs && Project(s, id).objs[p] == SeenObj(s.inc, s.objs[p], id);
    hide SeenObjs, SeenTable, SeenDoomed, Only, Count;
  }

  lemma SeenDropFail(s: Mux, l: LoopStep, id: StreamId)
    requires (l == Drop || l.Fail?) && Enabled(s, Loop(l))
    ensures StepSeen(s, Loop(l), id)
  {
    hide SeenTable, SeenDoomed, Only, Count;
  }

  lemma SeenEnter(s: Mux, gen: nat, id: StreamId)
    requires FrameOk(s) && Enabled(s, Loop(Enter(gen)))
    ensures StepSeen(s, Loop(Enter(gen)), id)
  {
    var p, o := Ptr(s.rl.f.id, gen), Newborn([s.rl.f.env], Looked(s));
    LookedSeen(s, id);
    AddObjSeen(s, p, o, id);
    EnterIs(s, gen);
    if p.id == id {
      assert Enabled(Project(s, id), Loop(Enter(gen)));
      EnterIs(Project(s, id), gen);
    }
    hide FrameOk, Only, Count, Apply, Enabled, AddObj, SeenObjs, SeenTable, SeenDoomed;
    IdleSeen(AddObj(s, p, o), id);
  }

  lemma EnterIs(s: Mux, gen: nat)
    requires Enabled(s, Loop(Enter(gen)))
    ensures Apply(s, Loop(Enter(gen)))
         == AddObj(s, Ptr(s.rl.f.id, gen), Newborn([s.rl.f.env], Looked(s))).(rl := Reading)
  {}

  /** A read loop between frames is seen as one. */
  lemma IdleSeen(s: Mux, id: StreamId)
    ensures Project(s.(rl := Reading), id) == Project(s, id).(rl := Reading)
  {}

  lemma SeenClose(s: Mux, e: Event, id: StreamId)
    requires FrameOk(s) && Enabled(s, e) && (e == Loop(CloseAll) || e == Shutdown)
    ensures StepSeen(s, e, id)
  {
    CloseConnSeen(s, if e == Shutdown then ConnClosed else s.rl.err, id);
    hide SeenObjs, SeenTable, SeenDoomed, Only, Count, FrameOk, CloseTable;
  }

  lemma SeenDoom(s: Mux, p: Ptr, id: StreamId)
    requires Enabled(s, Doom(p))
    ensures StepSeen(s, Doom(p), id)
  {
    SetObjSeen(s, p, TerminateObj(s, p, s.doomed[p]).objs[p], id);
    assert p.id == id ==> p in Project(s, id).objs && Project(s, id).objs[p] == SeenObj(s.inc, s.objs[p], id);
    assert SeenDoomed(s.doomed - {p}, id) == if p.id == id then SeenDoomed(s.doomed, id) - {p} else SeenDoomed(s.doomed, id);
    assert p.id == id ==> p in SeenDoomed(s.doomed, id) && SeenDoomed(s.doomed, id)[p] == s.doomed[p];
    hide SeenObjs, SeenTable, SeenDoomed, Only, Count;
  }

  lemma SeenOpen(s: Mux, p: Ptr, id: StreamId)
    requires FrameOk(s) && Enabled(s, Open(p))
    ensures StepSeen(s, Open(p), id)
  {
    LookedSeen(s, id);
    AddObjSeen(s, p, Newborn([], Looked(s)), id);
    assert p.id == id ==> p !in Project(s, id).objs && CanRegister(SeenTable(s.table, id), id);
    hide SeenObjs, SeenTable, SeenDoomed, Only, Count, FrameOk;
  }

  lemma StepsSeen(s: Mux, e: Event, id: StreamId)
    requires Inv(s) && Enabled(s, e)
    ensures StepSeen(s, e, id)
  {
    hide StepSeen;
    match e
    case Arrive(f) => SeenArrive(s, f, id);
    case Do(p, a) => SeenDo(s, p, a, id);
    case Shutdown => SeenClose(s, e, id);
    case Doom(p) => SeenDoom(s, p, id);
    case Open(p) => SeenOpen(s, p, id);
    case Loop(l) =>
      match l {
        case Read => SeenRead(s, id);
        case Look => SeenLook(s, id);
        case Remove => SeenRemove(s, id);
        case Enter(gen) => SeenEnter(s, gen, id);
        case CloseAll => SeenClose(s, e, id);
        case Kill => SeenKillPush(s, l, id);
        case Push => SeenKillPush(s, l, id);
        case _ => SeenDropFail(s, l, id);
      }
  }

  // Whole runs

  /** The events of a run that concern one stream. */
  function Own(s: Mux, es: seq<Event>, id: StreamId): seq<Event>
    requires Valid(s, es)
    decreases |es|
  {
    if es == [] then []
    else (if Concerns(s, es[0], id) then [es[0]] else []) + Own(Apply(s, es[0]), es[1..], id)
  }

  /** Noninterference: what a stream experiences in a multiplexed run is exactly a run of the
      same machine on a connection where no other stream exists. */
  lemma {:induction false} RunsSeen(s: Mux, es: seq<Event>, id: StreamId)
    requires Inv(s) && Valid(s, es)
    ensures Valid(Project(s, id), Own(s, es, id))
    ensures Run(Project(s, id), Own(s, es, id)) == Project(Run(s, es), id)
    decreases |es|
  {
    if es != [] {
      hide Inv, Apply, Enabled, Project, Concerns, StepSeen;
      StepsSeen(s, es[0], id);
      InvStep(s, es[0]);
      var t := Apply(s, es[0]);
      hide Valid, Own, Run;
      FirstEvent(s, es, id);
      RunsSeen(t, es[1..], id);
      SeenThen(s, es[0], id, Own(t, es[1..], id));
    }
  }

  lemma FirstEvent(s: Mux, es: seq<Event>, id: StreamId)
    requires es != [] && Valid(s, es)
    ensures Enabled(s, es[0]) && Valid(Apply(s, es[0]), es[1..]) && Run(s, es) == Run(Apply(s, es[0]), es[1..])
    ensures Own(s, es, id)
         == (if Concerns(s, es[0], id) then [es[0]] else []) + Own(Apply(s, es[0]), es[1..], id)
  {
    hide Apply, Enabled, Concerns;
  }

  /** One step of the whole, then a run of what is seen. */
  lemma SeenThen(s: Mux, e: Event, id: StreamId, own: seq<Event>)
    requires Enabled(s, e) && StepSeen(s, e, id) && Valid(Project(Apply(s, e), id), own)
    ensures var all := (if Concerns(s, e, id) then [e] else []) + own;
      Valid(Project(s, id), all) && Run(Project(s, id), all) == Run(Project(Apply(s, e), id), own)
  {
    hide Apply, Enabled, Project, Concerns;
    if Concerns(s, e, id) {
      assert ([e] + own)[1..] == own;
    } else {
      assert [] + own == own;
    }
  }

  lemma StreamsDoNotInterfere(role: Role, es: seq<Event>, id: StreamId)
    requires Valid(Init(role), es)
    ensures var own := Own(Init(role), es, id);
      Valid(Init(role), own) && Run(Init(role), own) == Project(Run(Init(role), es), id)
  {
    InvInit(role);
    RunsSeen(Init(role), es, id);
    assert Project(Init(role), id) == Init(role);
  }

  /** The projection keeps everything there is to know about the stream's objects: their
      inboxes, termination, readers and what was read and written. */
  lemma ProjectionIsFaithful(s: Mux, p: Ptr)
    requires p in s.objs
    ensures p in Project(s, p.id).objs
    ensures Project(s, p.id).objs[p] == s.objs[p].(from := Count(s.inc, s.objs[p].from, p.id))
    ensures InTable(Project(s, p.id), p) == InTable(s, p)
  {}
}
