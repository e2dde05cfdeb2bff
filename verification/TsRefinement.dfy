/** Where the two servers agree. Every interleaving of the Go server is matched, frame by frame
    and handler by handler, by the TypeScript server. The other way around holds exactly for the
    runs in which no settling promise finds its ID taken by another stream. */
module TsRefinement {
  import opened Wire
  import opened MuxTable
  import opened MuxMachine
  import opened MuxSafety
  import T = TsServer

  /** The TypeScript turn that a step of the Go server amounts to, if any. A frame takes effect
      when its ID is looked up, or, if it starts a stream, when the stream is registered. A
      handler's deregistering is the close callback; Go has no second removal. */
  function TurnOf(s: Mux, e: Event): seq<T.Turn>
    requires Enabled(s, e)
  {
    match e
    case Loop(Look) => if Route(s, s.rl.f).Starting? then [] else [T.Other(s.rl.f)]
    case Loop(Enter(gen)) => [T.Start(s.rl.f, gen)]
    case Loop(CloseAll) => [T.End]
    case Do(p, LeaveEnd(_)) => [T.Release(p)]
    case _ => []
  }

  function Trace(s: Mux, es: seq<Event>): seq<T.Turn>
    requires Valid(s, es)
    decreases |es|
  {
    if es == [] then [] else TurnOf(s, es[0]) + Trace(Apply(s, es[0]), es[1..])
  }

  /** The table, less an ID the read loop is in the middle of resetting. */
  function LiveIDs(s: Mux): map<StreamId, Ptr> {
    if s.rl.Resetting? then s.table.streams - {s.rl.p.id} else s.table.streams
  }

  predicate Condemned(s: Mux, p: Ptr) {
    s.rl == Resetting(p) || s.rl == Killing(p) || p in s.doomed
  }

  /** One stream on both servers: still served or not, fed the same as long as somebody
      reads it, and cancelled or about to be if and only if marked reset. */
  predicate SameStream(s: Mux, p: Ptr, o: Stream, n: T.Entry) {
    && (n.life == T.Running <==> o.owner != Gone)
    && (Attended(s, o) ==>
          && o.got + (o.st.inbox + InHand(s, p)) == n.queue
          && (n.reset <==> o.st.terminated.Some? || Condemned(s, p))
          && (s.rl.Delivering? && s.rl.p == p ==> o.st.terminated == None))
  }

  ghost predicate Agree(s: Mux, t: T.State) {
    && t.streams == LiveIDs(s)
    && (t.serving <==> s.rl != Stopped)
    && t.entries.Keys == s.objs.Keys
    && (forall p :: p in s.objs ==> SameStream(s, p, s.objs[p], t.entries[p]))
    && (s.rl != Stopped ==> s.doomed == map[])
  }

  // Go to TypeScript

  lemma OneTurn(t: T.State, x: T.Turn)
    requires T.CanTurn(t, x)
    ensures T.CanTurns(t, [x]) && T.Turns(t, [x]) == T.Turned(t, x)
  {
    assert [x][1..] == [];
    assert T.CanTurns(T.Turned(t, x), []);
  }

  lemma AgreeIgnore(s: Mux, t: T.State)
    requires s.role == Server && Agree(s, t) && s.rl.Routing? && Route(s, s.rl.f) == Reading
    ensures T.CanTurn(t, T.Other(s.rl.f)) && Agree(Apply(s, Loop(Look)), T.Turned(t, T.Other(s.rl.f)))
  {}

  lemma AgreeReset(s: Mux, p: Ptr, t: T.State)
    requires s.role == Server && Agree(s, t) && s.rl.Routing? && Route(s, s.rl.f) == Resetting(p)
    requires p in s.objs && p.id == s.rl.f.id
    ensures T.CanTurn(t, T.Other(s.rl.f)) && Agree(Apply(s, Loop(Look)), T.Turned(t, T.Other(s.rl.f)))
  {
    var u := s.(rl := Resetting(p));
    var n := T.Turned(t, T.Other(s.rl.f));
    assert n == t.(streams := t.streams - {p.id}, entries := t.entries[p := t.entries[p].(reset := true)]);
    hide T.Turned, T.CanTurn;
    forall q | q in u.objs ensures SameStream(u, q, u.objs[q], n.entries[q]) {
      assert SameStream(s, q, s.objs[q], t.entries[q]);
    }
  }

  lemma AgreeEnqueue(s: Mux, p: Ptr, t: T.State)
    requires s.role == Server && Agree(s, t) && s.rl.Routing? && Route(s, s.rl.f) == Delivering(p, s.rl.f.env)
    requires p in s.objs && (Attended(s, s.objs[p]) ==> s.objs[p].st.terminated == None)
    ensures T.CanTurn(t, T.Other(s.rl.f)) && Agree(Apply(s, Loop(Look)), T.Turned(t, T.Other(s.rl.f)))
  {
    var u := s.(rl := Delivering(p, s.rl.f.env));
    var n := T.Turned(t, T.Other(s.rl.f));
    assert n == T.Feed(t, p, s.rl.f.env);
    hide T.Turned, T.CanTurn;
    forall q | q in u.objs ensures SameStream(u, q, u.objs[q], n.entries[q]) {
      assert SameStream(s, q, s.objs[q], t.entries[q]);
      var o := s.objs[q];
      assert q == p ==> o.got + (o.st.inbox + []) + [s.rl.f.env] == o.got + (o.st.inbox + [s.rl.f.env]);
    }
  }

  lemma AgreeLook(s: Mux, t: T.State)
    requires s.role == Server && Inv(s) && Agree(s, t) && s.rl.Routing? && !Route(s, s.rl.f).Starting?
    ensures T.CanTurn(t, T.Other(s.rl.f)) && Agree(Apply(s, Loop(Look)), T.Turned(t, T.Other(s.rl.f)))
  {
    var f := s.rl.f;
    if f.id in s.table.streams {
      var p := s.table.streams[f.id];
      assert p in s.objs && p.id == f.id && LatchOk(s, p, s.objs[p]);
    }
    hide Inv, FrameOk, Agree, T.Turned, T.CanTurn, Apply;
    match Route(s, f)
    case Reading => AgreeIgnore(s, t);
    case Resetting(p) => AgreeReset(s, p, t);
    case Delivering(p, _) => AgreeEnqueue(s, p, t);
  }

  lemma AgreeEnter(s: Mux, gen: nat, t: T.State)
    requires s.role == Server && FrameOk(s) && Agree(s, t) && Enabled(s, Loop(Enter(gen)))
    ensures T.CanTurn(t, T.Start(s.rl.f, gen)) && Agree(Apply(s, Loop(Enter(gen))), T.Turned(t, T.Start(s.rl.f, gen)))
  {
    assert s.rl.f.id !in s.table.streams && !s.table.closed && s.rl.f.env.flag == FLAG_HEADERS;
    hide FrameOk;
  }

  lemma AgreeCloseAll(s: Mux, t: T.State)
    requires s.role == Server && Agree(s, t) && s.rl.Failing?
    ensures T.CanTurn(t, T.End) && Agree(Apply(s, Loop(CloseAll)), T.Turned(t, T.End))
  {
    var u, n := Apply(s, Loop(CloseAll)), T.TornDown(t);
    assert u.objs == s.objs && u.rl == Stopped && u.role == Server && u.table.streams == map[];
    assert forall q :: q in u.doomed <==> q in t.streams.Values;
    forall q | q in u.objs ensures SameStream(u, q, u.objs[q], n.entries[q]) {
      assert SameStream(s, q, s.objs[q], t.entries[q]);
    }
    assert T.Turned(t, T.End) == n;
    hide SameStream, T.Turned, T.CanTurn;
  }

  lemma AgreeRelease(s: Mux, p: Ptr, written: bool, t: T.State)
    requires s.role == Server && Agree(s, t) && Enabled(s, Do(p, LeaveEnd(written)))
    ensures T.CanTurn(t, T.Release(p)) && Agree(Apply(s, Do(p, LeaveEnd(written))), T.Turned(t, T.Release(p)))
  {
    var u, n := Apply(s, Do(p, LeaveEnd(written))), T.Turned(t, T.Release(p));
    assert SameStream(s, p, s.objs[p], t.entries[p]);
    hide Act, CanAct, Writes;
    forall q | q in u.objs ensures SameStream(u, q, u.objs[q], n.entries[q]) {
      assert SameStream(s, q, s.objs[q], t.entries[q]);
      if q == p {
        FinishIsLast(s.objs[p], written);
      }
    }
    hide SameStream;
  }

  lemma FinishIsLast(o: Stream, written: bool)
    requires CanAct(Server, o, LeaveEnd(written))
    ensures Act(Server, o, LeaveEnd(written)).owner == Gone
  {}

  lemma SameStreamDo(s: Mux, p: Ptr, a: Action, q: Ptr, n: T.Entry)
    requires s.role == Server && Enabled(s, Do(p, a)) && !a.LeaveEnd? && q in s.objs && SameStream(s, q, s.objs[q], n)
    ensures var u := Apply(s, Do(p, a)); q in u.objs && SameStream(u, q, u.objs[q], n)
  {}

  lemma AgreeDo(s: Mux, p: Ptr, a: Action, t: T.State)
    requires s.role == Server && Agree(s, t) && Enabled(s, Do(p, a)) && !a.LeaveEnd?
    ensures Agree(Apply(s, Do(p, a)), t)
  {
    var u := Apply(s, Do(p, a));
    forall q | q in u.objs ensures SameStream(u, q, u.objs[q], t.entries[q]) {
      SameStreamDo(s, p, a, q, t.entries[q]);
    }
    hide SameStream, Act, CanAct, Writes;
  }

  lemma SameStreamLoop(s: Mux, l: LoopStep, q: Ptr, n: T.Entry)
    requires s.role == Server && FrameOk(s) && Enabled(s, Loop(l)) && q in s.objs && SameStream(s, q, s.objs[q], n)
    requires !l.Enter? && l != CloseAll && (l == Look ==> Route(s, s.rl.f).Starting?)
    ensures var u := Apply(s, Loop(l)); q in u.objs && SameStream(u, q, u.objs[q], n)
  {
    hide FrameOk;
  }

  lemma AgreeLoop(s: Mux, l: LoopStep, t: T.State)
    requires s.role == Server && FrameOk(s) && Agree(s, t) && Enabled(s, Loop(l))
    requires !l.Enter? && l != CloseAll && (l == Look ==> Route(s, s.rl.f).Starting?)
    ensures Agree(Apply(s, Loop(l)), t)
  {
    var u := Apply(s, Loop(l));
    forall q | q in s.objs ensures q in u.objs && SameStream(u, q, u.objs[q], t.entries[q]) {
      SameStreamLoop(s, l, q, t.entries[q]);
    }
    hide SameStream, FrameOk;
    assert u.objs.Keys == s.objs.Keys;
  }

  lemma AgreeDoom(s: Mux, p: Ptr, t: T.State)
    requires s.role == Server && Agree(s, t) && Enabled(s, Doom(p))
    ensures Agree(Apply(s, Doom(p)), t)
  {}

  lemma AgreeStep(s: Mux, e: Event, t: T.State)
    requires s.role == Server && Inv(s) && Agree(s, t) && Enabled(s, e)
    ensures T.CanTurns(t, TurnOf(s, e)) && Agree(Apply(s, e), T.Turns(t, TurnOf(s, e)))
  {
    hide Inv, T.Turned, T.CanTurn;
    match e
    case Arrive(f) =>
    case Doom(p) => hide Apply; AgreeDoom(s, p, t);
    case Do(p, a) => hide Agree, Apply; AgreeStepDo(s, p, a, t);
    case Loop(l) => hide Agree, Apply; AgreeStepLoop(s, l, t);
  }

  lemma AgreeStepDo(s: Mux, p: Ptr, a: Action, t: T.State)
    requires s.role == Server && Agree(s, t) && Enabled(s, Do(p, a))
    ensures T.CanTurns(t, TurnOf(s, Do(p, a))) && Agree(Apply(s, Do(p, a)), T.Turns(t, TurnOf(s, Do(p, a))))
  {
    hide Agree, Apply, T.Turned, T.CanTurn, CanAct;
    if a.LeaveEnd? {
      AgreeRelease(s, p, a.written, t);
      OneTurn(t, T.Release(p));
    } else {
      AgreeDo(s, p, a, t);
    }
  }

  lemma AgreeStepLoop(s: Mux, l: LoopStep, t: T.State)
    requires s.role == Server && Inv(s) && Agree(s, t) && Enabled(s, Loop(l))
    ensures T.CanTurns(t, TurnOf(s, Loop(l))) && Agree(Apply(s, Loop(l)), T.Turns(t, TurnOf(s, Loop(l))))
  {
    hide Agree, FrameOk, Apply, T.Turned;
    match l
    case Look =>
      if Route(s, s.rl.f).Starting? {
        AgreeLoop(s, Look, t);
      } else {
        AgreeLook(s, t);
        OneTurn(t, T.Other(s.rl.f));
      }
    case Enter(gen) =>
      AgreeEnter(s, gen, t);
      OneTurn(t, T.Start(s.rl.f, gen));
    case CloseAll =>
      AgreeCloseAll(s, t);
      OneTurn(t, T.End);
    case _ => AgreeLoop(s, l, t);
  }

  lemma {:induction false} AgreeRun(s: Mux, es: seq<Event>, t: T.State)
    requires s.role == Server && Inv(s) && Agree(s, t) && Valid(s, es)
    ensures T.CanTurns(t, Trace(s, es)) && Agree(Run(s, es), T.Turns(t, Trace(s, es)))
    ensures Inv(Run(s, es)) && Run(s, es).role == Server
    decreases |es|
  {
    if es != [] {
      AgreeStep(s, es[0], t);
      InvStep(s, es[0]);
      var xs, u := TurnOf(s, es[0]), Apply(s, es[0]);
      AgreeRun(u, es[1..], T.Turns(t, xs));
      T.TurnsConcat(t, xs, Trace(u, es[1..]));
    }
  }

  /** The Go read loop's decision, in TypeScript's terms. */
  function Verdict(rl: ReadLoop): T.Decision<Ptr> {
    match rl
    case Starting(_) => T.StartStream
    case Resetting(p) => T.Reset(p)
    case Delivering(p, _) => T.Enqueue(p)
    case _ => T.Ignore
  }

  /** What an observer can compare. Between frames the two hold the same live IDs; they have
      started the same streams; they decide alike about the frame in hand; and a handler that is
      still reading has been fed the same envelopes. Once a stream was reset that is all it says:
      a Go handler may still read what is queued, a TypeScript one loses it. */
  ghost predicate SameView(s: Mux, t: T.State) {
    && (s.rl == Reading || s.rl == Stopped ==> t.streams == s.table.streams)
    && t.entries.Keys == s.objs.Keys
    && (s.rl.Routing? ==> T.Decide(t.streams, s.rl.f) == Verdict(Route(s, s.rl.f)))
    && (forall p :: p in s.objs && Attended(s, s.objs[p]) && !s.rl.Delivering? ==>
          s.objs[p].got + s.objs[p].st.inbox == t.entries[p].queue)
  }

  lemma AgreeMeans(s: Mux, t: T.State)
    requires s.role == Server && Agree(s, t)
    ensures SameView(s, t)
  {
    forall p | p in s.objs && Attended(s, s.objs[p]) && !s.rl.Delivering?
      ensures s.objs[p].got + s.objs[p].st.inbox == t.entries[p].queue
    {
      assert SameStream(s, p, s.objs[p], t.entries[p]);
      assert s.objs[p].st.inbox + [] == s.objs[p].st.inbox;
    }
  }

  lemma AgreeInit()
    ensures Agree(Init(Server), T.Fresh())
  {}

  /** Every interleaving of the Go server is a run of the TypeScript server on the same frames
      and finished handlers. */
  lemma EveryGoRunIsATsRun(es: seq<Event>)
    requires Valid(Init(Server), es)
    ensures var xs := Trace(Init(Server), es);
      T.CanTurns(T.Fresh(), xs) && SameView(Run(Init(Server), es), T.Turns(T.Fresh(), xs))
  {
    InvInit(Server);
    AgreeInit();
    hide Inv, Agree, SameView;
    AgreeRun(Init(Server), es, T.Fresh());
    AgreeMeans(Run(Init(Server), es), T.Turns(T.Fresh(), Trace(Init(Server), es)));
  }

  // TypeScript to Go

  /** A stretch of Go's execution, and the turns it amounts to. */
  ghost predicate Path(s: Mux, xs: seq<T.Turn>, u: Mux) {
    exists es :: Valid(s, es) && Run(s, es) == u && Trace(s, es) == xs
  }

  lemma NoPath(s: Mux)
    ensures Path(s, [], s)
  {
    assert Valid(s, []) && Run(s, []) == s && Trace(s, []) == [];
  }

  lemma {:induction false} TraceConcat(s: Mux, a: seq<Event>, b: seq<Event>)
    requires Valid(s, a) && Valid(Run(s, a), b)
    ensures Valid(s, a + b) && Trace(s, a + b) == Trace(s, a) + Trace(Run(s, a), b)
    decreases |a|
  {
    RunConcat(s, a, b);
    if a == [] {
      assert a + b == b;
    } else {
      assert (a + b)[1..] == a[1..] + b;
      TraceConcat(Apply(s, a[0]), a[1..], b);
    }
  }

  lemma PathStep(s: Mux, xs: seq<T.Turn>, u: Mux, e: Event, v: Mux)
    requires Path(s, xs, u) && Enabled(u, e) && Apply(u, e) == v
    ensures Path(s, xs + TurnOf(u, e), v)
  {
    var es :| Valid(s, es) && Run(s, es) == u && Trace(s, es) == xs;
    assert [e][1..] == [];
    assert Valid(v, []) && Run(v, []) == v && Trace(v, []) == [];
    assert Valid(u, [e]) && Run(u, [e]) == v;
    assert Trace(u, [e]) == TurnOf(u, e) + [];
    RunConcat(s, es, [e]);
    TraceConcat(s, es, [e]);
    hide Apply, Enabled, TurnOf;
    assert Valid(s, es + [e]) && Run(s, es + [e]) == v && Trace(s, es + [e]) == xs + TurnOf(u, e);
  }

  /** A step that is no turn. */
  lemma PathSilent(s: Mux, xs: seq<T.Turn>, u: Mux, e: Event, v: Mux)
    requires Path(s, xs, u) && Enabled(u, e) && Apply(u, e) == v && TurnOf(u, e) == []
    ensures Path(s, xs, v)
  {
    PathStep(s, xs, u, e, v);
    assert xs + [] == xs;
  }

  /** Between frames, nothing left to read, and every handler waiting for input or done. */
  ghost predicate Settled(s: Mux) {
    && s.role == Server && s.nread == |s.inc| && (s.rl == Reading || s.rl == Stopped)
    && (s.rl == Reading <==> !s.table.closed)
    && (forall p :: p in s.objs ==> AtRest(s.objs[p]))
    && (forall id :: id in s.table.streams ==> HeldBy(s, id, s.table.streams[id]))
  }

  predicate HeldBy(s: Mux, id: StreamId, p: Ptr) {
    p.id == id && p in s.objs && s.objs[p].owner == Live
  }

  predicate AtRest(o: Stream) {
    o.owner == Gone || (o.owner == Live && !o.blocked && o.pending == None && o.st.inbox == [])
  }

  /** The next frame comes in and is looked up. */
  lemma HearFrame(s: Mux, f: Frame) returns (u: Mux)
    requires Settled(s) && s.rl == Reading
    ensures u == s.(inc := s.inc + [f], nread := s.nread + 1, rl := Routing(f)) && Path(s, [], u)
  {
    NoPath(s);
    var a := s.(inc := s.inc + [f]);
    PathSilent(s, [], s, Arrive(f), a);
    u := a.(nread := a.nread + 1, rl := Routing(f));
    PathSilent(s, [], a, Loop(Read), u);
  }

  lemma TurnOther(s: Mux, f: Frame, u: Mux, v: Mux)
    requires s.role == Server && u.rl == Routing(f) && u.role == Server && Path(s, [], u)
    requires v == u.(rl := Route(u, f)) && !v.rl.Starting?
    ensures Path(s, [T.Other(f)], v)
  {
    assert Apply(u, Loop(Look)) == v;
    PathStep(s, [], u, Loop(Look), v);
    assert [] + [T.Other(f)] == [T.Other(f)];
  }

  lemma ServeIgnore(s: Mux, f: Frame) returns (v: Mux)
    requires Settled(s) && s.rl == Reading && Route(s, f) == Reading
    ensures Path(s, [T.Other(f)], v) && Settled(v)
  {
    var u := HearFrame(s, f);
    v := u.(rl := Reading);
    TurnOther(s, f, u, v);
    hide Path;
  }

  lemma RestReset(s: Mux, f: Frame, p: Ptr, o: Stream, v: Mux)
    requires Settled(s) && s.rl == Reading && p in s.objs && o == s.objs[p].(st := Terminate(s.objs[p].st, ContextDone))
    requires v == s.(inc := s.inc + [f], nread := s.nread + 1, table := Deregister(s.table, p.id), objs := s.objs[p := o])
    ensures Settled(v)
  {
    assert AtRest(s.objs[p]);
    forall id | id in v.table.streams ensures HeldBy(v, id, v.table.streams[id]) {
      assert HeldBy(s, id, s.table.streams[id]);
    }
  }

  lemma ServeReset(s: Mux, f: Frame, p: Ptr) returns (v: Mux)
    requires Settled(s) && s.rl == Reading && Route(s, f) == Resetting(p) && p in s.objs
    ensures Path(s, [T.Other(f)], v) && Settled(v)
  {
    var u := HearFrame(s, f);
    assert s.role == Server;
    hide Settled;
    var a := u.(rl := Resetting(p));
    TurnOther(s, f, u, a);
    var b := a.(table := Deregister(a.table, p.id), rl := Killing(p));
    PathSilent(s, [T.Other(f)], a, Loop(Remove), b);
    v := TerminateObj(b, p, ContextDone).(rl := Reading);
    PathSilent(s, [T.Other(f)], b, Loop(Kill), v);
    hide Path;
    RestReset(s, f, p, v.objs[p], v);
  }

  /** A handler that waits for input takes the one envelope it was handed. */
  lemma TakeInput(s: Mux, xs: seq<T.Turn>, u: Mux, p: Ptr) returns (v: Mux)
    requires Path(s, xs, u) && u.role == Server && p in u.objs
    requires u.objs[p].owner == Live && !u.objs[p].blocked && u.objs[p].st.inbox != []
    ensures v == u.(objs := u.objs[p := Consume(u.objs[p])]) && Path(s, xs, v)
  {
    var o := u.objs[p];
    assert o.put + [] == o.put;
    assert u.out + Frames(p.id, []) == u.out;
    v := u.(objs := u.objs[p := Consume(o)]);
    PathSilent(s, xs, u, Do(p, Poll), v);
  }

  lemma RestEnqueued(s: Mux, f: Frame, p: Ptr, o: Stream, v: Mux)
    requires Settled(s) && s.rl == Reading && p in s.objs && o.owner == s.objs[p].owner && AtRest(o)
    requires v == s.(inc := s.inc + [f], nread := s.nread + 1, objs := s.objs[p := o])
    ensures Settled(v)
  {
    forall id | id in v.table.streams ensures HeldBy(v, id, v.table.streams[id]) {
      assert HeldBy(s, id, s.table.streams[id]);
    }
  }

  lemma ServeEnqueue(s: Mux, f: Frame, p: Ptr) returns (v: Mux)
    requires Settled(s) && s.rl == Reading && Route(s, f) == Delivering(p, f.env) && p in s.objs
    requires s.objs[p].owner == Live
    ensures Path(s, [T.Other(f)], v) && Settled(v)
  {
    assert AtRest(s.objs[p]) && s.role == Server;
    var u := HearFrame(s, f);
    hide Settled;
    var a := u.(rl := Delivering(p, f.env));
    TurnOther(s, f, u, a);
    hide Route;
    var b := PushIn(s, [T.Other(f)], a);
    hide Path, TurnOf, Apply, Enabled;
    v := TakeInput(s, [T.Other(f)], b, p);
    assert v.objs == s.objs[p := v.objs[p]];
    RestEnqueued(s, f, p, v.objs[p], v);
  }

  /** The read loop hands its envelope to a waiting handler. */
  lemma PushIn(s: Mux, xs: seq<T.Turn>, a: Mux) returns (b: Mux)
    requires Path(s, xs, a) && a.rl.Delivering? && a.rl.p in a.objs && AtRest(a.objs[a.rl.p]) && a.objs[a.rl.p].owner == Live
    ensures a.rl.p in b.objs && Path(s, xs, b)
    ensures b == a.(objs := a.objs[a.rl.p := b.objs[a.rl.p]], rl := Reading)
    ensures var o := b.objs[a.rl.p];
      o.owner == Live && !o.blocked && o.pending == None && o.st.inbox == [a.rl.env]
  {
    var o := a.objs[a.rl.p].(st := MuxTable.Push(a.objs[a.rl.p].st, a.rl.env));
    b := a.(objs := a.objs[a.rl.p := o], rl := Reading);
    PathSilent(s, xs, a, Loop(Push), b);
    hide Path;
  }

  lemma RestStarted(s: Mux, f: Frame, p: Ptr, v: Mux)
    requires Settled(s) && p !in s.objs && p.id == f.id && f.id !in s.table.streams && s.rl == Reading
    requires v == s.(inc := s.inc + [f], nread := s.nread + 1,
                     table := s.table.(streams := s.table.streams[f.id := p]),
                     objs := s.objs[p := Consume(Newborn([f.env], s.nread))])
    ensures Settled(v)
  {
    assert AtRest(v.objs[p]);
    forall id | id in v.table.streams ensures HeldBy(v, id, v.table.streams[id]) {
      assert id != f.id ==> HeldBy(s, id, s.table.streams[id]);
    }
  }

  lemma LookUnknown(u: Mux, f: Frame, a: Mux)
    requires u.rl == Routing(f) && Route(u, f).Starting? && a == u.(rl := Starting(f))
    ensures Enabled(u, Loop(Look)) && Apply(u, Loop(Look)) == a && TurnOf(u, Loop(Look)) == []
  {}

  lemma EnterNew(a: Mux, f: Frame, gen: nat, b: Mux)
    requires a.role == Server && a.rl == Starting(f) && Ptr(f.id, gen) !in a.objs && CanRegister(a.table, f.id)
    requires b == a.(table := a.table.(streams := a.table.streams[f.id := Ptr(f.id, gen)]),
                     objs := a.objs[Ptr(f.id, gen) := Newborn([f.env], Looked(a))], rl := Reading)
    ensures Enabled(a, Loop(Enter(gen))) && Apply(a, Loop(Enter(gen))) == b
    ensures TurnOf(a, Loop(Enter(gen))) == [T.Start(f, gen)]
  {}

  lemma ServeStart(s: Mux, f: Frame, gen: nat) returns (v: Mux)
    requires Settled(s) && s.rl == Reading && Route(s, f).Starting?
    requires Ptr(f.id, gen) !in s.objs && f.id !in s.table.streams
    ensures Path(s, [T.Start(f, gen)], v) && Settled(v)
  {
    var p := Ptr(f.id, gen);
    var u := HearFrame(s, f);
    assert s.role == Server && !s.table.closed;
    hide Settled;
    var a := u.(rl := Starting(f));
    LookUnknown(u, f, a);
    hide Apply, Enabled, TurnOf, Route;
    PathSilent(s, [], u, Loop(Look), a);
    hide Path;
    var b := EnterIn(s, a, f, gen);
    v := TakeInput(s, [T.Start(f, gen)], b, p);
    assert b.objs[p := Consume(b.objs[p])] == s.objs[p := Consume(b.objs[p])];
    RestStarted(s, f, p, v);
  }

  lemma EnterIn(s: Mux, a: Mux, f: Frame, gen: nat) returns (b: Mux)
    requires Path(s, [], a) && a.role == Server && a.rl == Starting(f) && a.nread > 0
    requires Ptr(f.id, gen) !in a.objs && CanRegister(a.table, f.id)
    ensures b == a.(table := a.table.(streams := a.table.streams[f.id := Ptr(f.id, gen)]),
                    objs := a.objs[Ptr(f.id, gen) := Newborn([f.env], a.nread - 1)], rl := Reading)
    ensures Path(s, [T.Start(f, gen)], b)
  {
    b := a.(table := a.table.(streams := a.table.streams[f.id := Ptr(f.id, gen)]),
            objs := a.objs[Ptr(f.id, gen) := Newborn([f.env], a.nread - 1)], rl := Reading);
    EnterNew(a, f, gen, b);
    hide Apply, Enabled, TurnOf, Path;
    PathStep(s, [], a, Loop(Enter(gen)), b);
    assert [] + [T.Start(f, gen)] == [T.Start(f, gen)];
  }

  lemma RestFinished(s: Mux, p: Ptr, o: Stream, v: Mux)
    requires Settled(s) && p in s.objs && o.owner == Gone
    requires v == s.(objs := s.objs[p := o], table := Deregister(s.table, p.id))
    ensures Settled(v)
  {
    forall id | id in v.table.streams ensures HeldBy(v, id, v.table.streams[id]) {
      assert HeldBy(s, id, s.table.streams[id]);
    }
  }

  lemma ServeRelease(s: Mux, p: Ptr) returns (v: Mux)
    requires Settled(s) && p in s.objs && s.objs[p].owner == Live
    ensures Path(s, [T.Release(p)], v) && Settled(v)
  {
    assert AtRest(s.objs[p]) && s.role == Server;
    hide Settled, Path, TurnOf, Apply;
    v := ReleaseSteps(s, p);
    RestFinished(s, p, v.objs[p], v);
  }

  /** A handler at rest returns, terminates its stream and deregisters it. */
  lemma ReleaseSteps(s: Mux, p: Ptr) returns (v: Mux)
    requires s.role == Server && p in s.objs && s.objs[p].owner == Live && AtRest(s.objs[p])
    ensures Path(s, [T.Release(p)], v) && p in v.objs && v.objs[p].owner == Gone
    ensures v == s.(objs := s.objs[p := v.objs[p]], table := Deregister(s.table, p.id))
  {
    NoPath(s);
    hide Path;
    var a := StepDo(s, [], s, p, Leave);
    assert a == s.(objs := s.objs[p := a.objs[p]]) && a.objs[p].owner == Leaving;
    var b := StepDo(s, [], a, p, LeaveTerminate);
    assert b == s.(objs := s.objs[p := b.objs[p]]) && b.objs[p].owner.Left?;
    v := StepDo(s, [], b, p, LeaveEnd(false));
    assert [] + [T.Release(p)] == [T.Release(p)];
    assert v.objs == s.objs[p := v.objs[p]];
  }

  lemma StepDo(s: Mux, xs: seq<T.Turn>, u: Mux, p: Ptr, a: Action) returns (v: Mux)
    requires Path(s, xs, u) && u.role == Server && Enabled(u, Do(p, a)) && Writes(Server, u.objs[p], a) == []
    ensures Path(s, xs + TurnOf(u, Do(p, a)), v)
    ensures v == u.(objs := u.objs[p := Act(Server, u.objs[p], a)],
                    table := if a.LeaveEnd? then Deregister(u.table, p.id) else u.table)
  {
    assert u.out + Frames(p.id, []) == u.out;
    v := Apply(u, Do(p, a));
    PathStep(s, xs, u, Do(p, a), v);
  }

  lemma ServeEnd(s: Mux) returns (v: Mux)
    requires Settled(s) && s.rl == Reading
    ensures Path(s, [T.End], v) && Settled(v)
  {
    NoPath(s);
    var a := s.(rl := Failing(ConnClosed));
    PathSilent(s, [], s, Loop(Fail(ConnClosed)), a);
    v := CloseConn(a, ConnClosed).(rl := Stopped);
    PathStep(s, [], a, Loop(CloseAll), v);
    assert [] + [T.End] == [T.End];
    hide Path;
  }

  /** Whatever the TypeScript server can do next, the Go server can do too, but for the
      settling of a promise. */
  lemma GoFollows(s: Mux, t: T.State, x: T.Turn) returns (v: Mux)
    requires Settled(s) && Agree(s, t) && T.CanTurn(t, x) && !x.Finish?
    ensures Path(s, [x], v) && Settled(v)
  {
    match x
    case Start(f, gen) => v := ServeStart(s, f, gen);
    case Release(p) => v := FollowRelease(s, t, p);
    case End => v := ServeEnd(s);
    case Other(f) => v := FollowOther(s, t, f);
  }

  lemma FollowRelease(s: Mux, t: T.State, p: Ptr) returns (v: Mux)
    requires Settled(s) && Agree(s, t) && p in t.entries && t.entries[p].life == T.Running
    ensures Path(s, [T.Release(p)], v) && Settled(v)
  {
    assert SameStream(s, p, s.objs[p], t.entries[p]) && AtRest(s.objs[p]);
    v := ServeRelease(s, p);
  }

  lemma FollowOther(s: Mux, t: T.State, f: Frame) returns (v: Mux)
    requires Settled(s) && Agree(s, t) && T.CanTurn(t, T.Other(f))
    ensures Path(s, [T.Other(f)], v) && Settled(v)
  {
    assert s.rl == Reading && t.streams == s.table.streams;
    assert !Route(s, f).Starting?;
    assert f.id in s.table.streams ==> HeldBy(s, f.id, s.table.streams[f.id]);
    hide Agree, Settled, T.CanTurn, T.Decide;
    match Route(s, f)
    case Reading => v := ServeIgnore(s, f);
    case Resetting(p) => v := ServeReset(s, f, p);
    case Delivering(p, _) => v := ServeEnqueue(s, f, p);
  }

  lemma PathTrans(s: Mux, xs: seq<T.Turn>, u: Mux, ys: seq<T.Turn>, v: Mux)
    requires Path(s, xs, u) && Path(u, ys, v)
    ensures Path(s, xs + ys, v)
  {
    var a :| Valid(s, a) && Run(s, a) == u && Trace(s, a) == xs;
    var b :| Valid(u, b) && Run(u, b) == v && Trace(u, b) == ys;
    RunConcat(s, a, b);
    TraceConcat(s, a, b);
  }

  lemma AgreeAlongPath(s: Mux, xs: seq<T.Turn>, u: Mux, t: T.State)
    requires s.role == Server && Inv(s) && Agree(s, t) && Path(s, xs, u)
    ensures T.CanTurns(t, xs) && Agree(u, T.Turns(t, xs)) && Inv(u)
  {
    var es :| Valid(s, es) && Run(s, es) == u && Trace(s, es) == xs;
    AgreeRun(s, es, t);
  }

  /** The turns that are steps of the Go server as well. */
  function Core(xs: seq<T.Turn>): seq<T.Turn> {
    if xs == [] then [] else (if xs[0].Finish? then [] else [xs[0]]) + Core(xs[1..])
  }

  /** Every promise that settles finds its ID free. */
  predicate Harmless(t: T.State, xs: seq<T.Turn>)
    requires T.CanTurns(t, xs)
    decreases |xs|
  {
    xs == [] || ((xs[0].Finish? ==> xs[0].p.id !in t.streams) && Harmless(T.Turned(t, xs[0]), xs[1..]))
  }

  lemma AgreeSettle(s: Mux, t: T.State, p: Ptr)
    requires Agree(s, t) && T.CanTurn(t, T.Finish(p)) && p.id !in t.streams
    ensures Agree(s, T.Turned(t, T.Finish(p)))
  {
    var n := T.Turned(t, T.Finish(p));
    assert n.streams == t.streams;
    forall q | q in s.objs ensures SameStream(s, q, s.objs[q], n.entries[q]) {
      assert SameStream(s, q, s.objs[q], t.entries[q]);
    }
    hide SameStream;
  }

  /** Go's answer to one turn. */
  lemma FollowOne(s: Mux, t: T.State, x: T.Turn) returns (u: Mux)
    requires Settled(s) && Inv(s) && Agree(s, t) && T.CanTurn(t, x) && (x.Finish? ==> x.p.id !in t.streams)
    ensures Path(s, Core([x]), u) && Settled(u) && Inv(u) && Agree(u, T.Turned(t, x))
  {
    assert Core([]) == [] && Core([x]) == (if x.Finish? then [] else [x]) + Core([]);
    if x.Finish? {
      NoPath(s);
      u := s;
      AgreeSettle(s, t, x.p);
    } else {
      u := GoFollows(s, t, x);
      hide Inv, Agree, T.CanTurn, T.Turned, Core;
      AgreeAlongPath(s, [x], u, t);
      OneTurn(t, x);
      assert [x] + [] == [x];
    }
  }

  lemma FirstTurn(t: T.State, xs: seq<T.Turn>)
    requires xs != [] && T.CanTurns(t, xs) && Harmless(t, xs)
    ensures T.CanTurn(t, xs[0]) && (xs[0].Finish? ==> xs[0].p.id !in t.streams)
    ensures T.CanTurns(T.Turned(t, xs[0]), xs[1..]) && Harmless(T.Turned(t, xs[0]), xs[1..])
    ensures T.Turns(t, xs) == T.Turns(T.Turned(t, xs[0]), xs[1..])
    ensures Core(xs) == Core([xs[0]]) + Core(xs[1..])
  {
    assert [xs[0]][1..] == [] && Core([]) == [];
    hide T.CanTurn, T.Turned;
  }

  lemma {:induction false} GoFollowsAll(s: Mux, t: T.State, xs: seq<T.Turn>) returns (v: Mux)
    requires Settled(s) && Inv(s) && Agree(s, t) && T.CanTurns(t, xs) && Harmless(t, xs)
    ensures Path(s, Core(xs), v) && Settled(v) && Agree(v, T.Turns(t, xs))
    decreases |xs|
  {
    if xs == [] {
      NoPath(s);
      v := s;
    } else {
      FirstTurn(t, xs);
      hide *;
      var u := FollowOne(s, t, xs[0]);
      v := GoFollowsAll(u, T.Turned(t, xs[0]), xs[1..]);
      PathTrans(s, Core([xs[0]]), u, Core(xs[1..]), v);
    }
  }

  /** Some interleaving of the Go server, now between frames, deals with the same frames and
      finished handlers, holds the same live IDs and has fed its handlers the same. */
  ghost predicate GoMatches(xs: seq<T.Turn>)
    requires T.CanTurns(T.Fresh(), xs)
  {
    exists es :: Valid(Init(Server), es) && Matches(es, xs)
  }

  ghost predicate Matches(es: seq<Event>, xs: seq<T.Turn>)
    requires Valid(Init(Server), es) && T.CanTurns(T.Fresh(), xs)
  {
    var s, t := Run(Init(Server), es), T.Turns(T.Fresh(), xs);
    Trace(Init(Server), es) == Core(xs) && (s.rl == Reading || s.rl == Stopped) && SameView(s, t)
  }

  /** Conversely, every run of the TypeScript server whose settling promises find their IDs free
      is some interleaving of the Go server. */
  lemma EveryHarmlessTsRunIsAGoRun(xs: seq<T.Turn>)
    requires T.CanTurns(T.Fresh(), xs) && Harmless(T.Fresh(), xs)
    ensures GoMatches(xs)
  {
    InvInit(Server);
    AgreeInit();
    var v := GoFollowsAll(Init(Server), T.Fresh(), xs);
    assert v.role == Server && (v.rl == Reading || v.rl == Stopped);
    AgreeMeans(v, T.Turns(T.Fresh(), xs));
    hide Inv, Agree, T.Turns, T.CanTurns, SameView, Settled, Harmless;
    var es :| Valid(Init(Server), es) && Run(Init(Server), es) == v && Trace(Init(Server), es) == Core(xs);
    assert Matches(es, xs);
  }

  /** The live IDs of a Go run between frames depend on its turns only. */
  lemma SameTraceSameIDs(a: seq<Event>, b: seq<Event>)
    requires Valid(Init(Server), a) && Valid(Init(Server), b) && Trace(Init(Server), a) == Trace(Init(Server), b)
    requires var s := Run(Init(Server), a); s.rl == Reading || s.rl == Stopped
    requires var s := Run(Init(Server), b); s.rl == Reading || s.rl == Stopped
    ensures Run(Init(Server), a).table.streams == Run(Init(Server), b).table.streams
  {
    EveryGoRunIsATsRun(a);
    EveryGoRunIsATsRun(b);
    hide Run, Trace, Valid, T.Turns, T.CanTurns;
  }

  lemma PrefixTurns(xs: seq<T.Turn>, n: nat)
    requires T.CanTurns(T.Fresh(), xs) && n <= |xs|
    ensures T.CanTurns(T.Fresh(), xs[..n])
    ensures n < |xs| ==> T.CanTurn(T.Turns(T.Fresh(), xs[..n]), xs[n])
  {
    assert xs == xs[..n] + xs[n..];
    PrefixCan(T.Fresh(), xs[..n], xs[n..]);
    T.TurnsConcat(T.Fresh(), xs[..n], xs[n..]);
  }

  lemma {:induction false} PrefixCan(t: T.State, xs: seq<T.Turn>, ys: seq<T.Turn>)
    requires T.CanTurns(t, xs + ys)
    ensures T.CanTurns(t, xs)
    decreases |xs|
  {
    if xs != [] {
      assert (xs + ys)[1..] == xs[1..] + ys;
      PrefixCan(T.Turned(t, xs[0]), xs[1..], ys);
    }
  }

  lemma {:induction false} HarmlessSnoc(t: T.State, xs: seq<T.Turn>, x: T.Turn)
    requires T.CanTurns(t, xs) && T.CanTurns(t, xs + [x])
    ensures Harmless(t, xs + [x]) <==> Harmless(t, xs) && (x.Finish? ==> x.p.id !in T.Turns(t, xs).streams)
    decreases |xs|
  {
    if xs == [] {
      assert xs + [x] == [x] && [x][1..] == [];
      assert Harmless(T.Turned(t, x), []);
    } else {
      assert (xs + [x])[1..] == xs[1..] + [x];
      HarmlessSnoc(T.Turned(t, xs[0]), xs[1..], x);
    }
  }

  lemma {:induction false} CoreSnoc(xs: seq<T.Turn>, x: T.Turn)
    ensures Core(xs + [x]) == Core(xs) + (if x.Finish? then [] else [x])
  {
    var last := if x.Finish? then [] else [x];
    if xs == [] {
      assert xs + [x] == [x] && [x][1..] == [] && Core([]) == [];
      assert last + [] == [] + last;
    } else {
      var first := if xs[0].Finish? then [] else [xs[0]];
      assert (xs + [x])[1..] == xs[1..] + [x] && (xs + [x])[0] == xs[0];
      assert Core(xs + [x]) == first + Core(xs[1..] + [x]) && Core(xs) == first + Core(xs[1..]);
      hide Core;
      CoreSnoc(xs[1..], x);
      assert first + (Core(xs[1..]) + last) == first + Core(xs[1..]) + last;
    }
  }

  /** A promise that settles while another stream has its ID takes that stream out, which no
      interleaving of the Go server does. */
  lemma HarmIsSeen(xs: seq<T.Turn>, p: Ptr)
    requires T.CanTurns(T.Fresh(), xs) && Harmless(T.Fresh(), xs) && p.id in T.Turns(T.Fresh(), xs).streams
    requires T.CanTurn(T.Turns(T.Fresh(), xs), T.Finish(p))
    ensures T.CanTurns(T.Fresh(), xs + [T.Finish(p)]) && !GoMatches(xs + [T.Finish(p)])
  {
    var ys := xs + [T.Finish(p)];
    T.TurnsSnoc(T.Fresh(), xs, T.Finish(p));
    CoreSnoc(xs, T.Finish(p));
    assert Core(xs) + [] == Core(xs);
    EveryHarmlessTsRunIsAGoRun(xs);
    var a :| Valid(Init(Server), a) && Matches(a, xs);
    assert T.Turns(T.Fresh(), ys).streams == T.Turns(T.Fresh(), xs).streams - {p.id};
    hide Valid, Run, Trace, Core, Harmless, T.Turns, T.CanTurns, T.CanTurn, T.Turned;
    if GoMatches(ys) {
      var b :| Valid(Init(Server), b) && Matches(b, ys);
      SameTraceSameIDs(a, b);
      assert false;
    }
  }

  /** After each of its first n turns, a run is some run of the Go server. */
  ghost predicate GoMatchesAll(xs: seq<T.Turn>) {
    forall n :: 0 <= n <= |xs| ==> T.CanTurns(T.Fresh(), xs[..n]) && GoMatches(xs[..n])
  }

  lemma GoMatchesSnoc(ys: seq<T.Turn>, x: T.Turn)
    requires T.CanTurns(T.Fresh(), ys + [x])
    ensures GoMatchesAll(ys + [x]) <==> GoMatchesAll(ys) && GoMatches(ys + [x])
  {
    var xs := ys + [x];
    hide GoMatches, T.CanTurns;
    assert xs[..|xs|] == xs;
    assert forall n :: 0 <= n <= |ys| ==> xs[..n] == ys[..n];
  }

  /** Exactly when a run of the TypeScript server is a run of the Go server, after each of its
      turns: when every promise that settles finds its ID free. */
  lemma {:induction false} TsRunIsGoRunIffHarmless(xs: seq<T.Turn>)
    requires T.CanTurns(T.Fresh(), xs)
    ensures Harmless(T.Fresh(), xs) <==> GoMatchesAll(xs)
    decreases |xs|
  {
    if xs == [] {
      EveryHarmlessTsRunIsAGoRun([]);
      assert forall n :: 0 <= n <= |xs| ==> xs[..n] == [];
    } else {
      var m := |xs| - 1;
      var ys, x := xs[..m], xs[m];
      assert xs == ys + [x];
      PrefixTurns(xs, m);
      hide *;
      HarmlessSnoc(T.Fresh(), ys, x);
      GoMatchesSnoc(ys, x);
      TsRunIsGoRunIffHarmless(ys);
      if Harmless(T.Fresh(), xs) {
        EveryHarmlessTsRunIsAGoRun(xs);
      } else if Harmless(T.Fresh(), ys) {
        HarmIsSeen(ys, x.p);
      }
    }
  }
}
