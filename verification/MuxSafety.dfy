/** What every interleaving of one connection keeps: gapless delivery, bounded inboxes,
    one-shot termination, and a table that stays empty once closed. */
module MuxSafety {
  import opened Wire
  import opened MuxTable
  import opened MuxMachine

  // Delivery

  /** The envelopes the peer sent for one ID, from one frame up to another. */
  function Share(inc: seq<Frame>, id: StreamId, from: int, n: int): seq<Envelope> {
    if 0 <= from <= n <= |inc| then Envs(inc[from..n], id) else []
  }

  /** The envelope the read loop is trying to hand to p. */
  function InHand(s: Mux, p: Ptr): seq<Envelope> {
    if s.rl.Delivering? && s.rl.p == p then [s.rl.env] else []
  }

  /** p's own thread has not terminated it. A server handler is still running or has just
      returned; a client never terminates a stream that is still in the table. */
  predicate Attended(s: Mux, o: Stream) {
    s.role == Client || o.owner == Live || o.owner == Leaving
  }

  /** p is where the next frame for its ID goes. */
  predicate Served(s: Mux, p: Ptr) {
    InTable(s, p) && s.rl != Resetting(p)
  }

  /** What was read is a prefix of what the peer sent; so is what can still be read, while
      the stream is attended; and nothing is missing from it while the stream is served. */
  predicate Gapless(attended: bool, served: bool, got: seq<Envelope>, queued: seq<Envelope>, share: seq<Envelope>) {
    && got <= share
    && (attended ==> got + queued <= share)
    && (attended && served ==> got + queued == share)
  }

  predicate FifoOk(s: Mux, p: Ptr, o: Stream) {
    && o.from <= Looked(s)
    && Gapless(Attended(s, o), Served(s, p), o.got, o.st.inbox + InHand(s, p), Share(s.inc, p.id, o.from, Looked(s)))
  }

  predicate HasEnd(es: seq<Envelope>) {
    exists i :: 0 <= i < |es| && es[i].flag == FLAG_END
  }

  predicate LatchOk(s: Mux, p: Ptr, o: Stream) {
    && |o.st.inbox| <= INBOX_CAP
    && (o.owner.Left? || o.owner == Gone ==> o.st.terminated.Some?)
    && (s.role == Client && o.owner != Live ==> !InTable(s, p))
    && (Attended(s, o) && InTable(s, p) ==> o.st.terminated == None)
    && (o.st.rxEnd <==> HasEnd(o.got))
  }

  /** Everything except the contents of the stream objects. */
  ghost predicate FrameOk(s: Mux) {
    && s.nread <= |s.inc|
    && (s.rl.Routing? || s.rl.Starting? ==> s.nread > 0 && s.rl.f == s.inc[s.nread - 1])
    && (s.rl.Starting? ==> s.role == Server && s.rl.f.env.flag == FLAG_HEADERS && s.rl.f.id !in s.table.streams)
    && (s.rl.Resetting? || s.rl.Killing? || s.rl.Delivering? ==> s.rl.p in s.objs)
    && (s.rl.Killing? ==> !InTable(s, s.rl.p))
    && (forall id :: id in s.table.streams ==> s.table.streams[id].id == id && s.table.streams[id] in s.objs)
    && (forall p :: p in s.doomed ==> p in s.objs && !InTable(s, p))
    && (s.table.closed ==> s.table.streams == map[])
    && (s.table.closed <==> s.table.closeErr.Some?)
    && (s.role == Server && s.table.closed ==> s.rl == Stopped)
  }

  ghost predicate Inv(s: Mux) {
    && FrameOk(s)
    && (forall p :: p in s.objs ==> FifoOk(s, p, s.objs[p]) && LatchOk(s, p, s.objs[p]))
  }

  lemma InvInit(role: Role)
    ensures Inv(Init(role))
  {}

  lemma FrameOkStep(s: Mux, e: Event)
    requires FrameOk(s) && Enabled(s, e)
    ensures FrameOk(Apply(s, e))
  {
    match e
    case Loop(l) => FrameOkLoop(s, l);
    case Shutdown => CloseConnFrameOk(s, ConnClosed);
    case Open(p) => AddObjFrameOk(s, p, Newborn([], Looked(s)));
    case Do(p, a) => FrameOkDo(s, p, a);
    case Doom(p) =>
    case Arrive(f) =>
  }

  lemma FrameOkDo(s: Mux, p: Ptr, a: Action)
    requires FrameOk(s) && Enabled(s, Do(p, a))
    ensures FrameOk(Apply(s, Do(p, a)))
  {}

  lemma AddObjFrameOk(s: Mux, p: Ptr, o: Stream)
    requires FrameOk(s) && p !in s.objs && !s.rl.Starting?
    ensures FrameOk(AddObj(s, p, o))
  {}

  lemma FrameOkLoop(s: Mux, l: LoopStep)
    requires FrameOk(s) && Enabled(s, Loop(l))
    ensures FrameOk(Apply(s, Loop(l)))
  {
    match l
    case CloseAll => CloseConnFrameOk(s.(rl := Stopped), s.rl.err);
    case Enter(gen) => AddObjFrameOk(s.(rl := Reading), Ptr(s.rl.f.id, gen), Newborn([s.rl.f.env], Looked(s)));
    case _ =>
  }

  lemma CloseConnFrameOk(s: Mux, err: Error)
    requires FrameOk(s) && (s.role == Client || s.rl == Stopped)
    ensures FrameOk(CloseConn(s, err))
  {
    forall p | p in CloseConn(s, err).doomed ensures p in s.objs {
      if p !in s.doomed {
        var id :| id in s.table.streams && s.table.streams[id] == p;
      }
    }
  }

  lemma HasEndSnoc(es: seq<Envelope>, env: Envelope)
    ensures HasEnd(es + [env]) <==> HasEnd(es) || env.flag == FLAG_END
  {
    var fs := es + [env];
    if HasEnd(es) {
      var i :| 0 <= i < |es| && es[i].flag == FLAG_END;
      assert fs[i].flag == FLAG_END;
    }
    if env.flag == FLAG_END {
      assert fs[|es|].flag == FLAG_END;
    }
  }

  lemma ActLatches(role: Role, o: Stream, a: Action)
    requires CanAct(role, o, a)
    requires |o.st.inbox| <= INBOX_CAP && (o.owner.Left? || o.owner == Gone ==> o.st.terminated.Some?)
    requires o.st.rxEnd <==> HasEnd(o.got)
    ensures var o' := Act(role, o, a);
      && |o'.st.inbox| <= INBOX_CAP
      && (o'.owner.Left? || o'.owner == Gone ==> o'.st.terminated.Some?)
      && (o'.st.rxEnd <==> HasEnd(o'.got))
      && (o'.st.terminated != o.st.terminated ==> a == LeaveTerminate && o.owner == Leaving && o'.owner.Left?)
      && (role == Client && o'.owner != Live ==> o.owner != Live || a == Leave)
  {
    if o.st.inbox != [] {
      HasEndSnoc(o.got, o.st.inbox[0]);
    }
  }

  lemma LatchOkAct(s: Mux, p: Ptr, a: Action)
    requires p in s.objs && LatchOk(s, p, s.objs[p]) && Enabled(s, Do(p, a))
    ensures var t := Apply(s, Do(p, a)); p in t.objs && LatchOk(t, p, t.objs[p])
  {
    ActLatches(s.role, s.objs[p], a);
    hide Act, CanAct, HasEnd, Writes;
  }

  lemma LatchOkLoop(s: Mux, l: LoopStep, p: Ptr)
    requires p in s.objs && LatchOk(s, p, s.objs[p]) && FrameOk(s) && Enabled(s, Loop(l))
    ensures var t := Apply(s, Loop(l)); p in t.objs && LatchOk(t, p, t.objs[p])
  {}

  lemma LatchOkNew(s: Mux, e: Event, p: Ptr)
    requires Enabled(s, e) && p !in s.objs && p in Apply(s, e).objs
    ensures LatchOk(Apply(s, e), p, Apply(s, e).objs[p])
  {}

  lemma LatchOkRest(s: Mux, e: Event, p: Ptr)
    requires p in s.objs && LatchOk(s, p, s.objs[p]) && FrameOk(s) && Enabled(s, e)
    requires !e.Loop? && (e.Do? ==> e.p != p)
    ensures var t := Apply(s, e); p in t.objs && LatchOk(t, p, t.objs[p])
  {}

  lemma LatchOkStep(s: Mux, e: Event, p: Ptr)
    requires Inv(s) && Enabled(s, e) && p in Apply(s, e).objs
    ensures LatchOk(Apply(s, e), p, Apply(s, e).objs[p])
  {
    hide Apply, FrameOk, LatchOk, FifoOk;
    if p !in s.objs {
      LatchOkNew(s, e, p);
    } else if e.Loop? {
      LatchOkLoop(s, e.l, p);
    } else if e.Do? && e.p == p {
      LatchOkAct(s, p, e.a);
    } else {
      LatchOkRest(s, e, p);
    }
  }

  lemma ShareGrows(inc: seq<Frame>, id: StreamId, from: int, n: int)
    requires 0 <= from <= n < |inc|
    ensures Share(inc, id, from, n + 1) == Share(inc, id, from, n) + (if inc[n].id == id then [inc[n].env] else [])
  {
    assert inc[from..n + 1] == inc[from..n] + [inc[n]];
    EnvsSnoc(inc[from..n], inc[n], id);
  }

  lemma GaplessMono(a: bool, v: bool, a': bool, v': bool, got: seq<Envelope>, q: seq<Envelope>, q': seq<Envelope>,
                    share: seq<Envelope>, share': seq<Envelope>)
    requires Gapless(a, v, got, q, share) && (a' ==> a) && (v' ==> v)
    requires q' <= q && share <= share' && (a' && v' ==> q' == q && share' == share)
    ensures Gapless(a', v', got, q', share')
  {}

  lemma GaplessSnoc(a: bool, v: bool, got: seq<Envelope>, q: seq<Envelope>, share: seq<Envelope>, env: Envelope)
    requires Gapless(a, v, got, q, share) && v
    ensures Gapless(a, v, got, q + [env], share + [env])
  {
    assert got + (q + [env]) == (got + q) + [env];
  }

  lemma GaplessTake(a: bool, v: bool, got: seq<Envelope>, inbox: seq<Envelope>, hand: seq<Envelope>, share: seq<Envelope>)
    requires Gapless(a, v, got, inbox + hand, share) && a && inbox != []
    ensures Gapless(a, v, got + [inbox[0]], inbox[1..] + hand, share)
  {
    assert got + (inbox + hand) == (got + [inbox[0]]) + (inbox[1..] + hand);
    assert (got + [inbox[0]]) <= (got + [inbox[0]]) + (inbox[1..] + hand);
  }

  /** A frame is looked up: the share of its stream grows by it. */
  lemma FifoOkLook(s: Mux, p: Ptr)
    requires p in s.objs && FifoOk(s, p, s.objs[p]) && LatchOk(s, p, s.objs[p]) && FrameOk(s)
    requires s.rl.Routing? && p in s.objs
    ensures FifoOk(Apply(s, Loop(Look)), p, s.objs[p])
  {
    hide Gapless;
    var o, t := s.objs[p], Apply(s, Loop(Look));
    var f, share := s.rl.f, Share(s.inc, p.id, o.from, Looked(s));
    ShareGrows(s.inc, p.id, o.from, Looked(s));
    if t.rl == Delivering(p, f.env) {
      assert Served(s, p) && Served(t, p) && InHand(s, p) == [] && InHand(t, p) == [f.env];
      assert o.st.inbox + InHand(s, p) == o.st.inbox;
      GaplessSnoc(Attended(s, o), true, o.got, o.st.inbox, share, f.env);
    } else {
      assert InHand(s, p) == [] == InHand(t, p);
      GaplessMono(Attended(s, o), Served(s, p), Attended(t, o), Served(t, p), o.got, o.st.inbox + [], o.st.inbox + [],
                  share, Share(t.inc, p.id, o.from, Looked(t)));
    }
  }

  lemma FifoOkEnterOld(s: Mux, gen: nat, p: Ptr)
    requires p in s.objs && FifoOk(s, p, s.objs[p]) && FrameOk(s)
    requires Enabled(s, Loop(Enter(gen))) && p in s.objs
    ensures var t := Apply(s, Loop(Enter(gen))); p in t.objs && FifoOk(t, p, t.objs[p])
  {
    hide Gapless;
    var o, t := s.objs[p], Apply(s, Loop(Enter(gen)));
    assert t.objs[p] == o;
    ShareGrows(s.inc, p.id, o.from, Looked(s));
    GaplessMono(Attended(s, o), Served(s, p), Attended(t, o), Served(t, p), o.got, o.st.inbox + InHand(s, p),
                o.st.inbox + InHand(t, p), Share(s.inc, p.id, o.from, Looked(s)), Share(t.inc, p.id, o.from, Looked(t)));
  }

  lemma FifoOkEnterNew(s: Mux, gen: nat, p: Ptr)
    requires Inv(s) && Enabled(s, Loop(Enter(gen))) && p !in s.objs && p in LoopDo(s, Enter(gen)).objs
    ensures var t := Apply(s, Loop(Enter(gen))); FifoOk(t, p, t.objs[p])
  {
    assert s.inc[s.nread - 1..s.nread - 1] == [];
    ShareGrows(s.inc, p.id, s.nread - 1, s.nread - 1);
  }

  lemma FifoOkLoop(s: Mux, l: LoopStep, p: Ptr)
    requires p in s.objs && FifoOk(s, p, s.objs[p]) && LatchOk(s, p, s.objs[p])
    requires Enabled(s, Loop(l)) && p in s.objs && l != Look && !l.Enter? && l != Push
    ensures var t := Apply(s, Loop(l)); p in t.objs && FifoOk(t, p, t.objs[p])
  {
    var o, t := s.objs[p], Apply(s, Loop(l));
    hide Gapless;
    var o' := t.objs[p];
    assert o'.got == o.got && o'.st.inbox == o.st.inbox && o'.owner == o.owner;
    assert Looked(t) == Looked(s) && t.inc == s.inc;
    GaplessMono(Attended(s, o), Served(s, p), Attended(t, o), Served(t, p), o.got, o.st.inbox + InHand(s, p),
                o.st.inbox + InHand(t, p), Share(s.inc, p.id, o.from, Looked(s)), Share(t.inc, p.id, o.from, Looked(t)));
  }

  lemma FifoOkPush(s: Mux, p: Ptr)
    requires p in s.objs && FifoOk(s, p, s.objs[p])
    requires Enabled(s, Loop(Push)) && p in s.objs
    ensures var t := Apply(s, Loop(Push)); p in t.objs && FifoOk(t, p, t.objs[p])
  {
    var o, t := s.objs[p], Apply(s, Loop(Push));
    assert t.objs[p].st.inbox + InHand(t, p) == o.st.inbox + InHand(s, p);
  }

  /** What an action can do to what was read and what is queued. */
  lemma ActReads(role: Role, o: Stream, a: Action)
    requires CanAct(role, o, a)
    ensures var o' := Act(role, o, a);
      && o'.from == o.from
      && (o.owner != Live && o.owner != Leaving && role == Server ==> o'.owner != Live && o'.owner != Leaving)
      && (|| (o'.got == o.got && o'.st.inbox == o.st.inbox)
          || (o.st.inbox != [] && o'.got == o.got + [o.st.inbox[0]] && o'.st.inbox == o.st.inbox[1..] && MayUse(role, o)))
  {}

  lemma FifoOkDo(s: Mux, p: Ptr, a: Action)
    requires p in s.objs && FifoOk(s, p, s.objs[p]) && LatchOk(s, p, s.objs[p])
    requires Enabled(s, Do(p, a))
    ensures var t := Apply(s, Do(p, a)); FifoOk(t, p, t.objs[p])
  {
    var o, t := s.objs[p], Apply(s, Do(p, a));
    var o', share := t.objs[p], Share(s.inc, p.id, o.from, Looked(s));
    ActReads(s.role, o, a);
    hide Act, Gapless, LatchOk, CanAct;
    assert Served(t, p) ==> Served(s, p);
    GaplessMono(Attended(s, o), Served(s, p), Attended(t, o'), Served(t, p), o.got, o.st.inbox + InHand(s, p),
                o.st.inbox + InHand(t, p), share, share);
    if o'.got != o.got {
      GaplessTake(Attended(t, o'), Served(t, p), o.got, o.st.inbox, InHand(s, p), share);
    }
  }

  lemma FifoOkOthers(s: Mux, q: Ptr, a: Action, p: Ptr)
    requires p in s.objs && FifoOk(s, p, s.objs[p])
    requires Enabled(s, Do(q, a)) && p in s.objs && p != q
    ensures FifoOk(Apply(s, Do(q, a)), p, s.objs[p])
  {
    assert FifoOk(s, p, s.objs[p]);
  }

  lemma FifoOkStep(s: Mux, e: Event, p: Ptr)
    requires Inv(s) && Enabled(s, e) && p in Apply(s, e).objs
    ensures FifoOk(Apply(s, e), p, Apply(s, e).objs[p])
  {
    hide FifoOk, LatchOk, Gapless;
    match e
    case Loop(l) =>
      if p !in s.objs {
        FifoOkEnterNew(s, l.gen, p);
      } else if l == Look {
        FifoOkLook(s, p);
      } else if l.Enter? {
        FifoOkEnterOld(s, l.gen, p);
      } else if l == Push {
        FifoOkPush(s, p);
      } else {
        FifoOkLoop(s, l, p);
      }
    case Do(q, a) =>
      if p == q {
        FifoOkDo(s, p, a);
      } else {
        FifoOkOthers(s, q, a, p);
      }
    case Arrive(_) => FifoOkArrive(s, e, p);
    case _ => FifoOkRest(s, e, p);
  }

  lemma FifoOkArrive(s: Mux, e: Event, p: Ptr)
    requires p in s.objs && FifoOk(s, p, s.objs[p]) && s.nread <= |s.inc| && e.Arrive? && p in s.objs
    ensures FifoOk(Apply(s, e), p, s.objs[p])
  {
    assert Apply(s, e).inc[s.objs[p].from..Looked(s)] == s.inc[s.objs[p].from..Looked(s)];
  }

  lemma FifoOkRest(s: Mux, e: Event, p: Ptr)
    requires (p in s.objs ==> FifoOk(s, p, s.objs[p])) && FrameOk(s)
    requires Enabled(s, e) && p in Apply(s, e).objs
    requires e == Shutdown || e.Doom? || e.Open?
    ensures FifoOk(Apply(s, e), p, Apply(s, e).objs[p])
  {
    hide Gapless, LatchOk;
    var t := Apply(s, e);
    var o' := t.objs[p];
    if p in s.objs {
      var o := s.objs[p];
      assert o'.got == o.got && o'.st.inbox == o.st.inbox && o'.owner == o.owner && o'.from == o.from;
      GaplessMono(Attended(s, o), Served(s, p), Attended(t, o'), Served(t, p), o.got, o.st.inbox + InHand(s, p),
                  o.st.inbox + InHand(t, p), Share(s.inc, p.id, o.from, Looked(s)), Share(t.inc, p.id, o.from, Looked(t)));
    } else {
      FifoOkBorn(s, p);
    }
  }

  lemma FifoOkBorn(s: Mux, p: Ptr)
    requires FrameOk(s) && Enabled(s, Open(p))
    ensures FifoOk(Apply(s, Open(p)), p, Newborn([], Looked(s)))
  {
    assert s.inc[Looked(s)..Looked(s)] == [];
  }

  lemma InvStep(s: Mux, e: Event)
    requires Inv(s) && Enabled(s, e)
    ensures Inv(Apply(s, e))
  {
    FrameOkStep(s, e);
    forall p | p in Apply(s, e).objs
      ensures FifoOk(Apply(s, e), p, Apply(s, e).objs[p]) && LatchOk(Apply(s, e), p, Apply(s, e).objs[p])
    {
      LatchOkStep(s, e, p);
      FifoOkStep(s, e, p);
    }
  }

  lemma {:induction false} InvRun(s: Mux, es: seq<Event>)
    requires Inv(s) && Valid(s, es)
    ensures Inv(Run(s, es))
    decreases |es|
  {
    if es != [] {
      InvStep(s, es[0]);
      InvRun(Apply(s, es[0]), es[1..]);
    }
  }

  lemma ReachableInv(role: Role, s: Mux)
    requires Reachable(role, s)
    ensures Inv(s) && s.role == role
  {
    var es :| Valid(Init(role), es) && Run(Init(role), es) == s;
    InvInit(role);
    InvRun(Init(role), es);
    RoleKept(Init(role), es);
  }

  lemma {:induction false} RoleKept(s: Mux, es: seq<Event>)
    requires Valid(s, es)
    ensures Run(s, es).role == s.role
    decreases |es|
  {
    if es != [] {
      RoleKept(Apply(s, es[0]), es[1..]);
    }
  }

  // Main results

  /** In every reachable state, what a stream's reader got is a prefix of what the peer sent
      for its ID since the stream began: no gap, no reordering, nothing of another stream.
      While the stream is attended the queued frames continue that prefix; while it is also
      in the table nothing at all is missing. */
  lemma DeliveryIsGapless(role: Role, s: Mux, p: Ptr)
    requires Reachable(role, s) && p in s.objs
    ensures var o := s.objs[p]; o.from <= Looked(s) <= |s.inc|
    ensures var o := s.objs[p]; o.got <= Envs(s.inc[o.from..Looked(s)], p.id)
    ensures var o := s.objs[p];
      Attended(s, o) ==> o.got + o.st.inbox + InHand(s, p) <= Envs(s.inc[o.from..Looked(s)], p.id)
    ensures var o := s.objs[p];
      Attended(s, o) && Served(s, p) ==> o.got + o.st.inbox + InHand(s, p) == Envs(s.inc[o.from..Looked(s)], p.id)
  {
    ReachableInv(role, s);
    var o := s.objs[p];
    assert FifoOk(s, p, o);
    assert o.got + o.st.inbox + InHand(s, p) == o.got + (o.st.inbox + InHand(s, p));
  }

  /** The step that unblocks a read loop waiting for a stream. */
  function Rescue(role: Role, o: Stream): Action {
    if role == Server && o.owner == Leaving then LeaveTerminate else if o.blocked then Wake else Poll
  }

  lemma RescueWorks(role: Role, o: Stream)
    requires |o.st.inbox| == INBOX_CAP && !o.owner.Left? && o.owner != Gone
    ensures CanAct(role, o, Rescue(role, o))
    ensures CanPush(Act(role, o, Rescue(role, o)).st) || Act(role, o, Rescue(role, o)).st.terminated.Some?
  {}

  /** A read loop stuck in deliver waits for one stream only, live and with a full inbox, and
      the thread that works on that stream has a step, reading or terminating, that frees it.
      This holds at handler exit too. */
  lemma BlockedReadLoopCanBeFreed(role: Role, s: Mux)
    requires Reachable(role, s) && s.rl.Delivering?
    requires !Enabled(s, Loop(Push)) && !Enabled(s, Loop(Drop))
    ensures s.rl.p in s.objs && |s.objs[s.rl.p].st.inbox| == INBOX_CAP && s.objs[s.rl.p].st.terminated == None
    ensures var e := Do(s.rl.p, Rescue(role, s.objs[s.rl.p]));
      Enabled(s, e) && (Enabled(Apply(s, e), Loop(Push)) || Enabled(Apply(s, e), Loop(Drop)))
  {
    var o := BlockedOn(role, s);
    RescueWorks(role, o);
    hide Reachable, Act, CanAct, Rescue;
  }

  /** What a blocked read loop waits for. */
  lemma BlockedOn(role: Role, s: Mux) returns (o: Stream)
    requires Reachable(role, s) && s.rl.Delivering?
    requires !Enabled(s, Loop(Push)) && !Enabled(s, Loop(Drop))
    ensures s.role == role && s.rl.p in s.objs && o == s.objs[s.rl.p]
    ensures |o.st.inbox| == INBOX_CAP && o.st.terminated == None && !o.owner.Left? && o.owner != Gone
  {
    LatchesHold(role, s);
    hide Reachable, Valid, Run;
    o := s.objs[s.rl.p];
    assert LatchOk(s, s.rl.p, o);
  }

  lemma LatchesHold(role: Role, s: Mux)
    requires Reachable(role, s)
    ensures s.role == role && forall p :: p in s.objs ==> LatchOk(s, p, s.objs[p])
    ensures s.rl.Delivering? ==> s.rl.p in s.objs
  {
    ReachableInv(role, s);
    hide Reachable, FifoOk, LatchOk;
  }

  /** No inbox ever holds more than its 64 frames. */
  lemma InboxesAreBounded(role: Role, s: Mux, p: Ptr)
    requires Reachable(role, s) && p in s.objs
    ensures |s.objs[p].st.inbox| <= 64
  {
    LatchesHold(role, s);
    assert LatchOk(s, p, s.objs[p]);
  }

  /** Any read by the stream's reader, and any termination, frees it as well. */
  lemma AnyReadOrTerminateFrees(role: Role, s: Mux, e: Event)
    requires Reachable(role, s) && s.rl.Delivering? && Enabled(s, e)
    requires e == Do(s.rl.p, Wake) || e == Do(s.rl.p, Poll) || e == Do(s.rl.p, LeaveTerminate) || e == Doom(s.rl.p)
    ensures Enabled(Apply(s, e), Loop(Push)) || Enabled(Apply(s, e), Loop(Drop))
  {
    if e.Do? {
      var o := s.objs[s.rl.p];
      assert |o.st.inbox| <= INBOX_CAP by {
        ReachableInv(role, s);
        assert LatchOk(s, s.rl.p, o);
      }
      ActionFrees(s.role, o, e.a);
      hide Act, CanAct, Reachable;
    }
  }

  lemma ActionFrees(role: Role, o: Stream, a: Action)
    requires CanAct(role, o, a) && |o.st.inbox| <= INBOX_CAP
    requires a == Wake || a == Poll || a == LeaveTerminate
    ensures CanPush(Act(role, o, a).st) || Act(role, o, a).st.terminated.Some?
  {}

  /** On a server the table never refuses a stream the read loop has decided to start. */
  lemma ServerRegisterNeverFails(s: Mux)
    requires Reachable(Server, s) && s.rl.Starting?
    ensures CanRegister(s.table, s.rl.f.id)
  {
    ReachableInv(Server, s);
  }

  lemma ClosedStep(s: Mux, e: Event)
    requires FrameOk(s) && Enabled(s, e) && s.table.closed
    ensures var t := Apply(s, e); t.table == s.table && t.objs.Keys == s.objs.Keys
  {
    assert forall id :: Deregister(s.table, id).streams == s.table.streams;
  }

  lemma TerminatedStep(s: Mux, e: Event, p: Ptr)
    requires Enabled(s, e) && p in s.objs
    ensures p in Apply(s, e).objs
    ensures s.objs[p].st.terminated.Some? ==> Apply(s, e).objs[p].st.terminated == s.objs[p].st.terminated
  {}

  /** Closing is final: the flag and the first error stay, the table stays empty, no stream
      enters any more, and a stream keeps its first terminal error. */
  lemma {:induction false} ClosedForGood(s: Mux, es: seq<Event>)
    requires FrameOk(s) && Valid(s, es) && s.table.closed
    ensures var t := Run(s, es); t.table == s.table && t.table.streams == map[] && t.objs.Keys == s.objs.Keys
    decreases |es|
  {
    if es != [] {
      FrameOkStep(s, es[0]);
      ClosedStep(s, es[0]);
      ClosedForGood(Apply(s, es[0]), es[1..]);
    }
  }

  lemma {:induction false} TerminatedForGood(s: Mux, es: seq<Event>, p: Ptr)
    requires Valid(s, es) && p in s.objs && s.objs[p].st.terminated.Some?
    ensures p in Run(s, es).objs && Run(s, es).objs[p].st.terminated == s.objs[p].st.terminated
    decreases |es|
  {
    if es != [] {
      TerminatedStep(s, es[0], p);
      TerminatedForGood(Apply(s, es[0]), es[1..], p);
    }
  }
}
