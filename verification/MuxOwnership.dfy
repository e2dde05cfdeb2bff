/** Who removes what from a server's table. Removal is by ID, so a handler that outlives its
    reset can remove the stream that took its ID over and leave it orphaned: out of the table,
    not terminated, and with nobody about to terminate it. That can happen exactly when the
    client reopens an ID it has reset. */
module MuxOwnership {
  import opened Wire
  import opened MuxTable
  import opened MuxMachine
  import opened MuxSafety

  // What the client does with one ID

  const UNSEEN := 0
  const OPENED := 1
  const RESET_ONCE := 2
  const REOPENED := 3

  /** How far the client has gone towards reusing an ID: headers, then a reset, then headers. */
  function Stage(fs: seq<Frame>, id: StreamId): nat {
    if fs == [] then UNSEEN
    else
      var before, f := Stage(fs[..|fs| - 1], id), fs[|fs| - 1];
      if f.id == id && before == UNSEEN && f.env.flag == FLAG_HEADERS then OPENED
      else if f.id == id && before == OPENED && f.env.flag == FLAG_RESET then RESET_ONCE
      else if f.id == id && before == RESET_ONCE && f.env.flag == FLAG_HEADERS then REOPENED
      else before
  }

  lemma StageOfNext(fs: seq<Frame>, n: nat, id: StreamId)
    requires n < |fs|
    ensures Stage(fs[..n], id) <= Stage(fs[..n + 1], id) <= REOPENED
    ensures fs[n].id == id && fs[n].env.flag == FLAG_HEADERS ==>
      Stage(fs[..n + 1], id) >= OPENED && (Stage(fs[..n], id) >= RESET_ONCE ==> Stage(fs[..n + 1], id) == REOPENED)
    ensures fs[n].id == id && fs[n].env.flag == FLAG_RESET && Stage(fs[..n], id) >= OPENED ==>
      Stage(fs[..n + 1], id) >= RESET_ONCE
    ensures fs[n].id != id ==> Stage(fs[..n + 1], id) == Stage(fs[..n], id)
  {
    assert fs[..n + 1][..n] == fs[..n];
    StageBound(fs[..n], id);
  }

  lemma {:induction false} StageBound(fs: seq<Frame>, id: StreamId)
    ensures Stage(fs, id) <= REOPENED
  {
    if fs != [] {
      StageBound(fs[..|fs| - 1], id);
    }
  }

  lemma {:induction false} StageMono(fs: seq<Frame>, n: nat, id: StreamId)
    requires n <= |fs|
    ensures Stage(fs[..n], id) <= Stage(fs, id)
    decreases |fs| - n
  {
    if n < |fs| {
      StageOfNext(fs, n, id);
      StageMono(fs, n + 1, id);
    } else {
      assert fs[..n] == fs;
    }
  }

  // What a server keeps

  /** The stage of an ID, over the frames looked up so far. */
  function Now(s: Mux, id: StreamId): nat {
    if Looked(s) <= |s.inc| then Stage(s.inc[..Looked(s)], id) else UNSEEN
  }

  /** Out of the table, still running, and nobody is going to terminate it. */
  predicate Orphan(s: Mux, p: Ptr) {
    && p in s.objs && !InTable(s, p)
    && s.objs[p].st.terminated == None && s.objs[p].owner == Live
    && p !in s.doomed && s.rl != Killing(p)
  }

  predicate ObjOwned(s: Mux, p: Ptr) {
    p in s.objs ==>
      var o := s.objs[p];
      && Now(s, p.id) >= OPENED
      && (o.owner == Gone ==> !InTable(s, p))
      && (o.owner != Gone && !InTable(s, p) && !s.table.closed ==> Now(s, p.id) >= RESET_ONCE)
      && (Orphan(s, p) ==> Now(s, p.id) == REOPENED)
  }

  /** Two unfinished streams with one ID. */
  predicate Clash(s: Mux, p: Ptr, q: Ptr) {
    p in s.objs && q in s.objs && p != q && p.id == q.id && s.objs[p].owner != Gone && s.objs[q].owner != Gone
  }

  ghost predicate Owned(s: Mux) {
    && (s.rl.Resetting? || s.rl.Killing? ==> Now(s, s.rl.p.id) >= RESET_ONCE)
    && (s.rl.Resetting? && s.rl.p.id in s.table.streams ==> s.table.streams[s.rl.p.id] == s.rl.p)
    && (forall p :: ObjOwned(s, p))
    && (forall p, q :: Clash(s, p, q) ==> Now(s, p.id) == REOPENED)
  }

  ghost predicate ServerInv(s: Mux) {
    s.role == Server && Inv(s) && Owned(s)
  }

  lemma NowGrows(s: Mux, e: Event, id: StreamId)
    requires FrameOk(s) && Enabled(s, e)
    ensures Now(s, id) <= Now(Apply(s, e), id) <= REOPENED
    ensures !(e == Loop(Look)) && !(e.Loop? && e.l.Enter?) ==> Now(Apply(s, e), id) == Now(s, id)
  {
    StageBound(s.inc[..Looked(s)], id);
    LookedAt(s, e);
    if e == Loop(Look) || (e.Loop? && e.l.Enter?) {
      StageOfNext(s.inc, s.nread - 1, id);
    }
    hide FrameOk, Apply, Enabled, Stage, Looked;
  }

  /** Only a lookup takes a frame into account, the one in hand. */
  lemma LookedAt(s: Mux, e: Event)
    requires FrameOk(s) && Enabled(s, e)
    ensures var t := Apply(s, e);
      && Looked(s) <= |s.inc| && Looked(t) <= |t.inc|
      && (!(e == Loop(Look)) && !(e.Loop? && e.l.Enter?) ==> t.inc[..Looked(t)] == s.inc[..Looked(s)])
      && (e == Loop(Look) || (e.Loop? && e.l.Enter?) ==>
            s.nread > 0 && Looked(s) == s.nread - 1 && t.inc == s.inc && (Looked(t) == s.nread || Looked(t) == s.nread - 1))
  {
    if e.Arrive? {
      assert Apply(s, e).inc[..Looked(s)] == s.inc[..Looked(s)];
    }
  }

  lemma NowAtReset(s: Mux, p: Ptr)
    requires FrameOk(s) && s.rl.Routing? && Now(s, s.rl.f.id) >= OPENED && Apply(s, Loop(Look)).rl == Resetting(p)
    ensures p.id == s.rl.f.id && Now(Apply(s, Loop(Look)), p.id) >= RESET_ONCE
  {
    StageOfNext(s.inc, s.nread - 1, p.id);
  }

  lemma NowAtEnter(s: Mux, gen: nat)
    requires FrameOk(s) && Enabled(s, Loop(Enter(gen)))
    ensures var n := Now(Apply(s, Loop(Enter(gen))), s.rl.f.id);
      n >= OPENED && (Now(s, s.rl.f.id) >= RESET_ONCE ==> n == REOPENED)
  {
    StageOfNext(s.inc, s.nread - 1, s.rl.f.id);
  }

  lemma OwnedEnter(s: Mux, gen: nat, p: Ptr)
    requires s.role == Server && FrameOk(s) && ObjOwned(s, p) && Enabled(s, Loop(Enter(gen)))
    ensures ObjOwned(Apply(s, Loop(Enter(gen))), p)
  {
    NowGrows(s, Loop(Enter(gen)), p.id);
    NowAtEnter(s, gen);
    hide Now;
    assert s.rl.f.id !in s.table.streams;
    hide FrameOk;
  }

  lemma OwnedRemove(s: Mux, p: Ptr)
    requires s.role == Server && FrameOk(s) && ObjOwned(s, p) && Enabled(s, Loop(Remove))
    requires Now(s, s.rl.p.id) >= RESET_ONCE
    requires s.rl.p.id in s.table.streams ==> s.table.streams[s.rl.p.id] == s.rl.p
    ensures ObjOwned(Apply(s, Loop(Remove)), p)
  {
    NowGrows(s, Loop(Remove), p.id);
    hide Now, FrameOk;
  }

  lemma OwnedClose(s: Mux, p: Ptr)
    requires s.role == Server && FrameOk(s) && ObjOwned(s, p) && Enabled(s, Loop(CloseAll))
    ensures ObjOwned(Apply(s, Loop(CloseAll)), p)
  {
    NowGrows(s, Loop(CloseAll), p.id);
    hide Now, FrameOk;
    assert InTable(s, p) ==> p in s.table.streams.Values;
  }

  lemma OwnedLoop(s: Mux, l: LoopStep, p: Ptr)
    requires s.role == Server && FrameOk(s) && ObjOwned(s, p) && Enabled(s, Loop(l))
    requires !l.Enter? && l != Remove && l != CloseAll
    ensures ObjOwned(Apply(s, Loop(l)), p)
  {
    NowGrows(s, Loop(l), p.id);
    hide Now, FrameOk;
  }

  lemma OwnedDoom(s: Mux, q: Ptr, p: Ptr)
    requires s.role == Server && FrameOk(s) && ObjOwned(s, p) && Enabled(s, Doom(q))
    ensures ObjOwned(Apply(s, Doom(q)), p)
  {
    NowGrows(s, Doom(q), p.id);
    hide Now, FrameOk;
  }

  lemma OwnedArrive(s: Mux, f: Frame, p: Ptr)
    requires s.role == Server && FrameOk(s) && ObjOwned(s, p)
    ensures ObjOwned(Apply(s, Arrive(f)), p)
  {
    NowGrows(s, Arrive(f), p.id);
    hide Now, FrameOk;
  }

  /** What an action does to its own stream's life. */
  lemma ActLife(o: Stream, a: Action)
    requires CanAct(Server, o, a)
    ensures var o' := Act(Server, o, a);
      && (o'.owner == Gone <==> o.owner == Gone || a.LeaveEnd?)
      && (o'.owner == Live ==> o.owner == Live && o'.st.terminated == o.st.terminated)
      && (a.LeaveEnd? ==> o.owner.Left?)
  {}

  lemma OwnedDo(s: Mux, q: Ptr, a: Action, p: Ptr)
    requires s.role == Server && FrameOk(s) && ObjOwned(s, p) && Enabled(s, Do(q, a))
    requires Clash(s, p, q) ==> Now(s, p.id) == REOPENED
    ensures ObjOwned(Apply(s, Do(q, a)), p)
  {
    NowGrows(s, Do(q, a), p.id);
    ActLife(s.objs[q], a);
    hide Now, FrameOk, Act, CanAct, Writes;
  }

  lemma ClashStep(s: Mux, e: Event, p: Ptr, q: Ptr)
    requires s.role == Server && FrameOk(s) && Enabled(s, e) && !(e.Loop? && e.l.Enter?)
    ensures Clash(Apply(s, e), p, q) ==> Clash(s, p, q)
  {
    if e.Do? {
      ActLife(s.objs[e.p], e.a);
      hide Act, CanAct, Writes;
    }
  }

  lemma ClashEnter(s: Mux, gen: nat, p: Ptr, q: Ptr)
    requires s.role == Server && FrameOk(s) && Enabled(s, Loop(Enter(gen)))
    requires ObjOwned(s, p) && ObjOwned(s, q)
    requires Clash(s, p, q) ==> Now(s, p.id) == REOPENED
    ensures var t := Apply(s, Loop(Enter(gen))); Clash(t, p, q) ==> Now(t, p.id) == REOPENED
  {
    NowGrows(s, Loop(Enter(gen)), p.id);
    NowAtEnter(s, gen);
    hide Now;
    assert s.rl.f.id !in s.table.streams && !s.table.closed;
  }

  lemma ObjOwnedStep(s: Mux, e: Event, p: Ptr)
    requires ServerInv(s) && Enabled(s, e)
    ensures ObjOwned(Apply(s, e), p)
  {
    assert ObjOwned(s, p);
    hide ObjOwned, Inv, FrameOk, Now;
    match e
    case Arrive(f) => OwnedArrive(s, f, p);
    case Doom(q) => OwnedDoom(s, q, p);
    case Do(q, a) =>
      assert Clash(s, p, q) ==> Now(s, p.id) == REOPENED;
      OwnedDo(s, q, a, p);
    case Loop(l) =>
      match l {
        case Enter(gen) => OwnedEnter(s, gen, p);
        case Remove => OwnedRemove(s, p);
        case CloseAll => OwnedClose(s, p);
        case _ => OwnedLoop(s, l, p);
      }
  }

  lemma ClashOk(s: Mux, e: Event, p: Ptr, q: Ptr)
    requires ServerInv(s) && Enabled(s, e) && Clash(Apply(s, e), p, q)
    ensures Now(Apply(s, e), p.id) == REOPENED
  {
    assert ObjOwned(s, p) && ObjOwned(s, q);
    assert Clash(s, p, q) ==> Now(s, p.id) == REOPENED;
    hide ObjOwned, Now, Clash;
    if e.Loop? && e.l.Enter? {
      ClashEnter(s, e.l.gen, p, q);
    } else {
      ClashStep(s, e, p, q);
      NowGrows(s, e, p.id);
    }
  }

  lemma ResettingOk(s: Mux, e: Event)
    requires ServerInv(s) && Enabled(s, e)
    ensures var t := Apply(s, e); t.rl.Resetting? || t.rl.Killing? ==> Now(t, t.rl.p.id) >= RESET_ONCE
    ensures var t := Apply(s, e);
      t.rl.Resetting? && t.rl.p.id in t.table.streams ==> t.table.streams[t.rl.p.id] == t.rl.p
  {
    var t := Apply(s, e);
    if t.rl.Resetting? || t.rl.Killing? {
      if e == Loop(Look) {
        assert ObjOwned(s, t.rl.p);
        NowAtReset(s, t.rl.p);
      } else {
        assert s.rl.Resetting? || s.rl.Killing?;
        NowGrows(s, e, t.rl.p.id);
      }
    }
  }

  lemma OwnedStep(s: Mux, e: Event)
    requires ServerInv(s) && Enabled(s, e)
    ensures ServerInv(Apply(s, e))
  {
    InvStep(s, e);
    ResettingOk(s, e);
    hide ObjOwned, Now, Clash, Inv;
    forall p ensures ObjOwned(Apply(s, e), p) {
      ObjOwnedStep(s, e, p);
    }
    forall p, q | Clash(Apply(s, e), p, q) ensures Now(Apply(s, e), p.id) == REOPENED {
      ClashOk(s, e, p, q);
    }
  }

  lemma {:induction false} OwnedRun(s: Mux, es: seq<Event>)
    requires ServerInv(s) && Valid(s, es)
    ensures ServerInv(Run(s, es))
    decreases |es|
  {
    if es != [] {
      OwnedStep(s, es[0]);
      OwnedRun(Apply(s, es[0]), es[1..]);
    }
  }

  lemma ReachableOwned(s: Mux)
    requires Reachable(Server, s)
    ensures ServerInv(s)
  {
    var es :| Valid(Init(Server), es) && Run(Init(Server), es) == s;
    InvInit(Server);
    OwnedRun(Init(Server), es);
  }

  // Main results, one direction

  predicate Reopens(fs: seq<Frame>, id: StreamId) {
    Stage(fs, id) == REOPENED
  }

  lemma NowIsPast(s: Mux, id: StreamId)
    requires FrameOk(s)
    ensures Now(s, id) <= Stage(s.inc, id) <= REOPENED
  {
    StageMono(s.inc, Looked(s), id);
    StageBound(s.inc, id);
  }

  /** Unless its ID was reset and opened again, a finished handler's deregister-by-ID takes no
      other stream out of the table. */
  lemma DeferredRemovalIsOwn(s: Mux, p: Ptr, written: bool, q: Ptr)
    requires Reachable(Server, s) && !Reopens(s.inc, p.id)
    requires InTable(s, q) && q != p && Enabled(s, Do(p, LeaveEnd(written)))
    ensures InTable(Apply(s, Do(p, LeaveEnd(written))), q)
  {
    assert q.id != p.id by {
      HolderIsLive(s, q);
      OneHandlerAtATime(s, p, q);
    }
    hide Reachable, Reopens, Act, CanAct, Writes;
  }

  /** A finished handler's stream is not in the table. */
  lemma HolderIsLive(s: Mux, q: Ptr)
    requires Reachable(Server, s) && InTable(s, q)
    ensures s.role == Server && q in s.objs && s.objs[q].owner != Gone
  {
    ReachableOwned(s);
    assert ObjOwned(s, q);
  }

  /** The reset's deregister-by-ID takes out the stream the reset was meant for, never a
      successor, even between the lookup and the removal. */
  lemma ResetRemovalIsOwn(s: Mux, q: Ptr)
    requires Reachable(Server, s) && s.rl.Resetting? && InTable(s, q) && q != s.rl.p
    ensures InTable(Apply(s, Loop(Remove)), q)
  {
    ReachableOwned(s);
    ResettingHolds(s);
    hide ServerInv, Reachable;
  }

  /** While a reset is being carried out, its ID is held by its stream or not at all. */
  lemma ResettingHolds(s: Mux)
    requires ServerInv(s) && s.rl.Resetting?
    ensures s.rl.p.id in s.table.streams ==> s.table.streams[s.rl.p.id] == s.rl.p
  {
    hide Inv, ObjOwned, Clash, Now;
  }

  /** At any moment at most one handler per ID has not finished. */
  lemma OneHandlerAtATime(s: Mux, p: Ptr, q: Ptr)
    requires Reachable(Server, s) && !Reopens(s.inc, p.id)
    ensures !Clash(s, p, q)
  {
    ReachableOwned(s);
    NowIsPast(s, p.id);
  }

  /** No orphan: unless its ID was reopened, a stream that entered the table is still there, is
      terminated, or was taken out by a thread whose next step on it is to terminate it. */
  lemma NoOrphanWithoutReopen(s: Mux, p: Ptr)
    requires Reachable(Server, s) && p in s.objs && !Reopens(s.inc, p.id)
    ensures || InTable(s, p) || s.objs[p].st.terminated.Some? || p in s.doomed
            || s.rl == Killing(p) || s.objs[p].owner == Leaving
  {
    ReachableOwned(s);
    NowIsPast(s, p.id);
    assert ObjOwned(s, p) && LatchOk(s, p, s.objs[p]);
  }
}
