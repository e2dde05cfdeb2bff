/** What becomes of a stream that leaves the table, on either side. A client's read loop, its
    Close, a shutdown and newStream race on one map and remove by ID, as a server's threads do.
    Every stream that left is terminated or about to be, unless its ID was given to another
    stream as well; and on a client, giving an ID out again always makes an orphan possible. */
module MuxReuse {
  import opened Wire
  import opened MuxTable
  import opened MuxMachine
  import opened MuxSafety
  import opened MuxOwnership

  predicate Twins(s: Mux, p: Ptr, q: Ptr) {
    p in s.objs && q in s.objs && p != q && p.id == q.id
  }

  /** Another stream was given the same ID. */
  ghost predicate Shared(s: Mux, p: Ptr) {
    exists q :: Twins(s, p, q)
  }

  /** In the table, terminated, leaving, or in the hands of a thread that terminates it next. */
  predicate Safe(s: Mux, p: Ptr) {
    p in s.objs ==>
      || InTable(s, p) || s.objs[p].st.terminated.Some? || s.objs[p].owner != Live
      || p in s.doomed || s.rl == Killing(p)
  }

  lemma SafeClose(s: Mux, err: Error, p: Ptr)
    requires Safe(s, p)
    ensures Safe(CloseConn(s, err), p)
  {
    assert InTable(s, p) ==> p in s.table.streams.Values;
  }

  lemma SafeLoop(s: Mux, l: LoopStep, p: Ptr)
    requires FrameOk(s) && Enabled(s, Loop(l)) && Safe(s, p) && !(l == Remove && Twins(s, p, s.rl.p))
    ensures Safe(Apply(s, Loop(l)), p)
  {
    if l == CloseAll {
      SafeClose(s, s.rl.err, p);
    } else if s.rl.Starting? {
      assert s.rl.f.id !in s.table.streams;
      hide FrameOk;
    } else if s.rl.Resetting? {
      assert s.rl.p in s.objs;
      hide FrameOk;
    } else {
      hide FrameOk;
    }
  }

  /** What an action leaves of its own stream. */
  lemma ActKeeps(role: Role, o: Stream, a: Action)
    requires CanAct(role, o, a)
    ensures var o' := Act(role, o, a);
      && (o.owner != Live ==> o'.owner != Live)
      && (o.st.terminated.Some? ==> o'.st.terminated.Some?)
      && (Removes(role, a) ==> o'.owner != Live)
  {}

  lemma SafeDo(s: Mux, q: Ptr, a: Action, p: Ptr)
    requires FrameOk(s) && Enabled(s, Do(q, a)) && Safe(s, p) && !(Removes(s.role, a) && Twins(s, p, q))
    ensures Safe(Apply(s, Do(q, a)), p)
  {
    ActKeeps(s.role, s.objs[q], a);
    hide FrameOk, Act, CanAct, Writes, Removes;
  }

  lemma SafeOpen(s: Mux, q: Ptr, p: Ptr)
    requires Enabled(s, Open(q)) && Safe(s, p)
    ensures Safe(Apply(s, Open(q)), p)
  {}

  lemma SafeDoom(s: Mux, q: Ptr, p: Ptr)
    requires Enabled(s, Doom(q)) && Safe(s, p)
    ensures Safe(Apply(s, Doom(q)), p)
  {}

  lemma SafeStep(s: Mux, e: Event, p: Ptr)
    requires FrameOk(s) && Enabled(s, e) && (Safe(s, p) || Shared(s, p))
    ensures Safe(Apply(s, e), p) || Shared(Apply(s, e), p)
  {
    if Shared(s, p) {
      SharedStays(s, e, p);
    } else {
      hide Apply, Enabled, Safe;
      match e
      case Loop(l) =>
        if l == Remove {
          assert !Twins(s, p, s.rl.p);
        }
        SafeLoop(s, l, p);
      case Do(q, a) =>
        assert !Twins(s, p, q);
        SafeDo(s, q, a, p);
      case Open(q) => SafeOpen(s, q, p);
      case Doom(q) => SafeDoom(s, q, p);
      case Shutdown => SafeShutdown(s, p);
      case Arrive(f) => SafeArrive(s, f, p);
    }
  }

  lemma SafeShutdown(s: Mux, p: Ptr)
    requires Enabled(s, Shutdown) && Safe(s, p)
    ensures Safe(Apply(s, Shutdown), p)
  {
    SafeClose(s, ConnClosed, p);
  }

  lemma SafeArrive(s: Mux, f: Frame, p: Ptr)
    requires Safe(s, p)
    ensures Safe(Apply(s, Arrive(f)), p)
  {}

  lemma SharedStays(s: Mux, e: Event, p: Ptr)
    requires Enabled(s, e) && Shared(s, p)
    ensures Shared(Apply(s, e), p)
  {
    var q :| Twins(s, p, q);
    assert s.objs.Keys <= Apply(s, e).objs.Keys;
    assert Twins(Apply(s, e), p, q);
  }

  lemma {:induction false} SafeRun(s: Mux, es: seq<Event>, p: Ptr)
    requires FrameOk(s) && Valid(s, es) && (Safe(s, p) || Shared(s, p))
    ensures Safe(Run(s, es), p) || Shared(Run(s, es), p)
    decreases |es|
  {
    if es != [] {
      SafeStep(s, es[0], p);
      FrameOkStep(s, es[0]);
      hide FrameOk, Apply, Enabled, Safe, Shared;
      SafeRun(Apply(s, es[0]), es[1..], p);
    }
  }

  /** No orphan, client or server: in every reachable state a stream whose ID was given to no
      other stream is in the table, is terminated, or was taken out by a thread that terminates
      it next. */
  lemma NoOrphanWithoutSharing(role: Role, s: Mux, p: Ptr)
    requires Reachable(role, s) && p in s.objs && !Shared(s, p)
    ensures || InTable(s, p) || s.objs[p].st.terminated.Some? || p in s.doomed
            || s.rl == Killing(p) || s.objs[p].owner == Leaving
  {
    ReachableInv(role, s);
    var es :| Valid(Init(role), es) && Run(Init(role), es) == s;
    InvInit(role);
    SafeRun(Init(role), es, p);
    assert LatchOk(s, p, s.objs[p]);
  }

  // An ID given out again

  predicate NoOpens(es: seq<Event>) {
    forall i :: 0 <= i < |es| ==> !es[i].Open?
  }

  /** A run without opens adds no stream on a client. */
  lemma {:induction false} NoneAdded(s: Mux, es: seq<Event>)
    requires s.role == Client && FrameOk(s) && Valid(s, es) && NoOpens(es)
    ensures Run(s, es).objs.Keys == s.objs.Keys
    decreases |es|
  {
    if es != [] {
      FrameOkStep(s, es[0]);
      assert !es[0].Open? && forall i :: 0 <= i < |es[1..]| ==> es[1..][i] == es[i + 1];
      KeysStay(s, es[0]);
      hide FrameOk, Apply, Enabled;
      NoneAdded(Apply(s, es[0]), es[1..]);
    }
  }

  lemma KeysStay(s: Mux, e: Event)
    requires s.role == Client && FrameOk(s) && Enabled(s, e) && !e.Open?
    ensures Apply(s, e).objs.Keys == s.objs.Keys && Apply(s, e).role == Client
  {}

  /** From here, without opening anything more, q can end up an orphan. */
  ghost predicate CanBeOrphaned(s: Mux, q: Ptr) {
    exists es :: Valid(s, es) && NoOpens(es) && Orphan(Run(s, es), q)
  }

  /** The steps a client's earlier stream has left until its next removal of the ID. */
  function LastSteps(p: Ptr, owner: Owner): seq<Event> {
    match owner
    case Leaving => [Do(p, LeaveTerminate), Do(p, LeaveEnd(false)), Do(p, Leave)]
    case Left(_) => [Do(p, LeaveEnd(false)), Do(p, Leave)]
    case _ => [Do(p, Leave)]
  }

  lemma FirstStep(s: Mux, e: Event, es: seq<Event>)
    requires Enabled(s, e) && Valid(Apply(s, e), es)
    ensures Valid(s, [e] + es) && Run(s, [e] + es) == Run(Apply(s, e), es)
  {
    assert ([e] + es)[1..] == es;
  }

  /** What the twin's steps must not disturb: q is live and holds the ID. */
  predicate Ready(s: Mux, p: Ptr, q: Ptr) {
    && s.role == Client && Twins(s, p, q) && InTable(s, q)
    && s.objs[q].owner == Live && s.objs[q].st.terminated == None && q !in s.doomed && s.rl != Killing(q)
  }

  lemma TwinLeaves(s: Mux, p: Ptr, q: Ptr)
    requires Ready(s, p, q) && (s.objs[p].owner == Live || s.objs[p].owner == Gone)
    ensures Valid(s, [Do(p, Leave)]) && Orphan(Run(s, [Do(p, Leave)]), q)
  {
    var t := Apply(s, Do(p, Leave));
    assert Valid(t, []) && Run(t, []) == t;
    FirstStep(s, Do(p, Leave), []);
    assert [Do(p, Leave)] + [] == [Do(p, Leave)];
  }

  lemma TwinActs(s: Mux, p: Ptr, q: Ptr, a: Action)
    requires Ready(s, p, q) && Enabled(s, Do(p, a)) && !Removes(Client, a)
    ensures var t := Apply(s, Do(p, a)); Ready(t, p, q) && t.objs[p] == Act(Client, s.objs[p], a)
  {
    hide Act, CanAct, Writes;
  }

  lemma TwinEnds(s: Mux, p: Ptr, q: Ptr)
    requires Ready(s, p, q) && s.objs[p].owner.Left?
    ensures Valid(s, LastSteps(p, s.objs[p].owner)) && Orphan(Run(s, LastSteps(p, s.objs[p].owner)), q)
  {
    var e := Do(p, LeaveEnd(false));
    TwinActs(s, p, q, LeaveEnd(false));
    var t := Apply(s, e);
    assert t.objs[p].owner == Gone;
    hide Apply, Orphan, Ready;
    TwinLeaves(t, p, q);
    FirstStep(s, e, [Do(p, Leave)]);
    assert [e] + [Do(p, Leave)] == LastSteps(p, s.objs[p].owner);
  }

  lemma TwinRemoves(s: Mux, p: Ptr, q: Ptr)
    requires Ready(s, p, q)
    ensures Valid(s, LastSteps(p, s.objs[p].owner)) && Orphan(Run(s, LastSteps(p, s.objs[p].owner)), q)
  {
    if s.objs[p].owner == Leaving {
      var e := Do(p, LeaveTerminate);
      TwinActs(s, p, q, LeaveTerminate);
      var t := Apply(s, e);
      assert t.objs[p].owner.Left?;
      hide Apply, Orphan, Ready;
      TwinEnds(t, p, q);
      FirstStep(s, e, LastSteps(p, t.objs[p].owner));
      assert [e] + LastSteps(p, t.objs[p].owner) == LastSteps(p, s.objs[p].owner);
    } else if s.objs[p].owner.Left? {
      TwinEnds(s, p, q);
    } else {
      TwinLeaves(s, p, q);
    }
  }

  lemma OpenedIsReady(s: Mux, q: Ptr, p: Ptr)
    requires s.role == Client && FrameOk(s) && Enabled(s, Open(q)) && p in s.objs && p.id == q.id
    ensures Ready(Apply(s, Open(q)), p, q)
  {}

  lemma FreshIsSafe(s: Mux, q: Ptr)
    requires Enabled(s, Open(q))
    ensures Safe(Apply(s, Open(q)), q)
    ensures Apply(s, Open(q)).objs.Keys == s.objs.Keys + {q} && Apply(s, Open(q)).role == s.role
  {}

  lemma OrphanIsUnsafe(s: Mux, q: Ptr)
    requires Orphan(s, q)
    ensures !Safe(s, q)
  {}

  lemma OrphanedNeedsTwin(t: Mux, q: Ptr) returns (p: Ptr)
    requires t.role == Client && FrameOk(t) && Safe(t, q) && CanBeOrphaned(t, q)
    ensures p in t.objs && p != q && p.id == q.id
  {
    var es :| Valid(t, es) && NoOpens(es) && Orphan(Run(t, es), q);
    hide Safe, FrameOk, Orphan, NoOpens;
    SafeRun(t, es, q);
    NoneAdded(t, es);
    OrphanIsUnsafe(Run(t, es), q);
    p :| Twins(Run(t, es), q, p);
  }

  lemma TwinOrphans(t: Mux, p: Ptr, q: Ptr)
    requires Ready(t, p, q)
    ensures CanBeOrphaned(t, q)
  {
    TwinRemoves(t, p, q);
    var es := LastSteps(p, t.objs[p].owner);
    hide Ready, Run, Valid, Orphan;
    assert Valid(t, es) && NoOpens(es) && Orphan(Run(t, es), q);
  }

  /** A stream that a client has just opened can be orphaned, without any further open, if and
      only if its ID had been given out before. */
  lemma ClientOrphanIffReused(s: Mux, q: Ptr)
    requires Reachable(Client, s) && Enabled(s, Open(q))
    ensures CanBeOrphaned(Apply(s, Open(q)), q) <==> exists p :: p in s.objs && p.id == q.id
  {
    ReachableInv(Client, s);
    var t := Apply(s, Open(q));
    FrameOkStep(s, Open(q));
    FreshIsSafe(s, q);
    hide Inv, Apply, Safe, FrameOk, Enabled, CanBeOrphaned, Ready;
    if CanBeOrphaned(t, q) {
      var p := OrphanedNeedsTwin(t, q);
      assert p in s.objs;
    }
    if p :| p in s.objs && p.id == q.id {
      OpenedIsReady(s, q, p);
      TwinOrphans(t, p, q);
    }
  }
}
