/** How a stream ends. A stream's terminal error is what a reader and a writer get once it has
    ended, so it has to tell its own release, a reset by the peer and the failure of the
    connection apart; and what is written after that is resets at most. */
module MuxErrors {
  import opened Wire
  import opened MuxTable
  import opened MuxMachine
  import opened MuxSafety

  /** What a stream that the peer reset is terminated with. */
  function ResetError(role: Role): Error {
    if role == Server then ContextDone else ResetByPeer
  }

  /** A reset for this ID was looked up while the stream existed. */
  predicate WasReset(s: Mux, p: Ptr, o: Stream) {
    exists i :: o.from <= i < Looked(s) && i < |s.inc| && s.inc[i] == Frame(p.id, s.inc[i].env) && s.inc[i].env.flag == FLAG_RESET
  }

  predicate CauseOk(s: Mux, p: Ptr) {
    p in s.objs && s.objs[p].st.terminated.Some? ==>
      var o, e := s.objs[p], s.objs[p].st.terminated.value;
      || (e == StreamClosed && o.owner != Live)
      || (e == ResetError(s.role) && WasReset(s, p, o))
      || s.table.closeErr == Some(e)
  }

  /** Whoever is about to be terminated, with which error, and why. */
  ghost predicate Pending(s: Mux) {
    && (forall p :: p in s.doomed ==> s.table.closeErr == Some(s.doomed[p]))
    && (s.rl.Resetting? || s.rl.Killing? ==> s.rl.p in s.objs && WasReset(s, s.rl.p, s.objs[s.rl.p]))
  }

  ghost predicate Causes(s: Mux) {
    Pending(s) && forall p :: CauseOk(s, p)
  }

  lemma ResetStays(s: Mux, e: Event, p: Ptr)
    requires FrameOk(s) && Enabled(s, e) && p in s.objs && WasReset(s, p, s.objs[p])
    ensures p in Apply(s, e).objs && WasReset(Apply(s, e), p, Apply(s, e).objs[p])
  {
    var t := Apply(s, e);
    InputGrows(s, e, p);
    hide Apply, Enabled, FrameOk, Looked;
    var i :| s.objs[p].from <= i < Looked(s) && i < |s.inc| && s.inc[i] == Frame(p.id, s.inc[i].env) && s.inc[i].env.flag == FLAG_RESET;
    assert t.inc[i] == s.inc[i];
  }

  lemma InputGrows(s: Mux, e: Event, p: Ptr)
    requires FrameOk(s) && Enabled(s, e) && p in s.objs
    ensures var t := Apply(s, e);
      s.inc <= t.inc && Looked(s) <= Looked(t) && p in t.objs && t.objs[p].from == s.objs[p].from
  {
    match e
    case Loop(Read) =>
    case Loop(l) => hide FrameOk, Lookup, CanRegister;
    case Do(q, a) => hide FrameOk, Act, CanAct, Writes;
    case _ => hide FrameOk;
  }

  lemma PendingStep(s: Mux, e: Event)
    requires Inv(s) && Enabled(s, e) && Pending(s)
    ensures Pending(Apply(s, e))
  {
    var t := Apply(s, e);
    if t.rl.Resetting? || t.rl.Killing? {
      if e == Loop(Look) {
        LookFindsReset(s);
      } else {
        SameVictim(s, e);
        hide Inv, Apply, Enabled, WasReset;
        ResetStays(s, e, s.rl.p);
      }
    }
    hide WasReset, Inv, Apply, Enabled;
    DoomedStep(s, e);
  }

  lemma SameVictim(s: Mux, e: Event)
    requires Enabled(s, e) && e != Loop(Look) && (Apply(s, e).rl.Resetting? || Apply(s, e).rl.Killing?)
    ensures (s.rl.Resetting? || s.rl.Killing?) && Apply(s, e).rl.p == s.rl.p
  {}

  lemma LookFindsReset(s: Mux)
    requires Inv(s) && Enabled(s, Loop(Look)) && (Apply(s, Loop(Look)).rl.Resetting? || Apply(s, Loop(Look)).rl.Killing?)
    ensures var t := Apply(s, Loop(Look)); t.rl.p in t.objs && WasReset(t, t.rl.p, t.objs[t.rl.p])
  {
    LookShape(s);
    var p := s.table.streams[s.rl.f.id];
    assert p in s.objs && p.id == s.rl.f.id && FifoOk(s, p, s.objs[p]);
    assert s.inc[s.nread - 1] == s.rl.f;
    hide Inv, Apply, Enabled, FifoOk;
  }

  lemma LookShape(s: Mux)
    requires Enabled(s, Loop(Look)) && (Apply(s, Loop(Look)).rl.Resetting? || Apply(s, Loop(Look)).rl.Killing?)
    ensures var t := Apply(s, Loop(Look));
      && s.rl.Routing? && s.rl.f.env.flag == FLAG_RESET && s.rl.f.id in s.table.streams
      && t == s.(rl := Resetting(s.table.streams[s.rl.f.id]))
  {}

  lemma DoomedStep(s: Mux, e: Event)
    requires FrameOk(s) && Enabled(s, e) && forall p :: p in s.doomed ==> s.table.closeErr == Some(s.doomed[p])
    ensures forall p :: p in Apply(s, e).doomed ==> Apply(s, e).table.closeErr == Some(Apply(s, e).doomed[p])
  {}

  /** How a stream comes to be terminated. */
  lemma EndedBy(s: Mux, e: Event, p: Ptr)
    requires Enabled(s, e) && p in s.objs && Apply(s, e).objs[p].st.terminated != s.objs[p].st.terminated
    ensures s.objs[p].st.terminated == None
    ensures var r := Apply(s, e).objs[p].st.terminated;
      || (e == Do(p, LeaveTerminate) && r == Some(StreamClosed) && Apply(s, e).objs[p].owner != Live)
      || (e == Loop(Kill) && s.rl == Killing(p) && r == Some(ResetError(s.role)))
      || (e == Doom(p) && p in s.doomed && r == Some(s.doomed[p]))
  {
    match e
    case Do(q, a) =>
    case Loop(l) =>
    case _ =>
  }

  /** A thread that has begun to leave never comes back, and a closed connection keeps its error. */
  lemma NoReturn(s: Mux, e: Event, p: Ptr)
    requires FrameOk(s) && Enabled(s, e) && p in s.objs
    ensures p in Apply(s, e).objs && (s.objs[p].owner != Live ==> Apply(s, e).objs[p].owner != Live)
    ensures s.table.closeErr.Some? ==> Apply(s, e).table.closeErr == s.table.closeErr
    ensures Apply(s, e).role == s.role
  {
    if s.table.closed {
      ClosedStep(s, e);
    }
    TerminatedStep(s, e, p);
  }

  lemma NewIsAlive(s: Mux, e: Event, p: Ptr)
    requires Enabled(s, e) && p !in s.objs && p in Apply(s, e).objs
    ensures Apply(s, e).objs[p].st.terminated == None
  {}

  lemma CauseStep(s: Mux, e: Event, p: Ptr)
    requires Inv(s) && Enabled(s, e) && Pending(s) && CauseOk(s, p)
    ensures CauseOk(Apply(s, e), p)
  {
    var t := Apply(s, e);
    if p !in s.objs {
      if p in t.objs {
        NewIsAlive(s, e, p);
      }
    } else {
      NoReturn(s, e, p);
      if WasReset(s, p, s.objs[p]) {
        ResetStays(s, e, p);
      }
      if t.objs[p].st.terminated != s.objs[p].st.terminated {
        EndedBy(s, e, p);
      }
    }
    hide WasReset, Inv, Apply, Enabled;
  }

  lemma CausesStep(s: Mux, e: Event)
    requires Inv(s) && Causes(s) && Enabled(s, e)
    ensures Causes(Apply(s, e))
  {
    PendingStep(s, e);
    hide CauseOk, Pending, Inv, Apply, Enabled;
    forall p ensures CauseOk(Apply(s, e), p) {
      CauseStep(s, e, p);
    }
  }

  lemma {:induction false} CausesRun(s: Mux, es: seq<Event>)
    requires Inv(s) && Causes(s) && Valid(s, es)
    ensures Causes(Run(s, es))
    decreases |es|
  {
    if es != [] {
      CausesStep(s, es[0]);
      InvStep(s, es[0]);
      hide Causes, Inv, Apply, Enabled;
      CausesRun(Apply(s, es[0]), es[1..]);
    }
  }

  // Writing

  /** A thread that finds its stream ended writes nothing more: only releases still write, and
      only resets. */
  lemma EndedStep(s: Mux, e: Event, p: Ptr)
    requires Inv(s) && Enabled(s, e) && p in s.objs && s.objs[p].st.terminated.Some? && s.objs[p].pending == None
    ensures var t := Apply(s, e);
      && p in t.objs && t.objs[p].st.terminated.Some? && t.objs[p].pending == None
      && (t.objs[p].put == s.objs[p].put || t.objs[p].put == s.objs[p].put + [RESET])
  {
    TerminatedStep(s, e, p);
    EndedActs(s, e, p);
  }

  lemma EndedActs(s: Mux, e: Event, p: Ptr)
    requires FrameOk(s) && Enabled(s, e) && p in s.objs && s.objs[p].st.terminated.Some? && s.objs[p].pending == None
    ensures var t := Apply(s, e);
      && p in t.objs && t.objs[p].pending == None
      && (t.objs[p].put == s.objs[p].put || t.objs[p].put == s.objs[p].put + [RESET])
  {
    assert s.objs[p].put + [] == s.objs[p].put;
    match e
    case Do(q, a) => hide FrameOk;
    case Loop(l) => hide Act, CanAct;
    case _ => hide Act, CanAct;
  }

  predicate AllResets(es: seq<Envelope>) {
    forall i :: 0 <= i < |es| ==> es[i] == Envelope(FLAG_RESET, [])
  }

  /** Once a stream has ended, with no write of its in flight, nothing but resets is ever written
      for it again, on either side and whatever happens. */
  lemma {:induction false} EndedWritesNothing(s: Mux, es: seq<Event>, p: Ptr)
    requires Inv(s) && Valid(s, es) && p in s.objs && s.objs[p].st.terminated.Some? && s.objs[p].pending == None
    ensures p in Run(s, es).objs && s.objs[p].put <= Run(s, es).objs[p].put
    ensures AllResets(Run(s, es).objs[p].put[|s.objs[p].put|..])
    decreases |es|
  {
    if es != [] {
      var t := Apply(s, es[0]);
      EndedStep(s, es[0], p);
      InvStep(s, es[0]);
      hide Inv, Apply, Enabled;
      EndedWritesNothing(t, es[1..], p);
      MoreResets(s.objs[p].put, t.objs[p].put, Run(t, es[1..]).objs[p].put);
    }
  }

  lemma MoreResets(a: seq<Envelope>, b: seq<Envelope>, c: seq<Envelope>)
    requires (b == a || b == a + [RESET]) && b <= c && AllResets(c[|b|..])
    ensures a <= c && AllResets(c[|a|..])
  {
    assert forall i :: 0 <= i < |c| - |a| ==> c[|a|..][i] == if i + |a| < |b| then RESET else c[|b|..][i + |a| - |b|];
  }

  // Releasing

  /** A release takes three steps. Its thread ends the stream with StreamClosed, unless the
      stream had ended before. On a client the ID leaves the table first and a reset is the last
      thing written, if the write works and no end-stream had been read by the second step; on a
      server nothing is written and the ID leaves the table last. */
  lemma ReleaseSteps(s: Mux, p: Ptr, written: bool)
    requires p in s.objs && Enabled(s, Do(p, Leave))
    ensures var a := Apply(s, Do(p, Leave));
      && a.out == s.out && a.table.streams == (if s.role == Client then s.table.streams - {p.id} else s.table.streams)
      && a.objs[p].st == s.objs[p].st && a.objs[p].owner == Leaving && Enabled(a, Do(p, LeaveTerminate))
      && var b := Apply(a, Do(p, LeaveTerminate));
         && b.out == s.out && b.table == a.table
         && b.objs[p].st.terminated
            == (if s.objs[p].st.terminated == None then Some(StreamClosed) else s.objs[p].st.terminated)
         && b.objs[p].st.inbox == s.objs[p].st.inbox && Enabled(b, Do(p, LeaveEnd(written)))
         && var c := Apply(b, Do(p, LeaveEnd(written)));
            && c.out == s.out + (if s.role == Client && written && !s.objs[p].st.rxEnd then [Frame(p.id, RESET)] else [])
            && c.table.streams == s.table.streams - {p.id} && c.objs[p].owner == Gone
  {
    assert Frames(p.id, []) == [] && Frames(p.id, [RESET]) == [Frame(p.id, RESET)];
  }

  /** In every reachable state a terminated stream's error says why: StreamClosed only once its
      own thread released it, the reset error only after the peer's reset for its ID, and
      otherwise the error the connection was first closed with. */
  lemma ErrorTellsTheCause(role: Role, s: Mux, p: Ptr)
    requires Reachable(role, s) && p in s.objs && s.objs[p].st.terminated.Some?
    ensures var o, e := s.objs[p], s.objs[p].st.terminated.value;
      || (e == StreamClosed && o.owner != Live)
      || (e == (if role == Server then ContextDone else ResetByPeer)
          && exists i :: o.from <= i < Looked(s) && i < |s.inc| && s.inc[i] == Frame(p.id, s.inc[i].env)
                         && s.inc[i].env.flag == FLAG_RESET)
      || s.table.closeErr == Some(e)
  {
    var es :| Valid(Init(role), es) && Run(Init(role), es) == s;
    InvInit(role);
    CausesRun(Init(role), es);
    ReachableInv(role, s);
    assert CauseOk(s, p);
    hide Inv, Run, Valid;
  }

  /** The connection's own error is the one it was closed with first. */
  lemma FirstCloseIsKept(s: Mux, e: Event)
    requires Enabled(s, e)
    ensures var before, after := s.table, Apply(s, e).table;
      && (e == Loop(CloseAll) ==> after.closed && after.closeErr == if before.closed then before.closeErr else Some(s.rl.err))
      && (e == Shutdown ==> after.closed && after.closeErr == if before.closed then before.closeErr else Some(ConnClosed))
      && (e.Loop? && e.l.Fail? ==> Apply(s, e).rl == Failing(e.l.err))
      && (e != Loop(CloseAll) && e != Shutdown ==> after.closed == before.closed && after.closeErr == before.closeErr)
  {}
}
