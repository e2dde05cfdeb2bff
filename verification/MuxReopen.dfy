/** The other direction: whenever the client's frames reopen a reset ID, some interleaving of
    the server on just those frames orphans the successor. The schedule is the natural one:
    every handler keeps reading and none returns until the reopened stream is up. */
module MuxReopen {
  import opened Wire
  import opened MuxTable
  import opened MuxMachine
  import opened MuxSafety
  import opened MuxOwnership

  ghost predicate Reaches(s: Mux, t: Mux) {
    exists es :: Valid(s, es) && Run(s, es) == t
  }

  lemma ReachesStep(s: Mux, e: Event)
    requires Enabled(s, e)
    ensures Reaches(s, Apply(s, e))
  {
    assert [e][1..] == [];
    assert Valid(Apply(s, e), []);
    assert Valid(s, [e]) && Run(s, [e]) == Apply(s, e);
  }

  lemma ReachesTrans(s: Mux, t: Mux, u: Mux)
    requires Reaches(s, t) && Reaches(t, u)
    ensures Reaches(s, u)
  {
    var a :| Valid(s, a) && Run(s, a) == t;
    var b :| Valid(t, b) && Run(t, b) == u;
    RunConcat(s, a, b);
  }

  /** A handler that is waiting for its next envelope. */
  predicate Idle(o: Stream) {
    o.owner == Live && !o.blocked && o.pending == None && o.st.inbox == []
  }

  /** Between two frames, with every handler ever started still running and caught up. */
  ghost predicate CalmBut(s: Mux) {
    && s.role == Server && s.rl == Reading && !s.table.closed && s.doomed == map[]
    && (forall p :: p in s.objs ==> Idle(s.objs[p]) && p.gen < s.nread)
  }

  ghost predicate Calm(s: Mux) {
    Inv(s) && CalmBut(s)
  }

  /** What serving one frame does to the table. */
  ghost predicate Served1(s: Mux, f: Frame, t: Mux) {
    && Calm(t) && t.inc == s.inc && t.nread == s.nread + 1 && s.objs.Keys <= t.objs.Keys
    && (forall k :: k != f.id ==> Lookup(t.table, k) == Lookup(s.table, k))
    && (f.id in s.table.streams ==>
          Lookup(t.table, f.id) == if f.env.flag == FLAG_RESET then None else Lookup(s.table, f.id))
    && (f.id !in s.table.streams && f.env.flag == FLAG_HEADERS ==>
          f.id in t.table.streams && t.table.streams[f.id] !in s.objs)
    && (f.id !in s.table.streams && f.env.flag != FLAG_HEADERS ==> f.id !in t.table.streams)
  }

  /** The read loop takes the next frame and looks it up. */
  lemma TakeFrame(s: Mux) returns (t: Mux)
    requires Calm(s) && s.nread < |s.inc|
    ensures Reaches(s, t) && Inv(t)
    ensures t == s.(nread := s.nread + 1, rl := Route(s, s.inc[s.nread]))
  {
    var r := Apply(s, Loop(Read));
    ReachesStep(s, Loop(Read));
    InvStep(s, Loop(Read));
    t := Apply(r, Loop(Look));
    ReachesStep(r, Loop(Look));
    InvStep(r, Loop(Look));
    ReachesTrans(s, r, t);
  }

  lemma Go(s: Mux, e: Event, t: Mux)
    requires Inv(s) && Enabled(s, e) && Apply(s, e) == t
    ensures Reaches(s, t) && Inv(t)
  {
    ReachesStep(s, e);
    InvStep(s, e);
  }

  lemma Go2(s: Mux, r: Mux, e: Event, u: Mux, e': Event, t: Mux)
    requires Reaches(s, r) && Inv(r) && Enabled(r, e) && Apply(r, e) == u && Enabled(u, e') && Apply(u, e') == t
    ensures Reaches(s, t) && Inv(t)
  {
    Go(r, e, u);
    Go(u, e', t);
    ReachesTrans(s, r, u);
    ReachesTrans(s, u, t);
  }

  /** An action that neither writes nor removes only changes its object. */
  lemma Quiet(s: Mux, p: Ptr, a: Action)
    requires Enabled(s, Do(p, a)) && Writes(s.role, s.objs[p], a) == [] && !Removes(s.role, a)
    ensures Apply(s, Do(p, a)) == s.(objs := s.objs[p := Act(s.role, s.objs[p], a)])
  {
    assert s.out + Frames(p.id, []) == s.out;
  }

  /** A handler that is owed one envelope reads it. */
  lemma PollQuiet(s: Mux, p: Ptr)
    requires s.role == Server && p in s.objs && s.objs[p].owner == Live
    requires !s.objs[p].blocked && s.objs[p].st.inbox != []
    ensures Enabled(s, Do(p, Poll)) && Apply(s, Do(p, Poll)) == s.(objs := s.objs[p := Consume(s.objs[p])])
  {
    Quiet(s, p, Poll);
    var o := s.objs[p];
    assert o.put + [] == o.put;
  }

  function AfterReset(s: Mux, p: Ptr): Mux
    requires p in s.objs
  {
    s.(nread := s.nread + 1, table := Deregister(s.table, p.id),
       objs := s.objs[p := s.objs[p].(st := Terminate(s.objs[p].st, ContextDone))])
  }

  lemma RunReset(s: Mux, r: Mux, p: Ptr)
    requires s.role == Server && s.rl == Reading && p in s.objs
    requires Reaches(s, r) && Inv(r) && r == s.(nread := s.nread + 1, rl := Resetting(p))
    ensures Reaches(s, AfterReset(s, p)) && Inv(AfterReset(s, p))
  {
    var u := r.(table := Deregister(s.table, p.id), rl := Killing(p));
    Go2(s, r, Loop(Remove), u, Loop(Kill), AfterReset(s, p));
  }

  lemma ServedByReset(s: Mux, f: Frame, p: Ptr)
    requires p in s.objs && CalmBut(s) && Inv(AfterReset(s, p)) && p.id == f.id
    requires f.env.flag == FLAG_RESET && f.id in s.table.streams
    ensures Served1(s, f, AfterReset(s, p))
  {
    hide Inv;
    assert Idle(AfterReset(s, p).objs[p]);
  }

  lemma ServeReset(s: Mux, p: Ptr) returns (t: Mux)
    requires Calm(s) && s.nread < |s.inc|
    requires Route(s, s.inc[s.nread]) == Resetting(p)
    ensures Reaches(s, t) && Served1(s, s.inc[s.nread], t)
  {
    assert p == s.table.streams[s.inc[s.nread].id] && p in s.objs && p.id == s.inc[s.nread].id;
    var r := TakeFrame(s);
    RunReset(s, r, p);
    t := AfterReset(s, p);
    ServedByReset(s, s.inc[s.nread], p);
  }

  lemma ServeDrop(s: Mux) returns (t: Mux)
    requires Calm(s) && s.nread < |s.inc|
    requires Route(s, s.inc[s.nread]) == Reading
    ensures Reaches(s, t) && Served1(s, s.inc[s.nread], t)
  {
    t := TakeFrame(s);
    hide Inv, Reaches;
  }

  function AfterHeaders(s: Mux, f: Frame): Mux {
    var p := Ptr(f.id, s.nread);
    s.(nread := s.nread + 1, table := s.table.(streams := s.table.streams[f.id := p]),
       objs := s.objs[p := Consume(Newborn([f.env], s.nread))])
  }

  lemma EnterStep(s: Mux, gen: nat)
    requires s.role == Server && s.rl.Starting? && CanRegister(s.table, s.rl.f.id) && Ptr(s.rl.f.id, gen) !in s.objs
    ensures Enabled(s, Loop(Enter(gen)))
    ensures var p := Ptr(s.rl.f.id, gen);
      Apply(s, Loop(Enter(gen))) == s.(objs := s.objs[p := Newborn([s.rl.f.env], Looked(s))],
                                       table := s.table.(streams := s.table.streams[p.id := p]), rl := Reading)
  {}

  lemma RunHeaders(s: Mux, r: Mux, f: Frame)
    requires s.role == Server && s.rl == Reading && CanRegister(s.table, f.id) && Ptr(f.id, s.nread) !in s.objs
    requires Reaches(s, r) && Inv(r) && r == s.(nread := s.nread + 1, rl := Starting(f))
    ensures Reaches(s, AfterHeaders(s, f)) && Inv(AfterHeaders(s, f))
  {
    hide Inv;
    var p, o := Ptr(f.id, s.nread), Newborn([f.env], s.nread);
    var u := r.(objs := s.objs[p := o], table := s.table.(streams := s.table.streams[f.id := p]), rl := Reading);
    EnterStep(r, s.nread);
    PollQuiet(u, p);
    assert u.objs[p := Consume(o)] == s.objs[p := Consume(o)];
    hide Apply, Enabled;
    Go2(s, r, Loop(Enter(s.nread)), u, Do(p, Poll), AfterHeaders(s, f));
  }

  lemma ServedByHeaders(s: Mux, f: Frame, p: Ptr)
    requires CalmBut(s) && Inv(AfterHeaders(s, f)) && p == Ptr(f.id, s.nread) && p !in s.objs
    requires f.id !in s.table.streams && f.env.flag == FLAG_HEADERS
    ensures Served1(s, f, AfterHeaders(s, f))
  {
    hide Inv;
    assert Idle(AfterHeaders(s, f).objs[p]);
  }

  lemma ServeHeaders(s: Mux) returns (t: Mux)
    requires Calm(s) && s.nread < |s.inc|
    requires Route(s, s.inc[s.nread]).Starting?
    ensures Reaches(s, t) && Served1(s, s.inc[s.nread], t)
  {
    var f := s.inc[s.nread];
    var r := TakeFrame(s);
    RunHeaders(s, r, f);
    t := AfterHeaders(s, f);
    ServedByHeaders(s, f, Ptr(f.id, s.nread));
  }

  function AfterDeliver(s: Mux, p: Ptr, env: Envelope): Mux
    requires p in s.objs
  {
    s.(nread := s.nread + 1,
       objs := s.objs[p := Consume(s.objs[p].(st := MuxTable.Push(s.objs[p].st, env)))])
  }

  lemma RunDeliver(s: Mux, r: Mux, p: Ptr, env: Envelope)
    requires s.role == Server && s.rl == Reading && p in s.objs && Idle(s.objs[p])
    requires Reaches(s, r) && Inv(r) && r == s.(nread := s.nread + 1, rl := Delivering(p, env))
    ensures Reaches(s, AfterDeliver(s, p, env)) && Inv(AfterDeliver(s, p, env))
  {
    var o := s.objs[p].(st := MuxTable.Push(s.objs[p].st, env));
    var u := r.(objs := s.objs[p := o], rl := Reading);
    PollQuiet(u, p);
    assert u.objs[p := Consume(o)] == s.objs[p := Consume(o)];
    Go2(s, r, Loop(Push), u, Do(p, Poll), AfterDeliver(s, p, env));
  }

  lemma ServedByDeliver(s: Mux, f: Frame, p: Ptr)
    requires p in s.objs && CalmBut(s) && Inv(AfterDeliver(s, p, f.env))
    requires f.env.flag != FLAG_RESET && f.id in s.table.streams
    ensures Served1(s, f, AfterDeliver(s, p, f.env))
  {
    hide Inv;
    assert Idle(AfterDeliver(s, p, f.env).objs[p]);
  }

  lemma ServeDeliver(s: Mux, p: Ptr) returns (t: Mux)
    requires Calm(s) && s.nread < |s.inc|
    requires Route(s, s.inc[s.nread]) == Delivering(p, s.inc[s.nread].env)
    ensures Reaches(s, t) && Served1(s, s.inc[s.nread], t)
  {
    var f := s.inc[s.nread];
    assert p == s.table.streams[f.id] && p in s.objs && Idle(s.objs[p]);
    var r := TakeFrame(s);
    RunDeliver(s, r, p, f.env);
    t := AfterDeliver(s, p, f.env);
    ServedByDeliver(s, f, p);
  }

  lemma ServeOne(s: Mux) returns (t: Mux)
    requires Calm(s) && s.nread < |s.inc|
    ensures Reaches(s, t) && Served1(s, s.inc[s.nread], t)
  {
    match Route(s, s.inc[s.nread])
    case Starting(_) => t := ServeHeaders(s);
    case Resetting(p) => t := ServeReset(s, p);
    case Delivering(p, _) => t := ServeDeliver(s, p);
    case Reading => t := ServeDrop(s);
  }

  /** What the calm schedule maintains for the ID to be reopened. */
  ghost predicate Tracked(s: Mux, id: StreamId)
    requires s.nread <= |s.inc|
  {
    var stage := Stage(s.inc[..s.nread], id);
    && (stage == OPENED ==> id in s.table.streams)
    && (stage == RESET_ONCE ==> id !in s.table.streams && exists p :: p in s.objs && p.id == id)
    && (stage == REOPENED ==>
          id in s.table.streams && exists p :: p in s.objs && p.id == id && p != s.table.streams[id])
  }

  lemma TrackedStep(s: Mux, t: Mux, id: StreamId)
    requires FrameOk(s) && FrameOk(t) && s.nread < |s.inc| && Served1(s, s.inc[s.nread], t)
    requires Tracked(s, id) && Stage(s.inc[..s.nread], id) != REOPENED
    ensures Tracked(t, id)
  {
    hide Inv, Calm;
    StageBound(s.inc[..s.nread], id);
    assert s.inc[..s.nread + 1][..s.nread] == s.inc[..s.nread];
    var before, f := Stage(s.inc[..s.nread], id), s.inc[s.nread];
    var after := Stage(t.inc[..t.nread], id);
    hide Stage;
    if id in s.table.streams {
      assert s.table.streams[id] in s.objs && s.table.streams[id].id == id;
    }
    assert Lookup(t.table, id) == Lookup(s.table, id) || f.id == id;
    hide FrameOk;
  }

  lemma ServeUntilReopened(s: Mux, id: StreamId) returns (t: Mux)
    requires Calm(s) && Tracked(s, id) && Reopens(s.inc, id)
    ensures Reaches(s, t) && Calm(t) && t.inc == s.inc && Tracked(t, id) && Reopens(t.inc[..t.nread], id)
    decreases |s.inc| - s.nread
  {
    if Reopens(s.inc[..s.nread], id) {
      t := s;
      assert Valid(s, []) && Run(s, []) == s;
    } else {
      assert s.nread < |s.inc| by {
        assert s.inc[..|s.inc|] == s.inc;
      }
      var u := ServeOne(s);
      TrackedStep(s, u, id);
      t := ServeUntilReopened(u, id);
      ReachesTrans(s, u, t);
    }
  }

  lemma {:induction false} AllArrive(fs: seq<Frame>)
    ensures Reaches(Init(Server), Init(Server).(inc := fs))
  {
    if fs == [] {
      assert Valid(Init(Server), []) && Run(Init(Server), []) == Init(Server).(inc := fs);
    } else {
      var n := |fs| - 1;
      AllArrive(fs[..n]);
      var s := Init(Server).(inc := fs[..n]);
      assert fs[..n] + [fs[n]] == fs;
      ReachesStep(s, Arrive(fs[n]));
      ReachesTrans(Init(Server), s, Init(Server).(inc := fs));
    }
  }

  /** The first handler of a reopened ID returns: its deferred deregister orphans the second. */
  lemma FinishFirstHandler(s: Mux, p: Ptr) returns (t: Mux)
    requires Calm(s) && p in s.objs && p.id in s.table.streams && p != s.table.streams[p.id]
    ensures Reaches(s, t) && t.inc == s.inc && Orphan(t, s.table.streams[p.id])
  {
    var q, o := s.table.streams[p.id], s.objs[p];
    assert q in s.objs && q.id == p.id && Idle(s.objs[q]) && Idle(o);
    assert s.objs[q].st.terminated == None by {
      assert LatchOk(s, q, s.objs[q]);
    }
    RunFinish(s, p);
    t := AfterFinish(s, p);
    hide Inv, Reaches, Calm;
  }

  function AfterFinish(s: Mux, p: Ptr): Mux
    requires p in s.objs
  {
    var o := s.objs[p];
    s.(objs := s.objs[p := o.(owner := Gone, st := Terminate(o.st, StreamClosed))], table := Deregister(s.table, p.id))
  }

  function AfterLeaving(s: Mux, p: Ptr): Mux
    requires p in s.objs
  {
    var o := s.objs[p];
    s.(objs := s.objs[p := o.(owner := Left(o.st.rxEnd), st := Terminate(o.st, StreamClosed))])
  }

  lemma RunLeaving(s: Mux, p: Ptr)
    requires Inv(s) && s.role == Server && p in s.objs && Idle(s.objs[p])
    ensures Reaches(s, AfterLeaving(s, p)) && Inv(AfterLeaving(s, p))
  {
    hide Inv;
    var o, b := s.objs[p], AfterLeaving(s, p);
    var a := s.(objs := s.objs[p := o.(owner := Leaving)]);
    assert o.put + [] == o.put;
    assert Reaches(s, s) by {
      assert Valid(s, []) && Run(s, []) == s;
    }
    Quiet(s, p, Leave);
    Quiet(a, p, LeaveTerminate);
    assert a.objs[p := b.objs[p]] == b.objs;
    hide Apply;
    Go2(s, s, Do(p, Leave), a, Do(p, LeaveTerminate), b);
  }

  /** The handler's last step: deregister by ID. */
  lemma LastStep(s: Mux, p: Ptr)
    requires s.role == Server && p in s.objs && s.objs[p].owner.Left?
    ensures Enabled(s, Do(p, LeaveEnd(false)))
    ensures Apply(s, Do(p, LeaveEnd(false)))
         == s.(objs := s.objs[p := s.objs[p].(owner := Gone)], table := Deregister(s.table, p.id))
  {
    assert s.objs[p].put + [] == s.objs[p].put;
    assert s.out + Frames(p.id, []) == s.out;
  }

  lemma RunFinish(s: Mux, p: Ptr)
    requires Inv(s) && s.role == Server && p in s.objs && Idle(s.objs[p])
    ensures Reaches(s, AfterFinish(s, p))
  {
    hide Inv;
    RunLeaving(s, p);
    var b, t := AfterLeaving(s, p), AfterFinish(s, p);
    assert b.objs[p := t.objs[p]] == t.objs;
    LastStep(b, p);
    hide Apply;
    Go(b, Do(p, LeaveEnd(false)), t);
    ReachesTrans(s, b, t);
  }

  /** Some run of a server whose client sends (a prefix of) these frames orphans a stream. */
  ghost predicate CanOrphan(fs: seq<Frame>, id: StreamId) {
    exists s: Mux, p: Ptr :: Reachable(Server, s) && s.inc <= fs && p.id == id && Orphan(s, p)
  }

  /** A stream can be orphaned if and only if the client resets its ID and opens it again. */
  lemma OrphanIffReopened(fs: seq<Frame>, id: StreamId)
    ensures CanOrphan(fs, id) <==> Reopens(fs, id)
  {
    if CanOrphan(fs, id) {
      var s: Mux, p: Ptr :| Reachable(Server, s) && s.inc <= fs && p.id == id && Orphan(s, p);
      ReachableOwned(s);
      assert ObjOwned(s, p);
      NowIsPast(s, id);
      assert fs[..|s.inc|] == s.inc;
      StageMono(fs, |s.inc|, id);
      StageBound(fs, id);
    }
    if Reopens(fs, id) {
      var s0 := Init(Server).(inc := fs);
      AllArrive(fs);
      var s := ServeUntilReopened(s0, id);
      var p :| p in s.objs && p.id == id && p != s.table.streams[id];
      var t := FinishFirstHandler(s, p);
      ReachesTrans(Init(Server), s0, s);
      ReachesTrans(Init(Server), s, t);
      assert Reachable(Server, t);
      assert Orphan(t, s.table.streams[id]) && s.table.streams[id].id == id;
    }
  }
}
