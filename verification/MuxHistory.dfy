/** What the history of one connection says about its streams: where each one began, and that
    everything written for an ID was written by a stream with that ID. */
module MuxHistory {
  import opened Wire
  import opened MuxTable
  import opened MuxMachine
  import opened MuxSafety

  /** No ID was ever given to two streams. */
  ghost predicate Unique(s: Mux) {
    forall p, q :: p in s.objs && q in s.objs && p.id == q.id ==> p == q
  }

  ghost predicate Known(s: Mux, id: StreamId) {
    exists p :: p in s.objs && p.id == id
  }

  predicate IsHeaders(f: Frame, id: StreamId) {
    f.id == id && f.env.flag == FLAG_HEADERS
  }

  /** A server's stream began with a headers frame of its ID. */
  predicate BegunOk(s: Mux, p: Ptr) {
    s.role == Server && p in s.objs ==>
      s.objs[p].from < Looked(s) && Looked(s) <= |s.inc| && IsHeaders(s.inc[s.objs[p].from], p.id)
  }

  /** No two of a server's streams began with the same frame. */
  predicate ApartOk(s: Mux, p: Ptr, q: Ptr) {
    s.role == Server && p in s.objs && q in s.objs && p != q ==> s.objs[p].from != s.objs[q].from
  }

  ghost predicate WroteOk(s: Mux, id: StreamId) {
    && (!Known(s, id) ==> Envs(s.out, id) == [])
    && (Unique(s) ==> forall p :: p in s.objs && p.id == id ==> s.objs[p].put == Envs(s.out, id))
  }

  ghost predicate History(s: Mux) {
    && (forall p :: BegunOk(s, p))
    && (forall p, q :: ApartOk(s, p, q))
    && (forall id :: WroteOk(s, id))
  }

  lemma BegunStep(s: Mux, e: Event, p: Ptr)
    requires FrameOk(s) && Enabled(s, e) && BegunOk(s, p)
    ensures BegunOk(Apply(s, e), p)
  {
    if p in s.objs {
      ObjKept(s, e, p);
    }
  }

  lemma ApartStep(s: Mux, e: Event, p: Ptr, q: Ptr)
    requires FrameOk(s) && Enabled(s, e) && ApartOk(s, p, q) && BegunOk(s, p) && BegunOk(s, q)
    ensures ApartOk(Apply(s, e), p, q)
  {
    if p in s.objs && q in s.objs {
      ObjKept(s, e, p);
      ObjKept(s, e, q);
      hide Apply;
    }
  }

  /** Old objects stay, and keep where they began. */
  lemma ObjsGrow(s: Mux, e: Event)
    requires Enabled(s, e)
    ensures s.objs.Keys <= Apply(s, e).objs.Keys
    ensures Apply(s, e).role == s.role && s.out <= Apply(s, e).out
    ensures !e.Arrive? ==> Apply(s, e).inc == s.inc
    ensures !e.Open? && !(e.Loop? && e.l.Enter?) ==> Apply(s, e).objs.Keys == s.objs.Keys
  {}

  lemma ObjKept(s: Mux, e: Event, p: Ptr)
    requires Enabled(s, e) && p in s.objs
    ensures p in Apply(s, e).objs && Apply(s, e).objs[p].from == s.objs[p].from
    ensures !e.Do? ==> Apply(s, e).out == s.out && Apply(s, e).objs[p].put == s.objs[p].put
  {}

  lemma NewObj(s: Mux, e: Event, p: Ptr)
    requires FrameOk(s) && Enabled(s, e) && p !in s.objs && p in Apply(s, e).objs
    ensures Apply(s, e).objs[p].put == [] && Apply(s, e).out == s.out && Apply(s, e).objs[p].from == Looked(s)
    ensures s.role == Client ==> e == Open(p)
  {}

  lemma EnvsOfFrames(k: StreamId, es: seq<Envelope>, id: StreamId)
    requires |es| <= 1
    ensures Envs(Frames(k, es), id) == if k == id then es else []
  {
    if |es| == 1 {
      assert Frames(k, es)[..0] == [];
    }
  }

  lemma DoWrote(s: Mux, p: Ptr, a: Action, id: StreamId)
    requires Enabled(s, Do(p, a)) && WroteOk(s, id)
    ensures WroteOk(Apply(s, Do(p, a)), id)
  {
    var t, es := Apply(s, Do(p, a)), Writes(s.role, s.objs[p], a);
    assert t.objs[p].put == s.objs[p].put + es && |es| <= 1;
    assert t.objs.Keys == s.objs.Keys;
    assert forall q :: q in s.objs && q != p ==> t.objs[q] == s.objs[q];
    assert t.out == s.out + Frames(p.id, es);
    hide Apply, Act, Writes, CanAct;
    assert Known(s, id) <==> Known(t, id);
    assert Unique(t) ==> Unique(s);
    EnvsConcat(s.out, Frames(p.id, es), id);
    EnvsOfFrames(p.id, es, id);
    if id != p.id {
      assert Envs(s.out, id) + [] == Envs(s.out, id);
    } else {
      assert Known(s, id);
    }
  }

  lemma WroteStep(s: Mux, e: Event, id: StreamId)
    requires FrameOk(s) && Enabled(s, e) && WroteOk(s, id)
    ensures WroteOk(Apply(s, e), id)
  {
    var t := Apply(s, e);
    if e.Do? {
      DoWrote(s, e.p, e.a, id);
    } else {
      ObjsGrow(s, e);
      forall p | p in t.objs && p !in s.objs ensures t.objs[p].put == [] {
        NewObj(s, e, p);
      }
      forall p | p in s.objs ensures t.objs[p].put == s.objs[p].put && t.out == s.out {
        ObjKept(s, e, p);
      }
      assert t.out == s.out;
      hide Apply;
      assert Known(s, id) ==> Known(t, id) by {
        if Known(s, id) {
          var p :| p in s.objs && p.id == id;
          assert p in t.objs;
        }
      }
      if Unique(t) {
        forall p | p in t.objs && p.id == id ensures t.objs[p].put == Envs(t.out, id) {
          assert forall q :: q in s.objs && q.id == id ==> q in t.objs && q == p;
        }
      }
    }
  }

  lemma HistoryStep(s: Mux, e: Event)
    requires FrameOk(s) && History(s) && Enabled(s, e)
    ensures History(Apply(s, e))
  {
    hide Apply, FrameOk, BegunOk, ApartOk, WroteOk;
    forall p ensures BegunOk(Apply(s, e), p) {
      BegunStep(s, e, p);
    }
    forall p, q ensures ApartOk(Apply(s, e), p, q) {
      ApartStep(s, e, p, q);
    }
    forall id ensures WroteOk(Apply(s, e), id) {
      WroteStep(s, e, id);
    }
  }
}
