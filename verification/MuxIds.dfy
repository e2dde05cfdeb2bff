/** Why a client's IDs are distinct: a connection whose streams take the IDs that the wrapping
    walk of `StreamIds` finds has none in common before 2^32 - 1 streams were opened on it. */
module MuxIds {
  import opened Wire
  import opened MuxTable
  import opened MuxMachine
  import opened MuxSafety
  import opened MuxHistory
  import StreamIds

  /** Every open takes the ID newStream finds, starting from the last one handed out. */
  predicate ByWalk(s: Mux, es: seq<Event>, last: StreamId)
    requires Valid(s, es)
    decreases |es|
  {
    es == [] ||
    (&& (es[0].Open? ==> StreamIds.Allocate(last, s.table.streams.Keys) == Some(es[0].p.id))
     && ByWalk(Apply(s, es[0]), es[1..], if es[0].Open? then es[0].p.id else last))
  }

  function Opens(es: seq<Event>): nat {
    if es == [] then 0 else (if es[0].Open? then 1 else 0) + Opens(es[1..])
  }

  ghost predicate Below(s: Mux, last: StreamId) {
    forall p :: p in s.objs ==> p.id <= last
  }

  lemma WalkGoesUp(s: Mux, last: StreamId, p: Ptr)
    requires FrameOk(s) && Below(s, last) && last < StreamIds.WALK
    requires StreamIds.Allocate(last, s.table.streams.Keys) == Some(p.id)
    ensures p.id == last + 1
  {
    var live := s.table.streams.Keys;
    forall id | id in live ensures id <= last {
      assert s.table.streams[id] in s.objs && s.table.streams[id].id == id;
    }
    hide StreamIds.Allocate;
    StreamIds.FirstOpensCount(last, [live]);
    assert StreamIds.Handed(last, [live])[0] == StreamIds.Allocate(last, live);
  }

  lemma WalkStep(s: Mux, e: Event, last: StreamId)
    requires s.role == Client && Inv(s) && Unique(s) && Below(s, last) && Enabled(s, e)
    requires e.Open? ==> last < StreamIds.WALK && StreamIds.Allocate(last, s.table.streams.Keys) == Some(e.p.id)
    ensures Unique(Apply(s, e)) && Below(Apply(s, e), if e.Open? then e.p.id else last)
    ensures e.Open? ==> e.p.id == last + 1
  {
    OpensAdd(s, e);
    if e.Open? {
      WalkGoesUp(s, last, e.p);
    }
    hide Inv, FrameOk, Apply, Enabled, StreamIds.Allocate;
  }

  lemma {:induction false} WalkedIdsAreUnique(s: Mux, es: seq<Event>, last: StreamId)
    requires s.role == Client && Inv(s) && Unique(s) && Below(s, last)
    requires Valid(s, es) && ByWalk(s, es, last) && last + Opens(es) <= StreamIds.WALK
    ensures Unique(Run(s, es))
    decreases |es|
  {
    if es != [] {
      var e, t := es[0], Apply(s, es[0]);
      InvStep(s, e);
      ObjsGrow(s, e);
      WalkStep(s, e, last);
      hide Inv, Apply, Enabled, StreamIds.Allocate, Unique, Below;
      WalkedIdsAreUnique(t, es[1..], if e.Open? then e.p.id else last);
    }
  }

  /** The premise of the end-to-end results holds of every client connection on which at most
      2^32 - 1 streams were opened. */
  lemma FirstOpensAreDistinct(es: seq<Event>)
    requires Valid(Init(Client), es) && ByWalk(Init(Client), es, 0) && Opens(es) <= StreamIds.WALK
    ensures Unique(Run(Init(Client), es))
  {
    InvInit(Client);
    WalkedIdsAreUnique(Init(Client), es, 0);
  }

  // After the wrap

  /** Every open adds one stream, with a non-zero ID. */
  lemma OpensAdd(s: Mux, e: Event)
    requires s.role == Client && FrameOk(s) && Enabled(s, e)
    ensures Apply(s, e).role == Client
    ensures Apply(s, e).objs.Keys == s.objs.Keys + (if e.Open? then {e.p} else {})
    ensures e.Open? ==> e.p !in s.objs && e.p.id != 0
  {}

  ghost predicate NonZero(ps: set<Ptr>) {
    forall p :: p in ps ==> p.id != 0
  }

  lemma {:induction false} StreamsAreOpens(s: Mux, es: seq<Event>)
    requires s.role == Client && FrameOk(s) && NonZero(s.objs.Keys) && Valid(s, es)
    ensures |Run(s, es).objs.Keys| == |s.objs.Keys| + Opens(es) && NonZero(Run(s, es).objs.Keys)
    decreases |es|
  {
    if es != [] {
      OpensAdd(s, es[0]);
      FrameOkStep(s, es[0]);
      hide FrameOk, Apply, Enabled;
      assert NonZero(Apply(s, es[0]).objs.Keys);
      StreamsAreOpens(Apply(s, es[0]), es[1..]);
    }
  }

  function Ids(ps: set<Ptr>): set<StreamId> {
    set p | p in ps :: p.id
  }

  ghost predicate OneEach(ps: set<Ptr>) {
    forall p, q :: p in ps && q in ps && p.id == q.id ==> p == q
  }

  /** Streams with distinct IDs are as many as their IDs. */
  lemma {:induction false} AsManyIds(ps: set<Ptr>)
    requires OneEach(ps)
    ensures |Ids(ps)| == |ps|
    decreases |ps|
  {
    if ps != {} {
      var p :| p in ps;
      AsManyIds(ps - {p});
      assert Ids(ps) == Ids(ps - {p}) + {p.id};
      assert p.id !in Ids(ps - {p});
    }
  }

  lemma {:induction false} AtMost(ids: set<StreamId>, n: nat)
    requires forall id :: id in ids ==> 1 <= id <= n
    ensures |ids| <= n
    decreases n
  {
    if n == 0 {
      assert ids == {};
    } else if n < ID_LIMIT && n in ids {
      AtMost(ids - {n}, n - 1);
      assert |ids| == |ids - {n}| + 1;
    } else {
      AtMost(ids, n - 1);
    }
  }

  /** However IDs are picked, more opens than there are IDs give one out twice. */
  lemma ManyOpensRepeat(es: seq<Event>)
    requires Valid(Init(Client), es) && Opens(es) > StreamIds.WALK
    ensures !Unique(Run(Init(Client), es))
  {
    InvInit(Client);
    StreamsAreOpens(Init(Client), es);
    var t := Run(Init(Client), es);
    hide Inv, FrameOk, Run, Valid, Opens;
    if Unique(t) {
      AsManyIds(t.objs.Keys);
      AtMost(Ids(t.objs.Keys), StreamIds.WALK);
    }
  }

  /** Exactly when a connection has never reused an ID: while no more than 2^32 - 1 streams were
      opened on it. */
  lemma DistinctIffFewOpens(es: seq<Event>)
    requires Valid(Init(Client), es) && ByWalk(Init(Client), es, 0)
    ensures Unique(Run(Init(Client), es)) <==> Opens(es) <= StreamIds.WALK
  {
    if Opens(es) <= StreamIds.WALK {
      FirstOpensAreDistinct(es);
    } else {
      ManyOpensRepeat(es);
    }
  }

  // Such runs exist

  function LastOf(es: seq<Event>, last: StreamId): StreamId {
    if es == [] then last else LastOf(es[1..], if es[0].Open? then es[0].p.id else last)
  }

  lemma {:induction false} WalkConcat(s: Mux, a: seq<Event>, b: seq<Event>, last: StreamId)
    requires Valid(s, a) && Valid(Run(s, a), b) && ByWalk(s, a, last) && ByWalk(Run(s, a), b, LastOf(a, last))
    ensures Valid(s, a + b) && ByWalk(s, a + b, last) && Run(s, a + b) == Run(Run(s, a), b)
    ensures Opens(a + b) == Opens(a) + Opens(b) && LastOf(a + b, last) == LastOf(b, LastOf(a, last))
    decreases |a|
  {
    RunConcat(s, a, b);
    if a == [] {
      assert a + b == b;
    } else {
      assert (a + b)[1..] == a[1..] + b;
      hide Apply, Enabled, StreamIds.Allocate;
      WalkConcat(Apply(s, a[0]), a[1..], b, if a[0].Open? then a[0].p.id else last);
    }
  }

  /** An open connection without streams, on which n have been opened. */
  predicate Vacant(s: Mux, n: nat) {
    s.role == Client && !s.table.closed && s.table.streams == map[] && forall p :: p in s.objs ==> p.gen < n
  }

  lemma OpenAndClose(s: Mux, n: nat, last: StreamId) returns (es: seq<Event>)
    requires Vacant(s, n)
    ensures Valid(s, es) && ByWalk(s, es, last) && Opens(es) == 1 && Vacant(Run(s, es), n + 1)
  {
    StreamIds.AllocateIsExact(last, {});
    var one: StreamId := 1;
    assert one !in {};
    var p := Ptr(StreamIds.Allocate(last, {}).value, n);
    assert s.table.streams.Keys == {};
    var t := Apply(s, Open(p));
    var u := Apply(t, Do(p, Leave));
    assert Vacant(u, n + 1);
    hide Apply, Enabled, StreamIds.Allocate, Vacant;
    es := [Open(p), Do(p, Leave)];
    assert es[1..] == [Do(p, Leave)] && [Do(p, Leave)][1..] == [];
    assert Valid(u, []) && Run(u, []) == u && ByWalk(u, [], p.id);
    assert Valid(t, es[1..]) && Run(t, es[1..]) == u && ByWalk(t, es[1..], p.id);
    assert Opens([Do(p, Leave)]) == Opens([]) == 0;
  }

  lemma {:induction false} AnyNumberOfOpens(n: nat) returns (es: seq<Event>)
    ensures Valid(Init(Client), es) && ByWalk(Init(Client), es, 0) && Opens(es) == n && Vacant(Run(Init(Client), es), n)
  {
    es := [];
    if n > 0 {
      var a := AnyNumberOfOpens(n - 1);
      var b := OpenAndClose(Run(Init(Client), a), n - 1, LastOf(a, 0));
      hide Valid, Run, ByWalk, Vacant, Opens, LastOf;
      WalkConcat(Init(Client), a, b, 0);
      es := a + b;
    }
  }

  /** So IDs are reused: in a run in which every stream is closed before the next is opened, the
      walk gives one out again after the wrap. */
  lemma SomeRunReuses() returns (es: seq<Event>)
    ensures Valid(Init(Client), es) && ByWalk(Init(Client), es, 0) && Opens(es) == ID_LIMIT && !Unique(Run(Init(Client), es))
  {
    es := AnyNumberOfOpens(ID_LIMIT);
    ManyOpensRepeat(es);
  }
}
