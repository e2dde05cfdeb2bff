/** Every interleaving of one multiplexed connection, client or server: the read loop, the
    threads that own the streams, and a shutdown from outside. One event is one lock region,
    one evaluation of a `select`, or one write of a frame. */
module MuxMachine {
  import opened Wire
  import opened MuxTable

  datatype Role = Client | Server

  /** A stream object. IDs name table slots; two objects may carry the same ID. */
  datatype Ptr = Ptr(id: StreamId, gen: nat)

  /** Where the thread that owns a stream stands.
      Server: Live while HandleRPC runs, Leaving once it returned (next: terminate),
      Left once terminated (next: deregister), then Gone.
      Client: Live, Leaving once Close deregistered it (next: terminate),
      Left once terminated (next: the reset frame, unless finished), then Gone. */
  datatype Owner = Live | Leaving | Left(finished: bool) | Gone

  datatype Stream = Stream(
    st: StreamState,
    owner: Owner,
    blocked: bool,              // a reader waits in ReadEnvelope's second select
    pending: Option<Envelope>,  // WriteEnvelope passed its check and has not written yet
    // history
    from: nat,                  // how many frames had been looked up when this stream entered the table
    got: seq<Envelope>,         // what ReadEnvelope returned, in order
    put: seq<Envelope>)         // what was written for this object, in order

  datatype ReadLoop =
    | Reading
    | Routing(f: Frame)                    // a frame in hand, not yet looked up
    | Starting(f: Frame)                   // server: unknown ID with a headers flag
    | Resetting(p: Ptr)                    // a reset for p: about to deregister
    | Killing(p: Ptr)                      // deregistered: about to terminate p
    | Delivering(p: Ptr, env: Envelope)    // in deliver's select
    | Failing(err: Error)                  // the read failed: about to run terminateAll
    | Stopped

  datatype Mux = Mux(
    role: Role,
    table: Table<Ptr>,
    objs: map<Ptr, Stream>,      // every stream that ever entered the table
    doomed: map<Ptr, Error>,     // captured by a terminateAll, not yet terminated
    rl: ReadLoop,
    inc: seq<Frame>,             // every frame the peer's side handed over, in order
    nread: nat,                  // how many of them the read loop has taken
    out: seq<Frame>)             // every frame written, in order

  /** One step of the read loop. */
  datatype LoopStep =
    | Read | Fail(err: Error) | CloseAll
    | Look | Enter(gen: nat) | Remove | Kill | Push | Drop

  /** One step of a thread working on a stream. */
  datatype Action =
    | Poll | Wake | Interrupt                        // ReadEnvelope: first select, second select
    | WriteCheck(env: Envelope) | WriteFlush | WriteFail
    | Leave | LeaveTerminate | LeaveEnd(written: bool)

  datatype Event =
    | Arrive(f: Frame)         // the peer's next frame comes within reach
    | Loop(l: LoopStep)
    | Shutdown                 // transport.Close: terminateAll from another thread
    | Doom(p: Ptr)             // a terminateAll reaches p in its list
    | Open(p: Ptr)             // newStream
    | Do(p: Ptr, a: Action)

  function Init(role: Role): Mux {
    Mux(role, EmptyTable(), map[], map[], Reading, [], 0, [])
  }

  function Newborn(inbox: seq<Envelope>, from: nat): Stream {
    Stream(FRESH.(inbox := inbox), Live, false, None, from, [], [])
  }

  /** How many incoming frames have been looked up. */
  function Looked(s: Mux): nat {
    if (s.rl.Routing? || s.rl.Starting?) && s.nread > 0 then s.nread - 1 else s.nread
  }

  /** The table's slot for p's ID holds p itself. */
  predicate InTable(s: Mux, p: Ptr) {
    Lookup(s.table, p.id) == Some(p)
  }

  // A thread working on a stream

  /** On a server only a running handler reads and writes; on a client anyone may, any time. */
  predicate MayUse(role: Role, o: Stream) {
    role == Server ==> o.owner == Live
  }

  predicate CanAct(role: Role, o: Stream, a: Action) {
    match a
    case Poll => MayUse(role, o) && !o.blocked
    case Wake => MayUse(role, o) && o.blocked && o.st.inbox != []
    case Interrupt => MayUse(role, o) && o.blocked
    case WriteCheck(env) => MayUse(role, o) && o.pending == None && o.st.terminated == None
    case WriteFlush => MayUse(role, o) && o.pending.Some?
    case WriteFail => MayUse(role, o) && o.pending.Some?
    case Leave =>
      if role == Server then o.owner == Live && !o.blocked && o.pending == None
      else o.owner == Live || o.owner == Gone
    case LeaveTerminate => o.owner == Leaving
    case LeaveEnd(_) => o.owner.Left?
  }

  function Consume(o: Stream): Stream
    requires o.st.inbox != []
  {
    o.(st := Take(o.st), blocked := false, got := o.got + [o.st.inbox[0]])
  }

  /** The envelopes an action puts on the wire. */
  function Writes(role: Role, o: Stream, a: Action): seq<Envelope>
    requires CanAct(role, o, a)
  {
    match a
    case WriteFlush => [o.pending.value]
    case LeaveEnd(written) => if role == Client && !o.owner.finished && written then [RESET] else []
    case _ => []
  }

  /** The actions that deregister the stream's ID: a server handler's last step, a client
      Close's first. */
  predicate Removes(role: Role, a: Action) {
    if role == Server then a.LeaveEnd? else a == Leave
  }

  function Act(role: Role, o: Stream, a: Action): Stream
    requires CanAct(role, o, a)
  {
    var o' := o.(put := o.put + Writes(role, o, a));
    match a
    case Poll => if o.st.inbox != [] then Consume(o') else o'.(blocked := true)
    case Wake => Consume(o')
    case Interrupt => o'.(blocked := false)
    case WriteCheck(env) => o'.(pending := Some(env))
    case WriteFlush => o'.(pending := None)
    case WriteFail => o'.(pending := None)
    case Leave => o'.(owner := Leaving)
    case LeaveTerminate => o'.(owner := Left(o.st.rxEnd), st := Terminate(o.st, StreamClosed))
    case LeaveEnd(_) => o'.(owner := Gone)
  }

  // The read loop

  predicate CanLoop(s: Mux, l: LoopStep) {
    match l
    case Read => s.rl == Reading && s.nread < |s.inc|
    case Fail(err) => s.rl == Reading && (s.role == Server ==> err == ConnClosed)
    case CloseAll => s.rl.Failing?
    case Look => s.rl.Routing?
    case Enter(gen) => s.rl.Starting? && Ptr(s.rl.f.id, gen) !in s.objs
    case Remove => s.rl.Resetting?
    case Kill => s.rl.Killing? && s.rl.p in s.objs
    case Push => s.rl.Delivering? && s.rl.p in s.objs && CanPush(s.objs[s.rl.p].st)
    case Drop => s.rl.Delivering? && s.rl.p in s.objs && s.objs[s.rl.p].st.terminated.Some?
  }

  /** The read loop's decision once a frame's ID has been looked up. */
  function Route(s: Mux, f: Frame): ReadLoop {
    match Lookup(s.table, f.id)
    case None => if s.role == Server && f.env.flag == FLAG_HEADERS then Starting(f) else Reading
    case Some(p) => if f.env.flag == FLAG_RESET then Resetting(p) else Delivering(p, f.env)
  }

  function LoopTo(s: Mux, l: LoopStep): ReadLoop
    requires CanLoop(s, l)
  {
    match l
    case Read => Routing(s.inc[s.nread])
    case Fail(err) => Failing(err)
    case CloseAll => Stopped
    case Look => Route(s, s.rl.f)
    case Remove => Killing(s.rl.p)
    case _ => Reading
  }

  function SetObj(s: Mux, p: Ptr, o: Stream): Mux {
    s.(objs := s.objs[p := o])
  }

  function TerminateObj(s: Mux, p: Ptr, err: Error): Mux
    requires p in s.objs
  {
    SetObj(s, p, s.objs[p].(st := Terminate(s.objs[p].st, err)))
  }

  /** A stream object enters the table, unless the table is closed or its ID is taken. */
  function AddObj(s: Mux, p: Ptr, o: Stream): Mux {
    if CanRegister(s.table, p.id) then
      SetObj(s, p, o).(table := Register(s.table, p.id, p))
    else
      s
  }

  /** terminateAll's lock region: the table is emptied into a private list of streams. */
  function CloseConn(s: Mux, err: Error): Mux {
    s.(table := CloseTable(s.table, err),
       doomed := s.doomed + (map p | p in s.table.streams.Values :: err))
  }

  function LoopDo(s: Mux, l: LoopStep): Mux
    requires CanLoop(s, l)
  {
    match l
    case Read => s.(nread := s.nread + 1)
    case CloseAll => CloseConn(s, s.rl.err)
    case Enter(gen) =>
      AddObj(s, Ptr(s.rl.f.id, gen), Newborn([s.rl.f.env], Looked(s)))
    case Remove => s.(table := Deregister(s.table, s.rl.p.id))
    case Kill => TerminateObj(s, s.rl.p, if s.role == Server then ContextDone else ResetByPeer)
    case Push =>
      var o := s.objs[s.rl.p];
      SetObj(s, s.rl.p, o.(st := MuxTable.Push(o.st, s.rl.env)))
    case _ => s
  }

  // The whole connection

  predicate Enabled(s: Mux, e: Event) {
    match e
    case Arrive(_) => true
    case Loop(l) => CanLoop(s, l)
    case Shutdown => s.role == Client
    case Doom(p) => p in s.doomed && p in s.objs
    case Open(p) => s.role == Client && p.id != 0 && p !in s.objs && CanRegister(s.table, p.id)
    case Do(p, a) => p in s.objs && CanAct(s.role, s.objs[p], a)
  }

  function Frames(id: StreamId, es: seq<Envelope>): seq<Frame> {
    seq(|es|, i requires 0 <= i < |es| => Frame(id, es[i]))
  }

  function Apply(s: Mux, e: Event): Mux
    requires Enabled(s, e)
  {
    match e
    case Arrive(f) => s.(inc := s.inc + [f])
    case Loop(l) => LoopDo(s, l).(rl := LoopTo(s, l))
    case Shutdown => CloseConn(s, ConnClosed)
    case Doom(p) => TerminateObj(s, p, s.doomed[p]).(doomed := s.doomed - {p})
    case Open(p) => AddObj(s, p, Newborn([], Looked(s)))
    case Do(p, a) =>
      SetObj(s, p, Act(s.role, s.objs[p], a))
        .(table := if Removes(s.role, a) then Deregister(s.table, p.id) else s.table,
          out := s.out + Frames(p.id, Writes(s.role, s.objs[p], a)))
  }

  // Runs

  predicate Valid(s: Mux, es: seq<Event>)
    decreases |es|
  {
    es == [] || (Enabled(s, es[0]) && Valid(Apply(s, es[0]), es[1..]))
  }

  function Run(s: Mux, es: seq<Event>): Mux
    requires Valid(s, es)
    decreases |es|
  {
    if es == [] then s else Run(Apply(s, es[0]), es[1..])
  }

  lemma {:induction false} RunConcat(s: Mux, a: seq<Event>, b: seq<Event>)
    requires Valid(s, a) && Valid(Run(s, a), b)
    ensures Valid(s, a + b) && Run(s, a + b) == Run(Run(s, a), b)
    decreases |a|
  {
    if a == [] {
      assert a + b == b;
    } else {
      assert (a + b)[1..] == a[1..] + b;
      RunConcat(Apply(s, a[0]), a[1..], b);
    }
  }

  /** The states some interleaving leads to. */
  ghost predicate Reachable(role: Role, s: Mux) {
    exists es :: Valid(Init(role), es) && Run(Init(role), es) == s
  }
}
