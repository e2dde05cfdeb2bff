/** The TypeScript server of a multiplexed connection, `handleMuxedBidiSocket`: its state, the
    turns of its event loop, and the objects that carry them. */
module TsServer {
  import opened Wire
  import opened MuxMachine
  import opened ByteStream
  import StreamFrames

  /** What the routing loop does with a frame, given who holds which ID. */
  datatype Decision<P> = StartStream | Reset(p: P) | Enqueue(p: P) | Ignore

  function Decide<P>(streams: map<StreamId, P>, f: Frame): Decision<P> {
    if f.id !in streams then if f.env.flag == FLAG_HEADERS then StartStream else Ignore
    else if f.env.flag == FLAG_RESET then Reset(streams[f.id])
    else Enqueue(streams[f.id])
  }

  /** How far the RPC of a stream is: being served, its close callback called, its promise
      settled. The last two each remove the stream's ID from the map. */
  datatype Life = Running | Released | Settled

  /** A stream's entry: its reset mark and everything fed to its RPC, which on a reset loses
      what it has not read. */
  datatype Entry = Entry(reset: bool, queue: seq<Envelope>, life: Life)

  datatype State = State(streams: map<StreamId, Ptr>, entries: map<Ptr, Entry>, serving: bool)

  function Fresh(): State {
    State(map[], map[], true)
  }

  datatype Turn =
    | Start(f: Frame, gen: nat)   // a frame that starts a stream
    | Other(f: Frame)             // any other frame
    | Release(p: Ptr)             // a stream's RPC is over and calls the close callback
    | Finish(p: Ptr)              // its promise settles
    | End                         // the loop returns and tears down

  predicate CanTurn(t: State, x: Turn) {
    match x
    case Start(f, gen) => t.serving && Decide(t.streams, f) == StartStream && Ptr(f.id, gen) !in t.entries
    case Other(f) =>
      t.serving && Decide(t.streams, f) != StartStream && (f.id in t.streams ==> t.streams[f.id] in t.entries)
    case Release(p) => p in t.entries && t.entries[p].life == Running
    case Finish(p) => p in t.entries && t.entries[p].life == Released
    case End => t.serving
  }

  function Feed(t: State, p: Ptr, env: Envelope): State
    requires p in t.entries
  {
    t.(entries := t.entries[p := t.entries[p].(queue := t.entries[p].queue + [env])])
  }

  /** Removal is by ID, whatever the map holds there. */
  function Removed(t: State, p: Ptr, life: Life): State
    requires p in t.entries
  {
    t.(streams := t.streams - {p.id}, entries := t.entries[p := t.entries[p].(life := life)])
  }

  function TornDown(t: State): State {
    var entries := map p | p in t.entries ::
      if p in t.streams.Values then t.entries[p].(reset := true) else t.entries[p];
    State(map[], entries, false)
  }

  function Turned(t: State, x: Turn): State
    requires CanTurn(t, x)
  {
    match x
    case Start(f, gen) =>
      var p := Ptr(f.id, gen);
      t.(streams := t.streams[f.id := p], entries := t.entries[p := Entry(false, [f.env], Running)])
    case Other(f) => (
      match Decide(t.streams, f)
      case Reset(p) => t.(streams := t.streams - {f.id}, entries := t.entries[p := t.entries[p].(reset := true)])
      case Enqueue(p) => Feed(t, p, f.env)
      case _ => t)
    case Release(p) => Removed(t, p, Released)
    case Finish(p) => Removed(t, p, Settled)
    case End => TornDown(t)
  }

  predicate CanTurns(t: State, xs: seq<Turn>)
    decreases |xs|
  {
    xs == [] || (CanTurn(t, xs[0]) && CanTurns(Turned(t, xs[0]), xs[1..]))
  }

  function Turns(t: State, xs: seq<Turn>): State
    requires CanTurns(t, xs)
    decreases |xs|
  {
    if xs == [] then t else Turns(Turned(t, xs[0]), xs[1..])
  }

  lemma {:induction false} TurnsConcat(t: State, xs: seq<Turn>, ys: seq<Turn>)
    requires CanTurns(t, xs)
    ensures CanTurns(t, xs + ys) <==> CanTurns(Turns(t, xs), ys)
    ensures CanTurns(t, xs + ys) ==> Turns(t, xs + ys) == Turns(Turns(t, xs), ys)
    decreases |xs|
  {
    if xs == [] {
      assert xs + ys == ys;
    } else {
      assert (xs + ys)[1..] == xs[1..] + ys;
      TurnsConcat(Turned(t, xs[0]), xs[1..], ys);
    }
  }

  // The objects

  class StreamEntry {
    const key: Ptr
    var reset: bool
    var queue: seq<Envelope>
    var life: Life

    function View(): Entry
      reads this
    {
      Entry(reset, queue, life)
    }

    constructor (key: Ptr, headers: Envelope)
      ensures this.key == key && View() == Entry(false, [headers], Running)
    {
      this.key := key;
      reset, queue, life := false, [headers], Running;
    }
  }

  /** One thing the event loop hands to the connection. */
  datatype Input =
    | Message(data: Bytes)
    | Over(p: Ptr)         // an RPC calls its close callback
    | Settles(p: Ptr)      // an RPC's promise
    | Closed               // the read side ended, failed or idled out

  function FrameIn(data: Bytes): Option<Frame> {
    match StreamFrames.DecodeStreamFrame(data)
    case None => None
    case Some(m) => Some(Frame(m.streamId, Envelope(m.flag, data[StreamFrames.FRAME_HEAD..])))
  }

  /** The read side is over, or a malformed message has lost the framing. */
  predicate Stops(input: Input) {
    input.Closed? || (input.Message? && FrameIn(input.data) == None)
  }

  function Carried(input: Input): seq<Frame> {
    if input.Message? && FrameIn(input.data).Some? then [FrameIn(input.data).value] else []
  }

  /** The frames the loop acts on: those before the first malformed message or the end. */
  function Heard(inputs: seq<Input>): seq<Frame> {
    if inputs == [] || Stops(inputs[0]) then [] else Carried(inputs[0]) + Heard(inputs[1..])
  }

  /** One input is heard if it is a message that is exactly one frame. */
  lemma HeardOne(input: Input)
    ensures Heard([input]) == Carried(input)
    ensures Carried(input) == if input.Message? && StreamFrames.ReadFrame(input.data).Some?
                              then [StreamFrames.ReadFrame(input.data).value] else []
    ensures Stops(input) <==> input.Closed? || (input.Message? && StreamFrames.ReadFrame(input.data) == None)
  {
    if input.Message? {
      MessagesReadAlike(input.data);
    }
    assert [input][1..] == [] && Carried(input) + [] == Carried(input);
    hide FrameIn;
  }

  /** All of it is heard, in order, up to the first input that stops the loop, and nothing after. */
  lemma {:induction false} HeardInOrder(before: seq<Input>, after: seq<Input>)
    requires forall i :: 0 <= i < |before| ==> !Stops(before[i])
    ensures Heard(before + after) == Heard(before) + (if after == [] || Stops(after[0]) then [] else Heard(after))
  {
    if before == [] {
      assert before + after == after && [] + Heard(after) == Heard(after);
    } else {
      assert (before + after)[1..] == before[1..] + after && (before + after)[0] == before[0];
      HeardInOrder(before[1..], after);
    }
  }

  /** The frames a list of turns deals with. */
  function FramesOf(xs: seq<Turn>): seq<Frame> {
    if xs == [] then []
    else
      var x := xs[|xs| - 1];
      FramesOf(xs[..|xs| - 1]) + (if x.Start? || x.Other? then [x.f] else [])
  }

  lemma TurnsSnoc(t: State, xs: seq<Turn>, x: Turn)
    requires CanTurns(t, xs) && CanTurn(Turns(t, xs), x)
    ensures CanTurns(t, xs + [x]) && Turns(t, xs + [x]) == Turned(Turns(t, xs), x)
  {
    var u := Turns(t, xs);
    assert [x][1..] == [] && CanTurns(Turned(u, x), []);
    TurnsConcat(t, xs, [x]);
  }

  /** What is done and what is still to come make up all that is heard. */
  predicate Progress(done: seq<Frame>, open: bool, inputs: seq<Input>, i: nat) {
    i <= |inputs| && done + (if open then Heard(inputs[i..]) else []) == Heard(inputs)
  }

  lemma ProgressStart(inputs: seq<Input>)
    ensures Progress([], true, inputs, 0)
  {
    assert inputs[0..] == inputs;
  }

  lemma ProgressNext(done: seq<Frame>, inputs: seq<Input>, i: nat)
    requires i < |inputs| && Progress(done, true, inputs, i)
    ensures Progress(done + Carried(inputs[i]), !Stops(inputs[i]), inputs, i + 1)
  {
    assert inputs[i..][1..] == inputs[i + 1..];
    if Stops(inputs[i]) {
      assert Carried(inputs[i]) == [] && done + [] == done;
    } else {
      assert done + (Carried(inputs[i]) + Heard(inputs[i + 1..])) == done + Carried(inputs[i]) + Heard(inputs[i + 1..]);
    }
  }

  lemma ProgressEnd(done: seq<Frame>, open: bool, inputs: seq<Input>, i: nat)
    requires Progress(done, open, inputs, i) && (open ==> i == |inputs|)
    ensures done == Heard(inputs)
  {
    assert done + [] == done;
  }

  lemma TornDownShape(t: State)
    ensures TornDown(t).streams == map[] && !TornDown(t).serving
  {}

  lemma StartShape(t: State, f: Frame, gen: nat)
    requires CanTurn(t, Start(f, gen))
    ensures f.id !in t.streams && Ptr(f.id, gen) !in t.entries
    ensures var p := Ptr(f.id, gen);
      Turned(t, Start(f, gen))
      == State(t.streams[f.id := p], t.entries[p := Entry(false, [f.env], Running)], t.serving)
  {}

  /** Any other frame: dropped, or it resets the ID's stream, or it is fed to it. */
  lemma OtherDoes(t: State, f: Frame)
    requires CanTurn(t, Other(f))
    ensures f.id !in t.streams ==> f.env.flag != FLAG_HEADERS && Turned(t, Other(f)) == t
    ensures f.id in t.streams ==>
      var p, resets := t.streams[f.id], f.env.flag == FLAG_RESET;
      && p in t.entries
      && var o := t.entries[p];
         Turned(t, Other(f))
         == State(if resets then t.streams - {f.id} else t.streams,
                  t.entries[p := if resets then Entry(true, o.queue, o.life) else Entry(o.reset, o.queue + [f.env], o.life)],
                  t.serving)
  {}

  /** A close callback and a settled promise each remove the stream's ID, whoever holds it. */
  lemma RemovalDoes(t: State, p: Ptr)
    requires p in t.entries && t.entries[p].life != Settled
    ensures var o := t.entries[p];
      var x := if o.life == Running then Release(p) else Finish(p);
      && CanTurn(t, x)
      && Turned(t, x)
         == State(t.streams - {p.id},
                  t.entries[p := Entry(o.reset, o.queue, if o.life == Running then Released else Settled)], t.serving)
  {}

  /** The end of the loop marks exactly the streams still held reset, and holds none. */
  lemma EndDoes(t: State)
    requires t.serving
    ensures var d := Turned(t, End);
      && d.streams == map[] && !d.serving && d.entries.Keys == t.entries.Keys
      && forall p :: p in t.entries ==>
           var held := exists id :: id in t.streams && t.streams[id] == p;
           d.entries[p] == Entry(t.entries[p].reset || held, t.entries[p].queue, t.entries[p].life)
  {
    forall p | p in t.entries ensures p in t.streams.Values <==> exists id :: id in t.streams && t.streams[id] == p {}
  }

  lemma EndTurn(t: State)
    requires t.serving
    ensures CanTurn(t, End) && Turned(t, End) == TornDown(t)
  {}

  /** The loop takes the same messages for the same frames as the Go server does. */
  lemma MessagesReadAlike(data: Bytes)
    ensures FrameIn(data) == StreamFrames.ReadFrame(data)
  {
    StreamFrames.LanguagesReadAlike(data);
  }

  lemma FramesSnoc(xs: seq<Turn>, x: Turn)
    ensures FramesOf(xs + [x]) == FramesOf(xs) + (if x.Start? || x.Other? then [x.f] else [])
  {
    assert (xs + [x])[..|xs|] == xs;
  }

  class MuxedServer {
    var streams: map<StreamId, StreamEntry>
    var started: map<Ptr, StreamEntry>   // every stream whose promise exists
    var serving: bool
    var out: seq<Frame>
    var broken: bool                     // writes to the connection fail from now on

    ghost predicate Valid()
      reads this, started.Values
    {
      && (forall p :: p in started ==> started[p].key == p)
      && (forall id :: id in streams ==>
            streams[id].key.id == id && streams[id].key in started && started[streams[id].key] == streams[id])
    }

    /** No promise is ever forgotten or replaced. */
    twostate predicate KeptOrNew()
      reads this
    {
      forall p :: p in started ==> if p in old(started) then started[p] == old(started)[p] else fresh(started[p])
    }

    /** Who holds which ID. */
    function Holders(): map<StreamId, Ptr>
      reads this`streams
    {
      map id | id in streams :: streams[id].key
    }

    function Entries(): map<Ptr, Entry>
      reads this`started, started.Values
    {
      map p | p in started :: started[p].View()
    }

    function View(): State
      reads this, started.Values
    {
      State(Holders(), Entries(), serving)
    }

    constructor ()
      ensures Valid() && View() == Fresh() && out == [] && started == map[]
    {
      streams, started, serving, out, broken := map[], map[], true, [], false;
    }

    method StartStream(f: Frame, key: Ptr)
      requires Valid() && serving && key.id == f.id && CanTurn(View(), Start(f, key.gen))
      modifies this
      ensures Valid() && View() == Turned(old(View()), Start(f, key.gen)) && out == old(out) && serving
      ensures started.Keys == old(started).Keys + {key} && KeptOrNew()
    {
      ghost var holders, entries := Holders(), Entries();
      StartShape(View(), f, key.gen);
      hide Turned, CanTurn;
      AddEntry(f, key);
      assert View() == State(holders[f.id := key], entries[key := Entry(false, [f.env], Running)], serving);
    }

    method AddEntry(f: Frame, key: Ptr)
      requires Valid() && key.id == f.id && key !in started && f.id !in streams
      modifies this`started, this`streams
      ensures Valid() && Holders() == old(Holders())[f.id := key]
      ensures Entries() == old(Entries())[key := Entry(false, [f.env], Running)]
      ensures started.Keys == old(started).Keys + {key} && KeptOrNew()
    {
      var entry := new StreamEntry(key, f.env);
      started := started[key := entry];
      streams := streams[f.id := entry];
    }

    /** The close callback of a stream: whatever holds its ID leaves the map. */
    method Close(p: Ptr)
      requires Valid() && CanTurn(View(), Release(p))
      modifies this, started.Values
      ensures Valid() && View() == Turned(old(View()), Release(p)) && out == old(out)
      ensures started == old(started) && serving == old(serving)
    {
      ghost var holders, entries := Holders(), Entries();
      started[p].life := Released;
      streams := streams - {p.id};
      assert Holders() == holders - {p.id};
      assert Entries() == entries[p := entries[p].(life := Released)];
    }

    /** A stream's promise settles: whatever holds its ID by now leaves the map too. */
    method Settle(p: Ptr)
      requires Valid() && CanTurn(View(), Finish(p))
      modifies this, started.Values
      ensures Valid() && View() == Turned(old(View()), Finish(p)) && out == old(out)
      ensures started == old(started) && serving == old(serving)
    {
      ghost var holders, entries := Holders(), Entries();
      started[p].life := Settled;
      streams := streams - {p.id};
      assert Holders() == holders - {p.id};
      assert Entries() == entries[p := entries[p].(life := Settled)];
    }

    method CancelStream(entry: StreamEntry, id: StreamId)
      requires Valid() && id in streams && streams[id] == entry
      modifies this`streams, entry
      ensures Valid() && streams == old(streams) - {id}
      ensures entry.View() == old(entry.View()).(reset := true)
    {
      streams := streams - {id};
      entry.reset := true;
    }

    /** One frame: start, cancel, feed or drop. */
    method OnFrame(f: Frame, key: Ptr)
      requires Valid() && serving && key.id == f.id && key !in started
      modifies this, started.Values
      ensures Valid() && serving && out == old(out)
      ensures var t := old(View());
        View() == Turned(t, if Decide(t.streams, f) == Decision.StartStream then Start(f, key.gen) else Other(f))
      ensures old(started).Keys <= started.Keys <= old(started).Keys + {key}
      ensures KeptOrNew()
    {
      if f.id !in streams {
        if f.env.flag == FLAG_HEADERS {
          StartStream(f, key);
        }
        return;
      }
      var entry := streams[f.id];
      if f.env.flag == FLAG_RESET {
        CancelStream(entry, f.id);
        return;
      }
      entry.queue := entry.queue + [f.env];
    }

    lemma LiveHold()
      requires Valid()
      ensures streams.Values <= started.Values
      ensures forall p :: p in started ==> (started[p] in streams.Values <==> p in Holders().Values)
    {
      forall p | p in started ensures started[p] in streams.Values <==> p in Holders().Values {
        if started[p] in streams.Values {
          var id :| id in streams && streams[id] == started[p];
          assert Holders()[id] == p;
        }
        if p in Holders().Values {
          var id :| id in streams && streams[id].key == p;
          assert streams[id] == started[p];
        }
      }
    }

    method ResetAll(live: set<StreamEntry>)
      modifies live`reset
      ensures forall n :: n in live ==> n.reset
    {
      var todo := live;
      while todo != {}
        invariant todo <= live
        invariant forall n :: n in live && n !in todo ==> n.reset
        decreases |todo|
      {
        var n :| n in todo;
        n.reset := true;
        todo := todo - {n};
      }
    }

    /** Marks every live stream reset and forgets it. */
    method Teardown()
      requires Valid() && serving
      modifies this, started.Values
      ensures Valid() && View() == TornDown(old(View())) && started == old(started) && out == old(out)
    {
      ResetStreams();
      hide TornDown;
      assert TornDown(old(View())) == State(map[], TornDown(old(View())).entries, false) by {
        TornDownShape(old(View()));
      }
      streams, serving := map[], false;
      assert Holders() == map[];
    }

    method ResetStreams()
      requires Valid()
      modifies started.Values
      ensures Valid() && Entries() == TornDown(old(View())).entries
    {
      LiveHold();
      ghost var holders, before := Holders(), Entries();
      ResetAll(streams.Values);
      forall p | p in started
        ensures started[p].View() == if p in holders.Values then before[p].(reset := true) else before[p]
      {
        assert before[p] == old(started[p].View());
      }
    }

    /** A handler's write: refused once its stream was reset, otherwise one frame with its ID if
        the connection still takes it. */
    method Write(entry: StreamEntry, env: Envelope) returns (ok: bool)
      modifies this`out
      ensures ok == (!entry.reset && !broken)
      ensures out == old(out) + (if ok then [Frame(entry.key.id, env)] else [])
    {
      if entry.reset || broken {
        return false;
      }
      out := out + [Frame(entry.key.id, env)];
      return true;
    }

    /** The objects stand where a list of turns leads. */
    ghost predicate At(xs: seq<Turn>)
      reads this, started.Values
    {
      Valid() && CanTurns(Fresh(), xs) && View() == Turns(Fresh(), xs)
    }

    /** One trip around the loop, with a number no earlier stream of the loop has used. */
    method Next(input: Input, gen: nat, ghost xs: seq<Turn>) returns (open: bool, ghost ys: seq<Turn>)
      requires At(xs) && serving && forall p :: p in started ==> p.gen < gen
      modifies this, started.Values
      ensures At(ys) && serving && forall p :: p in started ==> p.gen < gen + 1
      ensures KeptOrNew()
      ensures open == !Stops(input) && FramesOf(ys) == FramesOf(xs) + Carried(input)
      ensures input.Over? ==>
        ys == xs + (if input.p in old(started) && old(started[input.p].life) == Running then [Release(input.p)] else [])
      ensures input.Settles? ==>
        ys == xs + (if input.p in old(started) && old(started[input.p].life) == Released then [Finish(input.p)] else [])
    {
      ys, open := xs, !Stops(input);
      match input
      case Closed =>
      case Over(p) =>
        if p in started && started[p].life == Running {
          ys := xs + [Release(p)];
          TurnsSnoc(Fresh(), xs, Release(p));
          FramesSnoc(xs, Release(p));
          hide Turned, CanTurn;
          Close(p);
        }
      case Settles(p) =>
        if p in started && started[p].life == Released {
          ys := xs + [Finish(p)];
          TurnsSnoc(Fresh(), xs, Finish(p));
          FramesSnoc(xs, Finish(p));
          hide Turned, CanTurn;
          Settle(p);
        }
      case Message(data) =>
        var f := FrameIn(data);
        if f.Some? {
          ghost var x := TurnOn(f.value, gen);
          ys := xs + [x];
          TurnsSnoc(Fresh(), xs, x);
          FramesSnoc(xs, x);
          hide Turned, CanTurn;
          OnFrame(f.value, Ptr(f.value.id, gen));
        }
    }

    /** The whole connection: the objects go through exactly the turns of some run, over the
        frames heard before the end, and no stream is left live. */
    method Serve(inputs: seq<Input>) returns (ghost xs: seq<Turn>)
      requires Valid() && View() == Fresh() && started == map[]
      modifies this
      ensures At(xs) && FramesOf(xs) == Heard(inputs) && streams == map[] && !serving
    {
      xs := [];
      var i, open := 0, true;
      assert At(xs) && FramesOf(xs) == [];
      ProgressStart(inputs);
      hide *;
      while i < |inputs| && open
        invariant i <= |inputs| && At(xs) && serving && forall p :: p in started ==> fresh(started[p])
        invariant forall p :: p in started ==> p.gen < i
        invariant Progress(FramesOf(xs), open, inputs, i)
        decreases |inputs| - i
      {
        ProgressNext(FramesOf(xs), inputs, i);
        open, xs := Next(inputs[i], i, xs);
        i := i + 1;
      }
      ProgressEnd(FramesOf(xs), open, inputs, i);
      xs := Finale(xs);
    }

    method Finale(ghost xs: seq<Turn>) returns (ghost ys: seq<Turn>)
      requires At(xs) && serving
      modifies this, started.Values
      ensures At(ys) && FramesOf(ys) == FramesOf(xs) && streams == map[] && !serving
    {
      EndTurn(View());
      TurnsSnoc(Fresh(), xs, End);
      FramesSnoc(xs, End);
      ys := xs + [End];
      hide Turned, CanTurn;
      Teardown();
    }

    /** The turn a frame makes. */
    ghost function TurnOn(f: Frame, gen: nat): (x: Turn)
      requires Valid() && serving && Ptr(f.id, gen) !in started
      reads this, started.Values
      ensures CanTurn(View(), x) && (x.Start? || x.Other?) && x.f == f
    {
      if Decide(Holders(), f) == Decision.StartStream then Start(f, gen) else Other(f)
    }
  }
}
