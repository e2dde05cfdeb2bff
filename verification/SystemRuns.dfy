/** The layers joined: runs of a client and a server over one connection, in which the client
    picks its IDs as newStream does and every stream writes its headers once. */
module SystemRuns {
  import opened Wire
  import opened MuxTable
  import opened MuxMachine
  import opened MuxSafety
  import opened MuxHistory
  import opened MuxIds
  import opened EndToEnd
  import StreamIds

  /** What the client's side of a run is to the client alone. */
  function AtTheClient(s: System, x: Step): seq<Event>
    requires CanStep(s, x)
  {
    match x
    case AtClient(e) => [e]
    case ToClient => [Arrive(s.server.out[|s.client.inc|])]
    case _ => []
  }

  function ClientEvents(s: System, xs: seq<Step>): seq<Event>
    requires CanRun(s, xs)
    decreases |xs|
  {
    if xs == [] then [] else AtTheClient(s, xs[0]) + ClientEvents(Next(s, xs[0]), xs[1..])
  }

  lemma ClientStep(s: System, x: Step)
    requires CanStep(s, x)
    ensures Valid(s.client, AtTheClient(s, x)) && Run(s.client, AtTheClient(s, x)) == Next(s, x).client
  {
    var es := AtTheClient(s, x);
    if es != [] {
      assert es[1..] == [];
      assert Valid(Apply(s.client, es[0]), []) && Run(Apply(s.client, es[0]), []) == Apply(s.client, es[0]);
      hide Apply, Enabled;
    }
  }

  lemma {:induction false} ClientRun(s: System, xs: seq<Step>)
    requires CanRun(s, xs)
    ensures Valid(s.client, ClientEvents(s, xs)) && Run(s.client, ClientEvents(s, xs)) == After(s, xs).client
    decreases |xs|
  {
    if xs != [] {
      ClientStep(s, xs[0]);
      var t := Next(s, xs[0]);
      hide CanStep, Next, AtTheClient, Apply, Enabled;
      ClientRun(t, xs[1..]);
      RunConcat(s.client, AtTheClient(s, xs[0]), ClientEvents(t, xs[1..]));
    }
  }

  /** A run before the wrap, with the client's IDs from newStream and one headers envelope per
      stream at most. */
  ghost predicate Disciplined(xs: seq<Step>) {
    && CanRun(Start(), xs)
    && (ClientRun(Start(), xs);
        var es := ClientEvents(Start(), xs);
        ByWalk(Init(Client), es, 0) && Opens(es) <= StreamIds.WALK)
    && (forall q :: q in After(Start(), xs).client.objs ==> OneHeaders(After(Start(), xs).client.objs[q].put))
  }

  /** The premises of the end-to-end results hold in every such run. */
  lemma DisciplineSuffices(xs: seq<Step>)
    requires Disciplined(xs)
    ensures var s := After(Start(), xs);
      Reached(s) && Unique(s.client) && HeadersOnce(s.client.out) && Unique(s.server)
  {
    var s := After(Start(), xs);
    ClientRun(Start(), xs);
    FirstOpensAreDistinct(ClientEvents(Start(), xs));
    hide ByWalk, Opens, Valid, Run, ClientEvents, After, CanRun;
    assert Reached(s);
    OneHeadersPerStream(s);
    OneHandlerPerId(s);
  }

  /** An envelope list from its first headers envelope on. */
  function FromHeaders(es: seq<Envelope>): seq<Envelope> {
    if es == [] || es[0].flag == FLAG_HEADERS then es else FromHeaders(es[1..])
  }

  lemma {:induction false} FromOneHeaders(es: seq<Envelope>, k: nat)
    requires k < |es| && es[k].flag == FLAG_HEADERS && OneHeaders(es)
    ensures FromHeaders(es) == es[k..]
    decreases k
  {
    if k > 0 {
      assert es[0].flag != FLAG_HEADERS && es[1..][k - 1] == es[k];
      assert forall i :: 0 <= i < |es[1..]| ==> es[1..][i] == es[i + 1];
      assert OneHeaders(es[1..]) by {
        forall a, b | 0 <= a < |es[1..]| && 0 <= b < |es[1..]|
          && es[1..][a].flag == FLAG_HEADERS && es[1..][b].flag == FLAG_HEADERS ensures a == b
        {
          assert es[a + 1].flag == FLAG_HEADERS && es[b + 1].flag == FLAG_HEADERS;
        }
      }
      FromOneHeaders(es[1..], k - 1);
    }
  }

  /** Requests, over every disciplined run: what the server's stream reads is a prefix of what
      the client's one stream of that ID wrote from its headers on. */
  lemma EveryRequestIsFifo(xs: seq<Step>, p: Ptr, q: Ptr)
    requires Disciplined(xs)
    requires var s := After(Start(), xs); p in s.server.objs && q in s.client.objs && p.id == q.id
    ensures var s := After(Start(), xs); s.server.objs[p].got <= FromHeaders(s.client.objs[q].put)
  {
    DisciplineSuffices(xs);
    var s := After(Start(), xs);
    assert OneHeaders(s.client.objs[q].put);
    hide Disciplined, After, OneHeaders;
    var q', k := RequestsAreFifo(s, p);
    assert q' == q;
    FromOneHeaders(s.client.objs[q].put, k);
  }

  /** Every stream the server started has its client stream. */
  lemma EveryRequestHasItsStream(xs: seq<Step>, p: Ptr) returns (q: Ptr)
    requires Disciplined(xs) && p in After(Start(), xs).server.objs
    ensures q in After(Start(), xs).client.objs && q.id == p.id
  {
    DisciplineSuffices(xs);
    hide Disciplined, After;
    var k;
    q, k := RequestsAreFifo(After(Start(), xs), p);
  }

  /** Responses, over every disciplined run: what a client stream reads is a prefix of what the
      server's one stream of that ID wrote, and nothing while there is none. */
  lemma EveryResponseIsFifo(xs: seq<Step>, q: Ptr)
    requires Disciplined(xs) && q in After(Start(), xs).client.objs
    ensures var s := After(Start(), xs);
      forall p :: p in s.server.objs && p.id == q.id ==> s.client.objs[q].got <= s.server.objs[p].put
    ensures var s := After(Start(), xs); !Known(s.server, q.id) ==> s.client.objs[q].got == []
  {
    DisciplineSuffices(xs);
    var s := After(Start(), xs);
    hide Disciplined, After;
    ResponsesAreFifo(s, q);
    forall p | p in s.server.objs && p.id == q.id ensures s.client.objs[q].got <= s.server.objs[p].put {
      assert Known(s.server, q.id);
    }
  }
}
