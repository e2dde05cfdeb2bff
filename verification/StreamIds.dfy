/** How `newStream` picks the next stream ID: a wrapping walk over the non-zero 32-bit IDs. */
module StreamIds {
  import opened Wire

  /** The number of usable IDs, and of steps the walk takes before it gives up. */
  const WALK := ID_LIMIT - 1

  /** `nextID++` in 32 bits, skipping zero. */
  function Succ(n: StreamId): StreamId {
    if n + 1 == ID_LIMIT then 1 else n + 1
  }

  /** The ID the walk tries at its k-th step. */
  function Nth(n: StreamId, k: nat): StreamId
    requires k >= 1
  {
    (n + k - 1) % WALK + 1
  }

  lemma NthSucc(n: StreamId, k: nat)
    requires k >= 1
    ensures Nth(n, 1) == Succ(n) && Nth(n, k + 1) == Succ(Nth(n, k))
  {
    var x := n + k - 1;
    assert x % WALK < WALK && x == WALK * (x / WALK) + x % WALK;
    ModStep(x);
    if n < WALK {
      ModSmall(n);
    } else {
      ModStep(n - 1);
      ModSmall(n - 1);
    }
  }

  /** One turn of newStream's loop: increment, and skip zero. */
  lemma NextInWalk(n: StreamId, last: StreamId, i: nat)
    requires last == if i == 0 then n else Nth(n, i)
    ensures Nth(n, i + 1) == if last + 1 == ID_LIMIT then 1 else last + 1
  {
    NthSucc(n, if i == 0 then 1 else i);
  }

  lemma ModSmall(x: nat)
    requires x < WALK
    ensures x % WALK == x
  {}

  lemma ModStep(x: nat)
    ensures (x + 1) % WALK == if x % WALK == WALK - 1 then 0 else x % WALK + 1
  {}

  /** The step at which the walk from n tries an ID. */
  function StepOf(n: StreamId, id: StreamId): (k: nat)
    requires id != 0
    ensures 1 <= k <= WALK
  {
    if id > n then id - n else id - n + WALK
  }

  lemma WalkReaches(n: StreamId, id: StreamId)
    requires id != 0
    ensures Nth(n, StepOf(n, id)) == id
  {
    ModSmall(id - 1);
    if id <= n {
      assert n + StepOf(n, id) - 1 == WALK + (id - 1);
      ModTurn(id - 1);
    }
  }

  lemma ModTurn(x: nat)
    ensures (WALK + x) % WALK == x % WALK
  {}

  lemma SameResidue(x: nat, y: nat)
    requires x % WALK == y % WALK && x <= y < x + WALK
    ensures x == y
  {
    assert y - x == WALK * (y / WALK - x / WALK);
  }

  /** The walk visits every non-zero ID exactly once. */
  lemma WalkVisitsOnce(n: StreamId, id: StreamId)
    requires id != 0
    ensures forall k: nat :: 1 <= k <= WALK ==> (Nth(n, k) == id <==> k == StepOf(n, id))
  {
    WalkReaches(n, id);
    var j := StepOf(n, id);
    forall k: nat | 1 <= k <= WALK && Nth(n, k) == id ensures k == j {
      if k <= j {
        SameResidue(n + k - 1, n + j - 1);
      } else {
        SameResidue(n + j - 1, n + k - 1);
      }
    }
  }

  /** The first ID the walk finds free from its k-th step on. */
  function FirstFree(n: StreamId, live: set<StreamId>, k: nat): Option<StreamId>
    requires k >= 1
    decreases WALK + 1 - k
  {
    if k > WALK then None
    else if Nth(n, k) !in live then Some(Nth(n, k))
    else FirstFree(n, live, k + 1)
  }

  lemma TryNext(n: StreamId, live: set<StreamId>, k: nat)
    requires 1 <= k <= WALK
    ensures FirstFree(n, live, k) == if Nth(n, k) !in live then Some(Nth(n, k)) else FirstFree(n, live, k + 1)
  {}

  lemma WalkOver(n: StreamId, live: set<StreamId>)
    ensures FirstFree(n, live, WALK + 1) == None
  {}

  function Allocate(n: StreamId, live: set<StreamId>): Option<StreamId> {
    FirstFree(n, live, 1)
  }

  ghost predicate Taken(n: StreamId, live: set<StreamId>, k: nat)
    requires k >= 1
  {
    Nth(n, k) in live
  }

  lemma {:induction false} FirstFreeIsFirst(n: StreamId, live: set<StreamId>, k: nat)
    requires k >= 1
    ensures match FirstFree(n, live, k)
      case Some(id) => id != 0 && id !in live
      case None => forall j :: k <= j <= WALK ==> Taken(n, live, j)
    decreases WALK + 1 - k
  {
    if k <= WALK && Nth(n, k) in live {
      FirstFreeIsFirst(n, live, k + 1);
    }
  }

  lemma AllocateFails(n: StreamId, live: set<StreamId>, id: StreamId)
    requires Allocate(n, live) == None && id != 0
    ensures id in live
  {
    FirstFreeIsFirst(n, live, 1);
    assert Taken(n, live, StepOf(n, id));
    WalkReaches(n, id);
  }

  /** An allocated ID is non-zero and free; allocation fails exactly when every ID is taken. */
  lemma AllocateIsExact(n: StreamId, live: set<StreamId>)
    ensures Allocate(n, live).Some? ==> Allocate(n, live).value != 0 && Allocate(n, live).value !in live
    ensures Allocate(n, live).None? <==> forall id: StreamId :: id != 0 ==> id in live
  {
    FirstFreeIsFirst(n, live, 1);
    hide Allocate, Taken;
    var a := Allocate(n, live);
    if a.None? {
      forall id: StreamId | id != 0 ensures id in live {
        AllocateFails(n, live, id);
      }
    } else {
      assert Allocate(n, live).value !in live && a.value != 0;
    }
  }

  /** The IDs handed out by successive opens, when `lives[i]` are the live IDs at the i-th. */
  function Handed(n: StreamId, lives: seq<set<StreamId>>): seq<Option<StreamId>>
    decreases |lives|
  {
    if lives == [] then []
    else
      var a := Allocate(n, lives[0]);
      [a] + Handed(if a.Some? then a.value else n, lives[1..])
  }

  /** However streams come and go in between, the first 2^32 - 1 opens yield 1, 2, 3, ...
      without a repeat. */
  lemma {:induction false} FirstOpensCount(n: StreamId, lives: seq<set<StreamId>>)
    requires n + |lives| <= WALK
    requires forall i :: 0 <= i < |lives| ==> forall id :: id in lives[i] ==> id <= n + i
    ensures |Handed(n, lives)| == |lives|
    ensures forall i :: 0 <= i < |lives| ==> Handed(n, lives)[i] == Some(n + i + 1)
    decreases |lives|
  {
    if lives != [] {
      ModSmall(n);
      assert Nth(n, 1) == n + 1 && n + 1 !in lives[0];
      var rest := lives[1..];
      forall i | 0 <= i < |rest| ensures forall id :: id in rest[i] ==> id <= (n + 1) + i {
        assert rest[i] == lives[i + 1];
      }
      FirstOpensCount(n + 1, rest);
    }
  }

  /** The first stream of a connection has ID 1. */
  lemma FirstIsOne()
    ensures Allocate(0, {}) == Some(1)
  {
    FirstOpensCount(0, [{}]);
    assert Handed(0, [{}])[0] == Allocate(0, {});
  }
}
