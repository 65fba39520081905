/** Queues of request positions, and what changing one request does to them. */
module Queues {
  import opened Clocks
  import opened Lifecycle
  import opened Requests
  import opened Backend
  import opened Scheduling
  import opened SchedulingTheorems
  import opened Reporting

  /** `q` holds, in submission order, exactly the positions of the requests in state `s`. */
  ghost predicate QueueOf(q: seq<nat>, rs: seq<RequestData>, s: State) {
    && Increasing(q)
    && (forall i | 0 <= i < |q| :: q[i] < |rs| && rs[q[i]].Is(s))
    && (forall k | 0 <= k < |rs| && rs[k].Is(s) :: k in q)
  }

  /** The last request, if in the queue's state, is at the end of the queue. */
  lemma QueueEnd(q: seq<nat>, rs: seq<RequestData>, s: State)
    requires QueueOf(q, rs, s) && rs != [] && rs[|rs| - 1].Is(s)
    ensures q != [] && q[|q| - 1] == |rs| - 1
  {
    assert |rs| - 1 in q;
    var i :| 0 <= i < |q| && q[i] == |rs| - 1;
    assert q[i] <= q[|q| - 1];
  }

  lemma QueueFront(q: seq<nat>, rs: seq<RequestData>, s: State)
    requires QueueOf(q, rs, s) && q != [] && rs != [] && q[|q| - 1] == |rs| - 1
    ensures QueueOf(q[..|q| - 1], rs[..|rs| - 1], s)
  {
    var p, front := q[..|q| - 1], rs[..|rs| - 1];
    forall i | 0 <= i < |p|
      ensures p[i] < |front| && front[p[i]].Is(s)
    {
      assert p[i] == q[i] && q[i] < q[|q| - 1];
    }
    forall k | 0 <= k < |front| && front[k].Is(s)
      ensures k in p
    {
      assert rs[k] == front[k] && k in q;
      var j :| 0 <= j < |q| && q[j] == k;
      assert p[j] == k;
    }
  }

  /** Such a queue is the filtered list of positions and nothing else. */
  lemma {:induction false} QueueIsPositions(q: seq<nat>, rs: seq<RequestData>, s: State)
    requires QueueOf(q, rs, s)
    ensures q == Positions(rs, s)
    decreases |rs|
  {
    if rs == [] {
      assert q == [];
    } else {
      var n := |rs| - 1;
      if rs[n].Is(s) {
        QueueEnd(q, rs, s);
        QueueFront(q, rs, s);
        QueueIsPositions(q[..|q| - 1], rs[..n], s);
        assert q == q[..|q| - 1] + [n];
      } else {
        QueueIsPositions(q, rs[..n], s);
      }
    }
  }

  lemma NoneQueued(q: seq<nat>, rs: seq<RequestData>, s: State)
    requires QueueOf(q, rs, s) && forall i | 0 <= i < |rs| :: !rs[i].Is(s)
    ensures q == []
  {
    QueueIsPositions(q, rs, s);
    NoneInState(rs, s);
  }

  /** The first place of k in q at or after `from`, or |q|. */
  function IndexOf(q: seq<nat>, k: nat, from: nat): (i: nat)
    requires from <= |q|
    ensures from <= i <= |q| && (i < |q| ==> q[i] == k) && forall j | from <= j < i :: q[j] != k
    decreases |q| - from
  {
    if from == |q| || q[from] == k then from else IndexOf(q, k, from + 1)
  }

  function RemoveAt(q: seq<nat>, i: nat): (p: seq<nat>)
    requires i <= |q|
    ensures |p| == if i < |q| then |q| - 1 else |q|
    ensures forall j | 0 <= j < |p| :: p[j] == if j < i then q[j] else q[j + 1]
  {
    if i < |q| then q[..i] + q[i + 1..] else q
  }

  function RemoveFirst(q: seq<nat>, k: nat): seq<nat> {
    RemoveAt(q, IndexOf(q, k, 0))
  }

  method EraseFirst(q: seq<nat>, k: nat) returns (p: seq<nat>)
    ensures p == RemoveFirst(q, k)
  {
    var i := 0;
    while i < |q|
      invariant 0 <= i <= |q| && IndexOf(q, k, 0) == IndexOf(q, k, i)
    {
      if q[i] == k {
        return q[..i] + q[i + 1..];
      }
      i := i + 1;
    }
    p := q;
  }

  lemma RemoveFirstIncreasing(q: seq<nat>, k: nat)
    requires Increasing(q)
    ensures Increasing(RemoveFirst(q, k))
  {
  }

  lemma RemoveAtMembers(q: seq<nat>, i: nat, x: nat)
    requires Increasing(q) && i < |q|
    ensures x in RemoveAt(q, i) <==> x in q && x != q[i]
  {
    var p := RemoveAt(q, i);
    if x in p {
      var j :| 0 <= j < |p| && p[j] == x;
      assert q[if j < i then j else j + 1] == x;
    }
    if x in q && x != q[i] {
      var j :| 0 <= j < |q| && q[j] == x;
      assert p[if j < i then j else j - 1] == x;
    }
  }

  lemma RemoveFirstMembers(q: seq<nat>, k: nat, x: nat)
    requires Increasing(q)
    ensures x in RemoveFirst(q, k) <==> x in q && x != k
  {
    var i := IndexOf(q, k, 0);
    if i < |q| {
      RemoveAtMembers(q, i, x);
    }
  }

  lemma LeaveQueue(q: seq<nat>, rs: seq<RequestData>, s: State, k: nat, r: RequestData)
    requires QueueOf(q, rs, s) && k < |rs| && !r.Is(s)
    ensures QueueOf(RemoveFirst(q, k), rs[k := r], s)
  {
    RemoveFirstIncreasing(q, k);
    var p := RemoveFirst(q, k);
    forall i | 0 <= i < |p|
      ensures p[i] < |rs| && rs[k := r][p[i]].Is(s)
    {
      assert p[i] in p;
      RemoveFirstMembers(q, k, p[i]);
    }
    forall x | 0 <= x < |rs| && rs[k := r][x].Is(s)
      ensures x in p
    {
      RemoveFirstMembers(q, k, x);
    }
  }

  lemma JoinQueue(q: seq<nat>, rs: seq<RequestData>, s: State, k: nat, r: RequestData)
    requires QueueOf(q, rs, s) && k < |rs| && r.Is(s) && forall i | 0 <= i < |q| :: q[i] < k
    ensures QueueOf(q + [k], rs[k := r], s)
  {
  }

  lemma KeepQueue(q: seq<nat>, rs: seq<RequestData>, s: State, k: nat, r: RequestData)
    requires QueueOf(q, rs, s) && k < |rs| && r.Is(s) == rs[k].Is(s)
    ensures QueueOf(q, rs[k := r], s)
  {
  }

  lemma GrowQueue(q: seq<nat>, rs: seq<RequestData>, s: State, r: RequestData)
    requires QueueOf(q, rs, s)
    ensures QueueOf(if r.Is(s) then q + [|rs|] else q, rs + [r], s)
  {
    var p, ss := if r.Is(s) then q + [|rs|] else q, rs + [r];
    forall i | 0 <= i < |p|
      ensures p[i] < |ss| && ss[p[i]].Is(s)
    {
      if i < |q| {
        assert p[i] == q[i] && ss[q[i]] == rs[q[i]];
      }
    }
    forall k | 0 <= k < |ss| && ss[k].Is(s)
      ensures k in p
    {
      if k < |rs| {
        assert rs[k] == ss[k] && k in q;
      } else {
        assert p[|q|] == k;
      }
    }
  }

  // ----- changing one request -----

  lemma DecodingIdsAfter(rs: seq<RequestData>, k: nat, r: RequestData)
    requires DistinctLiveIds(rs) && k < |rs| && r.id == rs[k].id && rs[k].Live()
    ensures DecodingIds(rs[k := r]) == if r.Is(Decoding) then DecodingIds(rs) + {r.id} else DecodingIds(rs) - {r.id}
  {
    var ss := rs[k := r];
    forall a
      ensures a in DecodingIds(ss) <==> if a == r.id then r.Is(Decoding) else a in DecodingIds(rs)
    {
      if a in DecodingIds(rs) && a != r.id {
        var i :| 0 <= i < |rs| && rs[i].Is(Decoding) && rs[i].id == a;
        assert ss[i].Is(Decoding);
      }
      if a in DecodingIds(ss) {
        var i :| 0 <= i < |ss| && ss[i].Is(Decoding) && ss[i].id == a;
        assert i != k ==> rs[i].Is(Decoding);
      }
      if a == r.id && r.Is(Decoding) {
        assert ss[k].id == a;
      }
    }
  }

  /** Nothing before position k is waiting. */
  ghost predicate FirstWaiting(rs: seq<RequestData>, k: nat) {
    forall i | 0 <= i < |rs| && i < k :: !rs[i].Is(WaitingPrefill)
  }

  lemma OrderAfter(rs: seq<RequestData>, k: nat, r: RequestData)
    requires Ordered(rs) && DistinctLiveIds(rs) && k < |rs| && r.id == rs[k].id && rs[k].Live()
    requires r.Is(WaitingPrefill) ==> rs[k].Is(WaitingPrefill)
    requires r.Terminal() || (r.Is(Decoding) && (rs[k].Is(Decoding) || FirstWaiting(rs, k)))
    ensures Ordered(rs[k := r]) && DistinctLiveIds(rs[k := r])
  {
  }

  lemma AllOkAfter(rs: seq<RequestData>, now: TimePoint, k: nat, r: RequestData)
    requires AllOk(rs, now) && AllPlaced(rs) && k < |rs| && RequestOk(r, now)
    ensures AllOk(rs[k := r], now) && AllPlaced(rs[k := r])
  {
    var ss := rs[k := r];
    forall i | 0 <= i < |rs|
      ensures RequestOk(ss[i], now)
    {
      assert i != k ==> RequestOk(rs[i], now);
    }
  }

  /** Taking a live request to a terminal state and dropping its handle. */
  lemma RetireKeepsInv(c: Core, k: nat, r: RequestData)
    requires Inv(c) && k < |c.requests| && c.requests[k].Live()
    requires RequestOk(r, c.now) && r.id == c.requests[k].id && r.Terminal()
    ensures Inv(c.(requests := c.requests[k := r], handles := c.handles - {r.id}))
  {
    AllOkAfter(c.requests, c.now, k, r);
    OrderAfter(c.requests, k, r);
    DecodingIdsAfter(c.requests, k, r);
  }

  lemma WaitingIsNotDecoding(rs: seq<RequestData>, k: nat)
    requires DistinctLiveIds(rs) && k < |rs| && rs[k].Is(WaitingPrefill)
    ensures rs[k].id !in DecodingIds(rs)
  {
  }

  lemma InjectiveExtend(m: map<RequestId, Handle>, id: RequestId, h: Handle)
    requires Injective(m) && id !in m && h !in m.Values
    ensures Injective(m[id := h])
  {
    forall a | a in m
      ensures m[a] != h
    {
      assert m[a] in m.Values;
    }
  }

  /** Promoting the oldest waiting request with a handle nobody holds. */
  lemma PromoteKeepsInv(c: Core, k: nat, r: RequestData, h: Handle)
    requires Inv(c) && k < |c.requests| && c.requests[k].Is(WaitingPrefill) && FirstWaiting(c.requests, k)
    requires RequestOk(r, c.now) && r.id == c.requests[k].id && r.Is(Decoding) && h !in c.handles.Values
    ensures r.id !in c.handles
    ensures Inv(c.(requests := c.requests[k := r], handles := c.handles[r.id := h]))
  {
    AllOkAfter(c.requests, c.now, k, r);
    OrderAfter(c.requests, k, r);
    DecodingIdsAfter(c.requests, k, r);
    WaitingIsNotDecoding(c.requests, k);
    InjectiveExtend(c.handles, r.id, h);
  }

  /** A token for a decoding request. */
  lemma EmitKeepsInv(c: Core, k: nat, r: RequestData)
    requires Inv(c) && k < |c.requests| && c.requests[k].Is(Decoding)
    requires RequestOk(r, c.now) && r.id == c.requests[k].id && r.Is(Decoding)
    ensures Inv(c.(requests := c.requests[k := r]))
  {
    AllOkAfter(c.requests, c.now, k, r);
    OrderAfter(c.requests, k, r);
    DecodingIdsAfter(c.requests, k, r);
    assert r.id in DecodingIds(c.requests);
  }

  lemma ClockKeepsInv(c: Core, later: TimePoint)
    requires Inv(c) && c.now <= later
    ensures Inv(c.(now := later))
  {
    TimePasses(c.requests, c.now, later);
  }

  /** A queue has as many members as there are requests in its state. */
  lemma {:induction false} QueueLength(rs: seq<RequestData>, s: State)
    ensures |Positions(rs, s)| == Tally(InState(s), rs)
  {
    if rs != [] {
      QueueLength(rs[..|rs| - 1], s);
    }
  }
}
