/**
 * What holds of the scheduler over every run of submits, cancels and ticks, for any backend that meets
 * the contract.
 */
module SchedulingTheorems {
  import opened Clocks
  import opened Lifecycle
  import opened Requests
  import opened Backend
  import opened Scheduling

  // ----- runs -----

  datatype Op =
    | DoSubmit(request: RequestData, at: TimePoint)
    | DoCancel(id: RequestId, at: TimePoint)
    | DoTick(env: Env)

  ghost predicate Allowed(c: Core, op: Op) {
    match op
    case DoSubmit(r, t) => Submittable(c, r, t)
    case DoCancel(_, t) => c.now <= t
    case DoTick(env) => AllHaveRoom(c.requests) && EnvOk(c, env)
  }

  ghost function Next(c: Core, op: Op): Core
    requires Allowed(c, op)
  {
    match op
    case DoSubmit(r, t) => Submit(c, r, t)
    case DoCancel(id, t) => Cancel(c, id, t)
    case DoTick(env) => Tick(c, env)
  }

  lemma NextKeepsInv(c: Core, op: Op)
    requires Inv(c) && Allowed(c, op)
    ensures Inv(Next(c, op))
  {
    match op
    case DoSubmit(r, t) => SubmitKeepsInv(c, r, t);
    case DoCancel(id, t) => CancelKeepsInv(c, id, t);
    case DoTick(env) => TickKeepsInv(c, env);
  }

  ghost predicate IsRun(c: Core, ops: seq<Op>)
    decreases |ops|
  {
    ops == [] || (Allowed(c, ops[0]) && IsRun(Next(c, ops[0]), ops[1..]))
  }

  ghost function Run(c: Core, ops: seq<Op>): Core
    requires IsRun(c, ops)
    decreases |ops|
  {
    if ops == [] then c else Run(Next(c, ops[0]), ops[1..])
  }

  lemma {:induction false} RunKeepsInv(c: Core, ops: seq<Op>)
    requires Inv(c) && IsRun(c, ops)
    ensures Inv(Run(c, ops))
    decreases |ops|
  {
    if ops != [] {
      NextKeepsInv(c, ops[0]);
      RunKeepsInv(Next(c, ops[0]), ops[1..]);
    }
  }

  // ----- queue order -----

  /** The positions of the requests in state `s`, in submission order. */
  function Positions(rs: seq<RequestData>, s: State): seq<nat> {
    if rs == [] then []
    else Positions(rs[..|rs| - 1], s) + (if rs[|rs| - 1].Is(s) then [|rs| - 1] else [])
  }

  function LivePositions(rs: seq<RequestData>): seq<nat> {
    if rs == [] then []
    else LivePositions(rs[..|rs| - 1]) + (if rs[|rs| - 1].Live() then [|rs| - 1] else [])
  }

  ghost predicate Schedulable(rs: seq<RequestData>) {
    forall i | 0 <= i < |rs| && rs[i].Live() :: rs[i].Is(WaitingPrefill) || rs[i].Is(Decoding)
  }

  lemma {:induction false} NoneInState(rs: seq<RequestData>, s: State)
    requires forall i | 0 <= i < |rs| :: !rs[i].Is(s)
    ensures Positions(rs, s) == []
  {
    if rs != [] {
      NoneInState(rs[..|rs| - 1], s);
    }
  }

  /** Decoding requests followed by waiting ones are exactly the live requests, in submission order. */
  lemma {:induction false} QueuesAreLiveInOrder(rs: seq<RequestData>)
    requires Ordered(rs) && Schedulable(rs)
    ensures Positions(rs, Decoding) + Positions(rs, WaitingPrefill) == LivePositions(rs)
  {
    if rs != [] {
      var n := |rs| - 1;
      QueuesAreLiveInOrder(rs[..n]);
      if rs[n].Is(Decoding) {
        NoneInState(rs[..n], WaitingPrefill);
      }
    }
  }

  lemma RunQueuesAreLiveInOrder(c: Core, ops: seq<Op>)
    requires Inv(c) && IsRun(c, ops)
    ensures var rs := Run(c, ops).requests;
            Positions(rs, Decoding) + Positions(rs, WaitingPrefill) == LivePositions(rs)
  {
    RunKeepsInv(c, ops);
    QueuesAreLiveInOrder(Run(c, ops).requests);
  }

  // ----- what a tick does to a request -----

  /**
   * A tick told from outside, by deadline and outcomes alone.  Terminal requests stay as they are; overdue
   * ones fail when the tick begins; a waiting one fails when its prefill did, or starts decoding when it
   * returned; a decoded one fails, or gets exactly the token it was given, and completes when the backend
   * says the sequence is finished or the budget is used up, and only then.
   */
  lemma TickTable(r: RequestData, env: Env)
    requires Placed(r)
    ensures r.Terminal() ==> Serve(r, env) == r
    ensures r.Live() && env.t0 > r.deadlineAt ==>
              var s := Serve(r, env); s.Is(Failed) && s.output == r.output && s.life.enteredAt == env.t0
    ensures r.Is(WaitingPrefill) && env.t0 <= r.deadlineAt && r.id in env.prefill && env.prefill[r.id].PrefillError? ==>
              var s := Serve(r, env); s.Is(Failed) && s.output == r.output && s.life.enteredAt == env.t1
    ensures EntersDecode(r, env) && r.id in env.decode && env.decode[r.id].DecodeError? ==>
              var s := Serve(r, env); s.Is(Failed) && s.output == r.output && s.life.enteredAt == env.t2
    ensures EntersDecode(r, env) && r.id in env.decode && env.decode[r.id].Decoded? ==>
              && Serve(r, env).output == r.output + [env.decode[r.id].token]
              && Serve(r, env).emitted == r.emitted + 1
              && (if env.decode[r.id].finished || r.emitted + 1 >= r.maxTokens
                  then Serve(r, env).Is(Completed) && Serve(r, env).life.completedAt == Some(env.t2)
                  else Serve(r, env).Is(Decoding))
              && (r.life.firstTokenAt.None? ==> Serve(r, env).life.firstTokenAt == Some(env.t2))
              && (r.Is(WaitingPrefill) ==> EntryTime(Serve(r, env).life, Decoding) == Some(env.t1))
  {
  }

  /** Which live requests are decoded: those not overdue that were decoding already or whose prefill succeeded. */
  lemma DecodedAre(r: RequestData, env: Env)
    requires Placed(r) && r.Live() && (r.Is(WaitingPrefill) ==> r.id in env.prefill)
    ensures EntersDecode(r, env) <==>
              env.t0 <= r.deadlineAt && (r.Is(WaitingPrefill) ==> env.prefill[r.id].Minted?)
  {
  }

  /** Cancelling ends exactly the live requests of that id, at that time, with the output they have. */
  lemma CancelTable(r: RequestData, id: RequestId, t: TimePoint)
    requires Placed(r)
    ensures var s := CancelOne(r, id, t);
            if r.Live() && r.id == id then s.Is(Cancelled) && s.output == r.output && s.life.enteredAt == t else s == r
  {
  }

  // ----- why ids must differ and budgets be positive -----

  /** Insertion into a map that keeps what it has under a key. */
  function Emplace(m: map<RequestId, Handle>, id: RequestId, h: Handle): map<RequestId, Handle> {
    if id in m then m else m[id := h]
  }

  /** The handle map after a prefill batch minted a handle for each of `ids`. */
  function StoreAll(m: map<RequestId, Handle>, ids: seq<RequestId>, hs: seq<Handle>): map<RequestId, Handle>
    requires |ids| == |hs|
  {
    if ids == [] then m
    else Emplace(StoreAll(m, ids[..|ids| - 1], hs[..|hs| - 1]), ids[|ids| - 1], hs[|hs| - 1])
  }

  /** The i-th id is not held yet and has not occurred before. */
  ghost predicate IsNew(m: map<RequestId, Handle>, ids: seq<RequestId>, i: nat)
    requires i < |ids|
  {
    ids[i] !in m && forall j | 0 <= j < i :: ids[j] != ids[i]
  }

  lemma {:induction false} StoredKeys(m: map<RequestId, Handle>, ids: seq<RequestId>, hs: seq<Handle>, id: RequestId)
    requires |ids| == |hs|
    ensures id in StoreAll(m, ids, hs) <==> id in m || id in ids
  {
    if ids != [] {
      var n := |ids| - 1;
      StoredKeys(m, ids[..n], hs[..n], id);
      assert ids == ids[..n] + [ids[n]];
    }
  }

  lemma {:induction false} NewIsStored(m: map<RequestId, Handle>, ids: seq<RequestId>, hs: seq<Handle>, i: nat)
    requires |ids| == |hs| && i < |ids| && IsNew(m, ids, i)
    ensures ids[i] in StoreAll(m, ids, hs) && StoreAll(m, ids, hs)[ids[i]] == hs[i]
    decreases |ids|
  {
    var n := |ids| - 1;
    if i < n {
      assert IsNew(m, ids[..n], i);
      NewIsStored(m, ids[..n], hs[..n], i);
    } else {
      StoredKeys(m, ids[..n], hs[..n], ids[n]);
    }
  }

  lemma {:induction false} StoredIsNew(m: map<RequestId, Handle>, ids: seq<RequestId>, hs: seq<Handle>, id: RequestId)
    requires |ids| == |hs| && id in StoreAll(m, ids, hs)
    ensures var h := StoreAll(m, ids, hs)[id];
            h in m.Values || exists i | 0 <= i < |ids| && hs[i] == h :: IsNew(m, ids, i)
    decreases |ids|
  {
    if ids != [] {
      var n := |ids| - 1;
      var before := StoreAll(m, ids[..n], hs[..n]);
      if id in before {
        StoredIsNew(m, ids[..n], hs[..n], id);
        if before[id] !in m.Values {
          var i :| 0 <= i < n && hs[..n][i] == before[id] && IsNew(m, ids[..n], i);
          assert IsNew(m, ids, i);
        }
      } else {
        forall j | 0 <= j < n
          ensures ids[j] != ids[n]
        {
          StoredKeys(m, ids[..n], hs[..n], ids[j]);
          assert ids[..n][j] == ids[j];
        }
        StoredKeys(m, ids[..n], hs[..n], ids[n]);
        assert IsNew(m, ids, n);
      }
    }
  }

  /**
   * A minted handle is kept if and only if its id is held by no request yet and was not in the batch
   * before; so all are kept, and can ever be released, exactly if the ids are new and differ.
   */
  lemma HandleIsKept(m: map<RequestId, Handle>, ids: seq<RequestId>, hs: seq<Handle>, i: nat)
    requires |ids| == |hs| && i < |ids|
    requires forall a, b | 0 <= a < b < |hs| :: hs[a] != hs[b]
    requires forall a | 0 <= a < |hs| :: hs[a] !in m.Values
    ensures hs[i] in StoreAll(m, ids, hs).Values <==> IsNew(m, ids, i)
  {
    var stored := StoreAll(m, ids, hs);
    if IsNew(m, ids, i) {
      NewIsStored(m, ids, hs, i);
    }
    if hs[i] in stored.Values {
      var id :| id in stored && stored[id] == hs[i];
      StoredIsNew(m, ids, hs, id);
    }
  }

  /** A note on budgets: a promoted request may emit its first token, rather than abort, exactly if it has one. */
  lemma FirstTokenNeedsBudget(r: RequestData, env: Env)
    requires EntersPrefill(r, env) && PrefillFor(env.prefill, r.id).Minted? && r.emitted == 0
    ensures var p := PrefillOne(ExpireOne(r, env.t0), env.prefill, env.t1);
            p.Is(Decoding) && (p.emitted < p.maxTokens <==> r.maxTokens >= 1)
  {
  }

  // ----- bounded service -----

  function Ticks(ops: seq<Op>): nat {
    if ops == [] then 0 else (if ops[0].DoTick? then 1 else 0) + Ticks(ops[1..])
  }

  lemma ServeEmitsOne(r: RequestData, env: Env)
    requires Placed(r)
    ensures Serve(r, env).Live() ==> r.Live() && Serve(r, env).emitted == r.emitted + 1
  {
  }

  lemma NextServes(c: Core, op: Op, i: nat)
    requires Inv(c) && Allowed(c, op) && i < |c.requests|
    ensures i < |Next(c, op).requests| && SameIdentity(c.requests[i], Next(c, op).requests[i])
    ensures Next(c, op).requests[i].Live() ==>
              && c.requests[i].Live()
              && Next(c, op).requests[i].emitted == c.requests[i].emitted + Ticks([op])
    ensures c.requests[i].Terminal() ==> Next(c, op).requests[i] == c.requests[i]
  {
    var r := c.requests[i];
    assert RequestOk(r, c.now);
    match op
    case DoSubmit(_, _) =>
    case DoCancel(id, t) => CancelOk(r, id, c.now, t);
    case DoTick(env) =>
      ServeOk(r, env, c.now);
      ServeEmitsOne(r, env);
  }

  /**
   * A request still live after a run has emitted one token per tick of the run; so once as many ticks
   * have run as its budget, it is terminal, whatever else was submitted and whatever the backend answered.
   */
  lemma {:induction false} BoundedService(c: Core, ops: seq<Op>, i: nat)
    requires Inv(c) && IsRun(c, ops) && i < |c.requests|
    ensures i < |Run(c, ops).requests| && SameIdentity(c.requests[i], Run(c, ops).requests[i])
    ensures Run(c, ops).requests[i].Live() ==> Run(c, ops).requests[i].emitted == c.requests[i].emitted + Ticks(ops)
    ensures c.requests[i].emitted + Ticks(ops) >= c.requests[i].maxTokens ==> Run(c, ops).requests[i].Terminal()
    ensures c.requests[i].Terminal() ==> Run(c, ops).requests[i] == c.requests[i]
    decreases |ops|
  {
    RunKeepsInv(c, ops);
    if ops != [] {
      NextKeepsInv(c, ops[0]);
      NextServes(c, ops[0], i);
      BoundedService(Next(c, ops[0]), ops[1..], i);
    }
    assert RequestOk(Run(c, ops).requests[i], Run(c, ops).now);
  }

  // ----- batch failure isolation -----

  /** The two ticks treat request id `id` alike (which handle it got does not matter). */
  predicate SameFor(e: Env, f: Env, id: RequestId) {
    && PrefillFor(e.prefill, id).Minted? == PrefillFor(f.prefill, id).Minted?
    && match (DecodeFor(e.decode, id), DecodeFor(f.decode, id)) {
         case (Decoded(t, b), Decoded(u, d)) => t == u && b == d
         case (DecodeError(_), DecodeError(_)) => true
         case _ => false
       }
  }

  predicate SameTimes(e: Env, f: Env) {
    e.t0 == f.t0 && e.t1 == f.t1 && e.t2 == f.t2
  }

  function Without(q: seq<nat>, k: nat): seq<nat> {
    if q == [] then [] else if q[0] == k then Without(q[1..], k) else [q[0]] + Without(q[1..], k)
  }

  lemma {:induction false} WithoutAppend(q: seq<nat>, x: nat, k: nat)
    ensures Without(q + [x], k) == Without(q, k) + (if x == k then [] else [x])
  {
    if q == [] {
      assert q + [x] == [x];
    } else {
      assert (q + [x])[1..] == q[1..] + [x];
      WithoutAppend(q[1..], x, k);
    }
  }

  lemma {:induction false} PositionsWithout(rs: seq<RequestData>, ss: seq<RequestData>, s: State, k: nat)
    requires |rs| == |ss| && forall i | 0 <= i < |rs| && i != k :: rs[i] == ss[i]
    ensures Without(Positions(rs, s), k) == Without(Positions(ss, s), k)
  {
    if rs != [] {
      var n := |rs| - 1;
      PositionsWithout(rs[..n], ss[..n], s, k);
      WithoutAppend(Positions(rs[..n], s), n, k);
      WithoutAppend(Positions(ss[..n], s), n, k);
      assert Positions(rs[..n], s) + [] == Positions(rs[..n], s);
      assert Positions(ss[..n], s) + [] == Positions(ss[..n], s);
    }
  }

  /**
   * If two ticks from one state differ only in what the backend answered for request k, every other
   * request comes out identical and the decode queue differs at most by k itself.
   */
  lemma FailuresAreIsolated(c: Core, e: Env, f: Env, k: nat)
    requires Inv(c) && EnvOk(c, e) && EnvOk(c, f) && SameTimes(e, f) && k < |c.requests|
    requires forall i | 0 <= i < |c.requests| && i != k && c.requests[i].Live() :: SameFor(e, f, c.requests[i].id)
    ensures forall i | 0 <= i < |c.requests| && i != k :: Tick(c, e).requests[i] == Tick(c, f).requests[i]
    ensures Without(Positions(Tick(c, e).requests, Decoding), k) == Without(Positions(Tick(c, f).requests, Decoding), k)
  {
    forall i | 0 <= i < |c.requests| && i != k
      ensures Tick(c, e).requests[i] == Tick(c, f).requests[i]
    {
      ServeAlike(c.requests[i], e, f);
    }
    PositionsWithout(Tick(c, e).requests, Tick(c, f).requests, Decoding, k);
  }

  lemma ServeAlike(r: RequestData, e: Env, f: Env)
    requires Placed(r) && SameTimes(e, f) && (r.Live() ==> SameFor(e, f, r.id))
    ensures Serve(r, e) == Serve(r, f)
  {
  }

  // ----- deadlines -----

  /**
   * With prefill costing `prefillCost` in all and decode `decodeCost`: a token is only produced for a
   * request not yet expired when the tick began, so it comes at most the cost of that tick late; and a
   * request failed by expiry failed strictly after its deadline, with no token from this tick.
   */
  lemma DeadlineBound(r: RequestData, env: Env, prefillCost: nat, decodeCost: nat)
    requires Placed(r)
    requires env.t1 == env.t0 + prefillCost && env.t2 == env.t1 + decodeCost
    ensures Serve(r, env).emitted > r.emitted ==> env.t2 <= r.deadlineAt + prefillCost + decodeCost
    ensures Serve(r, env).life.firstTokenAt != r.life.firstTokenAt ==>
              && Serve(r, env).life.firstTokenAt == Some(env.t2)
              && env.t2 <= r.deadlineAt + prefillCost + decodeCost
    ensures Serve(r, env).life.completedAt != r.life.completedAt ==>
              && Serve(r, env).life.completedAt == Some(env.t2)
              && env.t2 <= r.deadlineAt + prefillCost + decodeCost
    ensures Expires(r, env.t0) ==>
              && Serve(r, env).Is(Failed) && Serve(r, env).output == r.output
              && r.deadlineAt < Serve(r, env).life.enteredAt == env.t0
  {
  }

  /** From `r` to `s`, a first token or a completion was only recorded at most `cost` after the deadline. */
  ghost predicate OnTime(r: RequestData, s: RequestData, cost: int) {
    && s.deadlineAt == r.deadlineAt
    && (s.life.firstTokenAt != r.life.firstTokenAt ==>
          s.life.firstTokenAt.Some? && s.life.firstTokenAt.value <= r.deadlineAt + cost)
    && (s.life.completedAt != r.life.completedAt ==>
          s.life.completedAt.Some? && s.life.completedAt.value <= r.deadlineAt + cost)
  }

  ghost predicate AllOnTime(rs: seq<RequestData>, ss: seq<RequestData>, cost: int) {
    |ss| == |rs| && forall i | 0 <= i < |rs| :: OnTime(rs[i], ss[i], cost)
  }

  lemma ServedOnTime(rs: seq<RequestData>, ss: seq<RequestData>, env: Env, now: TimePoint)
    requires AllOk(rs, now) && AllServed(rs, ss, env) && now <= env.t0 <= env.t1 <= env.t2
    ensures AllOnTime(rs, ss, env.t2 - env.t0)
  {
    forall i | 0 <= i < |rs|
      ensures OnTime(rs[i], ss[i], env.t2 - env.t0)
    {
      assert RequestOk(rs[i], now);
      ServeOk(rs[i], env, now);
      DeadlineBound(rs[i], env, env.t1 - env.t0, env.t2 - env.t1);
    }
  }

  lemma TickOnTime(c: Core, env: Env)
    requires Inv(c) && AllHaveRoom(c.requests) && EnvOk(c, env)
    ensures AllOnTime(c.requests, Tick(c, env).requests, env.t2 - env.t0)
  {
    ServedOnTime(c.requests, Tick(c, env).requests, env, c.now);
  }

  /** Tokens and completions come at most `slack` after the deadline. */
  ghost predicate Timely(r: RequestData, slack: nat) {
    && (r.life.firstTokenAt.Some? ==> r.life.firstTokenAt.value <= r.deadlineAt + slack)
    && (r.life.completedAt.Some? ==> r.life.completedAt.value <= r.deadlineAt + slack)
  }

  ghost predicate AllTimely(rs: seq<RequestData>, slack: nat) {
    forall i | 0 <= i < |rs| :: Timely(rs[i], slack)
  }

  predicate Brisk(op: Op, slack: nat) {
    op.DoTick? ==> op.env.t0 <= op.env.t1 <= op.env.t2 <= op.env.t0 + slack
  }

  lemma OnTimeKeepsTimely(rs: seq<RequestData>, ss: seq<RequestData>, cost: int, slack: nat)
    requires AllTimely(rs, slack) && AllOnTime(rs, ss, cost) && cost <= slack
    ensures AllTimely(ss, slack)
  {
    forall i | 0 <= i < |ss|
      ensures Timely(ss[i], slack)
    {
      assert OnTime(rs[i], ss[i], cost) && Timely(rs[i], slack);
    }
  }

  lemma NextIsTimely(c: Core, op: Op, slack: nat)
    requires Inv(c) && Allowed(c, op) && Brisk(op, slack) && AllTimely(c.requests, slack)
    ensures AllTimely(Next(c, op).requests, slack)
  {
    var ss := Next(c, op).requests;
    if op.DoTick? {
      ServedOnTime(c.requests, ss, op.env, c.now);
      OnTimeKeepsTimely(c.requests, ss, op.env.t2 - op.env.t0, slack);
    } else if op.DoSubmit? {
      assert op.request.life.completedAt == EntryTime(op.request.life, Completed);
    }
  }

  /**
   * If no tick of a run takes longer than `slack`, no request gets its first token or completes more
   * than `slack` after its deadline.
   */
  lemma {:induction false} RunIsTimely(c: Core, ops: seq<Op>, slack: nat)
    requires Inv(c) && IsRun(c, ops) && AllTimely(c.requests, slack)
    requires forall i | 0 <= i < |ops| :: Brisk(ops[i], slack)
    ensures AllTimely(Run(c, ops).requests, slack)
    decreases |ops|
  {
    if ops != [] {
      NextKeepsInv(c, ops[0]);
      NextIsTimely(c, ops[0], slack);
      RunIsTimely(Next(c, ops[0]), ops[1..], slack);
    }
  }
}
