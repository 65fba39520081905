/** What crosses the backend boundary (include/tokamak/backend/backend.h). */
module Backend {
  datatype ErrorCategory = InvalidRequest | OutOfMemory | InvalidState | Unavailable
  datatype BackendError = BackendError(category: ErrorCategory, message: string)

  type Handle = nat

  datatype PrefillOutcome = Minted(handle: Handle) | PrefillError(error: BackendError)
  datatype DecodeOutcome = Decoded(token: nat, finished: bool) | DecodeError(error: BackendError)
}

/**
 * The scheduler seen without its queues: every operation acts on each request by itself.  A tick is
 * described by the outcomes the backend gave each request id and by the three clock readings involved.
 */
module Scheduling {
  import opened Clocks
  import opened Lifecycle
  import opened Requests
  import opened Backend

  /** t0: deadlines checked; t1: prefill returned; t2: decode returned. */
  datatype Env = Env(
    t0: TimePoint,
    prefill: map<RequestId, PrefillOutcome>,
    t1: TimePoint,
    decode: map<RequestId, DecodeOutcome>,
    t2: TimePoint)

  const NO_OUTCOME := BackendError(Unavailable, "")

  function PrefillFor(outcomes: map<RequestId, PrefillOutcome>, id: RequestId): PrefillOutcome {
    if id in outcomes then outcomes[id] else PrefillError(NO_OUTCOME)
  }

  function DecodeFor(outcomes: map<RequestId, DecodeOutcome>, id: RequestId): DecodeOutcome {
    if id in outcomes then outcomes[id] else DecodeError(NO_OUTCOME)
  }

  // ----- one request through the three phases of a tick -----

  predicate HasRoom(r: RequestData) {
    r.Live() ==> r.emitted < r.maxTokens
  }

  predicate Expires(r: RequestData, t: TimePoint) {
    (r.Is(WaitingPrefill) || r.Is(Decoding)) && t > r.deadlineAt
  }

  function ExpireOne(r: RequestData, t: TimePoint): RequestData {
    if !Expires(r, t) then r
    else if r.Is(WaitingPrefill) then r.Go(Prefilling, t).Go(Failed, t)
    else r.Go(Failed, t)
  }

  function PrefillWith(r: RequestData, outcome: PrefillOutcome, t: TimePoint): RequestData
    requires r.Is(WaitingPrefill)
  {
    if outcome.Minted? then r.Go(Prefilling, t).Go(WaitingDecode, t).Go(Decoding, t)
    else r.Go(Prefilling, t).Go(Failed, t)
  }

  function PrefillOne(r: RequestData, outcomes: map<RequestId, PrefillOutcome>, t: TimePoint): RequestData {
    if r.Is(WaitingPrefill) then PrefillWith(r, PrefillFor(outcomes, r.id), t) else r
  }

  function DecodeWith(r: RequestData, outcome: DecodeOutcome, t: TimePoint): RequestData
    requires r.Is(Decoding) && HasRoom(r)
  {
    match outcome
    case DecodeError(_) => r.Go(Failed, t)
    case Decoded(token, finished) =>
      var e := Emit(r, token, t);
      if finished || e.emitted >= e.maxTokens then e.Go(Completed, t) else e
  }

  function DecodeOne(r: RequestData, outcomes: map<RequestId, DecodeOutcome>, t: TimePoint): RequestData
    requires HasRoom(r)
  {
    if r.Is(Decoding) then DecodeWith(r, DecodeFor(outcomes, r.id), t) else r
  }

  function Serve(r: RequestData, env: Env): RequestData
    requires HasRoom(r)
  {
    DecodeOne(PrefillOne(ExpireOne(r, env.t0), env.prefill, env.t1), env.decode, env.t2)
  }

  function CancelOne(r: RequestData, id: RequestId, t: TimePoint): RequestData {
    if r.id == id && (r.Is(WaitingPrefill) || r.Is(Decoding)) then r.Go(Cancelled, t) else r
  }

  // ----- the scheduler -----

  datatype Core = Core(requests: seq<RequestData>, handles: map<RequestId, Handle>, now: TimePoint)

  function DecodingIds(rs: seq<RequestData>): set<RequestId> {
    set i | 0 <= i < |rs| && rs[i].Is(Decoding) :: rs[i].id
  }

  function Submit(c: Core, r: RequestData, t: TimePoint): Core
    requires r.Is(Received)
  {
    c.(requests := c.requests + [r.Go(Admitted, t).Go(WaitingPrefill, t)], now := t)
  }

  function Cancel(c: Core, id: RequestId, t: TimePoint): Core {
    Core(seq(|c.requests|, i requires 0 <= i < |c.requests| => CancelOne(c.requests[i], id, t)), c.handles - {id}, t)
  }

  ghost predicate AllHaveRoom(rs: seq<RequestData>) {
    forall i | 0 <= i < |rs| :: HasRoom(rs[i])
  }

  function HandleFor(c: Core, env: Env, id: RequestId): Handle {
    if id in c.handles then c.handles[id]
    else if PrefillFor(env.prefill, id).Minted? then PrefillFor(env.prefill, id).handle
    else 0
  }

  ghost function Tick(c: Core, env: Env): Core
    requires AllHaveRoom(c.requests)
  {
    var rs := seq(|c.requests|, i requires 0 <= i < |c.requests| => Serve(c.requests[i], env));
    Core(rs, map id | id in DecodingIds(rs) :: HandleFor(c, env, id), env.t2)
  }

  // ----- the backend contract -----

  predicate EntersPrefill(r: RequestData, env: Env) {
    r.Is(WaitingPrefill) && !Expires(r, env.t0)
  }

  predicate EntersDecode(r: RequestData, env: Env) {
    || (r.Is(Decoding) && !Expires(r, env.t0))
    || (EntersPrefill(r, env) && PrefillFor(env.prefill, r.id).Minted?)
  }

  /** One outcome for each request put in a batch, fresh handles, and a clock that never goes back. */
  ghost predicate EnvOk(c: Core, env: Env) {
    && c.now <= env.t0 <= env.t1 <= env.t2
    && (forall i | 0 <= i < |c.requests| && EntersPrefill(c.requests[i], env) :: c.requests[i].id in env.prefill)
    && (forall i | 0 <= i < |c.requests| && EntersDecode(c.requests[i], env) :: c.requests[i].id in env.decode)
    && (forall a, b | a in env.prefill && b in env.prefill && a != b
                      && env.prefill[a].Minted? && env.prefill[b].Minted? ::
          env.prefill[a].handle != env.prefill[b].handle)
    && (forall a | a in env.prefill && env.prefill[a].Minted? :: env.prefill[a].handle !in c.handles.Values)
  }

  // ----- invariants -----

  /** Coherent counters and timestamps. */
  ghost predicate StampsOk(r: RequestData, now: TimePoint) {
    && OutputOk(r) && TimelineOk(r.life, now) && PathOk(r.life) && Admitted in r.life.entries
    && (r.life.firstTokenAt.Some? <==> r.emitted > 0)
  }

  /** In a state the scheduler leaves requests in, with budget left if live. */
  predicate Placed(r: RequestData) {
    && HasRoom(r)
    && (r.Is(WaitingPrefill) || r.Is(Decoding) || r.Is(Completed) || r.Is(Failed) || r.Is(Cancelled))
  }

  ghost predicate RequestOk(r: RequestData, now: TimePoint) {
    && StampsOk(r, now)
    && Placed(r) && WaitingPrefill in r.life.entries
    && (r.Is(WaitingPrefill) ==> r.emitted == 0)
    && (r.Is(Completed) ==> r.emitted > 0)
    && (!r.Is(Completed) ==> r.emitted < r.maxTokens)
  }

  ghost predicate AllOk(rs: seq<RequestData>, now: TimePoint) {
    forall i {:trigger RequestOk(rs[i], now)} | 0 <= i < |rs| :: RequestOk(rs[i], now)
  }

  ghost predicate AllPlaced(rs: seq<RequestData>) {
    forall i | 0 <= i < |rs| :: Placed(rs[i])
  }

  /** Nothing submitted after a waiting request is decoding. */
  ghost predicate Ordered(rs: seq<RequestData>) {
    forall i, j | 0 <= i < j < |rs| && rs[i].Is(WaitingPrefill) && rs[j].Live() :: rs[j].Is(WaitingPrefill)
  }

  ghost predicate DistinctLiveIds(rs: seq<RequestData>) {
    forall i, j | 0 <= i < j < |rs| && rs[i].Live() && rs[j].Live() :: rs[i].id != rs[j].id
  }

  ghost predicate Injective(m: map<RequestId, Handle>) {
    forall a, b | a in m && b in m && a != b :: m[a] != m[b]
  }

  ghost predicate Inv(c: Core) {
    && AllOk(c.requests, c.now)
    && AllPlaced(c.requests)
    && Ordered(c.requests)
    && DistinctLiveIds(c.requests)
    && c.handles.Keys == DecodingIds(c.requests)
    && Injective(c.handles)
  }

  // ----- operations keep the invariant -----

  /** Fields no operation touches. */
  predicate SameIdentity(r: RequestData, s: RequestData) {
    && r.id == s.id && r.prompt == s.prompt && r.maxTokens == s.maxTokens && r.deadlineAt == s.deadlineAt
    && r.life.admittedAt == s.life.admittedAt
  }

  lemma GoOk(r: RequestData, to: State, now: TimePoint, t: TimePoint)
    requires StampsOk(r, now) && now <= t && IsValidTransition(r.life.state, to)
    ensures StampsOk(r.Go(to, t), t)
  {
    EnterOk(r.life, to, now, t);
    EnterKeepsPath(r.life, to, t);
  }

  lemma FailWaitingOk(r: RequestData, now: TimePoint, t: TimePoint)
    requires StampsOk(r, now) && now <= t && r.Is(WaitingPrefill)
    ensures StampsOk(r.Go(Prefilling, t).Go(Failed, t), t)
  {
    GoOk(r, Prefilling, now, t);
    GoOk(r.Go(Prefilling, t), Failed, t, t);
  }

  lemma PromoteOk(r: RequestData, now: TimePoint, t: TimePoint)
    requires StampsOk(r, now) && now <= t && r.Is(WaitingPrefill)
    ensures StampsOk(r.Go(Prefilling, t).Go(WaitingDecode, t).Go(Decoding, t), t)
  {
    GoOk(r, Prefilling, now, t);
    GoOk(r.Go(Prefilling, t), WaitingDecode, t, t);
    GoOk(r.Go(Prefilling, t).Go(WaitingDecode, t), Decoding, t, t);
  }

  lemma EmitOk(r: RequestData, token: nat, now: TimePoint, t: TimePoint)
    requires StampsOk(r, now) && now <= t && r.Is(Decoding) && r.emitted < r.maxTokens
    ensures StampsOk(Emit(r, token, t), t)
  {
  }

  lemma ExpireOk(r: RequestData, now: TimePoint, t: TimePoint)
    requires RequestOk(r, now) && now <= t
    ensures RequestOk(ExpireOne(r, t), t) && SameIdentity(r, ExpireOne(r, t))
    ensures ExpireOne(r, t).output == r.output
  {
    if Expires(r, t) {
      if r.Is(WaitingPrefill) {
        FailWaitingOk(r, now, t);
      } else {
        GoOk(r, Failed, now, t);
      }
    }
  }

  lemma PrefillWithOk(r: RequestData, outcome: PrefillOutcome, now: TimePoint, t: TimePoint)
    requires RequestOk(r, now) && now <= t && r.Is(WaitingPrefill)
    ensures RequestOk(PrefillWith(r, outcome, t), t) && SameIdentity(r, PrefillWith(r, outcome, t))
    ensures PrefillWith(r, outcome, t).output == r.output
  {
    if outcome.Minted? {
      PromoteOk(r, now, t);
    } else {
      FailWaitingOk(r, now, t);
    }
  }

  lemma DecodeWithOk(r: RequestData, outcome: DecodeOutcome, now: TimePoint, t: TimePoint)
    requires RequestOk(r, now) && now <= t && r.Is(Decoding)
    ensures RequestOk(DecodeWith(r, outcome, t), t) && SameIdentity(r, DecodeWith(r, outcome, t))
    ensures DecodeWith(r, outcome, t).output == r.output + (if outcome.Decoded? then [outcome.token] else [])
  {
    match outcome
    case DecodeError(_) => GoOk(r, Failed, now, t);
    case Decoded(token, finished) =>
      EmitOk(r, token, now, t);
      var e := Emit(r, token, t);
      if finished || e.emitted >= e.maxTokens {
        GoOk(e, Completed, t, t);
      }
  }

  lemma PrefillOneOk(r: RequestData, outcomes: map<RequestId, PrefillOutcome>, now: TimePoint, t: TimePoint)
    requires RequestOk(r, now) && now <= t
    ensures RequestOk(PrefillOne(r, outcomes, t), t) && SameIdentity(r, PrefillOne(r, outcomes, t))
    ensures PrefillOne(r, outcomes, t).output == r.output
  {
    if r.Is(WaitingPrefill) {
      PrefillWithOk(r, PrefillFor(outcomes, r.id), now, t);
    }
  }

  lemma DecodeOneOk(r: RequestData, outcomes: map<RequestId, DecodeOutcome>, now: TimePoint, t: TimePoint)
    requires RequestOk(r, now) && now <= t
    ensures RequestOk(DecodeOne(r, outcomes, t), t) && SameIdentity(r, DecodeOne(r, outcomes, t))
    ensures r.output <= DecodeOne(r, outcomes, t).output
  {
    if r.Is(Decoding) {
      DecodeWithOk(r, DecodeFor(outcomes, r.id), now, t);
    }
  }

  lemma ServeOk(r: RequestData, env: Env, now: TimePoint)
    requires RequestOk(r, now) && now <= env.t0 <= env.t1 <= env.t2
    ensures RequestOk(Serve(r, env), env.t2) && SameIdentity(r, Serve(r, env))
    ensures r.output <= Serve(r, env).output
  {
    ExpireOk(r, now, env.t0);
    var e := ExpireOne(r, env.t0);
    PrefillOneOk(e, env.prefill, env.t0, env.t1);
    DecodeOneOk(PrefillOne(e, env.prefill, env.t1), env.decode, env.t1, env.t2);
  }

  lemma CancelOk(r: RequestData, id: RequestId, now: TimePoint, t: TimePoint)
    requires RequestOk(r, now) && now <= t
    ensures RequestOk(CancelOne(r, id, t), t) && SameIdentity(r, CancelOne(r, id, t))
    ensures CancelOne(r, id, t).output == r.output
  {
    if r.Live() {
      GoOk(r, Cancelled, now, t);
    }
  }

  lemma IdsStayDistinct(rs: seq<RequestData>, ss: seq<RequestData>)
    requires DistinctLiveIds(rs) && |ss| == |rs|
    requires forall i | 0 <= i < |rs| :: ss[i].id == rs[i].id && (ss[i].Live() ==> rs[i].Live())
    ensures DistinctLiveIds(ss)
  {
  }

  ghost predicate AllServed(rs: seq<RequestData>, ss: seq<RequestData>, env: Env) {
    && |ss| == |rs|
    && AllHaveRoom(rs)
    && forall i | 0 <= i < |rs| :: ss[i] == Serve(rs[i], env)
  }

  lemma ServedShape(r: RequestData, env: Env)
    requires Placed(r)
    ensures Serve(r, env).id == r.id && !Serve(r, env).Is(WaitingPrefill)
    ensures r.Terminal() ==> Serve(r, env) == r
    ensures Serve(r, env).Live() ==> Serve(r, env).Is(Decoding) && EntersDecode(r, env)
  {
  }

  lemma AllServedOk(rs: seq<RequestData>, ss: seq<RequestData>, env: Env, now: TimePoint)
    requires AllOk(rs, now) && AllServed(rs, ss, env) && now <= env.t0 <= env.t1 <= env.t2
    ensures AllOk(ss, env.t2) && AllPlaced(ss)
  {
    forall i | 0 <= i < |rs|
      ensures RequestOk(ss[i], env.t2) && Placed(ss[i])
    {
      assert RequestOk(rs[i], now);
      ServeOk(rs[i], env, now);
    }
  }

  /** Which requests a tick can leave live: those it decoded, and they are all decoding. */
  ghost predicate TickShape(rs: seq<RequestData>, ss: seq<RequestData>, env: Env) {
    && |ss| == |rs|
    && forall i | 0 <= i < |rs| ::
         && ss[i].id == rs[i].id && !ss[i].Is(WaitingPrefill)
         && (ss[i].Live() ==> rs[i].Live() && ss[i].Is(Decoding) && EntersDecode(rs[i], env))
  }

  lemma AllServedShape(rs: seq<RequestData>, ss: seq<RequestData>, env: Env)
    requires AllPlaced(rs) && AllServed(rs, ss, env)
    ensures TickShape(rs, ss, env)
  {
    forall i | 0 <= i < |rs|
      ensures ss[i].id == rs[i].id && !ss[i].Is(WaitingPrefill)
      ensures ss[i].Live() ==> rs[i].Live() && ss[i].Is(Decoding) && EntersDecode(rs[i], env)
    {
      ServedShape(rs[i], env);
    }
  }

  lemma HandleChoice(c: Core, env: Env, i: nat)
    requires c.handles.Keys == DecodingIds(c.requests)
    requires EnvOk(c, env) && i < |c.requests| && EntersDecode(c.requests[i], env)
    ensures var id := c.requests[i].id; var h := HandleFor(c, env, id);
            || (id in c.handles && h == c.handles[id])
            || (id !in c.handles && id in env.prefill && env.prefill[id] == Minted(h))
  {
    var id := c.requests[i].id;
    if id !in c.handles {
      assert id !in DecodingIds(c.requests);
      assert !c.requests[i].Is(Decoding);
    }
  }

  /** A handle held after a tick was held before it, or was minted in it for that very request. */
  lemma HandleOrigin(c: Core, ss: seq<RequestData>, env: Env, id: RequestId)
    requires c.handles.Keys == DecodingIds(c.requests) && EnvOk(c, env)
    requires TickShape(c.requests, ss, env) && id in DecodingIds(ss)
    ensures var h := HandleFor(c, env, id);
            || (id in c.handles && h == c.handles[id])
            || (id !in c.handles && id in env.prefill && env.prefill[id] == Minted(h))
  {
    var i :| 0 <= i < |ss| && ss[i].Is(Decoding) && ss[i].id == id;
    HandleChoice(c, env, i);
  }

  lemma HandlesStayInjective(c: Core, ss: seq<RequestData>, env: Env)
    requires c.handles.Keys == DecodingIds(c.requests) && Injective(c.handles) && EnvOk(c, env)
    requires TickShape(c.requests, ss, env)
    ensures Injective(map id | id in DecodingIds(ss) :: HandleFor(c, env, id))
  {
    forall a, b | a in DecodingIds(ss) && b in DecodingIds(ss) && a != b
      ensures HandleFor(c, env, a) != HandleFor(c, env, b)
    {
      HandleOrigin(c, ss, env, a);
      HandleOrigin(c, ss, env, b);
    }
  }

  /** A tick keeps the invariant and leaves nothing waiting: whatever it leaves live is decoding. */
  lemma TickKeepsInv(c: Core, env: Env)
    requires Inv(c) && EnvOk(c, env)
    ensures Inv(Tick(c, env))
    ensures forall i | 0 <= i < |c.requests| :: !Tick(c, env).requests[i].Is(WaitingPrefill)
  {
    var ss := Tick(c, env).requests;
    AllServedOk(c.requests, ss, env, c.now);
    AllServedShape(c.requests, ss, env);
    IdsStayDistinct(c.requests, ss);
    HandlesStayInjective(c, ss, env);
  }

  lemma CancelledShape(rs: seq<RequestData>, ss: seq<RequestData>, id: RequestId, now: TimePoint, t: TimePoint)
    requires AllOk(rs, now) && now <= t && |ss| == |rs|
    requires forall i | 0 <= i < |rs| :: ss[i] == CancelOne(rs[i], id, t)
    ensures AllOk(ss, t) && AllPlaced(ss)
    ensures forall i | 0 <= i < |rs| ::
              ss[i].id == rs[i].id && (if rs[i].id == id then ss[i].Terminal() else ss[i] == rs[i])
  {
    forall i | 0 <= i < |rs|
      ensures RequestOk(ss[i], t) && Placed(ss[i])
      ensures ss[i].id == rs[i].id && (if rs[i].id == id then ss[i].Terminal() else ss[i] == rs[i])
    {
      assert RequestOk(rs[i], now);
      CancelOk(rs[i], id, now, t);
    }
  }

  lemma DecodingIdsWithout(rs: seq<RequestData>, ss: seq<RequestData>, id: RequestId)
    requires |ss| == |rs|
    requires forall i | 0 <= i < |rs| ::
              ss[i].id == rs[i].id && (if rs[i].id == id then ss[i].Terminal() else ss[i] == rs[i])
    ensures DecodingIds(ss) == DecodingIds(rs) - {id}
  {
    forall a | a in DecodingIds(rs) - {id}
      ensures a in DecodingIds(ss)
    {
      var i :| 0 <= i < |rs| && rs[i].Is(Decoding) && rs[i].id == a;
      assert ss[i].Is(Decoding);
    }
    forall a | a in DecodingIds(ss)
      ensures a in DecodingIds(rs) - {id}
    {
      var i :| 0 <= i < |ss| && ss[i].Is(Decoding) && ss[i].id == a;
      assert rs[i].Is(Decoding);
    }
  }

  /** A cancel keeps the invariant, and no request of that id survives it. */
  lemma CancelKeepsInv(c: Core, id: RequestId, t: TimePoint)
    requires Inv(c) && c.now <= t
    ensures Inv(Cancel(c, id, t))
    ensures forall i | 0 <= i < |c.requests| && c.requests[i].id == id :: Cancel(c, id, t).requests[i].Terminal()
  {
    var ss := Cancel(c, id, t).requests;
    CancelledShape(c.requests, ss, id, c.now, t);
    IdsStayDistinct(c.requests, ss);
    DecodingIdsWithout(c.requests, ss, id);
  }

  /** What the scheduler needs of a submitted request. */
  ghost predicate Submittable(c: Core, r: RequestData, t: TimePoint) {
    && r.Is(Received) && TimelineOk(r.life, t) && r.life.firstTokenAt.None?
    && r.emitted == 0 && r.output == [] && r.maxTokens >= 1
    && c.now <= t
    && forall i | 0 <= i < |c.requests| && c.requests[i].Live() :: c.requests[i].id != r.id
  }

  lemma TimePasses(rs: seq<RequestData>, now: TimePoint, t: TimePoint)
    requires AllOk(rs, now) && now <= t
    ensures AllOk(rs, t)
  {
    forall i | 0 <= i < |rs|
      ensures RequestOk(rs[i], t)
    {
      assert RequestOk(rs[i], now);
    }
  }

  lemma SubmittedOk(r: RequestData, t: TimePoint)
    requires r.Is(Received) && TimelineOk(r.life, t) && r.life.firstTokenAt.None?
    requires r.emitted == 0 && r.output == [] && r.maxTokens >= 1
    ensures RequestOk(r.Go(Admitted, t).Go(WaitingPrefill, t), t)
  {
    EnterOk(r.life, Admitted, t, t);
    EnterKeepsPath(r.life, Admitted, t);
    GoOk(r.Go(Admitted, t), WaitingPrefill, t, t);
  }

  lemma AppendWaiting(rs: seq<RequestData>, w: RequestData)
    requires Ordered(rs) && DistinctLiveIds(rs) && w.Is(WaitingPrefill)
    requires forall i | 0 <= i < |rs| && rs[i].Live() :: rs[i].id != w.id
    ensures Ordered(rs + [w]) && DistinctLiveIds(rs + [w]) && DecodingIds(rs + [w]) == DecodingIds(rs)
  {
    var ss := rs + [w];
    forall a | a in DecodingIds(rs)
      ensures a in DecodingIds(ss)
    {
      var i :| 0 <= i < |rs| && rs[i].Is(Decoding) && rs[i].id == a;
      assert ss[i].Is(Decoding);
    }
  }

  lemma SubmitKeepsInv(c: Core, r: RequestData, t: TimePoint)
    requires Inv(c) && Submittable(c, r, t)
    ensures Inv(Submit(c, r, t))
  {
    TimePasses(c.requests, c.now, t);
    SubmittedOk(r, t);
    AppendWaiting(c.requests, r.Go(Admitted, t).Go(WaitingPrefill, t));
  }
}
