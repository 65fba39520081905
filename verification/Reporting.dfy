/** Tick reports (include/tokamak/scheduler/tick_report.h) and the quantities they account for. */
module Reporting {
  import opened Clocks
  import opened Lifecycle
  import opened Requests
  import opened Scheduling
  import opened SchedulingTheorems

  datatype TickReport = TickReport(
    timestamp: TimePoint,
    expired: int,
    prefillAttempted: int,
    prefillSucceeded: int,
    prefillFailed: int,
    prefillTokens: int,
    decodeAttempted: int,
    decodeTokens: int,
    decodeCompleted: int,
    decodeFailed: int)

  /** What the clock pays for a tick: every prompt token prefilled, and one decode. */
  function TickCost(p: TickReport, perToken: nat, perDecode: nat): int {
    perToken * p.prefillTokens + perDecode
  }

  /** What a tick did to one request. */
  datatype Fate = Untouched | Expired | PrefillFailed | DecodeFailed | Continued | Finished

  function FateOf(r: RequestData, env: Env): Fate {
    if Expires(r, env.t0) then Expired
    else if EntersPrefill(r, env) && PrefillFor(env.prefill, r.id).PrefillError? then PrefillFailed
    else if EntersDecode(r, env) then
      match DecodeFor(env.decode, r.id)
      case DecodeError(_) => DecodeFailed
      case Decoded(_, finished) => if finished || r.emitted + 1 >= r.maxTokens then Finished else Continued
    else Untouched
  }

  /** Something that can be counted or summed over requests. */
  datatype Metric =
    | InState(state: State)
    | Output
    | Budget
    | WaitingPrompt
    | HasFate(fate: Fate, env: Env)
    | Prefills(env: Env)
    | Promotes(env: Env)
    | Prompt(env: Env)
    | Decodes(env: Env)

  function One(b: bool): int { if b then 1 else 0 }

  function Weight(m: Metric, r: RequestData): int {
    match m
    case InState(s) => One(r.Is(s))
    case Output => r.emitted
    case Budget => if r.Live() then r.maxTokens - r.emitted else 0
    case WaitingPrompt => if r.Is(WaitingPrefill) then |r.prompt| else 0
    case HasFate(f, env) => One(FateOf(r, env) == f)
    case Prefills(env) => One(EntersPrefill(r, env))
    case Promotes(env) => One(EntersPrefill(r, env) && PrefillFor(env.prefill, r.id).Minted?)
    case Prompt(env) => if EntersPrefill(r, env) then |r.prompt| else 0
    case Decodes(env) => One(EntersDecode(r, env))
  }

  function Tally(m: Metric, rs: seq<RequestData>): int {
    if rs == [] then 0 else Tally(m, rs[..|rs| - 1]) + Weight(m, rs[|rs| - 1])
  }

  /** The report of a tick counts the fates it dealt. */
  function ReportOf(rs: seq<RequestData>, env: Env): TickReport {
    TickReport(env.t2,
               Tally(HasFate(Expired, env), rs),
               Tally(Prefills(env), rs), Tally(Promotes(env), rs), Tally(HasFate(PrefillFailed, env), rs),
               Tally(Prompt(env), rs),
               Tally(Decodes(env), rs), Tally(Decodes(env), rs),
               Tally(HasFate(Finished, env), rs), Tally(HasFate(DecodeFailed, env), rs))
  }

  // ----- summing -----

  lemma {:induction false} TallyUpdate(m: Metric, rs: seq<RequestData>, k: nat, r: RequestData)
    requires k < |rs|
    ensures Tally(m, rs[k := r]) == Tally(m, rs) - Weight(m, rs[k]) + Weight(m, r)
  {
    var n := |rs| - 1;
    if k < n {
      assert rs[k := r][..n] == rs[..n][k := r];
      TallyUpdate(m, rs[..n], k, r);
    } else {
      assert rs[k := r][..n] == rs[..n];
    }
  }

  /** A difference of two weights that is a third weight, request by request, is so in total. */
  lemma {:induction false} TallyDifference(
    m: Metric, rs: seq<RequestData>, n: Metric, ss: seq<RequestData>, o: Metric, ts: seq<RequestData>)
    requires |rs| == |ss| == |ts|
    requires forall i | 0 <= i < |rs| :: Weight(m, rs[i]) - Weight(n, ss[i]) == Weight(o, ts[i])
    ensures Tally(m, rs) - Tally(n, ss) == Tally(o, ts)
  {
    if rs != [] {
      var k := |rs| - 1;
      TallyDifference(m, rs[..k], n, ss[..k], o, ts[..k]);
    }
  }

  lemma {:induction false} TallyEqual(m: Metric, rs: seq<RequestData>, n: Metric, ss: seq<RequestData>)
    requires |rs| == |ss| && forall i | 0 <= i < |rs| :: Weight(m, rs[i]) == Weight(n, ss[i])
    ensures Tally(m, rs) == Tally(n, ss)
  {
    if rs != [] {
      var k := |rs| - 1;
      TallyEqual(m, rs[..k], n, ss[..k]);
    }
  }

  ghost predicate Increasing(q: seq<nat>) {
    forall i, j | 0 <= i < j < |q| :: q[i] < q[j]
  }

  function Sum(ws: seq<int>): int {
    if ws == [] then 0 else Sum(ws[..|ws| - 1]) + ws[|ws| - 1]
  }

  /** The sum of the weights at the positions a queue holds. */
  function QueueSum(q: seq<nat>, ws: seq<int>): int
    requires forall i | 0 <= i < |q| :: q[i] < |ws|
  {
    if q == [] then 0 else QueueSum(q[..|q| - 1], ws) + ws[q[|q| - 1]]
  }

  function Weights(m: Metric, rs: seq<RequestData>): (ws: seq<int>)
    ensures |ws| == |rs| && forall i | 0 <= i < |rs| :: ws[i] == Weight(m, rs[i])
  {
    seq(|rs|, i requires 0 <= i < |rs| => Weight(m, rs[i]))
  }

  lemma {:induction false} TallyIsSum(m: Metric, rs: seq<RequestData>)
    ensures Tally(m, rs) == Sum(Weights(m, rs))
  {
    if rs != [] {
      var n := |rs| - 1;
      TallyIsSum(m, rs[..n]);
      assert Weights(m, rs)[..n] == Weights(m, rs[..n]);
    }
  }

  lemma {:induction false} QueueSumPrefix(q: seq<nat>, ws: seq<int>, n: nat)
    requires n <= |ws| && forall i | 0 <= i < |q| :: q[i] < n
    ensures QueueSum(q, ws) == QueueSum(q, ws[..n])
  {
    if q != [] {
      QueueSumPrefix(q[..|q| - 1], ws, n);
    }
  }

  /** The queue holds, in order, every position of nonzero weight. */
  ghost predicate Covers(q: seq<nat>, ws: seq<int>) {
    && Increasing(q)
    && (forall i | 0 <= i < |q| :: q[i] < |ws|)
    && (forall k | 0 <= k < |ws| && ws[k] != 0 :: k in q)
  }

  lemma CoversDropLast(q: seq<nat>, ws: seq<int>)
    requires ws != [] && Covers(q, ws)
    ensures var n := |ws| - 1;
            if q != [] && q[|q| - 1] == n then Covers(q[..|q| - 1], ws[..n]) else ws[n] == 0 && Covers(q, ws[..n])
  {
    var n := |ws| - 1;
    if q != [] && q[|q| - 1] == n {
      forall k | 0 <= k < n && ws[k] != 0
        ensures k in q[..|q| - 1]
      {
        var i :| 0 <= i < |q| && q[i] == k;
        assert q[..|q| - 1][i] == k;
      }
    }
  }

  /** Summing over a covering queue is summing over everything. */
  lemma {:induction false} QueueSumIsSum(q: seq<nat>, ws: seq<int>)
    requires Covers(q, ws)
    ensures QueueSum(q, ws) == Sum(ws)
    decreases |ws|
  {
    if ws != [] {
      var n := |ws| - 1;
      CoversDropLast(q, ws);
      var p := if q != [] && q[|q| - 1] == n then q[..|q| - 1] else q;
      QueueSumIsSum(p, ws[..n]);
      QueueSumPrefix(p, ws, n);
    }
  }

  // ----- conservation -----

  /** The fate of a request, read off the outcomes, is what the three phases did to it. */
  lemma ServeByFate(r: RequestData, env: Env)
    requires Placed(r)
    ensures var s := Serve(r, env);
            match FateOf(r, env)
            case Untouched => s == r && r.Terminal() && !EntersDecode(r, env)
            case Expired => r.Live() && s.Is(Failed) && s.emitted == r.emitted && !EntersDecode(r, env)
            case PrefillFailed => r.Live() && s.Is(Failed) && s.emitted == r.emitted && !EntersDecode(r, env)
            case DecodeFailed => r.Live() && s.Is(Failed) && s.emitted == r.emitted && EntersDecode(r, env)
            case Continued => r.Live() && s.Is(Decoding) && s.emitted == r.emitted + 1 < r.maxTokens
                && EntersDecode(r, env)
            case Finished => r.Live() && s.Is(Completed) && s.emitted == r.emitted + 1 && EntersDecode(r, env)
  {
  }

  lemma FatesBalance(r: RequestData, env: Env)
    requires Placed(r)
    ensures var s := Serve(r, env);
            && Weight(InState(Failed), s) == Weight(InState(Failed), r) + Weight(HasFate(Expired, env), r)
                 + Weight(HasFate(PrefillFailed, env), r) + Weight(HasFate(DecodeFailed, env), r)
            && Weight(InState(Completed), s) == Weight(InState(Completed), r) + Weight(HasFate(Finished, env), r)
            && Weight(Output, s) == Weight(Output, r) + Weight(Decodes(env), r) - Weight(HasFate(DecodeFailed, env), r)
            && Weight(Prefills(env), r) == Weight(Promotes(env), r) + Weight(HasFate(PrefillFailed, env), r)
  {
    ServeByFate(r, env);
  }

  lemma BudgetShrinks(r: RequestData, env: Env)
    requires Placed(r)
    ensures Weight(Budget, Serve(r, env)) <= Weight(Budget, r)
    ensures r.Live() ==> Weight(Budget, Serve(r, env)) < Weight(Budget, r)
  {
    ServeByFate(r, env);
  }

  /** One tick: the report accounts for every failure, completion and token. */
  lemma {:induction false} TickConserves(rs: seq<RequestData>, ss: seq<RequestData>, env: Env)
    requires AllPlaced(rs) && AllServed(rs, ss, env)
    ensures var p := ReportOf(rs, env);
            && Tally(InState(Failed), ss) == Tally(InState(Failed), rs) + p.expired + p.prefillFailed + p.decodeFailed
            && Tally(InState(Completed), ss) == Tally(InState(Completed), rs) + p.decodeCompleted
            && Tally(Output, ss) == Tally(Output, rs) + p.decodeTokens - p.decodeFailed
            && p.prefillAttempted == p.prefillSucceeded + p.prefillFailed
  {
    if rs != [] {
      var n := |rs| - 1;
      TickConserves(rs[..n], ss[..n], env);
      FatesBalance(rs[n], env);
    }
  }

  /** The remaining budget of live requests never grows in a tick, and shrinks if there are any. */
  lemma {:induction false} TickSpendsBudget(rs: seq<RequestData>, ss: seq<RequestData>, env: Env)
    requires AllPlaced(rs) && AllServed(rs, ss, env)
    ensures Tally(Budget, ss) <= Tally(Budget, rs)
    ensures (exists i :: 0 <= i < |rs| && rs[i].Live()) ==> Tally(Budget, ss) < Tally(Budget, rs)
  {
    if rs != [] {
      var n := |rs| - 1;
      TickSpendsBudget(rs[..n], ss[..n], env);
      BudgetShrinks(rs[n], env);
      assert forall i | 0 <= i < n :: rs[..n][i] == rs[i];
    }
  }

  function Failures(ps: seq<TickReport>): int {
    if ps == [] then 0 else ps[0].expired + ps[0].prefillFailed + ps[0].decodeFailed + Failures(ps[1..])
  }

  function Completions(ps: seq<TickReport>): int {
    if ps == [] then 0 else ps[0].decodeCompleted + Completions(ps[1..])
  }

  function Tokens(ps: seq<TickReport>): int {
    if ps == [] then 0 else ps[0].decodeTokens - ps[0].decodeFailed + Tokens(ps[1..])
  }

  function PrefillTokens(ps: seq<TickReport>): int {
    if ps == [] then 0 else ps[0].prefillTokens + PrefillTokens(ps[1..])
  }

  /** What became of the requests from `rs` to `ss` is what the reports add up to. */
  ghost predicate Accounted(rs: seq<RequestData>, ss: seq<RequestData>, ps: seq<TickReport>) {
    && Tally(InState(Failed), ss) == Tally(InState(Failed), rs) + Failures(ps)
    && Tally(InState(Completed), ss) == Tally(InState(Completed), rs) + Completions(ps)
    && Tally(Output, ss) == Tally(Output, rs) + Tokens(ps)
  }

  lemma {:induction false} CancelConserves(rs: seq<RequestData>, ss: seq<RequestData>, id: RequestId, t: TimePoint)
    requires |ss| == |rs| && forall i | 0 <= i < |rs| :: ss[i] == CancelOne(rs[i], id, t)
    ensures Accounted(rs, ss, [])
  {
    if rs != [] {
      var n := |rs| - 1;
      CancelConserves(rs[..n], ss[..n], id, t);
    }
  }

  ghost function StepReports(c: Core, op: Op): seq<TickReport> {
    if op.DoTick? then [ReportOf(c.requests, op.env)] else []
  }

  /** The reports of all ticks of a run, oldest first. */
  ghost function Reports(c: Core, ops: seq<Op>): seq<TickReport>
    requires IsRun(c, ops)
    decreases |ops|
  {
    if ops == [] then [] else StepReports(c, ops[0]) + Reports(Next(c, ops[0]), ops[1..])
  }

  lemma SubmitConserves(c: Core, r: RequestData, t: TimePoint)
    requires Submittable(c, r, t)
    ensures Accounted(c.requests, Submit(c, r, t).requests, [])
  {
    assert Submit(c, r, t).requests[..|c.requests|] == c.requests;
  }

  lemma {:induction false} TotalsAppend(ps: seq<TickReport>, qs: seq<TickReport>)
    ensures Failures(ps + qs) == Failures(ps) + Failures(qs)
    ensures Completions(ps + qs) == Completions(ps) + Completions(qs)
    ensures Tokens(ps + qs) == Tokens(ps) + Tokens(qs)
    ensures PrefillTokens(ps + qs) == PrefillTokens(ps) + PrefillTokens(qs)
  {
    if ps == [] {
      assert ps + qs == qs;
    } else {
      assert (ps + qs)[1..] == ps[1..] + qs;
      TotalsAppend(ps[1..], qs);
    }
  }

  lemma TickAccounted(rs: seq<RequestData>, ss: seq<RequestData>, env: Env)
    requires AllPlaced(rs) && AllServed(rs, ss, env)
    ensures Accounted(rs, ss, [ReportOf(rs, env)])
  {
    TickConserves(rs, ss, env);
    var ps := [ReportOf(rs, env)];
    assert ps[1..] == [];
  }

  lemma NextConserves(c: Core, op: Op)
    requires AllPlaced(c.requests) && Allowed(c, op)
    ensures Accounted(c.requests, Next(c, op).requests, StepReports(c, op))
  {
    match op
    case DoSubmit(r, t) => SubmitConserves(c, r, t);
    case DoCancel(id, t) => CancelConserves(c.requests, Cancel(c, id, t).requests, id, t);
    case DoTick(env) => TickAccounted(c.requests, Tick(c, env).requests, env);
  }

  /** Over any run, the reports account for every failure, completion and token. */
  lemma {:induction false} RunConserves(c: Core, ops: seq<Op>)
    requires Inv(c) && IsRun(c, ops)
    ensures Accounted(c.requests, Run(c, ops).requests, Reports(c, ops))
    decreases |ops|
  {
    if ops != [] {
      NextKeepsInv(c, ops[0]);
      NextConserves(c, ops[0]);
      RunConserves(Next(c, ops[0]), ops[1..]);
      TotalsAppend(StepReports(c, ops[0]), Reports(Next(c, ops[0]), ops[1..]));
    }
  }
}
