/**
 * Workloads as the driver reads them (apps/tokamak/simulation.cpp): which arrivals it can reach, what
 * makes its loop progress, and what the clock pays.  Everything here is about values; the loop is in
 * Simulation.dfy.
 */
module Workloads {
  import opened Clocks
  import opened Lifecycle
  import opened Requests
  import opened Scheduling
  import opened SchedulingTheorems
  import opened Reporting
  import opened Summaries
  import opened Analysis

  /** Arrivals and deadlines are in milliseconds. */
  datatype WorkloadRequest = WorkloadRequest(
    id: RequestId,
    arrival: real,
    prompt: seq<nat>,
    maxTokens: nat,
    deadline: real)

  // The clock counts nanoseconds: 1ms per prompt token, 5ms per decode.
  const PREFILL_COST: nat := 1_000_000
  const DECODE_COST: nat := 5_000_000

  ghost predicate WellFormed(ws: seq<WorkloadRequest>) {
    && (forall i, j | 0 <= i < j < |ws| :: ws[i].id != ws[j].id)
    && (forall i | 0 <= i < |ws| :: ws[i].maxTokens >= 1)
  }

  // ----- milliseconds and clock ticks -----

  /**
   * The driver's two conversions: a clock reading as elapsed milliseconds, and milliseconds cast to whole
   * clock ticks.  In the original both round, as floating point does.
   */
  datatype Conversion = Conversion(elapsed: TimePoint -> real, cast: real -> int)

  /** Later readings are not fewer milliseconds, and what is still ahead does not cast into the past. */
  ghost predicate Sound(cv: Conversion) {
    && (forall s: TimePoint, t: TimePoint | s <= t :: cv.elapsed(s) <= cv.elapsed(t))
    && (forall t: TimePoint, a: real | cv.elapsed(t) < a :: t <= cv.cast(a))
  }

  const TICKS_PER_MS := 1_000_000.0

  function Truncate(a: real): int {
    if a >= 0.0 then a.Floor else -(-a).Floor
  }

  /** The conversions without rounding other than the cast's truncation. */
  const EXACT := Conversion(t => t as real / TICKS_PER_MS, a => Truncate(a * TICKS_PER_MS))

  predicate WholeTick(a: real) {
    (a * TICKS_PER_MS).Floor as real == a * TICKS_PER_MS
  }

  lemma TruncateBounds(x: real)
    ensures x >= 0.0 ==> Truncate(x) as real <= x < Truncate(x) as real + 1.0
    ensures x < 0.0 ==> Truncate(x) as real - 1.0 < x <= Truncate(x) as real
  {
    assert x.Floor as real <= x < x.Floor as real + 1.0;
    assert (-x).Floor as real <= -x < (-x).Floor as real + 1.0;
  }

  lemma ExactIsSound()
    ensures Sound(EXACT)
  {
    forall t: TimePoint, a: real | EXACT.elapsed(t) < a
      ensures t <= EXACT.cast(a)
    {
      TruncateBounds(a * TICKS_PER_MS);
    }
  }

  // ----- arrivals -----

  predicate Due(cv: Conversion, a: real, now: TimePoint) {
    a <= cv.elapsed(now)
  }

  /** How far the idle jump advances the clock. */
  function JumpBy(cv: Conversion, now: TimePoint, a: real): int {
    cv.cast(a) - now
  }

  /** An arrival that the idle jump makes due. */
  predicate Reachable(cv: Conversion, a: real) {
    Due(cv, a, cv.cast(a))
  }

  /** An arrival still ahead that no idle jump makes due. */
  predicate OutOfReach(cv: Conversion, a: real, now: TimePoint) {
    !Due(cv, a, now) && !Reachable(cv, a)
  }

  /** Without rounding, the reachable arrivals are those on a whole tick and those before the epoch. */
  lemma ExactlyReachable(a: real)
    ensures Reachable(EXACT, a) <==> WholeTick(a) || a < 0.0
  {
    TruncateBounds(a * TICKS_PER_MS);
  }

  /** A jump never goes back, and goes nowhere only if the arrival is out of reach. */
  lemma JumpGoesForward(cv: Conversion, now: TimePoint, a: real)
    requires Sound(cv) && !Due(cv, a, now)
    ensures JumpBy(cv, now, a) >= 0
    ensures JumpBy(cv, now, a) == 0 ==> OutOfReach(cv, a, now)
  {
  }

  // ----- when the loop cannot end, and the measure that otherwise goes down -----

  /** Nothing to do, and the next arrival is out of reach. */
  ghost predicate Blocked(cv: Conversion, rs: seq<RequestData>, now: TimePoint, ws: seq<WorkloadRequest>) {
    (forall i | 0 <= i < |rs| :: rs[i].Terminal()) && |rs| < |ws| && OutOfReach(cv, ws[|rs|].arrival, now)
  }

  /** Blocked with the clock already where the jump would take it. */
  ghost predicate Stuck(cv: Conversion, rs: seq<RequestData>, now: TimePoint, ws: seq<WorkloadRequest>) {
    Blocked(cv, rs, now, ws) && cv.cast(ws[|rs|].arrival) == now
  }

  datatype Measure = Measure(unsubmitted: int, budget: int, distance: int)

  /** Requests to come, tokens the live ones may still emit, and how far the idle jump would go. */
  function MeasureOf(cv: Conversion, rs: seq<RequestData>, now: TimePoint, ws: seq<WorkloadRequest>): Measure {
    Measure(|ws| - |rs|, Tally(Budget, rs),
            if |rs| < |ws| && !Due(cv, ws[|rs|].arrival, now) then JumpBy(cv, now, ws[|rs|].arrival) else 0)
  }

  predicate Below(m: Measure, n: Measure) {
    || m.unsubmitted < n.unsubmitted
    || (m.unsubmitted == n.unsubmitted && m.budget < n.budget)
    || (m.unsubmitted == n.unsubmitted && m.budget == n.budget && m.distance < n.distance)
  }

  lemma {:induction false} BudgetIsNatural(rs: seq<RequestData>)
    requires AllPlaced(rs)
    ensures Tally(Budget, rs) >= 0 && Tally(WaitingPrompt, rs) >= 0
  {
    if rs != [] {
      BudgetIsNatural(rs[..|rs| - 1]);
    }
  }

  lemma MeasureIsNatural(cv: Conversion, rs: seq<RequestData>, now: TimePoint, ws: seq<WorkloadRequest>)
    requires Sound(cv) && AllPlaced(rs) && |rs| <= |ws|
    ensures var m := MeasureOf(cv, rs, now, ws); m.unsubmitted >= 0 && m.budget >= 0 && m.distance >= 0
  {
    BudgetIsNatural(rs);
    if |rs| < |ws| && !Due(cv, ws[|rs|].arrival, now) {
      JumpGoesForward(cv, now, ws[|rs|].arrival);
    }
  }

  /** With nothing to do, jumping lowers the measure unless it is stuck, and neither blocks nor unblocks. */
  lemma JumpLowers(cv: Conversion, rs: seq<RequestData>, now: TimePoint, ws: seq<WorkloadRequest>)
    requires Sound(cv) && |rs| < |ws| && !Due(cv, ws[|rs|].arrival, now)
    requires forall i | 0 <= i < |rs| :: rs[i].Terminal()
    ensures var later := now + JumpBy(cv, now, ws[|rs|].arrival);
            && now <= later
            && (Below(MeasureOf(cv, rs, later, ws), MeasureOf(cv, rs, now, ws)) <==> !Stuck(cv, rs, now, ws))
            && (Blocked(cv, rs, now, ws) <==> Blocked(cv, rs, later, ws))
  {
    JumpGoesForward(cv, now, ws[|rs|].arrival);
  }

  /** A turn that found something to do lowers the measure and was not blocked. */
  lemma TickLowers(
    cv: Conversion, before: seq<RequestData>, mid: seq<RequestData>, after: seq<RequestData>, now: TimePoint,
    later: TimePoint, ws: seq<WorkloadRequest>)
    requires |before| <= |mid| == |after| <= |ws| && Tally(Budget, after) < Tally(Budget, mid)
    requires if |mid| == |before| then mid == before && exists i :: 0 <= i < |mid| && mid[i].Live()
             else Due(cv, ws[|before|].arrival, now)
    ensures Below(MeasureOf(cv, after, later, ws), MeasureOf(cv, before, now, ws)) && !Blocked(cv, before, now, ws)
  {
  }

  // ----- what a request keeps of its workload record -----

  /**
   * The request was made from the workload record: same id, prompt and budget, admitted no earlier than it
   * was due, and with its deadline counted from the admission.
   */
  ghost predicate MadeFrom(cv: Conversion, r: RequestData, w: WorkloadRequest) {
    && r.id == w.id && r.maxTokens == w.maxTokens && r.prompt == w.prompt
    && r.life.admittedAt.Some? && Due(cv, w.arrival, r.life.admittedAt.value)
    && r.deadlineAt == r.life.admittedAt.value + cv.cast(w.deadline)
  }

  ghost predicate Originates(cv: Conversion, rs: seq<RequestData>, ws: seq<WorkloadRequest>) {
    |rs| <= |ws| && forall i | 0 <= i < |rs| :: MadeFrom(cv, rs[i], ws[i])
  }

  lemma ServedOriginate(
    cv: Conversion, rs: seq<RequestData>, ss: seq<RequestData>, env: Env, ws: seq<WorkloadRequest>, now: TimePoint)
    requires Originates(cv, rs, ws) && AllOk(rs, now) && AllServed(rs, ss, env) && now <= env.t0 <= env.t1 <= env.t2
    ensures Originates(cv, ss, ws)
  {
    forall i | 0 <= i < |ss|
      ensures MadeFrom(cv, ss[i], ws[i])
    {
      assert RequestOk(rs[i], now) && MadeFrom(cv, rs[i], ws[i]);
      ServeOk(rs[i], env, now);
    }
  }

  lemma SummaryIsClean(r: RequestData, now: TimePoint, rule: Rule)
    requires RequestOk(r, now) && r.Terminal()
    ensures Obeys(Summarize(r), rule)
  {
  }

  predicate InSequence(a: Option<TimePoint>, b: Option<TimePoint>) {
    a.Some? && b.Some? && a.value <= b.value
  }

  /**
   * A summary shows the request: as many tokens as its output holds, its deadline, and its entry into each
   * state on the main line, in order as far as it got.  A completed one has all its milestones in order.
   */
  lemma SummaryShows(r: RequestData, now: TimePoint)
    requires RequestOk(r, now) && r.Terminal()
    ensures var m := Summarize(r);
            && m.id == r.id && m.finalState == r.life.state && m.deadlineAt == r.deadlineAt
            && m.outputTokensEmitted == |r.output| && m.maxOutputTokens == r.maxTokens
            && m.firstTokenAt == r.life.firstTokenAt && (m.firstTokenAt.Some? <==> r.output != [])
            && InSequence(m.admittedAt, m.waitingPrefillAt)
            && (m.prefillingAt.Some? <==> Prefilling in r.life.entries)
            && (m.prefillingAt.Some? ==> InSequence(m.waitingPrefillAt, m.prefillingAt))
            && (m.waitingDecodeAt.Some? ==> InSequence(m.prefillingAt, m.waitingDecodeAt))
            && (m.decodingAt.Some? ==> InSequence(m.waitingDecodeAt, m.decodingAt))
            && (m.firstTokenAt.Some? ==> InSequence(m.decodingAt, m.firstTokenAt))
            && (m.completedAt.Some? <==> r.Is(Completed))
            && (m.completedAt.Some? ==> InSequence(m.firstTokenAt, m.completedAt))
  {
    var l := r.life;
    assert forall s, t | s in l.entries && t in l.entries && Depth(s) <= Depth(t) :: l.entries[s] <= l.entries[t];
    EntriesGoDown(r, now);
  }

  lemma EntriesGoDown(r: RequestData, now: TimePoint)
    requires RequestOk(r, now) && r.Terminal()
    ensures WaitingPrefill in r.life.entries
    ensures WaitingDecode in r.life.entries ==> Prefilling in r.life.entries
    ensures Decoding in r.life.entries ==> WaitingDecode in r.life.entries
  {
    if WaitingDecode in r.life.entries {
      PathIsDownward(r.life, Prefilling, WaitingDecode);
    }
    if Decoding in r.life.entries {
      PathIsDownward(r.life, WaitingDecode, Decoding);
    }
  }

  /** Terminal, coherent requests summarize to something the checker has nothing to say about. */
  lemma TerminalIsClean(rs: seq<RequestData>, now: TimePoint, summaries: seq<RequestSummary>)
    requires AllOk(rs, now) && |summaries| == |rs|
    requires forall i | 0 <= i < |rs| :: rs[i].Terminal() && summaries[i] == Summarize(rs[i])
    ensures Clean(summaries)
  {
    forall i, rule | 0 <= i < |summaries|
      ensures Obeys(summaries[i], rule)
    {
      assert RequestOk(rs[i], now);
      SummaryIsClean(rs[i], now, rule);
    }
  }

  lemma AccountedThen(a: seq<RequestData>, b: seq<RequestData>, c: seq<RequestData>, ps: seq<TickReport>,
                      qs: seq<TickReport>)
    requires Accounted(a, b, ps) && Accounted(b, c, qs)
    ensures Accounted(a, c, ps + qs)
  {
    TotalsAppend(ps, qs);
  }

  lemma FreshIsSubmittable(cv: Conversion, c: Core, ws: seq<WorkloadRequest>, r: RequestData)
    requires Originates(cv, c.requests, ws) && WellFormed(ws) && |c.requests| < |ws|
    requires Due(cv, ws[|c.requests|].arrival, c.now)
    requires var w := ws[|c.requests|]; r == NewRequest(w.id, c.now, cv.cast(w.deadline), w.maxTokens, w.prompt)
    ensures Submittable(c, r, c.now) && Originates(cv, Submit(c, r, c.now).requests, ws)
  {
    forall i | 0 <= i < |c.requests|
      ensures c.requests[i].id != r.id
    {
      assert MadeFrom(cv, c.requests[i], ws[i]);
    }
    var ss := Submit(c, r, c.now).requests;
    forall i | 0 <= i < |ss|
      ensures MadeFrom(cv, ss[i], ws[i])
    {
      assert i < |c.requests| ==> ss[i] == c.requests[i];
    }
  }

  // ----- what the clock pays -----

  function CostOf(p: TickReport): int {
    TickCost(p, PREFILL_COST, DECODE_COST)
  }

  /** What the clock paid for all ticks together. */
  function TotalCost(ps: seq<TickReport>): int {
    PREFILL_COST * PrefillTokens(ps) + DECODE_COST * |ps|
  }

  lemma TotalCostOfOne(p: TickReport)
    ensures TotalCost([p]) == CostOf(p)
  {
    assert [p][1..] == [];
    assert PrefillTokens([p]) == p.prefillTokens;
  }

  function Max(a: nat, b: int): nat { if a >= b then a else b }

  /** The cost of the costliest tick. */
  function MaxCost(ps: seq<TickReport>): (m: nat)
    ensures forall i | 0 <= i < |ps| :: CostOf(ps[i]) <= m
    ensures m == 0 || exists i :: 0 <= i < |ps| && m == CostOf(ps[i])
  {
    if ps == [] then 0 else Max(MaxCost(ps[..|ps| - 1]), CostOf(ps[|ps| - 1]))
  }

  lemma MaxCostGrows(ps: seq<TickReport>, p: TickReport)
    ensures MaxCost(ps + [p]) == Max(MaxCost(ps), CostOf(p))
    ensures MaxCost([p]) == Max(0, CostOf(p))
  {
    assert (ps + [p])[..|ps|] == ps && [p][..0] == [];
  }

  lemma MaxCostAfterTurn(reports: seq<TickReport>, ps: seq<TickReport>)
    requires |ps| <= 1
    ensures MaxCost(reports + ps) == Max(MaxCost(reports), MaxCost(ps))
  {
    if ps == [] {
      assert reports + ps == reports;
    } else {
      assert ps == [ps[0]];
      MaxCostGrows(reports, ps[0]);
    }
  }

  /** All the work a request can cause: its prefill, and a decode for each token of its budget. */
  function WorkOf(w: WorkloadRequest): nat {
    PREFILL_COST * |w.prompt| + DECODE_COST * w.maxTokens
  }

  function Worst(ws: seq<WorkloadRequest>): nat {
    if ws == [] then 0 else Worst(ws[..|ws| - 1]) + WorkOf(ws[|ws| - 1])
  }

  /** What the live requests can still cost. */
  function Load(rs: seq<RequestData>): int {
    PREFILL_COST * Tally(WaitingPrompt, rs) + DECODE_COST * Tally(Budget, rs)
  }

  lemma LoadOfSubmitted(rs: seq<RequestData>, r: RequestData, w: WorkloadRequest)
    requires r.Is(WaitingPrefill) && r.emitted == 0 && r.maxTokens == w.maxTokens && r.prompt == w.prompt
    ensures Load(rs + [r]) == Load(rs) + WorkOf(w)
  {
    assert (rs + [r])[..|rs|] == rs;
  }

  lemma PromptWeights(r: RequestData, env: Env)
    requires Placed(r)
    ensures Weight(WaitingPrompt, Serve(r, env)) == 0 && 0 <= Weight(Prompt(env), r) <= Weight(WaitingPrompt, r)
  {
    ServedShape(r, env);
  }

  lemma {:induction false} TickClearsPrompts(rs: seq<RequestData>, ss: seq<RequestData>, env: Env)
    requires AllPlaced(rs) && AllServed(rs, ss, env)
    ensures Tally(WaitingPrompt, ss) == 0 && 0 <= Tally(Prompt(env), rs) <= Tally(WaitingPrompt, rs)
  {
    if rs != [] {
      var n := |rs| - 1;
      TickClearsPrompts(rs[..n], ss[..n], env);
      PromptWeights(rs[n], env);
    }
  }

  lemma LoadOfDone(rs: seq<RequestData>)
    requires forall i | 0 <= i < |rs| :: rs[i].Terminal()
    ensures Load(rs) == 0
  {
    NoBudgetLeft(rs);
  }

  lemma {:induction false} NoBudgetLeft(rs: seq<RequestData>)
    requires forall i | 0 <= i < |rs| :: rs[i].Terminal()
    ensures Tally(WaitingPrompt, rs) == 0 && Tally(Budget, rs) == 0
  {
    if rs != [] {
      NoBudgetLeft(rs[..|rs| - 1]);
    }
  }

  // ----- workloads that are stranded, and workloads that are not -----

  /** The latest cast of an arrival, or the start. */
  function LastCast(cv: Conversion, ws: seq<WorkloadRequest>): (m: nat)
    ensures forall i | 0 <= i < |ws| :: cv.cast(ws[i].arrival) <= m
  {
    if ws == [] then 0 else Max(LastCast(cv, ws[..|ws| - 1]), cv.cast(ws[|ws| - 1].arrival))
  }

  /** No run of these requests alone keeps the clock busy beyond this. */
  function Latest(cv: Conversion, ws: seq<WorkloadRequest>): nat {
    LastCast(cv, ws) + Worst(ws)
  }

  /** The k-th arrival is unreachable, and still ahead when everything before it must be over. */
  predicate Stranded(cv: Conversion, ws: seq<WorkloadRequest>, k: nat) {
    k < |ws| && !Reachable(cv, ws[k].arrival) && !Due(cv, ws[k].arrival, Latest(cv, ws[..k]))
  }

  function AfterDecode(t: TimePoint): TimePoint {
    t + DECODE_COST
  }

  /** The i-th arrival falls due while its predecessor is being decoded at the latest. */
  ghost predicate Trailing(cv: Conversion, ws: seq<WorkloadRequest>, i: nat) {
    && 0 < i < |ws|
    && forall t: TimePoint | Due(cv, ws[i - 1].arrival, t) :: Due(cv, ws[i].arrival, AfterDecode(t))
  }

  ghost predicate Unhindered(cv: Conversion, ws: seq<WorkloadRequest>) {
    forall i | 0 <= i < |ws| :: Reachable(cv, ws[i].arrival) || Trailing(cv, ws, i)
  }

  lemma {:induction false} WorstSplits(ws: seq<WorkloadRequest>, i: nat, j: nat, k: nat)
    requires i <= j <= k <= |ws|
    ensures Worst(ws[i..k]) == Worst(ws[i..j]) + Worst(ws[j..k])
    decreases k
  {
    if j < k {
      WorstSplits(ws, i, j, k - 1);
      assert ws[i..k][..k - 1 - i] == ws[i..k - 1] && ws[j..k][..k - 1 - j] == ws[j..k - 1];
    } else {
      assert ws[j..k] == [];
    }
  }

  /** The requests before the k-th and what is left of their work fit before the latest time. */
  ghost predicate OnSchedule(cv: Conversion, rs: seq<RequestData>, now: TimePoint, ws: seq<WorkloadRequest>, k: nat)
    requires k <= |ws|
  {
    |rs| <= k && now + Load(rs) + Worst(ws[|rs|..k]) <= Latest(cv, ws[..k])
  }

  /** The last submitted request had its first decode after it was due. */
  ghost predicate CaughtUp(cv: Conversion, rs: seq<RequestData>, now: TimePoint, ws: seq<WorkloadRequest>)
    requires |rs| <= |ws|
  {
    |rs| > 0 ==> Due(cv, ws[|rs| - 1].arrival, now - DECODE_COST)
  }

  /** The turn paid at most for the work it took off the load. */
  ghost predicate Worked(
    before: seq<RequestData>, now: TimePoint, after: seq<RequestData>, later: TimePoint, ws: seq<WorkloadRequest>)
    requires |before| <= |after| <= |ws|
  {
    later + Load(after) <= now + Load(before) + Worst(ws[|before|..|after|])
  }

  /** The turn found nothing to do and jumped. */
  ghost predicate Jumped(
    cv: Conversion, before: seq<RequestData>, after: seq<RequestData>, later: TimePoint, ws: seq<WorkloadRequest>)
  {
    && after == before && |before| < |ws| && (forall i | 0 <= i < |before| :: before[i].Terminal())
    && later == cv.cast(ws[|before|].arrival)
  }

  /** What a turn does to the clock, and that what it submitted was due and has been decoded. */
  ghost predicate Paced(
    cv: Conversion, before: seq<RequestData>, now: TimePoint, after: seq<RequestData>, later: TimePoint,
    ws: seq<WorkloadRequest>)
  {
    && |before| <= |after| <= |ws| && now <= later
    && (forall i | |before| <= i < |after| :: Due(cv, ws[i].arrival, now))
    && (|| Worked(before, now, after, later, ws)
        || (Jumped(cv, before, after, later, ws) && !Due(cv, ws[|before|].arrival, now)))
    && (|after| > |before| ==> AfterDecode(now) <= later)
  }

  lemma BeforeTheStranded(cv: Conversion, rs: seq<RequestData>, now: TimePoint, ws: seq<WorkloadRequest>, k: nat)
    requires Sound(cv) && Stranded(cv, ws, k) && OnSchedule(cv, rs, now, ws, k) && AllPlaced(rs)
    ensures !Due(cv, ws[k].arrival, now)
  {
    BudgetIsNatural(rs);
    assert cv.elapsed(now) <= cv.elapsed(Latest(cv, ws[..k]));
  }

  /** A run that is not blocked never gets to a stranded request. */
  lemma TurnKeepsSchedule(
    cv: Conversion, before: seq<RequestData>, now: TimePoint, after: seq<RequestData>, later: TimePoint,
    ws: seq<WorkloadRequest>, k: nat)
    requires Sound(cv) && Stranded(cv, ws, k) && OnSchedule(cv, before, now, ws, k) && AllPlaced(before)
    requires Paced(cv, before, now, after, later, ws) && !Blocked(cv, before, now, ws)
    ensures OnSchedule(cv, after, later, ws, k)
  {
    BeforeTheStranded(cv, before, now, ws, k);
    if Worked(before, now, after, later, ws) {
      WorstSplits(ws, |before|, |after|, k);
    } else {
      LoadOfDone(before);
      WorstSplits(ws, 0, |after|, k);
      assert ws[..k][|before|] == ws[|before|] && ws[0..k] == ws[..k];
    }
  }

  lemma TurnKeepsCaughtUp(
    cv: Conversion, before: seq<RequestData>, now: TimePoint, after: seq<RequestData>, later: TimePoint,
    ws: seq<WorkloadRequest>)
    requires Sound(cv) && Paced(cv, before, now, after, later, ws) && CaughtUp(cv, before, now, ws)
    ensures CaughtUp(cv, after, later, ws)
  {
    if |after| > |before| {
      assert cv.elapsed(now) <= cv.elapsed(later - DECODE_COST);
    } else {
      assert cv.elapsed(now - DECODE_COST) <= cv.elapsed(later - DECODE_COST);
    }
  }

  /** With every arrival reachable or trailing its predecessor, nothing blocks. */
  lemma UnhinderedIsNotBlocked(cv: Conversion, rs: seq<RequestData>, now: TimePoint, ws: seq<WorkloadRequest>)
    requires Unhindered(cv, ws) && |rs| <= |ws| && CaughtUp(cv, rs, now, ws)
    ensures !Blocked(cv, rs, now, ws)
  {
    if |rs| < |ws| && !Reachable(cv, ws[|rs|].arrival) {
      assert Trailing(cv, ws, |rs|);
      assert AfterDecode(now - DECODE_COST) == now;
    }
  }

  lemma StartsOnSchedule(cv: Conversion, ws: seq<WorkloadRequest>, k: nat)
    requires k <= |ws|
    ensures OnSchedule(cv, [], 0, ws, k)
  {
    assert ws[0..k] == ws[..k];
  }

  // ----- deadlines and books -----

  lemma TimelyWithMore(rs: seq<RequestData>, slack: nat, more: nat)
    requires AllTimely(rs, slack) && slack <= more
    ensures AllTimely(rs, more)
  {
    forall i | 0 <= i < |rs|
      ensures Timely(rs[i], more)
    {
      assert Timely(rs[i], slack);
    }
  }

  lemma FreshIsTimely(rs: seq<RequestData>, r: RequestData, t: TimePoint, slack: nat)
    requires AllTimely(rs, slack) && r.Is(Received) && r.life.firstTokenAt.None? && r.life.completedAt.None?
    ensures AllTimely(rs + [r.Go(Admitted, t).Go(WaitingPrefill, t)], slack)
  {
  }

  /** The clock is the idle time plus 1ms for each prompt token prefilled and 5ms for each tick. */
  ghost predicate ClockAddsUp(now: TimePoint, idle: nat, reports: seq<TickReport>) {
    now == idle + 1_000_000 * PrefillTokens(reports) + 5_000_000 * |reports|
  }

  /** The books of a run so far: what became of the requests, the clock, and how late anything was. */
  ghost predicate Booked(rs: seq<RequestData>, now: TimePoint, idle: nat, reports: seq<TickReport>) {
    Accounted([], rs, reports) && ClockAddsUp(now, idle, reports) && AllTimely(rs, MaxCost(reports))
  }

  lemma BookTurn(
    rs: seq<RequestData>, now: TimePoint, idle: nat, reports: seq<TickReport>,
    ss: seq<RequestData>, more: nat, ps: seq<TickReport>)
    requires Booked(rs, now, idle, reports) && Accounted(rs, ss, ps) && |ps| <= 1
    requires AllTimely(ss, Max(MaxCost(reports), MaxCost(ps)))
    ensures Booked(ss, now + more + TotalCost(ps), idle + more, reports + ps)
  {
    AccountedThen([], rs, ss, reports, ps);
    TotalsAppend(reports, ps);
    MaxCostAfterTurn(reports, ps);
  }

  /** What a tick does to the books, whatever the backend answered. */
  lemma TickEffects(cv: Conversion, c: Core, env: Env, ws: seq<WorkloadRequest>, slack: nat, cost: int, k: nat)
    requires Inv(c) && AllHaveRoom(c.requests) && EnvOk(c, env) && Originates(cv, c.requests, ws)
    requires k < |c.requests| && c.requests[k].Live()
    requires AllTimely(c.requests, slack) && AllOnTime(c.requests, Tick(c, env).requests, cost)
    ensures var ss, p := Tick(c, env).requests, ReportOf(c.requests, env);
            && Originates(cv, ss, ws) && |ss| == |c.requests| && Tally(Budget, ss) < Tally(Budget, c.requests)
            && Accounted(c.requests, ss, [p]) && AllTimely(ss, Max(slack, cost))
            && CostOf(p) + Load(ss) <= Load(c.requests) && DECODE_COST <= CostOf(p)
  {
    var ss := Tick(c, env).requests;
    ServedOriginate(cv, c.requests, ss, env, ws, c.now);
    TickSpendsBudget(c.requests, ss, env);
    TickClearsPrompts(c.requests, ss, env);
    TickAccounted(c.requests, ss, env);
    TimelyWithMore(c.requests, slack, Max(slack, cost));
    OnTimeKeepsTimely(c.requests, ss, cost, Max(slack, cost));
  }
}
