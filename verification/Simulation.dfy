/** The discrete-event driver (apps/tokamak/simulation.cpp). */
module Simulation {
  import opened Clocks
  import opened Lifecycle
  import opened Requests
  import opened Backend
  import opened Scheduling
  import opened SchedulingTheorems
  import opened Reporting
  import opened Mock
  import opened Layout
  import opened Phases
  import opened Fifo
  import opened Summaries
  import opened Analysis
  import opened Workloads

  /** A scheduler over the backend the driver sets up. */
  ghost predicate Rigged(s: FifoScheduler)
    reads s, s.backend, s.clock
  {
    s.Valid() && s.backend.perTokenPrefillCost == PREFILL_COST && s.backend.perDecodeCost == DECODE_COST
  }

  /** With both queues empty every request is terminal and no backend sequence is left. */
  lemma QuietMeansDone(s: FifoScheduler)
    requires s.Valid()
    ensures s.waiting == [] && s.decoding == [] <==> forall i | 0 <= i < |s.requests| :: s.requests[i].Terminal()
    ensures s.waiting == [] && s.decoding == [] ==> s.backend.sequences == map[]
  {
    if s.waiting == [] && s.decoding == [] {
      forall i | 0 <= i < |s.requests|
        ensures s.requests[i].Terminal()
      {
        assert Placed(s.requests[i]);
      }
    }
    if forall i | 0 <= i < |s.requests| :: s.requests[i].Terminal() {
      s.NothingLive();
    }
  }

  lemma BusyHasLive(s: FifoScheduler) returns (k: nat)
    requires s.Valid() && (s.waiting != [] || s.decoding != [])
    ensures k < |s.requests| && s.requests[k].Live()
  {
    k := if s.waiting != [] then s.waiting[0] else s.decoding[0];
  }

  /** The condition of the loop. */
  predicate Unfinished(s: FifoScheduler, ws: seq<WorkloadRequest>)
    reads s
  {
    |s.requests| < |ws| || s.waiting != [] || s.decoding != []
  }

  /** Idle with the next arrival out of reach. */
  predicate Idles(cv: Conversion, s: FifoScheduler, ws: seq<WorkloadRequest>)
    reads s, s.clock
  {
    && s.waiting == [] && s.decoding == []
    && |s.requests| < |ws| && OutOfReach(cv, ws[|s.requests|].arrival, s.clock.now)
  }

  lemma IdlesMeansBlocked(cv: Conversion, s: FifoScheduler, ws: seq<WorkloadRequest>)
    requires s.Valid()
    ensures Idles(cv, s, ws) <==> Blocked(cv, s.requests, s.clock.now, ws)
  {
    QuietMeansDone(s);
  }

  // ----- one turn of the loop -----

  method SubmitNext(cv: Conversion, s: FifoScheduler, ws: seq<WorkloadRequest>, ghost slack: nat)
    requires s.Valid() && WellFormed(ws) && Originates(cv, s.requests, ws) && |s.requests| < |ws|
    requires AllTimely(s.requests, slack) && Due(cv, ws[|s.requests|].arrival, s.clock.now)
    modifies s`requests, s`waiting
    ensures s.Valid() && Originates(cv, s.requests, ws) && |s.requests| == |old(s.requests)| + 1 && s.waiting != []
    ensures Accounted(old(s.requests), s.requests, []) && AllTimely(s.requests, slack)
    ensures Load(s.requests) == Load(old(s.requests)) + WorkOf(ws[|old(s.requests)|])
  {
    var w := ws[|s.requests|];
    var r := NewRequest(w.id, s.clock.now, cv.cast(w.deadline), w.maxTokens, w.prompt);
    FreshIsSubmittable(cv, s.View(), ws, r);
    SubmitConserves(s.View(), r, s.clock.now);
    FreshIsTimely(s.requests, r, s.clock.now, slack);
    LoadOfSubmitted(s.requests, r.Go(Admitted, s.clock.now).Go(WaitingPrefill, s.clock.now), w);
    var k := s.Submit(r);
    assert s.requests[k].Is(WaitingPrefill) && k in s.waiting;
  }

  /** What submitting everything due has done by the time `rs` has become `ss`. */
  ghost predicate Submitted(
    cv: Conversion, rs: seq<RequestData>, ss: seq<RequestData>, now: TimePoint, ws: seq<WorkloadRequest>)
  {
    && |rs| <= |ss| <= |ws| && (|ss| == |rs| ==> ss == rs)
    && (forall i | |rs| <= i < |ss| :: Due(cv, ws[i].arrival, now))
    && Accounted(rs, ss, []) && Load(ss) == Load(rs) + Worst(ws[|rs|..|ss|])
  }

  lemma SubmittedOneMore(
    cv: Conversion, rs: seq<RequestData>, mid: seq<RequestData>, ss: seq<RequestData>, now: TimePoint,
    ws: seq<WorkloadRequest>)
    requires Submitted(cv, rs, mid, now, ws) && |ss| == |mid| + 1 <= |ws| && Due(cv, ws[|mid|].arrival, now)
    requires Accounted(mid, ss, []) && Load(ss) == Load(mid) + WorkOf(ws[|mid|])
    ensures Submitted(cv, rs, ss, now, ws)
  {
    AccountedThen(rs, mid, ss, [], []);
    assert ws[|rs|..|ss|][..|mid| - |rs|] == ws[|rs|..|mid|];
  }

  /** Submits everything whose arrival has passed. */
  method SubmitArrivals(cv: Conversion, s: FifoScheduler, ws: seq<WorkloadRequest>, ghost slack: nat)
    requires s.Valid() && WellFormed(ws) && Originates(cv, s.requests, ws) && AllTimely(s.requests, slack)
    modifies s`requests, s`waiting
    ensures s.Valid() && Originates(cv, s.requests, ws) && AllTimely(s.requests, slack)
    ensures Submitted(cv, old(s.requests), s.requests, s.clock.now, ws)
    ensures if |s.requests| == |old(s.requests)| then s.waiting == old(s.waiting) else s.waiting != []
    ensures |s.requests| < |ws| ==> !Due(cv, ws[|s.requests|].arrival, s.clock.now)
  {
    ghost var rs, w0 := s.requests, s.waiting;
    while |s.requests| < |ws| && Due(cv, ws[|s.requests|].arrival, s.clock.now)
      invariant s.Valid() && Originates(cv, s.requests, ws) && AllTimely(s.requests, slack)
      invariant Submitted(cv, rs, s.requests, s.clock.now, ws)
      invariant if |s.requests| == |rs| then s.waiting == w0 else s.waiting != []
      decreases |ws| - |s.requests|
    {
      ghost var mid := s.requests;
      SubmitNext(cv, s, ws, slack);
      SubmittedOneMore(cv, rs, mid, s.requests, s.clock.now, ws);
    }
  }

  /** One tick of the driver: the budget of live requests shrinks, and the clock pays for the work done. */
  method TickOnce(ghost cv: Conversion, s: FifoScheduler, ws: seq<WorkloadRequest>, ghost slack: nat)
    returns (report: TickReport)
    requires Rigged(s) && Originates(cv, s.requests, ws) && (s.waiting != [] || s.decoding != [])
    requires AllTimely(s.requests, slack)
    modifies s`requests, s`waiting, s`decoding, s`handles, s.backend, s.clock
    ensures Rigged(s) && Originates(cv, s.requests, ws) && |s.requests| == |old(s.requests)|
    ensures Tally(Budget, s.requests) < Tally(Budget, old(s.requests))
    ensures s.clock.now == old(s.clock.now) + CostOf(report) && DECODE_COST <= CostOf(report)
    ensures CostOf(report) + Load(s.requests) <= Load(old(s.requests))
    ensures Accounted(old(s.requests), s.requests, [report]) && AllTimely(s.requests, Max(slack, CostOf(report)))
  {
    ghost var c := s.View();
    ghost var k := BusyHasLive(s);
    ghost var env;
    report, env := s.Tick();
    TickEffects(cv, c, env, ws, slack, CostOf(report), k);
  }

  /** Idle: jump the clock towards the next arrival. */
  method IdleJump(cv: Conversion, s: FifoScheduler, ws: seq<WorkloadRequest>) returns (d: nat)
    requires Sound(cv) && s.Valid() && |s.requests| < |ws| && !Due(cv, ws[|s.requests|].arrival, s.clock.now)
    modifies s.clock
    ensures s.Valid() && s.clock.now == old(s.clock.now) + d
    ensures d == JumpBy(cv, old(s.clock.now), ws[|s.requests|].arrival)
  {
    var a := ws[|s.requests|].arrival;
    JumpGoesForward(cv, s.clock.now, a);
    d := JumpBy(cv, s.clock.now, a);
    ghost var later := s.View().(now := s.clock.now + d);
    ClockKeepsLaid(s.View(), s.waiting, s.decoding, s.backend.sequences, {}, later.now);
    s.clock.Advance(d);
    assert s.View() == later;
  }

  /**
   * What one turn does to requests and clock: it is paced and accounted for, lowers the measure exactly if
   * the loop was not stuck, and when blocked changes no request and stays blocked.
   */
  ghost predicate Turned(
    cv: Conversion, before: seq<RequestData>, now: TimePoint, after: seq<RequestData>, later: TimePoint,
    ws: seq<WorkloadRequest>, reports: seq<TickReport>)
  {
    && |reports| <= 1 && Accounted(before, after, reports) && Paced(cv, before, now, after, later, ws)
    && (Below(MeasureOf(cv, after, later, ws), MeasureOf(cv, before, now, ws)) <==> !Stuck(cv, before, now, ws))
    && (Blocked(cv, before, now, ws) ==> Blocked(cv, after, later, ws) && after == before && reports == [])
  }

  lemma JumpIsTurn(cv: Conversion, rs: seq<RequestData>, now: TimePoint, ws: seq<WorkloadRequest>)
    requires Sound(cv) && |rs| < |ws| && !Due(cv, ws[|rs|].arrival, now)
    requires forall i | 0 <= i < |rs| :: rs[i].Terminal()
    ensures Turned(cv, rs, now, rs, now + JumpBy(cv, now, ws[|rs|].arrival), ws, [])
  {
    JumpLowers(cv, rs, now, ws);
  }

  lemma WorkIsTurn(
    cv: Conversion, before: seq<RequestData>, mid: seq<RequestData>, after: seq<RequestData>, now: TimePoint,
    later: TimePoint, report: TickReport, ws: seq<WorkloadRequest>, k: nat)
    requires Submitted(cv, before, mid, now, ws) && |after| == |mid|
    requires Tally(Budget, after) < Tally(Budget, mid) && k < |mid| && mid[k].Live()
    requires later == now + CostOf(report)
    requires DECODE_COST <= CostOf(report) && CostOf(report) + Load(after) <= Load(mid)
    requires Accounted(mid, after, [report])
    ensures Turned(cv, before, now, after, later, ws, [report]) && !Blocked(cv, before, now, ws)
    ensures later == now + TotalCost([report]) && MaxCost([report]) == CostOf(report)
  {
    AccountedThen(before, mid, after, [], [report]);
    assert [] + [report] == [report];
    TickLowers(cv, before, mid, after, now, later, ws);
    TotalCostOfOne(report);
    MaxCostGrows([], report);
  }

  /** The part of a turn with something to do; `before` is from the start of the turn. */
  method Work(
    ghost cv: Conversion, s: FifoScheduler, ws: seq<WorkloadRequest>, ghost before: seq<RequestData>, ghost slack: nat)
    returns (reports: seq<TickReport>)
    requires Rigged(s) && Originates(cv, s.requests, ws) && (s.waiting != [] || s.decoding != [])
    requires AllTimely(s.requests, slack) && Submitted(cv, before, s.requests, s.clock.now, ws)
    modifies s`requests, s`waiting, s`decoding, s`handles, s.backend, s.clock
    ensures Rigged(s) && Originates(cv, s.requests, ws) && |reports| == 1
    ensures AllTimely(s.requests, Max(slack, MaxCost(reports)))
    ensures s.clock.now == old(s.clock.now) + TotalCost(reports)
    ensures Turned(cv, before, old(s.clock.now), s.requests, s.clock.now, ws, reports)
    ensures !Blocked(cv, before, old(s.clock.now), ws)
  {
    ghost var mid, now := s.requests, s.clock.now;
    ghost var k := BusyHasLive(s);
    var report := TickOnce(cv, s, ws, slack);
    WorkIsTurn(cv, before, mid, s.requests, now, s.clock.now, report, ws, k);
    reports := [report];
  }

  /** What is true of the driver at the head of its loop. */
  ghost predicate AtHead(cv: Conversion, s: FifoScheduler, ws: seq<WorkloadRequest>, slack: nat)
    reads s, s.backend, s.clock
  {
    Rigged(s) && WellFormed(ws) && Originates(cv, s.requests, ws) && AllTimely(s.requests, slack)
  }

  /**
   * Once round the driver loop.  The measure goes down exactly if the loop is not stuck; and when it is
   * blocked, the turn does nothing but move the clock to the cast arrival, which stays ahead.
   */
  method Iterate(cv: Conversion, s: FifoScheduler, ws: seq<WorkloadRequest>, ghost slack: nat)
    returns (reports: seq<TickReport>, idle: nat)
    requires Sound(cv) && AtHead(cv, s, ws, slack)
    requires Unfinished(s, ws)
    modifies s`requests, s`waiting, s`decoding, s`handles, s.backend, s.clock
    ensures AtHead(cv, s, ws, Max(slack, MaxCost(reports)))
    ensures s.clock.now == old(s.clock.now) + idle + TotalCost(reports)
    ensures Turned(cv, old(s.requests), old(s.clock.now), s.requests, s.clock.now, ws, reports)
    ensures Blocked(cv, old(s.requests), old(s.clock.now), ws) ==>
              s.waiting == old(s.waiting) && s.decoding == old(s.decoding) && s.handles == old(s.handles)
  {
    ghost var before := s.requests;
    SubmitArrivals(cv, s, ws, slack);
    if s.waiting != [] || s.decoding != [] {
      reports := Work(cv, s, ws, before, slack);
      idle := 0;
    } else {
      reports := [];
      QuietMeansDone(s);
      JumpIsTurn(cv, s.requests, s.clock.now, ws);
      idle := IdleJump(cv, s, ws);
    }
  }

  // ----- the loop -----

  /** At most n turns of the loop; a blocked loop is still running after all n, with nothing done. */
  method RunTurns(cv: Conversion, s: FifoScheduler, ws: seq<WorkloadRequest>, n: nat, ghost slack: nat)
    returns (turns: nat)
    requires Sound(cv) && AtHead(cv, s, ws, slack)
    modifies s`requests, s`waiting, s`decoding, s`handles, s.backend, s.clock
    ensures s.Valid() && turns <= n
    ensures turns < n ==> |s.requests| == |ws| && s.waiting == [] && s.decoding == []
    ensures Blocked(cv, old(s.requests), old(s.clock.now), ws) ==>
              turns == n && Blocked(cv, s.requests, s.clock.now, ws) && s.requests == old(s.requests)
  {
    ghost var rs, now, most := s.requests, s.clock.now, slack;
    turns := 0;
    while turns < n && Unfinished(s, ws)
      invariant AtHead(cv, s, ws, most) && turns <= n
      invariant Blocked(cv, rs, now, ws) ==> Blocked(cv, s.requests, s.clock.now, ws) && s.requests == rs
      decreases n - turns
    {
      var reports, _ := Iterate(cv, s, ws, most);
      most := Max(most, MaxCost(reports));
      turns := turns + 1;
    }
  }

  /** What a run not blocked so far says about workloads that get stranded, and those that cannot. */
  ghost predicate Foreseen(cv: Conversion, rs: seq<RequestData>, now: TimePoint, ws: seq<WorkloadRequest>) {
    && |rs| <= |ws| && CaughtUp(cv, rs, now, ws)
    && forall k: nat | Stranded(cv, ws, k) :: OnSchedule(cv, rs, now, ws, k)
  }

  lemma TurnIsForeseen(
    cv: Conversion, before: seq<RequestData>, now: TimePoint, after: seq<RequestData>, later: TimePoint,
    ws: seq<WorkloadRequest>)
    requires Sound(cv) && Foreseen(cv, before, now, ws) && AllPlaced(before)
    requires Paced(cv, before, now, after, later, ws) && !Blocked(cv, before, now, ws)
    ensures Foreseen(cv, after, later, ws)
  {
    TurnKeepsCaughtUp(cv, before, now, after, later, ws);
    forall k: nat | Stranded(cv, ws, k)
      ensures OnSchedule(cv, after, later, ws, k)
    {
      TurnKeepsSchedule(cv, before, now, after, later, ws, k);
    }
  }

  lemma StartIsForeseen(cv: Conversion, ws: seq<WorkloadRequest>)
    ensures Foreseen(cv, [], 0, ws)
  {
    forall k: nat | Stranded(cv, ws, k)
      ensures OnSchedule(cv, [], 0, ws, k)
    {
      StartsOnSchedule(cv, ws, k);
    }
  }

  /** What is kept at the head of the loop as long as it has not been blocked. */
  ghost predicate Running(
    cv: Conversion, s: FifoScheduler, ws: seq<WorkloadRequest>, reports: seq<TickReport>, idle: nat)
    reads s, s.backend, s.clock
  {
    && AtHead(cv, s, ws, MaxCost(reports)) && Booked(s.requests, s.clock.now, idle, reports)
    && Foreseen(cv, s.requests, s.clock.now, ws)
  }

  lemma StartsRunning(cv: Conversion, s: FifoScheduler, ws: seq<WorkloadRequest>)
    requires Rigged(s) && WellFormed(ws) && s.requests == [] && s.clock.now == 0
    ensures Running(cv, s, ws, [], 0)
  {
    StartIsForeseen(cv, ws);
  }

  lemma TurnFacts(
    cv: Conversion, before: seq<RequestData>, now: TimePoint, after: seq<RequestData>, later: TimePoint,
    ws: seq<WorkloadRequest>, reports: seq<TickReport>, idle: nat, ps: seq<TickReport>, more: nat)
    requires Sound(cv) && AllPlaced(before) && !Blocked(cv, before, now, ws)
    requires Booked(before, now, idle, reports) && Foreseen(cv, before, now, ws)
    requires Turned(cv, before, now, after, later, ws, ps) && later == now + more + TotalCost(ps)
    requires AllTimely(after, Max(MaxCost(reports), MaxCost(ps)))
    ensures Booked(after, later, idle + more, reports + ps) && Foreseen(cv, after, later, ws)
    ensures Below(MeasureOf(cv, after, later, ws), MeasureOf(cv, before, now, ws))
    ensures Tally(Budget, before) >= 0 && MeasureOf(cv, before, now, ws).distance >= 0
    ensures MaxCost(reports + ps) == Max(MaxCost(reports), MaxCost(ps))
  {
    MeasureIsNatural(cv, before, now, ws);
    MaxCostAfterTurn(reports, ps);
    BookTurn(before, now, idle, reports, after, more, ps);
    TurnIsForeseen(cv, before, now, after, later, ws);
  }

  /** One turn with the books kept, from a state that is not blocked. */
  method Turn(cv: Conversion, s: FifoScheduler, ws: seq<WorkloadRequest>, reports: seq<TickReport>, idle: nat)
    returns (reports': seq<TickReport>, idle': nat)
    requires Sound(cv) && Running(cv, s, ws, reports, idle) && Unfinished(s, ws) && !Idles(cv, s, ws)
    modifies s`requests, s`waiting, s`decoding, s`handles, s.backend, s.clock
    ensures Running(cv, s, ws, reports', idle')
    ensures Below(MeasureOf(cv, s.requests, s.clock.now, ws), MeasureOf(cv, old(s.requests), old(s.clock.now), ws))
    ensures Tally(Budget, old(s.requests)) >= 0 && MeasureOf(cv, old(s.requests), old(s.clock.now), ws).distance >= 0
  {
    ghost var before, t := s.requests, s.clock.now;
    IdlesMeansBlocked(cv, s, ws);
    var ps, more := Iterate(cv, s, ws, MaxCost(reports));
    TurnFacts(cv, before, t, s.requests, s.clock.now, ws, reports, idle, ps, more);
    reports', idle' := reports + ps, idle + more;
    assert AtHead(cv, s, ws, MaxCost(reports'));
  }

  /**
   * The driver loop.  It is left where the original leaves it, or where the original can leave it no
   * more; so it always ends, which the loop of the original does only in the first case.
   */
  method Drive(cv: Conversion, s: FifoScheduler, ws: seq<WorkloadRequest>)
    returns (reports: seq<TickReport>, idle: nat, turns: nat)
    requires Sound(cv) && Rigged(s) && WellFormed(ws) && s.requests == [] && s.clock.now == 0
    modifies s`requests, s`waiting, s`decoding, s`handles, s.backend, s.clock
    ensures Running(cv, s, ws, reports, idle)
    ensures if |s.requests| == |ws| then s.waiting == [] && s.decoding == []
            else Blocked(cv, s.requests, s.clock.now, ws)
  {
    reports, idle, turns := [], 0, 0;
    StartsRunning(cv, s, ws);
    while Unfinished(s, ws) && !Idles(cv, s, ws)
      invariant Running(cv, s, ws, reports, idle)
      decreases |ws| - |s.requests|, Tally(Budget, s.requests), MeasureOf(cv, s.requests, s.clock.now, ws).distance
    {
      reports, idle := Turn(cv, s, ws, reports, idle);
      turns := turns + 1;
    }
    IdlesMeansBlocked(cv, s, ws);
  }

  method Snapshot(s: FifoScheduler) returns (summaries: seq<RequestSummary>)
    ensures |summaries| == |s.requests| && forall i | 0 <= i < |summaries| :: summaries[i] == Summarize(s.requests[i])
  {
    summaries := [];
    var i := 0;
    while i < |s.requests|
      invariant 0 <= i <= |s.requests| && |summaries| == i
      invariant forall j | 0 <= j < i :: summaries[j] == Summarize(s.requests[j])
    {
      summaries := summaries + [Summarize(s.requests[i])];
      i := i + 1;
    }
  }

  /** How a simulation comes out: ended, or still in its loop after that many turns. */
  datatype Outcome =
    | Ended(reports: seq<TickReport>, summaries: seq<RequestSummary>, clock: TimePoint, idle: nat)
    | StillRunning(turns: nat)

  /**
   * The summary of a workload record: terminal, within budget, admitted once due, and with the deadline of the
   * record counted from the admission.
   */
  ghost predicate AnswersTo(cv: Conversion, m: RequestSummary, w: WorkloadRequest) {
    && m.id == w.id && IsTerminal(m.finalState)
    && m.outputTokensEmitted <= m.maxOutputTokens == w.maxTokens
    && m.admittedAt.Some? && Due(cv, w.arrival, m.admittedAt.value)
    && m.deadlineAt == m.admittedAt.value + cv.cast(w.deadline)
  }

  lemma SummaryAnswers(cv: Conversion, r: RequestData, w: WorkloadRequest, now: TimePoint)
    requires MadeFrom(cv, r, w) && RequestOk(r, now) && r.Terminal()
    ensures AnswersTo(cv, Summarize(r), w)
  {
  }

  /** What a finished simulation has to show for itself; `final` are the requests behind the summaries. */
  ghost predicate Accomplished(cv: Conversion, o: Outcome, ws: seq<WorkloadRequest>, final: seq<RequestData>)
    requires o.Ended?
  {
    && |final| == |ws| && Originates(cv, final, ws)
    && |o.summaries| == |ws|
    && (forall i | 0 <= i < |ws| :: o.summaries[i] == Summarize(final[i]) && final[i].Terminal())
    && (forall i | 0 <= i < |ws| :: AnswersTo(cv, o.summaries[i], ws[i]))
    && Clean(o.summaries)
    && AllCounting(final)
    && Booked(final, o.clock, o.idle, o.reports)
  }

  method Conclude(
    ghost cv: Conversion, s: FifoScheduler, ghost ws: seq<WorkloadRequest>, reports: seq<TickReport>, idle: nat)
    returns (o: Outcome)
    requires s.Valid() && Originates(cv, s.requests, ws) && Booked(s.requests, s.clock.now, idle, reports)
    requires |s.requests| == |ws| && s.waiting == [] && s.decoding == []
    ensures o.Ended? && Accomplished(cv, o, ws, s.requests)
    ensures forall h: Handle :: s.backend.releases[h] == if h < s.backend.nextSequenceId then 1 else 0
  {
    QuietMeansDone(s);
    s.backend.ReleasedExactlyOnce();
    var summaries := Snapshot(s);
    TerminalIsClean(s.requests, s.clock.now, summaries);
    forall i | 0 <= i < |ws|
      ensures AnswersTo(cv, summaries[i], ws[i])
    {
      assert RequestOk(s.requests[i], s.clock.now);
      SummaryAnswers(cv, s.requests[i], ws[i], s.clock.now);
    }
    o := Ended(reports, summaries, s.clock.now, idle);
  }

  /**
   * The whole simulation.  On every well-formed workload it either ends, with every request terminal,
   * nothing for the checker to find, every failure, completion and token accounted for, every handle minted
   * released exactly once and the clock equal to the idle time plus the cost of all work; or it gets
   * blocked, and then no number of further turns ends the loop.  It ends if every arrival is reachable or
   * trails its predecessor by at most a decode, and it does not if some unreachable arrival comes later
   * than everything before it can last.
   */
  method RunSimulation(cv: Conversion, ws: seq<WorkloadRequest>, patience: nat)
    returns (o: Outcome, ghost final: seq<RequestData>, ghost now: TimePoint, ghost minted: nat,
             ghost releases: multiset<Handle>)
    requires Sound(cv) && WellFormed(ws)
    ensures o.Ended? ==> Accomplished(cv, o, ws, final)
    ensures o.Ended? ==> forall h: Handle :: releases[h] == if h < minted then 1 else 0
    ensures o.StillRunning? ==> o.turns >= patience && Blocked(cv, final, now, ws)
    ensures Unhindered(cv, ws) ==> o.Ended?
    ensures (exists k: nat :: Stranded(cv, ws, k)) ==> o.StillRunning?
  {
    var clock := new FakeClock(0);
    var backend := new MockBackend(clock, PREFILL_COST, DECODE_COST);
    var s := new FifoScheduler(backend, clock);
    var reports, idle, turns := Drive(cv, s, ws);
    if |s.requests| == |ws| {
      o := Conclude(cv, s, ws, reports, idle);
    } else {
      if Unhindered(cv, ws) {
        UnhinderedIsNotBlocked(cv, s.requests, clock.now, ws);
      }
      var more := RunTurns(cv, s, ws, patience, MaxCost(reports));
      o := StillRunning(turns + more);
    }
    final, now, minted, releases := s.requests, clock.now, backend.nextSequenceId, backend.releases;
  }

  /** A concrete workload that never ends: one request, due half a tick after the start. */
  method HalfTickNeverEnds(patience: nat) returns (o: Outcome)
    ensures o.StillRunning? && o.turns >= patience
  {
    ExactIsSound();
    var ws := [WorkloadRequest("r", 0.000_000_5, [], 1, 0.0)];
    ExactlyReachable(ws[0].arrival);
    assert Stranded(EXACT, ws, 0);
    ghost var final, now, minted, releases;
    o, final, now, minted, releases := RunSimulation(EXACT, ws, patience);
  }

  /** Simulating and then checking never reports a violation. */
  method SimulateAndCheck(cv: Conversion, ws: seq<WorkloadRequest>, patience: nat)
    returns (o: Outcome, violations: seq<Violation>)
    requires Sound(cv) && WellFormed(ws)
    ensures Unhindered(cv, ws) ==> o.Ended?
    ensures o.Ended? ==>
              && |o.summaries| == |ws|
              && (forall i | 0 <= i < |ws| :: AnswersTo(cv, o.summaries[i], ws[i]))
              && violations == []
    ensures o.StillRunning? ==> o.turns >= patience
  {
    ghost var final, now, minted, releases;
    o, final, now, minted, releases := RunSimulation(cv, ws, patience);
    violations := [];
    if o.Ended? {
      violations := CheckInvariants(o.summaries);
    }
  }
}
