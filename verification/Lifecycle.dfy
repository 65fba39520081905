/** The injected time source (src/common/clock.cpp).  Time is counted in clock ticks. */
module Clocks {
  type TimePoint = int

  class FakeClock {
    var now: TimePoint

    constructor (start: TimePoint)
      ensures now == start
    {
      now := start;
    }

    method Advance(d: int)
      requires d >= 0
      modifies this
      ensures now == old(now) + d
    {
      now := now + d;
    }
  }
}

/** Request states, their legal transitions and the timestamps they leave behind (src/request/state.cpp). */
module Lifecycle {
  import opened Clocks

  datatype Option<+T> = None | Some(value: T)

  datatype State =
    | Received | Admitted | WaitingPrefill | Prefilling | WaitingDecode | Decoding
    | Completed | Rejected | Cancelled | Failed

  predicate IsTerminal(s: State) {
    s.Completed? || s.Rejected? || s.Cancelled? || s.Failed?
  }

  predicate IsValidTransition(from: State, to: State) {
    match from
    case Received => to.Admitted? || to.Rejected? || to.Cancelled?
    case Admitted => to.WaitingPrefill? || to.Cancelled?
    case WaitingPrefill => to.Prefilling? || to.Cancelled?
    case Prefilling => to.WaitingDecode? || to.Failed? || to.Cancelled?
    case WaitingDecode => to.Decoding? || to.Cancelled?
    case Decoding => to.Completed? || to.Failed? || to.Cancelled?
    case _ => false
  }

  /** The value of a RequestLifecycle's fields. */
  datatype Timeline = Timeline(
    state: State,
    enteredAt: TimePoint,
    entries: map<State, TimePoint>,
    admittedAt: Option<TimePoint>,
    firstTokenAt: Option<TimePoint>,
    completedAt: Option<TimePoint>)

  function NewTimeline(now: TimePoint): Timeline {
    Timeline(Received, now, map[], None, None, None)
  }

  function EntryTime(l: Timeline, s: State): Option<TimePoint> {
    if s in l.entries then Some(l.entries[s]) else None
  }

  /** An illegal transition aborts the process, so legality is demanded of the caller. */
  function Enter(l: Timeline, to: State, now: TimePoint): Timeline
    requires IsValidTransition(l.state, to)
  {
    Timeline(to, now, l.entries[to := now],
             if to.Admitted? then Some(now) else l.admittedAt,
             l.firstTokenAt,
             if to.Completed? then Some(now) else l.completedAt)
  }

  function CancelTimeline(l: Timeline, now: TimePoint): Timeline {
    if IsTerminal(l.state) then l else Enter(l, Cancelled, now)
  }

  function MarkFirstToken(l: Timeline, now: TimePoint): Timeline
    requires l.state.Decoding?
  {
    if l.firstTokenAt.None? then l.(firstTokenAt := Some(now)) else l
  }

  /** Depth of a state in the lifecycle graph; every legal transition goes strictly down. */
  function Depth(s: State): nat {
    match s
    case Received => 0
    case Admitted => 1
    case WaitingPrefill => 2
    case Prefilling => 3
    case WaitingDecode => 4
    case Decoding => 5
    case _ => 6
  }

  lemma TransitionsDescend(from: State, to: State)
    requires IsValidTransition(from, to)
    ensures Depth(from) < Depth(to) && !IsTerminal(from) && !to.Received?
  {
  }

  /**
   * The transition graph told by depth: a request may be cancelled from any non-terminal state, goes down
   * the main line one step at a time, completes from its end, fails while it is being worked on and is
   * rejected only at the door.  Terminal states are those with no way out.
   */
  lemma TransitionsAreExactly(from: State, to: State)
    ensures IsValidTransition(from, to) <==>
              || (to.Cancelled? && Depth(from) < 6)
              || (Depth(to) == Depth(from) + 1 && Depth(to) < 6)
              || (to.Completed? && from.Decoding?)
              || (to.Failed? && (from.Prefilling? || from.Decoding?))
              || (to.Rejected? && from.Received?)
    ensures IsTerminal(from) <==> forall s :: !IsValidTransition(from, s)
  {
    assert IsValidTransition(from, Cancelled) || IsTerminal(from);
  }

  /** Of the states on the main line, exactly those down to depth n have been entered. */
  predicate Through(l: Timeline, n: nat) {
    && (Admitted in l.entries <==> n >= 1) && (WaitingPrefill in l.entries <==> n >= 2)
    && (Prefilling in l.entries <==> n >= 3) && (WaitingDecode in l.entries <==> n >= 4)
    && (Decoding in l.entries <==> n >= 5)
  }

  /** Which states a request has been through, given the one it is in. */
  predicate PathOk(l: Timeline) {
    && Received !in l.entries
    && (Completed in l.entries <==> l.state.Completed?) && (Rejected in l.entries <==> l.state.Rejected?)
    && (Cancelled in l.entries <==> l.state.Cancelled?) && (Failed in l.entries <==> l.state.Failed?)
    && match l.state
       case Completed => Through(l, 5)
       case Failed => Through(l, 3) || Through(l, 5)
       case Rejected => Through(l, 0)
       case Cancelled =>
         Through(l, 0) || Through(l, 1) || Through(l, 2) || Through(l, 3) || Through(l, 4) || Through(l, 5)
       case s => Through(l, Depth(s))
  }

  /** Who has been in a state of the main line has been in all states before it. */
  lemma PathIsDownward(l: Timeline, a: State, b: State)
    requires PathOk(l) && 0 < Depth(a) <= Depth(b) <= 5 && b in l.entries
    ensures a in l.entries
  {
  }

  lemma EnterKeepsPath(l: Timeline, to: State, now: TimePoint)
    requires PathOk(l) && IsValidTransition(l.state, to)
    ensures PathOk(Enter(l, to, now))
  {
  }

  /** What every reachable timeline satisfies at clock reading `now`. */
  ghost predicate TimelineOk(l: Timeline, now: TimePoint) {
    && l.enteredAt <= now
    && (if l.state.Received? then l.entries == map[] else EntryTime(l, l.state) == Some(l.enteredAt))
    && (forall s | s in l.entries :: s == l.state || Depth(s) < Depth(l.state))
    && (forall s, t | s in l.entries && t in l.entries && Depth(s) <= Depth(t) :: l.entries[s] <= l.entries[t])
    && l.admittedAt == EntryTime(l, Admitted)
    && l.completedAt == EntryTime(l, Completed)
    && (l.firstTokenAt.Some? ==>
          && Decoding in l.entries
          && l.entries[Decoding] <= l.firstTokenAt.value <= now
          && (!l.state.Decoding? ==> l.firstTokenAt.value <= l.enteredAt))
  }

  lemma EnterOrders(l: Timeline, to: State, now: TimePoint, later: TimePoint, s: State)
    requires TimelineOk(l, now) && now <= later && IsValidTransition(l.state, to) && s in l.entries
    ensures Depth(s) < Depth(to) && l.entries[s] <= later
  {
    TransitionsDescend(l.state, to);
    assert l.entries[s] <= l.entries[l.state];
  }

  /** A legal transition enters a state never entered before and keeps the timeline coherent. */
  lemma EnterOk(l: Timeline, to: State, now: TimePoint, later: TimePoint)
    requires TimelineOk(l, now) && now <= later && IsValidTransition(l.state, to)
    ensures to !in l.entries
    ensures TimelineOk(Enter(l, to, later), later)
    ensures forall s | s in l.entries :: EntryTime(Enter(l, to, later), s) == EntryTime(l, s)
  {
    TransitionsDescend(l.state, to);
    forall s | s in l.entries
      ensures Depth(s) < Depth(to) && l.entries[s] <= later
    {
      EnterOrders(l, to, now, later, s);
    }
  }

  /** One thing that can happen to a lifecycle: a transition, or a produced token. */
  datatype Event = Transition(to: State, at: TimePoint) | TokenMade(at: TimePoint)

  predicate Legal(l: Timeline, e: Event) {
    match e
    case Transition(to, _) => IsValidTransition(l.state, to)
    case TokenMade(_) => l.state.Decoding?
  }

  function Apply(l: Timeline, e: Event): Timeline
    requires Legal(l, e)
  {
    match e
    case Transition(to, at) => Enter(l, to, at)
    case TokenMade(at) => MarkFirstToken(l, at)
  }

  /** `es` is a run from `l`, starting at clock reading `now`, with legal events and a monotone clock. */
  ghost predicate IsHistory(l: Timeline, now: TimePoint, es: seq<Event>)
    decreases |es|
  {
    es == [] || (now <= es[0].at && Legal(l, es[0]) && IsHistory(Apply(l, es[0]), es[0].at, es[1..]))
  }

  ghost function Replay(l: Timeline, now: TimePoint, es: seq<Event>): Timeline
    requires IsHistory(l, now, es)
    decreases |es|
  {
    if es == [] then l else Replay(Apply(l, es[0]), es[0].at, es[1..])
  }

  function EndTime(now: TimePoint, es: seq<Event>): TimePoint {
    if es == [] then now else es[|es| - 1].at
  }

  lemma ApplyOk(l: Timeline, now: TimePoint, e: Event)
    requires TimelineOk(l, now) && now <= e.at && Legal(l, e)
    ensures TimelineOk(Apply(l, e), e.at)
    ensures forall s | s in l.entries :: EntryTime(Apply(l, e), s) == EntryTime(l, s)
    ensures l.firstTokenAt.Some? ==> Apply(l, e).firstTokenAt == l.firstTokenAt
    ensures !IsTerminal(l.state)
  {
    if e.Transition? {
      EnterOk(l, e.to, now, e.at);
    }
  }

  /** After any legal run the timeline is coherent and nothing recorded before the run is overwritten. */
  lemma {:induction false} HistoryIsKept(l: Timeline, now: TimePoint, es: seq<Event>)
    requires TimelineOk(l, now) && IsHistory(l, now, es)
    ensures TimelineOk(Replay(l, now, es), EndTime(now, es))
    ensures forall s | s in l.entries :: EntryTime(Replay(l, now, es), s) == EntryTime(l, s)
    ensures l.firstTokenAt.Some? ==> Replay(l, now, es).firstTokenAt == l.firstTokenAt
    decreases |es|
  {
    if es != [] {
      ApplyOk(l, now, es[0]);
      HistoryIsKept(Apply(l, es[0]), es[0].at, es[1..]);
    }
  }

  /** Over any run of a new request, the states it has been through are those on the way to where it is. */
  lemma {:induction false} PathIsComplete(l: Timeline, now: TimePoint, es: seq<Event>)
    requires PathOk(l) && IsHistory(l, now, es)
    ensures PathOk(Replay(l, now, es))
    decreases |es|
  {
    if es != [] {
      if es[0].Transition? {
        EnterKeepsPath(l, es[0].to, es[0].at);
      }
      PathIsComplete(Apply(l, es[0]), es[0].at, es[1..]);
    }
  }

  lemma NewPathOk(now: TimePoint)
    ensures PathOk(NewTimeline(now))
  {
  }

  /** Each transition of a run enters a state not entered before and stays recorded under its own time. */
  lemma {:induction false} TransitionIsRecorded(l: Timeline, now: TimePoint, es: seq<Event>, i: nat)
    requires TimelineOk(l, now) && IsHistory(l, now, es) && i < |es| && es[i].Transition?
    ensures es[i].to !in l.entries
    ensures EntryTime(Replay(l, now, es), es[i].to) == Some(es[i].at)
    decreases |es|
  {
    ApplyOk(l, now, es[0]);
    if i == 0 {
      EnterOk(l, es[0].to, now, es[0].at);
      HistoryIsKept(Apply(l, es[0]), es[0].at, es[1..]);
    } else {
      TransitionIsRecorded(Apply(l, es[0]), es[0].at, es[1..], i - 1);
    }
  }

  /** No state is entered twice in a run. */
  lemma {:induction false} NoStateTwice(l: Timeline, now: TimePoint, es: seq<Event>, i: nat, j: nat)
    requires TimelineOk(l, now) && IsHistory(l, now, es) && i < j < |es| && es[i].Transition? && es[j].Transition?
    ensures es[i].to != es[j].to
    decreases |es|
  {
    var l1, rest := Apply(l, es[0]), es[1..];
    ApplyOk(l, now, es[0]);
    if i > 0 {
      NoStateTwice(l1, es[0].at, rest, i - 1, j - 1);
    } else {
      TransitionIsRecorded(l1, es[0].at, rest, j - 1);
    }
  }

  /** Conversely, every entry of the final map was there before the run or is a transition of the run. */
  lemma {:induction false} EntriesComeFromTransitions(l: Timeline, now: TimePoint, es: seq<Event>, s: State)
    requires TimelineOk(l, now) && IsHistory(l, now, es)
    requires s in Replay(l, now, es).entries && s !in l.entries
    ensures Transition(s, Replay(l, now, es).entries[s]) in es
    decreases |es|
  {
    if es != [] {
      ApplyOk(l, now, es[0]);
      HistoryIsKept(Apply(l, es[0]), es[0].at, es[1..]);
      if s !in Apply(l, es[0]).entries {
        EntriesComeFromTransitions(Apply(l, es[0]), es[0].at, es[1..], s);
      }
    }
  }

  /** Terminal timelines are frozen: the only legal run from one is the empty run. */
  lemma TerminalIsFrozen(l: Timeline, now: TimePoint, es: seq<Event>)
    requires IsTerminal(l.state) && IsHistory(l, now, es)
    ensures es == [] && CancelTimeline(l, now) == l
  {
  }

  /** The mutable lifecycle object; every method is the timeline function of the same name. */
  class RequestLifecycle {
    const clock: FakeClock
    var state: State
    var enteredAt: TimePoint
    var stateEnteredAt: map<State, TimePoint>
    var admittedAt: Option<TimePoint>
    var firstTokenAt: Option<TimePoint>
    var completedAt: Option<TimePoint>

    constructor (clock: FakeClock)
      ensures this.clock == clock && View() == NewTimeline(clock.now)
      ensures TimelineOk(View(), clock.now)
    {
      this.clock := clock;
      state, enteredAt, stateEnteredAt := Received, clock.now, map[];
      admittedAt, firstTokenAt, completedAt := None, None, None;
    }

    ghost function View(): Timeline
      reads this
    {
      Timeline(state, enteredAt, stateEnteredAt, admittedAt, firstTokenAt, completedAt)
    }

    method TransitionTo(to: State)
      requires IsValidTransition(state, to)
      requires TimelineOk(View(), clock.now)
      modifies this
      ensures View() == Enter(old(View()), to, clock.now)
      ensures TimelineOk(View(), clock.now)
      ensures state == to && enteredAt == clock.now && stateEnteredAt == old(stateEnteredAt)[to := clock.now]
    {
      EnterOk(View(), to, clock.now, clock.now);
      state := to;
      enteredAt := clock.now;
      stateEnteredAt := stateEnteredAt[to := enteredAt];
      match to {
        case Admitted => admittedAt := Some(enteredAt);
        case Completed => completedAt := Some(enteredAt);
        case _ =>
      }
    }

    method Cancel()
      requires TimelineOk(View(), clock.now)
      modifies this
      ensures View() == CancelTimeline(old(View()), clock.now)
      ensures TimelineOk(View(), clock.now) && IsTerminal(state)
    {
      if IsTerminal(state) {
        return;
      }
      TransitionTo(Cancelled);
    }

    method RecordFirstToken()
      requires state.Decoding?
      requires TimelineOk(View(), clock.now)
      modifies this
      ensures View() == MarkFirstToken(old(View()), clock.now)
      ensures TimelineOk(View(), clock.now)
    {
      if firstTokenAt.None? {
        firstTokenAt := Some(clock.now);
      }
    }

    method EnteredAt(s: State) returns (t: Option<TimePoint>)
      ensures t == EntryTime(View(), s)
    {
      if s !in stateEnteredAt {
        return None;
      }
      return Some(stateEnteredAt[s]);
    }
  }
}

/** A client request: identity, limits, lifecycle and output (src/request/request.cpp). */
module Requests {
  import opened Clocks
  import opened Lifecycle

  type RequestId = string

  datatype RequestData = RequestData(
    id: RequestId,
    prompt: seq<nat>,
    maxTokens: nat,
    deadlineAt: TimePoint,
    life: Timeline,
    emitted: nat,
    output: seq<nat>)
  {
    function Go(to: State, now: TimePoint): RequestData
      requires IsValidTransition(life.state, to)
    {
      this.(life := Enter(life, to, now))
    }

    predicate Is(s: State) { life.state == s }

    predicate Terminal() { IsTerminal(life.state) }

    predicate Live() { !Terminal() }
  }

  function NewRequest(id: RequestId, now: TimePoint, deadlineFromNow: int, maxTokens: nat,
                      prompt: seq<nat>): RequestData {
    RequestData(id, prompt, maxTokens, now + deadlineFromNow, NewTimeline(now), 0, [])
  }

  /** Emitting outside kDecoding or beyond the budget aborts, so both are demanded of the caller. */
  function Emit(r: RequestData, token: nat, now: TimePoint): RequestData
    requires r.life.state.Decoding? && r.emitted < r.maxTokens
  {
    r.(life := MarkFirstToken(r.life, now), emitted := r.emitted + 1, output := r.output + [token])
  }

  /** The counter counts the output, and the output stays within the budget. */
  ghost predicate OutputOk(r: RequestData) {
    r.emitted == |r.output| && r.emitted <= r.maxTokens
  }

  /** The mutable request object. */
  class Request {
    const id: RequestId
    const prompt: seq<nat>
    const maxTokens: nat
    const deadlineAt: TimePoint
    const lifecycle: RequestLifecycle
    var emitted: nat
    var output: seq<nat>

    constructor (id: RequestId, clock: FakeClock, deadlineFromNow: int, maxTokens: nat, prompt: seq<nat>)
      ensures View() == NewRequest(id, clock.now, deadlineFromNow, maxTokens, prompt)
      ensures fresh(lifecycle) && lifecycle.clock == clock && Valid()
    {
      this.id, this.prompt, this.maxTokens := id, prompt, maxTokens;
      deadlineAt := clock.now + deadlineFromNow;
      lifecycle := new RequestLifecycle(clock);
      emitted, output := 0, [];
    }

    ghost function View(): RequestData
      reads this, lifecycle
    {
      RequestData(id, prompt, maxTokens, deadlineAt, lifecycle.View(), emitted, output)
    }

    ghost predicate Valid()
      reads this, lifecycle, lifecycle.clock
    {
      OutputOk(View()) && TimelineOk(lifecycle.View(), lifecycle.clock.now)
    }

    method EmitToken(token: nat)
      requires Valid() && lifecycle.state.Decoding? && emitted < maxTokens
      modifies this, lifecycle
      ensures Valid() && View() == Emit(old(View()), token, lifecycle.clock.now)
      ensures output == old(output) + [token] && emitted == old(emitted) + 1
      ensures lifecycle.firstTokenAt == if old(lifecycle.firstTokenAt).None? then Some(lifecycle.clock.now)
                                        else old(lifecycle.firstTokenAt)
    {
      lifecycle.RecordFirstToken();
      emitted := emitted + 1;
      output := output + [token];
    }
  }
}
