/**
 * The engine thread, its clients and its consumers as one state machine (src/http/engine.cpp).  Every
 * step is one lock region or one turn of a loop over engine-private state, so every interleaving of
 * the real threads is a run of steps.
 */
module Engines {
  import opened Clocks
  import opened Lifecycle
  import opened Requests
  import opened Scheduling
  import opened TokenChannels

  type ChannelId = nat

  datatype Submission = Submission(id: RequestId, prompt: seq<nat>, maxTokens: nat, deadline: int, channel: ChannelId)

  /** `request` stands for the pointer; `ticks` and `lastPushAt` are history the engine does not store. */
  datatype Entry = Entry(
    request: nat,
    channel: ChannelId,
    lastSeen: nat,
    backpressureSince: Option<TimePoint>,
    ticks: nat,
    lastPushAt: Option<TimePoint>)

  /** Where the engine thread is in its loop, with the local collections it is walking. */
  datatype Phase =
    | Top
    | Admitting(batch: seq<Submission>)
    | Cancelling(ids: seq<RequestId>)
    | Pushing(todo: set<RequestId>)
    | Evicting(late: set<RequestId>)
    | Reaping(done: set<RequestId>)

  datatype Closing = ByReap | ByCancel | ByEviction

  /** `owner` and `closedBy` are history: which request a channel was given to, and why it was closed. */
  datatype Engine = Engine(
    core: Core,
    pendingSubmissions: seq<Submission>,
    pendingCancels: seq<RequestId>,
    active: map<RequestId, Entry>,
    channels: map<ChannelId, Channel>,
    owner: map<ChannelId, nat>,
    closedBy: map<ChannelId, Closing>,
    phase: Phase,
    wall: TimePoint,
    timeout: nat)

  datatype Step =
    | OpenChannel(channel: ChannelId, capacity: nat)
    | ClientSubmit(submission: Submission)
    | ClientCancel(id: RequestId)
    | ConsumerPop(channel: ChannelId)
    | WallClock(now: TimePoint)
    | SwapSubmissions
    | Admit(at: TimePoint)
    | SwapCancels
    | CancelNext(at: TimePoint)
    | SkipTick
    | TickAll(env: Env)
    | PushNext(id: RequestId)
    | CheckBackpressure
    | EvictNext(id: RequestId, at: TimePoint)
    | CollectTerminal
    | ReapNext(id: RequestId)
    | EndIteration

  // ----- what the steps do -----

  /** All accepted submissions not admitted yet, oldest first. */
  function Waiting(e: Engine): seq<Submission> {
    (if e.phase.Admitting? then e.phase.batch else []) + e.pendingSubmissions
  }

  predicate IsBlank(ch: Channel) {
    ch.Stream() == [] && !ch.closed
  }

  /** The event pushed for the i-th output token of a request. */
  function EventFor(r: RequestData, i: nat): TokenEvent
    requires i < |r.output|
  {
    TokenEvent(r.output[i],
               if r.Terminal() && i == r.emitted - 1 then (if r.emitted >= r.maxTokens then Length else Stop)
               else NotFinished)
  }

  /** Terminal with every token delivered. */
  predicate IsFinished(x: Entry, rs: seq<RequestData>) {
    x.request < |rs| && rs[x.request].Terminal() && x.lastSeen >= rs[x.request].emitted
  }

  predicate IsOverdue(x: Entry, wall: TimePoint, timeout: nat) {
    x.backpressureSince.Some? && wall - x.backpressureSince.value >= timeout
  }

  function FinishedIds(active: map<RequestId, Entry>, rs: seq<RequestData>): set<RequestId> {
    set id | id in active && IsFinished(active[id], rs)
  }

  function OverdueIds(active: map<RequestId, Entry>, wall: TimePoint, timeout: nat): set<RequestId> {
    set id | id in active && IsOverdue(active[id], wall, timeout)
  }

  /** All entries one tick older. */
  function Aged(active: map<RequestId, Entry>): map<RequestId, Entry> {
    map id | id in active :: active[id].(ticks := active[id].ticks + 1)
  }

  ghost predicate Enabled(e: Engine, s: Step) {
    match s
    case OpenChannel(c, _) => c !in e.channels
    case ClientSubmit(sub) =>
      && sub.maxTokens >= 1
      && sub.id !in e.active && (forall i | 0 <= i < |Waiting(e)| :: Waiting(e)[i].id != sub.id)
      && sub.channel in e.channels && IsBlank(e.channels[sub.channel]) && sub.channel !in e.owner
      && (forall i | 0 <= i < |Waiting(e)| :: Waiting(e)[i].channel != sub.channel)
    case ClientCancel(_) => true
    case ConsumerPop(c) => c in e.channels && e.channels[c].CanPop()
    case WallClock(now) => e.wall <= now
    case SwapSubmissions => e.phase.Top?
    case Admit(at) => e.phase.Admitting? && e.phase.batch != [] && e.core.now <= at
    case SwapCancels => e.phase.Admitting? && e.phase.batch == []
    case CancelNext(at) => e.phase.Cancelling? && e.phase.ids != [] && e.core.now <= at
    case SkipTick => e.phase.Cancelling? && e.phase.ids == [] && e.active == map[]
    case TickAll(env) =>
      && e.phase.Cancelling? && e.phase.ids == [] && e.active != map[] && AllHaveRoom(e.core.requests)
      && EnvOk(e.core, env)
    case PushNext(id) =>
      && e.phase.Pushing? && id in e.phase.todo && id in e.active
      && e.active[id].request < |e.core.requests| && e.active[id].channel in e.channels
    case CheckBackpressure => e.phase.Pushing? && e.phase.todo == {}
    case EvictNext(id, at) =>
      && e.phase.Evicting? && id in e.phase.late && id in e.active && e.active[id].channel in e.channels
      && e.core.now <= at
    case CollectTerminal => e.phase.Evicting? && e.phase.late == {}
    case ReapNext(id) => e.phase.Reaping? && id in e.phase.done && id in e.active && e.active[id].channel in e.channels
    case EndIteration => e.phase.Reaping? && e.phase.done == {}
  }

  /** Closing the channel of an active entry and forgetting the entry. */
  function Drop(e: Engine, id: RequestId, why: Closing): Engine
    requires id in e.active && e.active[id].channel in e.channels
  {
    var c := e.active[id].channel;
    e.(active := e.active - {id}, channels := e.channels[c := e.channels[c].Close()], closedBy := e.closedBy[c := why])
  }

  function AdmitFirst(e: Engine, at: TimePoint): Engine
    requires e.phase.Admitting? && e.phase.batch != []
  {
    var s := e.phase.batch[0];
    e.(core := Submit(e.core, NewRequest(s.id, at, s.deadline, s.maxTokens, s.prompt), at),
       active := e.active[s.id := Entry(|e.core.requests|, s.channel, 0, None, 0, None)],
       owner := e.owner[s.channel := |e.core.requests|],
       phase := Admitting(e.phase.batch[1..]))
  }

  ghost function CancelFirst(e: Engine, at: TimePoint): Engine
    requires e.phase.Cancelling? && e.phase.ids != []
  {
    var id := e.phase.ids[0];
    var d := e.(core := Cancel(e.core, id, at), phase := Cancelling(e.phase.ids[1..]));
    if id in e.active && e.active[id].channel in e.channels then Drop(d, id, ByCancel) else d
  }

  function MoveOn(e: Engine, id: RequestId): Engine
    requires e.phase.Pushing?
  {
    e.(phase := Pushing(e.phase.todo - {id}))
  }

  /** The entry's next token goes into its channel. */
  function Delivered(e: Engine, id: RequestId, event: TokenEvent): Engine
    requires id in e.active && e.active[id].channel in e.channels && e.channels[e.active[id].channel].CanPush()
  {
    var x := e.active[id];
    e.(channels := e.channels[x.channel := e.channels[x.channel].Push(event)],
       active := e.active[id := x.(lastSeen := x.lastSeen + 1, backpressureSince := None, lastPushAt := Some(e.wall))])
  }

  /** The entry's channel refused a token. */
  function Refused(e: Engine, id: RequestId): Engine
    requires id in e.active
  {
    var x := e.active[id];
    var since := if x.backpressureSince.None? then Some(e.wall) else x.backpressureSince;
    e.(active := e.active[id := x.(backpressureSince := since)])
  }

  /** One turn of the push loop for one entry: deliver its next token, or note backpressure, or move on. */
  ghost function PushOne(e: Engine, id: RequestId): Engine
    requires Enabled(e, PushNext(id))
  {
    var x := e.active[id];
    var r := e.core.requests[x.request];
    if x.lastSeen >= r.emitted || x.lastSeen >= |r.output| then MoveOn(e, id)
    else if e.channels[x.channel].CanPush() then Delivered(e, id, EventFor(r, x.lastSeen))
    else MoveOn(Refused(e, id), id)
  }

  ghost function Do(e: Engine, s: Step): Engine
    requires Enabled(e, s)
  {
    match s
    case OpenChannel(c, capacity) => e.(channels := e.channels[c := NewChannel(capacity)])
    case ClientSubmit(sub) => e.(pendingSubmissions := e.pendingSubmissions + [sub])
    case ClientCancel(id) => e.(pendingCancels := e.pendingCancels + [id])
    case ConsumerPop(c) => e.(channels := e.channels[c := e.channels[c].Pop()])
    case WallClock(now) => e.(wall := now)
    case SwapSubmissions => e.(phase := Admitting(e.pendingSubmissions), pendingSubmissions := [])
    case Admit(at) => AdmitFirst(e, at)
    case SwapCancels => e.(phase := Cancelling(e.pendingCancels), pendingCancels := [])
    case CancelNext(at) => CancelFirst(e, at)
    case SkipTick => e.(phase := Top)
    case TickAll(env) => e.(core := Tick(e.core, env), active := Aged(e.active), phase := Pushing(e.active.Keys))
    case PushNext(id) => PushOne(e, id)
    case CheckBackpressure => e.(phase := Evicting(OverdueIds(e.active, e.wall, e.timeout)))
    case EvictNext(id, at) =>
      Drop(e.(core := Cancel(e.core, id, at), phase := Evicting(e.phase.late - {id})), id, ByEviction)
    case CollectTerminal => e.(phase := Reaping(FinishedIds(e.active, e.core.requests)))
    case ReapNext(id) => Drop(e.(phase := Reaping(e.phase.done - {id})), id, ByReap)
    case EndIteration => e.(phase := Top)
  }

  // ----- invariants -----

  function ReasonAtEnd(r: RequestData): FinishReason {
    if r.emitted >= r.maxTokens then Length else Stop
  }

  /**
   * A stream delivers a prefix of the output.  Only the last output token of a finished request is
   * marked, with Length exactly when the budget was used up; and a completed request's last token is.
   */
  ghost predicate StreamOk(evs: seq<TokenEvent>, r: RequestData) {
    && |evs| <= |r.output|
    && (forall i | 0 <= i < |evs| :: evs[i].token == r.output[i])
    && (forall i | 0 <= i < |evs| && evs[i].reason != NotFinished ::
          r.Terminal() && i == |r.output| - 1 && evs[i].reason == ReasonAtEnd(r))
    && (r.Is(Completed) && |evs| == |r.output| && evs != [] ==> evs[|evs| - 1].reason != NotFinished)
  }

  /** The channel can hold the whole output whether or not anybody reads it. */
  predicate Roomy(ch: Channel, r: RequestData) {
    ch.capacity >= r.maxTokens
  }

  predicate InPush(e: Engine, id: RequestId) {
    e.phase.Pushing? && id in e.phase.todo
  }

  ghost predicate EntryOk(e: Engine, id: RequestId)
    requires id in e.active
  {
    var x := e.active[id];
    && x.request < |e.core.requests| && e.core.requests[x.request].id == id
    && x.channel in e.channels && x.channel in e.owner && e.owner[x.channel] == x.request
    && !e.channels[x.channel].closed && !e.core.requests[x.request].Is(Cancelled)
    && x.lastSeen == |e.channels[x.channel].Stream()|
    && PressureOk(x, e.core.requests[x.request], e.channels[x.channel], e.wall)
    && (!InPush(e, id) ==> (x.backpressureSince.Some? <==> x.lastSeen < |e.core.requests[x.request].output|))
    && (e.core.requests[x.request].Live() ==> e.core.requests[x.request].emitted == x.ticks)
  }

  /**
   * Backpressure is only noted against undelivered tokens, never before the last delivery, and only once
   * as many tokens have been delivered as the channel holds.
   */
  ghost predicate PressureOk(x: Entry, r: RequestData, ch: Channel, wall: TimePoint) {
    && (x.lastPushAt.Some? ==> x.lastPushAt.value <= wall)
    && (x.backpressureSince.Some? ==>
          && ch.capacity <= x.lastSeen < |r.output| && x.backpressureSince.value <= wall
          && (x.lastPushAt.Some? ==> x.lastPushAt.value <= x.backpressureSince.value))
  }

  ghost predicate ChannelOk(e: Engine, c: ChannelId)
    requires c in e.owner
  {
    && c in e.channels && e.owner[c] < |e.core.requests|
    && var ch := e.channels[c]; var r := e.core.requests[e.owner[c]];
    && StreamOk(ch.Stream(), r)
    && (ch.closed <==> c in e.closedBy)
    && (if ch.closed then r.Terminal() else r.id in e.active && e.active[r.id].channel == c)
    && (c in e.closedBy && e.closedBy[c].ByReap? ==> |ch.Stream()| == |r.output|)
    && (c in e.closedBy && e.closedBy[c].ByEviction? ==> !Roomy(ch, r))
  }

  ghost predicate AllEntries(e: Engine) {
    forall id {:trigger EntryOk(e, id)} | id in e.active :: EntryOk(e, id)
  }

  ghost predicate AllChannels(e: Engine) {
    forall c {:trigger ChannelOk(e, c)} | c in e.owner :: ChannelOk(e, c)
  }

  /** Each live request has an active entry, and that entry points to it. */
  ghost predicate AllLiveTracked(core: Core, active: map<RequestId, Entry>) {
    forall i | 0 <= i < |core.requests| && core.requests[i].Live() ::
      core.requests[i].id in active && active[core.requests[i].id].request == i
  }

  ghost predicate WaitingOk(e: Engine) {
    var q := Waiting(e);
    && (forall i | 0 <= i < |q| ::
          && q[i].maxTokens >= 1 && q[i].id !in e.active
          && q[i].channel in e.channels && IsBlank(e.channels[q[i].channel]) && q[i].channel !in e.owner)
    && (forall i, j | 0 <= i < j < |q| :: q[i].id != q[j].id && q[i].channel != q[j].channel)
  }

  predicate Reapable(e: Engine, id: RequestId) {
    id in e.active && IsFinished(e.active[id], e.core.requests)
  }

  predicate Overdue(e: Engine, id: RequestId) {
    id in e.active && IsOverdue(e.active[id], e.wall, e.timeout)
  }

  ghost predicate PhaseOk(e: Engine) {
    match e.phase
    case Pushing(todo) => todo <= e.active.Keys
    case Evicting(late) => forall id | id in late :: Overdue(e, id)
    case Reaping(done) =>
      && (forall id | id in done :: Reapable(e, id))
      && (forall id | id in e.active && Reapable(e, id) :: id in done)
    case _ => forall id | id in e.active :: !Reapable(e, id)
  }

  ghost predicate EngineInv(e: Engine) {
    && Inv(e.core)
    && AllEntries(e)
    && AllChannels(e)
    && AllLiveTracked(e.core, e.active)
    && WaitingOk(e)
    && PhaseOk(e)
    && e.closedBy.Keys <= e.owner.Keys
  }
}
