/**
 * Runs of the engine with one request, built step by step: with a positive timeout, on every channel whose
 * capacity is neither zero nor within one of the budget, a failed request can end up with a Stop mark in
 * its stream.
 */
module EngineWitness {
  import opened Clocks
  import opened Lifecycle
  import opened Requests
  import opened Backend
  import opened Scheduling
  import opened TokenChannels
  import opened Engines
  import opened EngineProofs
  import opened EngineTraces
  import opened EngineTheorems
  import opened EngineMarks

  const ID: RequestId := "r"

  /** The parameters of a run: channel capacity, token budget, the two clocks and the timeout. */
  datatype Setting = Setting(capacity: nat, maxTokens: nat, now: TimePoint, wall: TimePoint, timeout: nat)

  /** An engine that tracks one request on channel 0 and has nothing pending. */
  function Solo(g: Setting, core: Core, ch: Channel, x: Entry, phase: Phase): Engine {
    Engine(core, [], [], map[ID := x], map[0 := ch], map[0 := 0], map[], phase, g.wall, g.timeout)
  }

  /** The scheduler owns just the request, in state `s` with `n` tokens out. */
  ghost predicate Alone(g: Setting, core: Core, s: State, n: nat) {
    && |core.requests| == 1 && core.now == g.now
    && var r := core.requests[0];
    && r.id == ID && r.Is(s) && r.emitted == |r.output| == n && r.maxTokens == g.maxTokens && r.deadlineAt == g.now
  }

  // ----- ticks -----

  function Minting(g: Setting): Env {
    Env(g.now, map[ID := Minted(0)], g.now, map[ID := Decoded(0, false)], g.now)
  }

  function Token(g: Setting): Env {
    Env(g.now, map[], g.now, map[ID := Decoded(0, false)], g.now)
  }

  function Failing(g: Setting): Env {
    Env(g.now, map[], g.now, map[ID := DecodeError(NO_OUTCOME)], g.now)
  }

  lemma TickMints(g: Setting, core: Core)
    requires Alone(g, core, WaitingPrefill, 0) && core.handles == map[] && g.maxTokens >= 2
    ensures AllHaveRoom(core.requests) && EnvOk(core, Minting(g)) && Alone(g, Tick(core, Minting(g)), Decoding, 1)
  {
    assert HasRoom(core.requests[0]);
  }

  lemma TickDecodes(g: Setting, core: Core, n: nat)
    requires Alone(g, core, Decoding, n) && n + 1 < g.maxTokens
    ensures AllHaveRoom(core.requests) && EnvOk(core, Token(g)) && Alone(g, Tick(core, Token(g)), Decoding, n + 1)
  {
    assert HasRoom(core.requests[0]);
  }

  lemma TickFails(g: Setting, core: Core, n: nat)
    requires Alone(g, core, Decoding, n) && n < g.maxTokens
    ensures AllHaveRoom(core.requests) && EnvOk(core, Failing(g)) && Alone(g, Tick(core, Failing(g)), Failed, n)
  {
    assert HasRoom(core.requests[0]);
  }

  // ----- single steps -----

  lemma SoloTick(g: Setting, core: Core, ch: Channel, x: Entry, env: Env)
    requires AllHaveRoom(core.requests) && EnvOk(core, env)
    ensures Becomes(Solo(g, core, ch, x, Cancelling([])), TickAll(env),
                    Solo(g, Tick(core, env), ch, x.(ticks := x.ticks + 1), Pushing({ID})))
  {
    var e := Solo(g, core, ch, x, Cancelling([]));
    assert ID in e.active;
    assert Aged(e.active) == map[ID := x.(ticks := x.ticks + 1)];
    assert e.active.Keys == {ID};
  }

  ghost predicate Pushable(core: Core, x: Entry) {
    && x.request == 0 && x.channel == 0 && |core.requests| == 1
    && core.requests[0].emitted == |core.requests[0].output|
  }

  lemma SoloDeliver(g: Setting, core: Core, ch: Channel, x: Entry)
    requires Pushable(core, x) && x.lastSeen < core.requests[0].emitted && ch.CanPush()
    ensures Becomes(Solo(g, core, ch, x, Pushing({ID})), PushNext(ID),
                    Solo(g, core, ch.Push(EventFor(core.requests[0], x.lastSeen)),
                         x.(lastSeen := x.lastSeen + 1, backpressureSince := None, lastPushAt := Some(g.wall)),
                         Pushing({ID})))
  {
  }

  lemma SoloMoveOn(g: Setting, core: Core, ch: Channel, x: Entry)
    requires Pushable(core, x) && x.lastSeen >= core.requests[0].emitted
    ensures Becomes(Solo(g, core, ch, x, Pushing({ID})), PushNext(ID), Solo(g, core, ch, x, Pushing({})))
  {
    assert {ID} - {ID} == {};
  }

  lemma SoloRefuse(g: Setting, core: Core, ch: Channel, x: Entry)
    requires Pushable(core, x) && x.lastSeen < core.requests[0].emitted && !ch.CanPush() && x.backpressureSince.None?
    ensures Becomes(Solo(g, core, ch, x, Pushing({ID})), PushNext(ID),
                    Solo(g, core, ch, x.(backpressureSince := Some(g.wall)), Pushing({})))
  {
    assert {ID} - {ID} == {};
  }

  lemma SoloPop(g: Setting, core: Core, ch: Channel, x: Entry, phase: Phase)
    requires ch.buffer != []
    ensures Becomes(Solo(g, core, ch, x, phase), ConsumerPop(0), Solo(g, core, ch.Pop(), x, phase))
  {
  }

  // ----- one iteration -----

  lemma SoloPasses(g: Setting, core: Core, ch: Channel, x: Entry)
    requires x.request == 0 && |core.requests| == 1 && core.requests[0].Live() && !IsOverdue(x, g.wall, g.timeout)
    ensures Becomes(Solo(g, core, ch, x, Pushing({})), CheckBackpressure, Solo(g, core, ch, x, Evicting({})))
    ensures Becomes(Solo(g, core, ch, x, Evicting({})), CollectTerminal, Solo(g, core, ch, x, Reaping({})))
  {
    var e := Solo(g, core, ch, x, Pushing({}));
    assert OverdueIds(e.active, g.wall, g.timeout) == {};
    assert FinishedIds(e.active, core.requests) == {};
  }

  lemma SoloTurns(g: Setting, core: Core, ch: Channel, x: Entry)
    ensures Becomes(Solo(g, core, ch, x, Reaping({})), EndIteration, Solo(g, core, ch, x, Top))
    ensures Becomes(Solo(g, core, ch, x, Top), SwapSubmissions, Solo(g, core, ch, x, Admitting([])))
    ensures Becomes(Solo(g, core, ch, x, Admitting([])), SwapCancels, Solo(g, core, ch, x, Cancelling([])))
  {
  }

  /** From the end of a push pass to the next tick, with the request live and no timeout reached. */
  lemma NextRound(g: Setting, core: Core, ch: Channel, x: Entry) returns (steps: seq<Step>)
    requires x.request == 0 && |core.requests| == 1 && core.requests[0].Live() && !IsOverdue(x, g.wall, g.timeout)
    ensures Leads(Solo(g, core, ch, x, Pushing({})), steps, Solo(g, core, ch, x, Cancelling([])), 0)
  {
    var e := Solo(g, core, ch, x, Pushing({}));
    SoloPasses(g, core, ch, x);
    SoloTurns(g, core, ch, x);
    OneMore(e, [], e, 0, CheckBackpressure, Solo(g, core, ch, x, Evicting({})));
    steps := [CheckBackpressure];
    OneMore(e, steps, Solo(g, core, ch, x, Evicting({})), 0, CollectTerminal, Solo(g, core, ch, x, Reaping({})));
    steps := steps + [CollectTerminal];
    OneMore(e, steps, Solo(g, core, ch, x, Reaping({})), 0, EndIteration, Solo(g, core, ch, x, Top));
    steps := steps + [EndIteration];
    OneMore(e, steps, Solo(g, core, ch, x, Top), 0, SwapSubmissions, Solo(g, core, ch, x, Admitting([])));
    steps := steps + [SwapSubmissions];
    OneMore(e, steps, Solo(g, core, ch, x, Admitting([])), 0, SwapCancels, Solo(g, core, ch, x, Cancelling([])));
    steps := steps + [SwapCancels];
  }

  /** About to tick with k tokens out, all of them in the channel's buffer. */
  ghost predicate Ready(g: Setting, core: Core, ch: Channel, x: Entry, k: nat) {
    && (if k == 0 then Alone(g, core, WaitingPrefill, 0) && core.handles == map[] else Alone(g, core, Decoding, k))
    && ch.capacity == g.capacity && !ch.closed && ch.popped == [] && |ch.buffer| == k
    && x.request == 0 && x.channel == 0 && x.lastSeen == k && x.backpressureSince.None?
  }

  lemma TickForToken(g: Setting, core: Core, ch: Channel, x: Entry, k: nat) returns (core': Core, s: Step)
    requires Ready(g, core, ch, x, k) && k + 1 < g.maxTokens
    ensures s.TickAll? && Alone(g, core', Decoding, k + 1)
    ensures Becomes(Solo(g, core, ch, x, Cancelling([])), s,
                    Solo(g, core', ch, x.(ticks := x.ticks + 1), Pushing({ID})))
  {
    var env := if k == 0 then Minting(g) else Token(g);
    if k == 0 {
      TickMints(g, core);
    } else {
      TickDecodes(g, core, k);
    }
    SoloTick(g, core, ch, x, env);
    core', s := Tick(core, env), TickAll(env);
  }

  /** The push pass over an entry whose one new token fits. */
  lemma PushPass(g: Setting, core: Core, ch: Channel, x: Entry) returns (ch': Channel, x': Entry, steps: seq<Step>)
    requires Pushable(core, x) && x.lastSeen + 1 == core.requests[0].emitted && ch.CanPush()
    ensures ch' == ch.Push(EventFor(core.requests[0], x.lastSeen))
    ensures x' == x.(lastSeen := x.lastSeen + 1, backpressureSince := None, lastPushAt := Some(g.wall))
    ensures Leads(Solo(g, core, ch, x, Pushing({ID})), steps, Solo(g, core, ch', x', Pushing({})), 0)
  {
    var e := Solo(g, core, ch, x, Pushing({ID}));
    ch' := ch.Push(EventFor(core.requests[0], x.lastSeen));
    x' := x.(lastSeen := x.lastSeen + 1, backpressureSince := None, lastPushAt := Some(g.wall));
    var f := Solo(g, core, ch', x', Pushing({ID}));
    SoloDeliver(g, core, ch, x);
    OneMore(e, [], e, 0, PushNext(ID), f);
    SoloMoveOn(g, core, ch', x');
    steps := [PushNext(ID)];
    OneMore(e, steps, f, 0, PushNext(ID), Solo(g, core, ch', x', Pushing({})));
    steps := steps + [PushNext(ID)];
  }

  /** An iteration whose token still fits. */
  lemma DeliverRound(g: Setting, core: Core, ch: Channel, x: Entry, k: nat)
    returns (core': Core, ch': Channel, x': Entry, steps: seq<Step>)
    requires Ready(g, core, ch, x, k) && k < g.capacity && k + 1 < g.maxTokens
    ensures Ready(g, core', ch', x', k + 1)
    ensures Leads(Solo(g, core, ch, x, Cancelling([])), steps, Solo(g, core', ch', x', Cancelling([])), 1)
  {
    var e := Solo(g, core, ch, x, Cancelling([]));
    var s, more;
    core', s := TickForToken(g, core, ch, x, k);
    var y := x.(ticks := x.ticks + 1);
    var d := Solo(g, core', ch, y, Pushing({ID}));
    OneMore(e, [], e, 0, s, d);
    steps := [s];
    ch', x', more := PushPass(g, core', ch, y);
    var f := Solo(g, core', ch', x', Pushing({}));
    LeadsOn(e, steps, d, 1, more, f, 0);
    steps := steps + more;
    more := NextRound(g, core', ch', x');
    LeadsOn(e, steps, f, 1, more, Solo(g, core', ch', x', Cancelling([])), 0);
    steps := steps + more;
  }

  /** Iterations until the buffer is full. */
  lemma {:induction false} FillRounds(g: Setting, core: Core, ch: Channel, x: Entry, k: nat)
    returns (core': Core, ch': Channel, x': Entry, steps: seq<Step>)
    requires Ready(g, core, ch, x, k) && k <= g.capacity && g.capacity + 1 < g.maxTokens
    ensures Ready(g, core', ch', x', g.capacity)
    ensures Leads(Solo(g, core, ch, x, Cancelling([])), steps, Solo(g, core', ch', x', Cancelling([])), g.capacity - k)
    decreases g.capacity - k
  {
    var e := Solo(g, core, ch, x, Cancelling([]));
    if k == g.capacity {
      core', ch', x', steps := core, ch, x, [];
    } else {
      var core1, ch1, x1, first := DeliverRound(g, core, ch, x, k);
      var more;
      core', ch', x', more := FillRounds(g, core1, ch1, x1, k + 1);
      LeadsOn(e, first, Solo(g, core1, ch1, x1, Cancelling([])), 1,
              more, Solo(g, core', ch', x', Cancelling([])), g.capacity - (k + 1));
      steps := first + more;
    }
  }

  /** About to tick with exactly one token refused by a full channel. */
  ghost predicate OneRefused(g: Setting, core: Core, ch: Channel, x: Entry) {
    && Alone(g, core, Decoding, g.capacity + 1)
    && ch.capacity == g.capacity && !ch.closed && ch.popped == [] && |ch.buffer| == g.capacity
    && x.request == 0 && x.channel == 0 && x.lastSeen == g.capacity
  }

  lemma RefuseRound(g: Setting, core: Core, ch: Channel, x: Entry) returns (core': Core, x': Entry, steps: seq<Step>)
    requires Ready(g, core, ch, x, g.capacity) && g.capacity + 1 < g.maxTokens && g.timeout >= 1
    ensures OneRefused(g, core', ch, x')
    ensures Leads(Solo(g, core, ch, x, Cancelling([])), steps, Solo(g, core', ch, x', Cancelling([])), 1)
  {
    var e := Solo(g, core, ch, x, Cancelling([]));
    var s;
    core', s := TickForToken(g, core, ch, x, g.capacity);
    var y := x.(ticks := x.ticks + 1);
    var d := Solo(g, core', ch, y, Pushing({ID}));
    OneMore(e, [], e, 0, s, d);
    x' := y.(backpressureSince := Some(g.wall));
    SoloRefuse(g, core', ch, y);
    var f := Solo(g, core', ch, x', Pushing({}));
    OneMore(e, [s], d, 1, PushNext(ID), f);
    steps := [s] + [PushNext(ID)];
    var more := NextRound(g, core', ch, x');
    LeadsOn(e, steps, f, 1, more, Solo(g, core', ch, x', Cancelling([])), 0);
    steps := steps + more;
  }

  /** A failed request whose stream carries a Stop mark, on a channel of the given capacity. */
  ghost predicate Misled(e: Engine, capacity: nat, maxTokens: nat) {
    exists c, i :: MarkedStop(e, c, i) && Owner(e, c).Is(Failed)
                   && e.channels[c].capacity == capacity && Owner(e, c).maxTokens == maxTokens
  }

  ghost predicate MarkedStop(e: Engine, c: ChannelId, i: nat) {
    && c in e.owner && c in e.channels && e.owner[c] < |e.core.requests|
    && i < |e.channels[c].Stream()| && e.channels[c].Stream()[i].reason.Stop?
  }

  /** The next tick fails the request; the consumer makes room; the refused token goes out marked. */
  lemma FailAndMark(g: Setting, core: Core, ch: Channel, x: Entry) returns (f: Engine, steps: seq<Step>)
    requires OneRefused(g, core, ch, x) && 1 <= g.capacity && g.capacity + 2 <= g.maxTokens
    ensures Leads(Solo(g, core, ch, x, Cancelling([])), steps, f, 1) && Misled(f, g.capacity, g.maxTokens)
  {
    var e := Solo(g, core, ch, x, Cancelling([]));
    TickFails(g, core, g.capacity + 1);
    var core', y, s := Tick(core, Failing(g)), x.(ticks := x.ticks + 1), TickAll(Failing(g));
    SoloTick(g, core, ch, x, Failing(g));
    var d := Solo(g, core', ch, y, Pushing({ID}));
    OneMore(e, [], e, 0, s, d);
    SoloPop(g, core', ch, y, Pushing({ID}));
    var popped := ch.Pop();
    PopKeepsStream(ch);
    var d' := Solo(g, core', popped, y, Pushing({ID}));
    OneMore(e, [s], d, 1, ConsumerPop(0), d');
    SoloDeliver(g, core', popped, y);
    f := Do(d', PushNext(ID));
    OneMore(e, [s] + [ConsumerPop(0)], d', 1, PushNext(ID), f);
    steps := [s] + [ConsumerPop(0)] + [PushNext(ID)];
    PushExtendsStream(popped, EventFor(core'.requests[0], g.capacity));
    assert MarkedStop(f, 0, g.capacity);
  }

  // ----- from the start -----

  lemma SoloAdmit(g: Setting, sub: Submission, ch: Channel)
    requires sub.id == ID && sub.channel == 0
    ensures var e := Start(g.now, g.wall, g.timeout);
            var core := Submit(e.core, NewRequest(ID, g.now, sub.deadline, sub.maxTokens, sub.prompt), g.now);
            Becomes(e.(channels := map[0 := ch], phase := Admitting([sub])), Admit(g.now),
                    Solo(g, core, ch, Entry(0, 0, 0, None, 0, None), Admitting([])))
  {
    var e := Start(g.now, g.wall, g.timeout).(channels := map[0 := ch], phase := Admitting([sub]));
    var x := Entry(0, 0, 0, None, 0, None);
    assert e.active[ID := x] == map[ID := x];
    assert e.owner[0 := 0] == map[0 := 0];
    assert [sub][1..] == [];
  }

  lemma Opening(g: Setting) returns (core: Core, ch: Channel, x: Entry, steps: seq<Step>)
    requires g.maxTokens >= 1
    ensures Ready(g, core, ch, x, 0)
    ensures Leads(Start(g.now, g.wall, g.timeout), steps, Solo(g, core, ch, x, Cancelling([])), 0)
  {
    var e := Start(g.now, g.wall, g.timeout);
    var sub := Submission(ID, [], g.maxTokens, 0, 0);
    ch, x := NewChannel(g.capacity), Entry(0, 0, 0, None, 0, None);
    core := Submit(e.core, NewRequest(ID, g.now, 0, g.maxTokens, []), g.now);
    var open := e.(channels := map[0 := ch]);
    assert Becomes(e, OpenChannel(0, g.capacity), open);
    OneMore(e, [], e, 0, OpenChannel(0, g.capacity), open);
    steps := [OpenChannel(0, g.capacity)];
    var submitted := open.(pendingSubmissions := [sub]);
    assert Becomes(open, ClientSubmit(sub), submitted);
    OneMore(e, steps, open, 0, ClientSubmit(sub), submitted);
    steps := steps + [ClientSubmit(sub)];
    var draining := open.(phase := Admitting([sub]));
    assert Becomes(submitted, SwapSubmissions, draining);
    OneMore(e, steps, submitted, 0, SwapSubmissions, draining);
    steps := steps + [SwapSubmissions];
    SoloAdmit(g, sub, ch);
    OneMore(e, steps, draining, 0, Admit(g.now), Solo(g, core, ch, x, Admitting([])));
    steps := steps + [Admit(g.now)];
    SoloTurns(g, core, ch, x);
    OneMore(e, steps, Solo(g, core, ch, x, Admitting([])), 0, SwapCancels, Solo(g, core, ch, x, Cancelling([])));
    steps := steps + [SwapCancels];
  }

  /** For every other capacity there is a run from the start that marks a failed request Stop. */
  lemma FailureGetsStopMark(g: Setting) returns (steps: seq<Step>)
    requires 1 <= g.capacity && g.capacity + 2 <= g.maxTokens && g.timeout >= 1
    ensures IsTrace(Start(g.now, g.wall, g.timeout), steps)
    ensures Misled(Trace(Start(g.now, g.wall, g.timeout), steps), g.capacity, g.maxTokens)
  {
    var e := Start(g.now, g.wall, g.timeout);
    var core, ch, x, more, f;
    core, ch, x, steps := Opening(g);
    var d := Solo(g, core, ch, x, Cancelling([]));
    core, ch, x, more := FillRounds(g, core, ch, x, 0);
    LeadsOn(e, steps, d, 0, more, Solo(g, core, ch, x, Cancelling([])), g.capacity);
    d, steps := Solo(g, core, ch, x, Cancelling([])), steps + more;
    core, x, more := RefuseRound(g, core, ch, x);
    LeadsOn(e, steps, d, g.capacity, more, Solo(g, core, ch, x, Cancelling([])), 1);
    d, steps := Solo(g, core, ch, x, Cancelling([])), steps + more;
    f, more := FailAndMark(g, core, ch, x);
    LeadsOn(e, steps, d, g.capacity + 1, more, f, 1);
    steps := steps + more;
  }

  ghost predicate Misleads(g: Setting, steps: seq<Step>) {
    && IsTrace(Start(g.now, g.wall, g.timeout), steps)
    && Misled(Trace(Start(g.now, g.wall, g.timeout), steps), g.capacity, g.maxTokens)
  }

  /** In an engine with that timeout, some run from some start marks a failed request Stop. */
  ghost predicate CanMislead(capacity: nat, maxTokens: nat, timeout: nat) {
    exists now: TimePoint, wall: TimePoint, steps: seq<Step> ::
      Misleads(Setting(capacity, maxTokens, now, wall, timeout), steps)
  }

  /** Exactly the truthful settings rule out a Stop mark on a failed request. */
  lemma StopMisleadsExactly(capacity: nat, maxTokens: nat, timeout: nat)
    ensures CanMislead(capacity, maxTokens, timeout) <==> !Truthful(capacity, maxTokens, timeout)
  {
    if !Truthful(capacity, maxTokens, timeout) {
      var g := Setting(capacity, maxTokens, 0, 0, timeout);
      var steps := FailureGetsStopMark(g);
      assert Misleads(g, steps);
    }
    if CanMislead(capacity, maxTokens, timeout) {
      var now: TimePoint, wall: TimePoint, steps: seq<Step> :|
        Misleads(Setting(capacity, maxTokens, now, wall, timeout), steps);
      var f := Trace(Start(now, wall, timeout), steps);
      var c, i :| MarkedStop(f, c, i) && Owner(f, c).Is(Failed)
                  && f.channels[c].capacity == capacity && Owner(f, c).maxTokens == maxTokens;
      StopIsTruthful(now, wall, timeout, steps, c, i);
    }
  }
}
