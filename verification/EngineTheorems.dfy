/** What clients and consumers can rely on, in every reachable state and over every interleaving. */
module EngineTheorems {
  import opened Clocks
  import opened Lifecycle
  import opened Requests
  import opened Scheduling
  import opened TokenChannels
  import opened Engines
  import opened EngineProofs
  import opened EngineTraces

  function TokensOf(evs: seq<TokenEvent>): (ts: seq<nat>)
    ensures |ts| == |evs| && forall i | 0 <= i < |evs| :: ts[i] == evs[i].token
  {
    seq(|evs|, i requires 0 <= i < |evs| => evs[i].token)
  }

  /** The request a channel was given to. */
  ghost function Owner(e: Engine, c: ChannelId): RequestData
    requires c in e.owner && e.owner[c] < |e.core.requests|
  {
    e.core.requests[e.owner[c]]
  }

  // ----- streams -----

  /**
   * What a consumer has taken plus what is still buffered is exactly the first `lastSeen` tokens of the
   * output while the channel is open, always a prefix of the output, and all of it if the channel was
   * closed by reaping.
   */
  lemma StreamCorrectness(e: Engine, steps: seq<Step>, c: ChannelId)
    requires EngineInv(e) && IsTrace(e, steps) && c in Trace(e, steps).owner
    ensures var f := Trace(e, steps);
            && c in f.channels && f.owner[c] < |f.core.requests|
            && var ts, r := TokensOf(f.channels[c].Stream()), Owner(f, c);
            && ts <= r.output
            && (!f.channels[c].closed ==>
                  && r.id in f.active && f.active[r.id].lastSeen <= |r.output|
                  && ts == r.output[..f.active[r.id].lastSeen])
            && (c in f.closedBy && f.closedBy[c].ByReap? ==> r.Terminal() && ts == r.output)
  {
    TraceKeepsInv(e, steps);
    var f := Trace(e, steps);
    assert ChannelOk(f, c);
    if !f.channels[c].closed {
      assert EntryOk(f, Owner(f, c).id);
    }
  }

  predicate Marked(ev: TokenEvent) { ev.reason != NotFinished }

  /**
   * At most one event of a stream carries a finish reason, and it is that of the last output token,
   * Length exactly when the budget was used up; a completed request delivered in full has one.
   */
  lemma FinishReasons(e: Engine, steps: seq<Step>, c: ChannelId)
    requires EngineInv(e) && IsTrace(e, steps) && c in Trace(e, steps).owner
    ensures var f := Trace(e, steps);
            && c in f.channels && f.owner[c] < |f.core.requests|
            && var evs, r := f.channels[c].Stream(), Owner(f, c);
            && (forall i | 0 <= i < |evs| && Marked(evs[i]) ::
                  r.Terminal() && i == |r.output| - 1 && (evs[i].reason.Length? <==> r.emitted == r.maxTokens))
            && (r.Is(Completed) && |evs| == |r.output| ==> evs != [] && Marked(evs[|evs| - 1]))
  {
    TraceKeepsInv(e, steps);
    var f := Trace(e, steps);
    assert ChannelOk(f, c);
    assert RequestOk(Owner(f, c), f.core.now);
  }

  /**
   * kStop is meant for requests the backend ended.  It is also put on the last token of a request that
   * failed with exactly that token still undelivered, and on no other uncompleted request.
   */
  lemma StopMark(e: Engine, id: RequestId)
    requires EngineInv(e) && Enabled(e, PushNext(id))
    ensures EntryOk(e, id)
    ensures var x := e.active[id]; var r := e.core.requests[x.request];
            x.lastSeen < |r.output| ==>
              (EventFor(r, x.lastSeen).reason.Stop? && !r.Is(Completed) <==>
               r.Is(Failed) && x.lastSeen == |r.output| - 1)
  {
    assert EntryOk(e, id);
    assert RequestOk(e.core.requests[e.active[id].request], e.core.now);
  }

  // ----- coupling -----

  /**
   * Each live request has exactly one entry, pointing to it; with no entries the scheduler is idle and
   * holds no handle.
   */
  lemma EngineTracksScheduler(e: Engine, steps: seq<Step>)
    requires EngineInv(e) && IsTrace(e, steps)
    ensures var f := Trace(e, steps);
            && (forall i | 0 <= i < |f.core.requests| && f.core.requests[i].Live() ::
                  forall id | id in f.active :: f.active[id].request == i <==> id == f.core.requests[i].id)
            && (forall i | 0 <= i < |f.core.requests| && f.core.requests[i].Live() :: f.core.requests[i].id in f.active)
            && (f.active == map[] ==>
                  f.core.handles == map[] && forall i | 0 <= i < |f.core.requests| :: f.core.requests[i].Terminal())
  {
    TraceKeepsInv(e, steps);
    var f := Trace(e, steps);
    forall i, id | 0 <= i < |f.core.requests| && f.core.requests[i].Live() && id in f.active
      ensures f.active[id].request == i <==> id == f.core.requests[i].id
    {
      assert EntryOk(f, id);
    }
    if f.active == map[] {
      assert DecodingIds(f.core.requests) == {};
    }
  }

  /** The engine thread never finds its bookkeeping broken: each of its steps is enabled when its turn comes. */
  lemma EngineNeverStuck(e: Engine, id: RequestId)
    requires EngineInv(e)
    ensures e.phase.Pushing? && id in e.phase.todo ==> Enabled(e, PushNext(id))
    ensures e.phase.Evicting? && id in e.phase.late ==> Enabled(e, EvictNext(id, e.core.now))
    ensures e.phase.Evicting? && e.phase.late == {} ==> Enabled(e, CollectTerminal)
    ensures e.phase.Reaping? && id in e.phase.done ==> Enabled(e, ReapNext(id))
    ensures AllHaveRoom(e.core.requests)
  {
    if id in e.active {
      assert EntryOk(e, id);
    }
  }

  // ----- backpressure -----

  /** After a push pass an entry is under backpressure exactly if it has undelivered tokens. */
  lemma PushPassIsComplete(e: Engine, id: RequestId)
    requires EngineInv(e) && e.phase.Pushing? && e.phase.todo == {} && id in e.active
    ensures e.active[id].request < |e.core.requests|
    ensures e.active[id].backpressureSince.Some? <==>
              e.active[id].lastSeen < |e.core.requests[e.active[id].request].output|
  {
    assert EntryOk(e, id);
  }

  /** An evicted entry had undelivered tokens and no successful push for at least the timeout. */
  lemma EvictionIsJustified(e: Engine, id: RequestId, at: TimePoint)
    requires EngineInv(e) && Enabled(e, EvictNext(id, at))
    ensures e.active[id].request < |e.core.requests|
    ensures e.active[id].lastSeen < |e.core.requests[e.active[id].request].output|
    ensures e.active[id].backpressureSince.Some? && e.wall - e.active[id].backpressureSince.value >= e.timeout
    ensures e.active[id].lastPushAt.Some? ==> e.wall - e.active[id].lastPushAt.value >= e.timeout
  {
    assert EntryOk(e, id);
    assert Overdue(e, id);
  }

  // ----- cancellation -----

  /**
   * A cancel drained after its submission was admitted: when its turn is over the request is terminal,
   * its handle gone, its channel closed and its entry forgotten.
   */
  lemma CancelIsEffective(e: Engine, at: TimePoint)
    requires EngineInv(e) && Enabled(e, CancelNext(at)) && e.phase.ids[0] in e.active
    ensures var id := e.phase.ids[0]; var f := Do(e, CancelNext(at)); var x := e.active[id];
            && id !in f.active && id !in f.core.handles
            && (forall i | 0 <= i < |f.core.requests| && f.core.requests[i].id == id :: f.core.requests[i].Terminal())
            && x.channel in f.channels && f.channels[x.channel].closed
            && f.channels[x.channel].Stream() == e.channels[x.channel].Stream()
  {
    assert EntryOk(e, e.phase.ids[0]);
    CancelDrops(e.core, e.phase.ids[0], at);
  }

  /** A cancel drained before its submission was admitted changes nothing but the list being drained. */
  lemma EarlyCancelHasNoEffect(e: Engine, at: TimePoint)
    requires EngineInv(e) && Enabled(e, CancelNext(at)) && e.phase.ids[0] !in e.active
    ensures Do(e, CancelNext(at)) == e.(core := e.core.(now := at), phase := Cancelling(e.phase.ids[1..]))
  {
    CancelUntracked(e, e.phase.ids[0], at);
  }

  // ----- what a channel keeps from step to step -----

  /** How many ticks the entry behind an open channel has seen. */
  ghost function Age(e: Engine, c: ChannelId): nat
    requires c in e.owner && ChannelOk(e, c) && !e.channels[c].closed
  {
    e.active[Owner(e, c).id].ticks
  }

  ghost predicate Persists(e: Engine, f: Engine, c: ChannelId, ticks: nat)
    requires c in e.owner && ChannelOk(e, c)
  {
    && c in f.owner && f.owner[c] == e.owner[c] && ChannelOk(f, c)
    && f.channels[c].capacity == e.channels[c].capacity
    && SameIdentity(Owner(e, c), Owner(f, c))
    && (e.channels[c].closed ==>
          && f.channels[c].closed && f.channels[c].Stream() == e.channels[c].Stream() && Owner(f, c) == Owner(e, c)
          && c in e.closedBy && c in f.closedBy && f.closedBy[c] == e.closedBy[c])
    && (!f.channels[c].closed ==> !e.channels[c].closed && Age(f, c) == Age(e, c) + ticks)
  }

  lemma QuietPersists(e: Engine, f: Engine, c: ChannelId)
    requires AllEntries(e) && AllChannels(e) && c in e.owner && Quiet(e, f)
    ensures ChannelOk(e, c) && Persists(e, f, c, 0)
  {
    assert ChannelOk(e, c);
    QuietKeepsEntries(e, f);
    assert ChannelOk(f, c);
  }

  lemma AdmitPersists(e: Engine, s: Step, c: ChannelId)
    requires EngineInv(e) && s.Admit? && Enabled(e, s) && c in e.owner
    ensures ChannelOk(e, c) && Persists(e, Do(e, s), c, Beats(s))
  {
    assert ChannelOk(e, c);
    AdmitKeepsChannels(e, s.at);
    assert Waiting(e)[0] == e.phase.batch[0];
    var f := Do(e, s);
    assert c in f.owner;
    assert ChannelOk(f, c);
  }

  lemma TickPersists(e: Engine, s: Step, c: ChannelId)
    requires EngineInv(e) && s.TickAll? && Enabled(e, s) && c in e.owner
    ensures ChannelOk(e, c) && Persists(e, Do(e, s), c, Beats(s))
  {
    assert ChannelOk(e, c);
    TickKeepsChannels(e, s.env);
    assert ChannelOk(Do(e, s), c);
    TickedRequest(e.core, s.env, e.owner[c]);
  }

  lemma PushPersists(e: Engine, s: Step, c: ChannelId)
    requires EngineInv(e) && s.PushNext? && Enabled(e, s) && c in e.owner
    ensures ChannelOk(e, c) && Persists(e, Do(e, s), c, Beats(s))
  {
    assert ChannelOk(e, c);
    assert EntryOk(e, s.id);
    PushKeepsChannels(e, s.id);
    assert ChannelOk(PushOne(e, s.id), c);
  }

  lemma DropPersists(e: Engine, f: Engine, id: RequestId, why: Closing, c: ChannelId)
    requires EngineInv(e) && DropsTo(e, f, id, why) && c in e.owner
    ensures ChannelOk(e, c) && Persists(e, f, c, 0)
  {
    assert ChannelOk(e, c);
    assert EntryOk(e, id);
    DropKeepsChannels(e, f, id, why);
    assert ChannelOk(f, c);
  }

  lemma CancelPersists(e: Engine, s: Step, c: ChannelId)
    requires EngineInv(e) && s.CancelNext? && Enabled(e, s) && c in e.owner
    ensures ChannelOk(e, c) && Persists(e, Do(e, s), c, Beats(s))
  {
    var f, id := Do(e, s), e.phase.ids[0];
    assert ChannelOk(e, c);
    if id in e.active {
      CancelDropsEntry(e, s.at);
      DropPersists(e, f, id, ByCancel, c);
    } else {
      CancelUntracked(e, id, s.at);
      CoreClockKeepsEntries(e, f);
      assert ChannelOk(f, c);
    }
  }

  lemma RemovalPersists(e: Engine, s: Step, c: ChannelId)
    requires EngineInv(e) && (s.EvictNext? || s.ReapNext?) && Enabled(e, s) && c in e.owner
    ensures ChannelOk(e, c) && Persists(e, Do(e, s), c, Beats(s))
  {
    if s.EvictNext? {
      EvictDropsEntry(e, s.id, s.at);
      DropPersists(e, Do(e, s), s.id, ByEviction, c);
    } else {
      ReapDropsEntry(e, s.id);
      DropPersists(e, Do(e, s), s.id, ByReap, c);
    }
  }

  lemma PassivePersists(e: Engine, s: Step, c: ChannelId)
    requires EngineInv(e) && Passive(s) && Enabled(e, s) && c in e.owner
    ensures ChannelOk(e, c) && Persists(e, Do(e, s), c, Beats(s))
  {
    PassiveIsQuiet(e, s);
    QuietPersists(e, Do(e, s), c);
  }

  lemma StepPersists(e: Engine, s: Step, c: ChannelId)
    requires EngineInv(e) && Enabled(e, s) && c in e.owner
    ensures ChannelOk(e, c) && Persists(e, Do(e, s), c, Beats(s))
  {
    if s.Admit? {
      AdmitPersists(e, s, c);
    } else if s.TickAll? {
      TickPersists(e, s, c);
    } else if s.PushNext? {
      PushPersists(e, s, c);
    } else if s.CancelNext? {
      CancelPersists(e, s, c);
    } else if s.EvictNext? || s.ReapNext? {
      RemovalPersists(e, s, c);
    } else {
      PassivePersists(e, s, c);
    }
  }

  lemma {:induction false} TracePersists(e: Engine, steps: seq<Step>, c: ChannelId)
    requires EngineInv(e) && IsTrace(e, steps) && c in e.owner
    ensures ChannelOk(e, c) && Persists(e, Trace(e, steps), c, TicksIn(steps))
    decreases |steps|
  {
    assert ChannelOk(e, c);
    if steps != [] {
      var d := Do(e, steps[0]);
      StepPersists(e, steps[0], c);
      StepKeepsInv(e, steps[0]);
      TracePersists(d, steps[1..], c);
    }
  }

  /** Once closed, a channel's stream and its request are frozen whatever happens next. */
  lemma ClosedIsFrozen(e: Engine, steps: seq<Step>, c: ChannelId)
    requires EngineInv(e) && IsTrace(e, steps) && c in e.owner && ChannelOk(e, c) && e.channels[c].closed
    ensures var f := Trace(e, steps);
            && c in f.owner && f.owner[c] == e.owner[c] && c in f.channels && f.owner[c] < |f.core.requests|
            && f.channels[c].closed && f.channels[c].Stream() == e.channels[c].Stream()
            && Owner(f, c) == Owner(e, c) && Owner(f, c).Terminal()
  {
    TracePersists(e, steps, c);
  }

  // ----- cancellation over whole runs -----

  /** The channel's request is among the cancels being drained, unless the channel is closed already. */
  ghost predicate Draining(e: Engine, c: ChannelId)
    requires c in e.owner && ChannelOk(e, c)
  {
    e.channels[c].closed || (e.phase.Cancelling? && Owner(e, c).id in e.phase.ids)
  }

  /** A cancel for the channel's request was accepted and has not been lost. */
  ghost predicate CancelPending(e: Engine, c: ChannelId)
    requires c in e.owner && ChannelOk(e, c)
  {
    Draining(e, c) || Owner(e, c).id in e.pendingCancels
  }

  lemma CancelNextDrains(e: Engine, s: Step, c: ChannelId)
    requires EngineInv(e) && s.CancelNext? && Enabled(e, s) && c in e.owner && ChannelOk(e, c) && Draining(e, c)
    ensures c in Do(e, s).owner && ChannelOk(Do(e, s), c) && Draining(Do(e, s), c)
  {
    CancelPersists(e, s, c);
    if !e.channels[c].closed && e.phase.ids[0] == Owner(e, c).id {
      assert EntryOk(e, Owner(e, c).id);
    }
  }

  /** Outside the turns of the drain no cancel is lost. */
  lemma CancelsAreKept(e: Engine, s: Step, id: RequestId)
    requires Enabled(e, s) && !s.CancelNext?
    ensures e.phase.Cancelling? && id in e.phase.ids ==> Do(e, s).phase == e.phase
    ensures id in e.pendingCancels ==>
              id in Do(e, s).pendingCancels || (s.SwapCancels? && id in Do(e, s).phase.ids)
    ensures s.SwapCancels? ==> Do(e, s).phase == Cancelling(e.pendingCancels)
  {
  }

  lemma StepKeepsDraining(e: Engine, s: Step, c: ChannelId)
    requires EngineInv(e) && Enabled(e, s) && c in e.owner && ChannelOk(e, c)
    ensures c in Do(e, s).owner && ChannelOk(Do(e, s), c)
    ensures Draining(e, c) ==> Draining(Do(e, s), c)
    ensures CancelPending(e, c) ==> CancelPending(Do(e, s), c)
    ensures CancelPending(e, c) && s.SwapCancels? ==> Draining(Do(e, s), c)
  {
    StepPersists(e, s, c);
    if s.CancelNext? {
      if Draining(e, c) {
        CancelNextDrains(e, s, c);
      }
    } else {
      CancelsAreKept(e, s, Owner(e, c).id);
    }
  }

  /**
   * An accepted cancel of an admitted request stays pending until the channel is closed.  Once it is
   * among the cancels being drained, the channel is closed and its request terminal by the time the
   * drain is over, whatever else happens meanwhile.
   */
  lemma {:induction false} CancelTakesEffect(e: Engine, steps: seq<Step>, c: ChannelId)
    requires EngineInv(e) && IsTrace(e, steps) && c in e.owner && ChannelOk(e, c)
    ensures var f := Trace(e, steps); c in f.owner && ChannelOk(f, c)
    ensures CancelPending(e, c) ==> CancelPending(Trace(e, steps), c)
    ensures var f := Trace(e, steps);
            Draining(e, c) && !(f.phase.Cancelling? && f.phase.ids != []) ==>
                f.channels[c].closed && Owner(f, c).Terminal()
    decreases |steps|
  {
    if steps != [] {
      StepKeepsDraining(e, steps[0], c);
      StepKeepsInv(e, steps[0]);
      CancelTakesEffect(Do(e, steps[0]), steps[1..], c);
    }
  }

  // ----- bounded delivery -----

  /** Between iterations an open roomy channel is up to date: its request is live and everything is delivered. */
  lemma RoomyIsUpToDate(e: Engine, c: ChannelId)
    requires EngineInv(e) && e.phase.Top? && c in e.owner
    ensures ChannelOk(e, c)
    ensures !e.channels[c].closed && Roomy(e.channels[c], Owner(e, c)) ==>
              && Owner(e, c).Live() && TokensOf(e.channels[c].Stream()) == Owner(e, c).output
              && |Owner(e, c).output| == Age(e, c) < Owner(e, c).maxTokens
  {
    assert ChannelOk(e, c);
    if !e.channels[c].closed && Roomy(e.channels[c], Owner(e, c)) {
      var id := Owner(e, c).id;
      assert EntryOk(e, id);
      OutputCounted(e.core, e.owner[c]);
      assert !Reapable(e, id);
    }
  }

  /**
   * A channel that can hold the whole output never loses its request to backpressure.  However slow its
   * consumer is, once the engine has run as many ticks as the request's budget since it was admitted
   * and is between iterations, it is closed with every output token delivered or buffered, unless a
   * client cancelled it.
   */
  lemma BoundedDelivery(e: Engine, steps: seq<Step>, c: ChannelId)
    requires EngineInv(e) && IsTrace(e, steps) && c in e.owner && ChannelOk(e, c)
    requires Roomy(e.channels[c], Owner(e, c)) && !e.channels[c].closed
    ensures var f := Trace(e, steps);
            && c in f.owner && c in f.channels && f.owner[c] < |f.core.requests|
            && (c in f.closedBy ==> !f.closedBy[c].ByEviction?)
            && (f.phase.Top? && TicksIn(steps) >= Owner(e, c).maxTokens
                 && !(c in f.closedBy && f.closedBy[c].ByCancel?) ==>
                  && f.channels[c].closed && Owner(f, c).Terminal()
                  && TokensOf(f.channels[c].Stream()) == Owner(f, c).output)
  {
    TracePersists(e, steps, c);
    TraceKeepsInv(e, steps);
    var f := Trace(e, steps);
    if f.phase.Top? {
      RoomyIsUpToDate(f, c);
    }
  }

  lemma BusyKeepsPace(e: Engine, s: Step)
    requires Enabled(e, s) && e.active != map[]
    ensures !s.SkipTick? && Beats(s) + Ticked(e) == Returns(s) + Ticked(Do(e, s))
  {
  }

  /** While a channel is open no iteration skips its tick, so ticks and returns to the top keep step. */
  lemma StepKeepsPace(e: Engine, s: Step, c: ChannelId)
    requires Enabled(e, s) && c in e.owner && ChannelOk(e, c) && !e.channels[c].closed
    ensures !s.SkipTick?
    ensures Beats(s) + Ticked(e) == Returns(s) + Ticked(Do(e, s))
  {
    assert Owner(e, c).id in e.active;
    BusyKeepsPace(e, s);
  }

  lemma {:induction false} TraceKeepsPace(e: Engine, steps: seq<Step>, c: ChannelId)
    requires EngineInv(e) && IsTrace(e, steps) && c in e.owner && ChannelOk(e, c)
    requires var f := Trace(e, steps); c in f.channels && !f.channels[c].closed
    ensures TicksIn(steps) + Ticked(e) == RoundsIn(steps) + Ticked(Trace(e, steps))
    decreases |steps|
  {
    TracePersists(e, steps, c);
    if steps != [] {
      StepKeepsPace(e, steps[0], c);
      StepPersists(e, steps[0], c);
      StepKeepsInv(e, steps[0]);
      TraceKeepsPace(Do(e, steps[0]), steps[1..], c);
    }
  }

  /**
   * The same in iterations of the engine's loop: counted from any point at which the current iteration
   * has not run its tick yet, in particular from the admission, the budget bounds the iterations.
   */
  lemma DeliveryWithinIterations(e: Engine, steps: seq<Step>, c: ChannelId)
    requires EngineInv(e) && IsTrace(e, steps) && c in e.owner && ChannelOk(e, c)
    requires Roomy(e.channels[c], Owner(e, c)) && !e.channels[c].closed
    requires Trace(e, steps).phase.Top? && RoundsIn(steps) >= Owner(e, c).maxTokens + Ticked(e)
    ensures var f := Trace(e, steps);
            && c in f.owner && c in f.channels && f.owner[c] < |f.core.requests|
            && f.channels[c].closed && Owner(f, c).Terminal() && c in f.closedBy && !f.closedBy[c].ByEviction?
            && (f.closedBy[c].ByReap? ==> TokensOf(f.channels[c].Stream()) == Owner(f, c).output)
  {
    BoundedDelivery(e, steps, c);
    TracePersists(e, steps, c);
    if !Trace(e, steps).channels[c].closed {
      TraceKeepsPace(e, steps, c);
      assert TicksIn(steps) >= Owner(e, c).maxTokens;
    }
  }
}
