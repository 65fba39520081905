/** Streams only grow, and no entry outlives its request for longer than its consumer is behind. */
module EngineProgress {
  import opened Clocks
  import opened Lifecycle
  import opened Requests
  import opened Scheduling
  import opened TokenChannels
  import opened Engines
  import opened EngineProofs
  import opened EngineTheorems
  import opened EngineMarks

  // ----- streams only grow -----

  /** The stream was extended or left alone, and a terminal request is as it was. */
  ghost predicate Grows(e: Engine, f: Engine, c: ChannelId) {
    && c in e.owner && c in e.channels && e.owner[c] < |e.core.requests|
    && c in f.owner && c in f.channels && f.owner[c] < |f.core.requests|
    && e.channels[c].Stream() <= f.channels[c].Stream()
    && (Owner(e, c).Terminal() ==> Owner(f, c) == Owner(e, c))
  }

  lemma PushGrows(e: Engine, s: Step, c: ChannelId)
    requires EngineInv(e) && s.PushNext? && Enabled(e, s) && c in e.owner
    ensures Grows(e, Do(e, s), c)
  {
    assert ChannelOk(e, c);
    var x := e.active[s.id];
    OutputCounted(e.core, x.request);
    var r, ch := e.core.requests[x.request], e.channels[x.channel];
    if x.lastSeen < r.emitted && ch.CanPush() {
      PushExtendsStream(ch, EventFor(r, x.lastSeen));
    }
  }

  lemma StepGrows(e: Engine, s: Step, c: ChannelId)
    requires EngineInv(e) && Enabled(e, s) && c in e.owner
    ensures Grows(e, Do(e, s), c)
  {
    assert ChannelOk(e, c);
    if s.TickAll? {
      TickedRequest(e.core, s.env, e.owner[c]);
    } else if s.PushNext? {
      PushGrows(e, s, c);
    } else {
      OtherIsUndisturbed(e, s, c);
    }
  }

  /** Over every interleaving a stream is only ever extended, and a terminal request never changes. */
  lemma {:induction false} StreamsOnlyGrow(e: Engine, steps: seq<Step>, c: ChannelId)
    requires EngineInv(e) && IsTrace(e, steps) && c in e.owner
    ensures Grows(e, Trace(e, steps), c)
    decreases |steps|
  {
    assert ChannelOk(e, c);
    if steps != [] {
      StepGrows(e, steps[0], c);
      StepKeepsInv(e, steps[0]);
      StreamsOnlyGrow(Do(e, steps[0]), steps[1..], c);
    }
  }

  // ----- eviction is carried out -----

  /** The channel's request is among those being evicted, unless the channel is closed already. */
  ghost predicate Condemned(e: Engine, c: ChannelId)
    requires c in e.owner && ChannelOk(e, c)
  {
    e.channels[c].closed || (e.phase.Evicting? && Owner(e, c).id in e.phase.late)
  }

  lemma EvictCarriesOut(e: Engine, s: Step, c: ChannelId)
    requires EngineInv(e) && s.EvictNext? && Enabled(e, s) && c in e.owner && ChannelOk(e, c) && Condemned(e, c)
    ensures c in Do(e, s).owner && ChannelOk(Do(e, s), c) && Condemned(Do(e, s), c)
  {
    RemovalPersists(e, s, c);
    if !e.channels[c].closed && s.id == Owner(e, c).id {
      assert EntryOk(e, s.id);
    }
  }

  lemma StepKeepsCondemned(e: Engine, s: Step, c: ChannelId)
    requires EngineInv(e) && Enabled(e, s) && c in e.owner && ChannelOk(e, c) && Condemned(e, c)
    ensures c in Do(e, s).owner && ChannelOk(Do(e, s), c) && Condemned(Do(e, s), c)
  {
    if s.EvictNext? {
      EvictCarriesOut(e, s, c);
    } else {
      StepPersists(e, s, c);
    }
  }

  lemma {:induction false} TraceKeepsCondemned(e: Engine, steps: seq<Step>, c: ChannelId)
    requires EngineInv(e) && IsTrace(e, steps) && c in e.owner && ChannelOk(e, c) && Condemned(e, c)
    ensures var f := Trace(e, steps); c in f.owner && ChannelOk(f, c) && Condemned(f, c)
    decreases |steps|
  {
    if steps != [] {
      StepKeepsCondemned(e, steps[0], c);
      StepKeepsInv(e, steps[0]);
      TraceKeepsCondemned(Do(e, steps[0]), steps[1..], c);
    }
  }

  // ----- no entry leaks -----

  lemma OldIsTerminal(e: Engine, c: ChannelId)
    requires EngineInv(e) && c in e.owner && ChannelOk(e, c) && !e.channels[c].closed
    ensures Age(e, c) >= Owner(e, c).maxTokens ==> Owner(e, c).Terminal()
  {
    assert EntryOk(e, Owner(e, c).id);
    assert RequestOk(Owner(e, c), e.core.now);
  }

  /** At the top of the loop, a terminal request whose channel is open has tokens its consumer made no room for. */
  lemma OpenMeansUndelivered(e: Engine, c: ChannelId)
    requires EngineInv(e) && e.phase.Top? && c in e.owner && ChannelOk(e, c) && !e.channels[c].closed
    ensures Owner(e, c).Terminal() ==> |e.channels[c].Stream()| < |Owner(e, c).output|
  {
    var id := Owner(e, c).id;
    assert EntryOk(e, id);
    OutputCounted(e.core, e.owner[c]);
    assert !Reapable(e, id);
  }

  /**
   * For channels of any capacity: once as many ticks have run since the admission as the budget, a channel
   * that is still open when the loop is next at its top belongs to a terminal request with undelivered
   * tokens, under backpressure for less than the timeout when last checked.
   */
  lemma NoEntryLeaks(e: Engine, steps: seq<Step>, c: ChannelId)
    requires EngineInv(e) && e.phase == Pushing({}) && c in e.owner && ChannelOk(e, c) && !e.channels[c].closed
    requires Age(e, c) >= Owner(e, c).maxTokens
    requires IsTrace(Do(e, CheckBackpressure), steps) && Trace(Do(e, CheckBackpressure), steps).phase.Top?
    ensures var f, x := Trace(Do(e, CheckBackpressure), steps), e.active[Owner(e, c).id];
            && c in f.owner && c in f.channels && f.owner[c] < |f.core.requests|
            && (!f.channels[c].closed ==>
                  && Owner(f, c).Terminal() && |f.channels[c].Stream()| < |Owner(f, c).output|
                  && x.backpressureSince.Some? && 0 <= e.wall - x.backpressureSince.value < e.timeout)
  {
    var d, id := Do(e, CheckBackpressure), Owner(e, c).id;
    var f := Trace(d, steps);
    StepKeepsInv(e, CheckBackpressure);
    StepPersists(e, CheckBackpressure, c);
    TraceKeepsInv(d, steps);
    TracePersists(d, steps, c);
    if !f.channels[c].closed {
      OldIsTerminal(e, c);
      StreamsOnlyGrow(d, steps, c);
      OpenMeansUndelivered(f, c);
      assert EntryOk(e, id);
      if IsOverdue(e.active[id], e.wall, e.timeout) {
        TraceKeepsCondemned(d, steps, c);
      }
    }
  }

  // ----- backpressure dates from the first refusal -----

  /** The channel is open and its entry has been under backpressure since t. */
  ghost predicate Pressed(e: Engine, c: ChannelId, t: TimePoint) {
    && c in e.owner && ChannelOk(e, c) && !e.channels[c].closed
    && e.active[Owner(e, c).id].backpressureSince == Some(t)
  }

  /** Only a push to the entry itself touches its backpressure. */
  lemma EntryIsKept(e: Engine, s: Step, id: RequestId)
    requires EngineInv(e) && Enabled(e, s) && id in e.active && id in Do(e, s).active && s != PushNext(id)
    ensures Do(e, s).active[id].backpressureSince == e.active[id].backpressureSince
    ensures Do(e, s).active[id].channel == e.active[id].channel
  {
    if s.Admit? {
      assert Waiting(e)[0] == e.phase.batch[0];
    }
  }

  lemma PushKeepsPressure(e: Engine, s: Step, c: ChannelId, t: TimePoint)
    requires EngineInv(e) && s.PushNext? && Enabled(e, s) && Pressed(e, c, t) && s.id == Owner(e, c).id
    ensures var f := Do(e, s);
            && c in f.channels
            && (f.channels[c].Stream() == e.channels[c].Stream() ==> Pressed(f, c, t))
  {
    PushPersists(e, s, c);
    var x := e.active[s.id];
    OutputCounted(e.core, x.request);
    var r, ch := e.core.requests[x.request], e.channels[c];
    if x.lastSeen < r.emitted && ch.CanPush() {
      PushExtendsStream(ch, EventFor(r, x.lastSeen));
      assert |Do(e, s).channels[c].Stream()| == |ch.Stream()| + 1;
    }
  }

  lemma StepKeepsPressure(e: Engine, s: Step, c: ChannelId, t: TimePoint)
    requires EngineInv(e) && Enabled(e, s) && Pressed(e, c, t)
    ensures var f := Do(e, s);
            && c in f.channels
            && (!f.channels[c].closed && f.channels[c].Stream() == e.channels[c].Stream() ==> Pressed(f, c, t))
  {
    StepPersists(e, s, c);
    if s == PushNext(Owner(e, c).id) {
      PushKeepsPressure(e, s, c, t);
    } else if !Do(e, s).channels[c].closed {
      EntryIsKept(e, s, Owner(e, c).id);
    }
  }

  /**
   * Over every interleaving: as long as nothing more is delivered, an entry's backpressure keeps the time of
   * the first refusal, however many pushes are refused after it.
   */
  lemma {:induction false} PressureKeepsItsDate(e: Engine, steps: seq<Step>, c: ChannelId, t: TimePoint)
    requires EngineInv(e) && IsTrace(e, steps) && Pressed(e, c, t)
    ensures var f := Trace(e, steps);
            && c in f.channels
            && (!f.channels[c].closed && f.channels[c].Stream() == e.channels[c].Stream() ==> Pressed(f, c, t))
    decreases |steps|
  {
    TracePersists(e, steps, c);
    if steps != [] {
      var d, f := Do(e, steps[0]), Trace(e, steps);
      StepKeepsInv(e, steps[0]);
      StepKeepsPressure(e, steps[0], c, t);
      StepGrows(e, steps[0], c);
      StreamsOnlyGrow(d, steps[1..], c);
      StepPersists(e, steps[0], c);
      TracePersists(d, steps[1..], c);
      if !f.channels[c].closed && f.channels[c].Stream() == e.channels[c].Stream() {
        assert d.channels[c].Stream() == e.channels[c].Stream();
        PressureKeepsItsDate(d, steps[1..], c, t);
      }
    }
  }

  /** When a push is refused, the time noted is that of this refusal, unless an earlier one is noted already. */
  lemma RefusalIsNoted(e: Engine, id: RequestId)
    requires EngineInv(e) && Enabled(e, PushNext(id)) && EntryOk(e, id)
    requires var x := e.active[id];
             x.lastSeen < |e.core.requests[x.request].output| && !e.channels[x.channel].CanPush()
    ensures var c, f := e.active[id].channel, Do(e, PushNext(id));
            && f.channels == e.channels
            && (e.active[id].backpressureSince.None? ==> Pressed(f, c, e.wall))
            && (e.active[id].backpressureSince.Some? ==> Pressed(f, c, e.active[id].backpressureSince.value))
  {
    OutputCounted(e.core, e.active[id].request);
    assert ChannelOk(e, e.active[id].channel);
    PushPersists(e, PushNext(id), e.active[id].channel);
  }

  // ----- a stalled consumer is evicted -----

  /** Under backpressure since t with a full buffer. */
  ghost predicate Stalled(e: Engine, c: ChannelId, t: TimePoint) {
    Pressed(e, c, t) && |e.channels[c].buffer| >= e.channels[c].capacity
  }

  predicate NothingTaken(steps: seq<Step>, c: ChannelId) {
    forall i | 0 <= i < |steps| :: steps[i] != ConsumerPop(c)
  }

  /** Without pops a full channel stays as it is, or is closed as it is. */
  lemma FullIsKept(e: Engine, s: Step, c: ChannelId)
    requires EngineInv(e) && Enabled(e, s) && s != ConsumerPop(c)
    requires c in e.channels && |e.channels[c].buffer| >= e.channels[c].capacity
    ensures c in Do(e, s).channels && Do(e, s).channels[c].buffer == e.channels[c].buffer
    ensures Do(e, s).channels[c].popped == e.channels[c].popped
    ensures Do(e, s).channels[c].capacity == e.channels[c].capacity
  {
  }

  lemma StepKeepsStalled(e: Engine, s: Step, c: ChannelId, t: TimePoint)
    requires EngineInv(e) && Enabled(e, s) && s != ConsumerPop(c) && Stalled(e, c, t)
    ensures var f := Do(e, s); c in f.channels && (f.channels[c].closed || Stalled(f, c, t))
  {
    FullIsKept(e, s, c);
    StepKeepsPressure(e, s, c, t);
  }

  lemma {:induction false} StallLasts(e: Engine, steps: seq<Step>, c: ChannelId, t: TimePoint)
    requires EngineInv(e) && IsTrace(e, steps) && NothingTaken(steps, c) && Stalled(e, c, t)
    ensures var f := Trace(e, steps); c in f.channels && (f.channels[c].closed || Stalled(f, c, t))
    decreases |steps|
  {
    if steps != [] {
      var d := Do(e, steps[0]);
      StepKeepsStalled(e, steps[0], c, t);
      StepKeepsInv(e, steps[0]);
      StepPersists(e, steps[0], c);
      if d.channels[c].closed {
        TracePersists(d, steps[1..], c);
      } else {
        StallLasts(d, steps[1..], c, t);
      }
    }
  }

  /**
   * A consumer that stops reading is cut off: if nothing is taken from a full channel whose first refusal
   * was at t, and a check reads the clock at t plus the timeout or later, the channel is closed and its
   * request terminal when the loop is next at its top.
   */
  lemma StalledIsEvicted(e: Engine, steps: seq<Step>, more: seq<Step>, c: ChannelId, t: TimePoint)
    requires EngineInv(e) && IsTrace(e, steps) && NothingTaken(steps, c) && Stalled(e, c, t)
    requires var d := Trace(e, steps); d.phase == Pushing({}) && d.wall - t >= d.timeout
    requires IsTrace(Do(Trace(e, steps), CheckBackpressure), more)
    requires Trace(Do(Trace(e, steps), CheckBackpressure), more).phase.Top?
    ensures var f := Trace(Do(Trace(e, steps), CheckBackpressure), more);
            && c in f.owner && c in f.channels && f.owner[c] < |f.core.requests|
            && f.channels[c].closed && Owner(f, c).Terminal()
  {
    var d := Trace(e, steps);
    TraceKeepsInv(e, steps);
    TracePersists(e, steps, c);
    StallLasts(e, steps, c, t);
    StepKeepsInv(d, CheckBackpressure);
    StepPersists(d, CheckBackpressure, c);
    var d' := Do(d, CheckBackpressure);
    if d.channels[c].closed {
      TracePersists(d', more, c);
    } else {
      assert IsOverdue(d.active[Owner(d, c).id], d.wall, d.timeout);
      TraceKeepsCondemned(d', more, c);
    }
  }
}
