/** What a Stop mark in a stream means, over every interleaving. */
module EngineMarks {
  import opened Clocks
  import opened Lifecycle
  import opened Requests
  import opened Scheduling
  import opened TokenChannels
  import opened Engines
  import opened EngineProofs
  import opened EngineTheorems

  /** Settings under which a Stop mark can only mean the backend's end of sequence. */
  predicate Truthful(capacity: nat, maxTokens: nat, timeout: nat) {
    capacity == 0 || capacity + 1 >= maxTokens || timeout == 0
  }

  // ----- with no timeout, pressure does not outlive the iteration -----

  ghost predicate Unpressed(e: Engine) {
    match e.phase
    case Pushing(_) => true
    case Evicting(late) => forall id | id in e.active && e.active[id].backpressureSince.Some? :: id in late
    case _ => forall id | id in e.active :: e.active[id].backpressureSince.None?
  }

  ghost predicate Prompt(e: Engine) {
    e.timeout == 0 ==> Unpressed(e)
  }

  lemma StepKeepsTimeout(e: Engine, s: Step)
    requires Enabled(e, s)
    ensures Do(e, s).timeout == e.timeout
  {
  }

  lemma CheckFindsAllPressure(e: Engine)
    requires EngineInv(e) && Enabled(e, CheckBackpressure)
    ensures Prompt(Do(e, CheckBackpressure))
  {
    forall id | id in e.active && e.active[id].backpressureSince.Some? && e.timeout == 0
      ensures id in OverdueIds(e.active, e.wall, e.timeout)
    {
      assert EntryOk(e, id);
    }
  }

  lemma StepKeepsPrompt(e: Engine, s: Step)
    requires EngineInv(e) && Enabled(e, s) && Prompt(e)
    ensures Prompt(Do(e, s))
  {
    StepKeepsTimeout(e, s);
    if s.CheckBackpressure? {
      CheckFindsAllPressure(e);
    }
  }

  // ----- what a Stop mark means -----

  /** A Stop mark means completion; a failed request has nothing left to mark, or a channel that takes nothing. */
  ghost predicate StopsAreEos(e: Engine, c: ChannelId)
    requires c in e.owner && ChannelOk(e, c)
  {
    var ch, r := e.channels[c], Owner(e, c);
    && (ch.capacity == 0 ==> ch.Stream() == [])
    && (Truthful(ch.capacity, r.maxTokens, e.timeout) ==>
          && (forall i | 0 <= i < |ch.Stream()| && ch.Stream()[i].reason.Stop? :: r.Is(Completed))
          && (r.Is(Failed) && !ch.closed && ch.capacity > 0 ==> |ch.Stream()| == |r.output|))
  }

  lemma FailingEmitsNothing(r: RequestData, env: Env)
    requires Placed(r)
    ensures Serve(r, env).Is(Failed) ==> |Serve(r, env).output| == |r.output|
  {
  }

  lemma TickKeepsStops(e: Engine, s: Step, c: ChannelId)
    requires EngineInv(e) && Prompt(e) && s.TickAll? && Enabled(e, s)
    requires c in e.owner && ChannelOk(e, c) && StopsAreEos(e, c)
    ensures c in Do(e, s).owner && ChannelOk(Do(e, s), c) && StopsAreEos(Do(e, s), c)
  {
    TickPersists(e, s, c);
    TickedRequest(e.core, s.env, e.owner[c]);
    FailingEmitsNothing(Owner(e, c), s.env);
    OutputCounted(e.core, e.owner[c]);
    assert RequestOk(Owner(e, c), e.core.now);
    if !e.channels[c].closed {
      assert EntryOk(e, Owner(e, c).id);
    }
  }

  lemma PushKeepsStops(e: Engine, s: Step, c: ChannelId)
    requires EngineInv(e) && s.PushNext? && Enabled(e, s) && c in e.owner && ChannelOk(e, c) && StopsAreEos(e, c)
    ensures c in Do(e, s).owner && ChannelOk(Do(e, s), c) && StopsAreEos(Do(e, s), c)
  {
    PushPersists(e, s, c);
    assert EntryOk(e, s.id);
    var x := e.active[s.id];
    OutputCounted(e.core, x.request);
    var r, ch := e.core.requests[x.request], e.channels[x.channel];
    if x.channel == c && x.lastSeen < r.emitted && ch.CanPush() {
      PushExtendsStream(ch, EventFor(r, x.lastSeen));
    }
  }

  /** The stream is as it was, and so is the request unless it was cancelled. */
  ghost predicate Undisturbed(e: Engine, f: Engine, c: ChannelId) {
    && c in e.owner && c in e.channels && e.owner[c] < |e.core.requests|
    && c in f.owner && c in f.channels && f.owner[c] < |f.core.requests|
    && f.channels[c].Stream() == e.channels[c].Stream() && f.channels[c].capacity == e.channels[c].capacity
    && (e.channels[c].closed ==> f.channels[c].closed)
    && (Owner(f, c) == Owner(e, c)
        || (Owner(e, c).Live() && Owner(f, c).Is(Cancelled) && Owner(f, c).maxTokens == Owner(e, c).maxTokens))
  }

  lemma UndisturbedKeepsStops(e: Engine, f: Engine, c: ChannelId)
    requires c in e.owner && ChannelOk(e, c) && StopsAreEos(e, c)
    requires Undisturbed(e, f, c) && ChannelOk(f, c) && f.timeout == e.timeout
    ensures StopsAreEos(f, c)
  {
  }

  lemma DropIsUndisturbed(e: Engine, f: Engine, id: RequestId, why: Closing, c: ChannelId)
    requires EngineInv(e) && DropsTo(e, f, id, why) && c in e.owner
    ensures Undisturbed(e, f, c)
  {
    assert ChannelOk(e, c);
    assert EntryOk(e, id);
    var i := e.owner[c];
    assert SameIdentity(e.core.requests[i], f.core.requests[i]);
  }

  lemma CancelIsUndisturbed(e: Engine, s: Step, c: ChannelId)
    requires EngineInv(e) && s.CancelNext? && Enabled(e, s) && c in e.owner
    ensures Undisturbed(e, Do(e, s), c)
  {
    var id := e.phase.ids[0];
    assert ChannelOk(e, c);
    if id in e.active {
      CancelDropsEntry(e, s.at);
      DropIsUndisturbed(e, Do(e, s), id, ByCancel, c);
    } else {
      CancelUntracked(e, id, s.at);
    }
  }

  lemma RemovalIsUndisturbed(e: Engine, s: Step, c: ChannelId)
    requires EngineInv(e) && (s.EvictNext? || s.ReapNext?) && Enabled(e, s) && c in e.owner
    ensures Undisturbed(e, Do(e, s), c)
  {
    if s.EvictNext? {
      EvictDropsEntry(e, s.id, s.at);
      DropIsUndisturbed(e, Do(e, s), s.id, ByEviction, c);
    } else {
      ReapDropsEntry(e, s.id);
      DropIsUndisturbed(e, Do(e, s), s.id, ByReap, c);
    }
  }

  lemma AdmitIsUndisturbed(e: Engine, s: Step, c: ChannelId)
    requires EngineInv(e) && s.Admit? && Enabled(e, s) && c in e.owner
    ensures Undisturbed(e, Do(e, s), c)
  {
    assert ChannelOk(e, c);
    assert Waiting(e)[0] == e.phase.batch[0];
  }

  lemma PassiveIsUndisturbed(e: Engine, s: Step, c: ChannelId)
    requires EngineInv(e) && Passive(s) && Enabled(e, s) && c in e.owner
    ensures Undisturbed(e, Do(e, s), c)
  {
    assert ChannelOk(e, c);
    PassiveIsQuiet(e, s);
  }

  lemma OtherIsUndisturbed(e: Engine, s: Step, c: ChannelId)
    requires EngineInv(e) && !s.TickAll? && !s.PushNext? && Enabled(e, s) && c in e.owner
    ensures Undisturbed(e, Do(e, s), c)
  {
    if s.Admit? {
      AdmitIsUndisturbed(e, s, c);
    } else if s.CancelNext? {
      CancelIsUndisturbed(e, s, c);
    } else if s.EvictNext? || s.ReapNext? {
      RemovalIsUndisturbed(e, s, c);
    } else {
      PassiveIsUndisturbed(e, s, c);
    }
  }

  lemma StepKeepsStops(e: Engine, s: Step, c: ChannelId)
    requires EngineInv(e) && Prompt(e) && Enabled(e, s) && c in e.owner && ChannelOk(e, c) && StopsAreEos(e, c)
    ensures c in Do(e, s).owner && ChannelOk(Do(e, s), c) && StopsAreEos(Do(e, s), c)
  {
    if s.TickAll? {
      TickKeepsStops(e, s, c);
    } else if s.PushNext? {
      PushKeepsStops(e, s, c);
    } else {
      OtherIsUndisturbed(e, s, c);
      StepPersists(e, s, c);
      StepKeepsTimeout(e, s);
      UndisturbedKeepsStops(e, Do(e, s), c);
    }
  }

  lemma AdmitsOwner(e: Engine, s: Step, c: ChannelId)
    requires EngineInv(e) && Enabled(e, s) && c !in e.owner && c in Do(e, s).owner
    ensures s.Admit? && c == e.phase.batch[0].channel && c in e.channels && e.channels[c].Stream() == []
  {
    if s.Admit? {
      assert Waiting(e)[0] == e.phase.batch[0];
    }
  }

  /** Only an admission gives a channel an owner, and then its stream is empty. */
  lemma NewOwnersAreBlank(e: Engine, s: Step, c: ChannelId)
    requires EngineInv(e) && Enabled(e, s) && c !in e.owner && c in Do(e, s).owner
    ensures ChannelOk(Do(e, s), c) && StopsAreEos(Do(e, s), c)
  {
    AdmitsOwner(e, s, c);
    AdmitKeepsChannels(e, s.at);
    var f := Do(e, s);
    assert ChannelOk(f, c);
    assert f.channels[c].Stream() == [] && Owner(f, c).Is(WaitingPrefill);
  }

  ghost predicate AllStopsAreEos(e: Engine) {
    forall c {:trigger ChannelOk(e, c)} | c in e.owner :: ChannelOk(e, c) && StopsAreEos(e, c)
  }

  lemma {:induction false} TraceKeepsStops(e: Engine, steps: seq<Step>)
    requires EngineInv(e) && Prompt(e) && AllStopsAreEos(e) && IsTrace(e, steps)
    ensures AllStopsAreEos(Trace(e, steps)) && Trace(e, steps).timeout == e.timeout
    decreases |steps|
  {
    if steps != [] {
      var f := Do(e, steps[0]);
      StepKeepsInv(e, steps[0]);
      StepKeepsPrompt(e, steps[0]);
      StepKeepsTimeout(e, steps[0]);
      forall c | c in f.owner
        ensures ChannelOk(f, c) && StopsAreEos(f, c)
      {
        if c in e.owner {
          assert ChannelOk(e, c);
          StepKeepsStops(e, steps[0], c);
        } else {
          NewOwnersAreBlank(e, steps[0], c);
        }
      }
      TraceKeepsStops(f, steps[1..]);
    }
  }

  /**
   * Over every interleaving from the start: on a channel that holds all tokens but one, or none, and on
   * any channel if the timeout is zero, a Stop mark means what it is documented to mean, namely that the
   * request completed with budget to spare.
   */
  lemma StopIsTruthful(now: TimePoint, wall: TimePoint, timeout: nat, steps: seq<Step>, c: ChannelId, i: nat)
    requires IsTrace(Start(now, wall, timeout), steps)
    requires var f := Trace(Start(now, wall, timeout), steps);
             c in f.owner && c in f.channels && i < |f.channels[c].Stream()| && f.channels[c].Stream()[i].reason.Stop?
    ensures var f := Trace(Start(now, wall, timeout), steps);
            && f.owner[c] < |f.core.requests|
            && (Truthful(f.channels[c].capacity, Owner(f, c).maxTokens, timeout) ==>
                  Owner(f, c).Is(Completed) && Owner(f, c).emitted < Owner(f, c).maxTokens)
  {
    var e := Start(now, wall, timeout);
    StartIsOk(now, wall, timeout);
    TraceKeepsInv(e, steps);
    TraceKeepsStops(e, steps);
    var f := Trace(e, steps);
    assert ChannelOk(f, c);
  }
}
