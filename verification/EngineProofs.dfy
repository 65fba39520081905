/** Every step of the engine keeps its invariant. */
module EngineProofs {
  import opened Clocks
  import opened Lifecycle
  import opened Requests
  import opened Scheduling
  import opened SchedulingTheorems
  import opened TokenChannels
  import opened Engines

  // ----- steps that leave entries, requests and streams alone -----

  ghost predicate SameStreams(a: map<ChannelId, Channel>, b: map<ChannelId, Channel>) {
    forall c | c in a ::
      c in b && b[c].Stream() == a[c].Stream() && b[c].closed == a[c].closed && b[c].capacity == a[c].capacity
  }

  ghost predicate Quiet(e: Engine, f: Engine) {
    && f.core == e.core && f.active == e.active && f.owner == e.owner && f.closedBy == e.closedBy
    && f.timeout == e.timeout
    && e.wall <= f.wall && SameStreams(e.channels, f.channels)
    && forall id | id in e.active :: InPush(f, id) == InPush(e, id)
  }

  lemma QuietKeepsEntries(e: Engine, f: Engine)
    requires AllEntries(e) && AllChannels(e) && Quiet(e, f)
    ensures AllEntries(f) && AllChannels(f)
  {
    forall id | id in f.active
      ensures EntryOk(f, id)
    {
      assert EntryOk(e, id);
    }
    forall c | c in f.owner
      ensures ChannelOk(f, c)
    {
      assert ChannelOk(e, c);
    }
  }

  /** Steps that touch neither entries nor requests. */
  predicate Passive(s: Step) {
    !s.Admit? && !s.CancelNext? && !s.TickAll? && !s.PushNext? && !s.EvictNext? && !s.ReapNext?
  }

  lemma PassiveIsQuiet(e: Engine, s: Step)
    requires Passive(s) && Enabled(e, s)
    ensures Quiet(e, Do(e, s))
  {
    if s.ConsumerPop? {
      PopKeepsStream(e.channels[s.channel]);
    }
  }

  /** Only a submission changes what is waiting to be admitted. */
  lemma PassiveWaiting(e: Engine, s: Step)
    requires Passive(s) && Enabled(e, s)
    ensures Waiting(Do(e, s)) == Waiting(e) + (if s.ClientSubmit? then [s.submission] else [])
  {
  }

  lemma PassiveKeepsPhase(e: Engine, s: Step)
    requires PhaseOk(e) && Passive(s) && Enabled(e, s)
    ensures PhaseOk(Do(e, s))
  {
  }

  lemma PassiveKeepsInv(e: Engine, s: Step)
    requires EngineInv(e) && Passive(s) && Enabled(e, s)
    ensures EngineInv(Do(e, s))
  {
    var f := Do(e, s);
    PassiveIsQuiet(e, s);
    PassiveWaiting(e, s);
    PassiveKeepsPhase(e, s);
    QuietKeepsEntries(e, f);
  }

  // ----- admission -----

  lemma AdmitKeepsCore(e: Engine, at: TimePoint)
    requires EngineInv(e) && Enabled(e, Admit(at))
    ensures var s := e.phase.batch[0]; var r := NewRequest(s.id, at, s.deadline, s.maxTokens, s.prompt);
            Submittable(e.core, r, at) && Inv(Submit(e.core, r, at))
  {
    var s := e.phase.batch[0];
    var r := NewRequest(s.id, at, s.deadline, s.maxTokens, s.prompt);
    assert Waiting(e)[0] == s;
    forall i | 0 <= i < |e.core.requests| && e.core.requests[i].Live()
      ensures e.core.requests[i].id != r.id
    {
      assert e.core.requests[i].id in e.active;
    }
    SubmitKeepsInv(e.core, r, at);
  }

  lemma AdmitKeepsEntries(e: Engine, at: TimePoint)
    requires EngineInv(e) && Enabled(e, Admit(at))
    ensures AllEntries(AdmitFirst(e, at))
  {
    var f, s := AdmitFirst(e, at), e.phase.batch[0];
    assert Waiting(e)[0] == s;
    forall id | id in f.active
      ensures EntryOk(f, id)
    {
      if id != s.id {
        assert EntryOk(e, id);
      }
    }
  }

  lemma AdmitKeepsChannels(e: Engine, at: TimePoint)
    requires EngineInv(e) && Enabled(e, Admit(at))
    ensures AllChannels(AdmitFirst(e, at))
  {
    var f, s := AdmitFirst(e, at), e.phase.batch[0];
    assert Waiting(e)[0] == s;
    forall c | c in f.owner
      ensures ChannelOk(f, c)
    {
      if c != s.channel {
        assert ChannelOk(e, c);
        assert e.core.requests[e.owner[c]] == f.core.requests[f.owner[c]];
      }
    }
  }

  lemma AdmitKeepsWaiting(e: Engine, at: TimePoint)
    requires WaitingOk(e) && Enabled(e, Admit(at))
    ensures WaitingOk(AdmitFirst(e, at))
  {
    var f := AdmitFirst(e, at);
    var p, q := Waiting(e), Waiting(f);
    assert p == [e.phase.batch[0]] + q;
    forall i | 0 <= i < |q|
      ensures q[i] == p[i + 1] && q[i].id != p[0].id && q[i].channel != p[0].channel
    {
    }
    forall i, j | 0 <= i < j < |q|
      ensures q[i].id != q[j].id && q[i].channel != q[j].channel
    {
      assert q[i] == p[i + 1] && q[j] == p[j + 1];
    }
  }

  lemma AdmitKeepsInv(e: Engine, at: TimePoint)
    requires EngineInv(e) && Enabled(e, Admit(at))
    ensures EngineInv(Do(e, Admit(at)))
  {
    AdmitKeepsCore(e, at);
    AdmitKeepsEntries(e, at);
    AdmitKeepsChannels(e, at);
    AdmitKeepsWaiting(e, at);
  }

  // ----- ticks -----

  lemma StreamSurvivesServe(evs: seq<TokenEvent>, r: RequestData, env: Env, now: TimePoint)
    requires RequestOk(r, now) && now <= env.t0 <= env.t1 <= env.t2 && StreamOk(evs, r)
    ensures StreamOk(evs, Serve(r, env))
  {
    ServeOk(r, env, now);
    ServedShape(r, env);
    CompletionNeedsToken(r, env);
  }

  /** A request completes only together with a new token. */
  lemma CompletionNeedsToken(r: RequestData, env: Env)
    requires Placed(r)
    ensures Serve(r, env).Is(Completed) && r.Live() ==> |Serve(r, env).output| == |r.output| + 1
  {
  }

  /** What a tick does to the i-th request, as far as the engine can tell. */
  lemma TickedRequest(core: Core, env: Env, i: nat)
    requires Inv(core) && EnvOk(core, env) && i < |core.requests|
    ensures var r, s := core.requests[i], Tick(core, env).requests[i];
            && SameIdentity(r, s) && r.output <= s.output
            && (s.Live() ==> r.Live() && s.emitted == r.emitted + 1)
            && (r.Terminal() ==> s == r) && (s.Is(Cancelled) ==> r.Is(Cancelled))
  {
    var r := core.requests[i];
    assert RequestOk(r, core.now);
    ServeOk(r, env, core.now);
    ServeEmitsOne(r, env);
    ServedShape(r, env);
  }

  lemma TickKeepsEntries(e: Engine, env: Env)
    requires EngineInv(e) && Enabled(e, TickAll(env))
    ensures AllEntries(Do(e, TickAll(env)))
  {
    var f := Do(e, TickAll(env));
    forall id | id in f.active
      ensures EntryOk(f, id)
    {
      assert EntryOk(e, id);
      TickedRequest(e.core, env, e.active[id].request);
    }
  }

  lemma TickKeepsChannels(e: Engine, env: Env)
    requires EngineInv(e) && Enabled(e, TickAll(env))
    ensures AllChannels(Do(e, TickAll(env)))
  {
    var f := Do(e, TickAll(env));
    forall c | c in f.owner
      ensures ChannelOk(f, c)
    {
      assert ChannelOk(e, c);
      var r := e.core.requests[e.owner[c]];
      assert RequestOk(r, e.core.now);
      TickedRequest(e.core, env, e.owner[c]);
      StreamSurvivesServe(e.channels[c].Stream(), r, env, e.core.now);
    }
  }

  lemma TickKeepsTracked(e: Engine, env: Env)
    requires EngineInv(e) && Enabled(e, TickAll(env))
    ensures AllLiveTracked(Do(e, TickAll(env)).core, Do(e, TickAll(env)).active)
  {
    var f := Do(e, TickAll(env));
    forall i | 0 <= i < |f.core.requests| && f.core.requests[i].Live()
      ensures f.core.requests[i].id in f.active && f.active[f.core.requests[i].id].request == i
    {
      ServedShape(e.core.requests[i], env);
      assert e.core.requests[i].id in e.active;
    }
  }

  lemma TickAllKeepsInv(e: Engine, env: Env)
    requires EngineInv(e) && Enabled(e, TickAll(env))
    ensures EngineInv(Do(e, TickAll(env)))
  {
    TickKeepsInv(e.core, env);
    TickKeepsEntries(e, env);
    TickKeepsChannels(e, env);
    TickKeepsTracked(e, env);
    assert Waiting(Do(e, TickAll(env))) == Waiting(e);
  }

  // ----- dropping an entry -----

  /** The core after a drop: cancelled (or, when reaping, untouched). */
  ghost predicate CoreDrops(core: Core, after: Core, id: RequestId) {
    && |after.requests| == |core.requests|
    && forall i | 0 <= i < |core.requests| ::
         && SameIdentity(core.requests[i], after.requests[i])
         && after.requests[i].output == core.requests[i].output && after.requests[i].emitted == core.requests[i].emitted
         && (core.requests[i].id == id ==> after.requests[i].Terminal())
         && (core.requests[i].id != id || core.requests[i].Terminal() ==> after.requests[i] == core.requests[i])
         && (core.requests[i].Live() && core.requests[i].id == id ==> after.requests[i].Is(Cancelled))
  }

  lemma CancelDrops(core: Core, id: RequestId, at: TimePoint)
    requires Inv(core) && core.now <= at
    ensures CoreDrops(core, Cancel(core, id, at), id) && Inv(Cancel(core, id, at))
  {
    CancelKeepsInv(core, id, at);
    var after := Cancel(core, id, at);
    forall i | 0 <= i < |core.requests|
      ensures SameIdentity(core.requests[i], after.requests[i])
      ensures after.requests[i].output == core.requests[i].output
              && after.requests[i].emitted == core.requests[i].emitted
      ensures core.requests[i].id != id || core.requests[i].Terminal() ==> after.requests[i] == core.requests[i]
      ensures core.requests[i].Live() && core.requests[i].id == id ==> after.requests[i].Is(Cancelled)
    {
      assert RequestOk(core.requests[i], core.now);
      CancelOk(core.requests[i], id, core.now, at);
    }
  }

  lemma StreamSurvivesCancel(evs: seq<TokenEvent>, r: RequestData, s: RequestData)
    requires StreamOk(evs, r) && s.output == r.output && s.emitted == r.emitted && s.maxTokens == r.maxTokens
    requires s == r || (r.Live() && s.Is(Cancelled))
    ensures StreamOk(evs, s)
  {
  }

  /** `f` is `e` after entry `id` was dropped for reason `why`, the core having gone from e's to f's. */
  ghost predicate DropsTo(e: Engine, f: Engine, id: RequestId, why: Closing) {
    && id in e.active && e.active[id].channel in e.channels
    && CoreDrops(e.core, f.core, id) && Inv(f.core)
    && f == Drop(e, id, why).(core := f.core, phase := f.phase)
    && (why.ByReap? ==> f.core == e.core && Reapable(e, id))
    && (why.ByEviction? ==> e.active[id].backpressureSince.Some?)
    && forall a | a in f.active :: InPush(f, a) == InPush(e, a) == false
  }

  lemma DropKeepsEntries(e: Engine, f: Engine, id: RequestId, why: Closing)
    requires EngineInv(e) && DropsTo(e, f, id, why)
    ensures AllEntries(f)
  {
    assert EntryOk(e, id);
    forall a | a in f.active
      ensures EntryOk(f, a)
    {
      assert EntryOk(e, a);
      assert e.core.requests[e.active[a].request].id != id;
    }
  }

  lemma DropKeepsChannels(e: Engine, f: Engine, id: RequestId, why: Closing)
    requires EngineInv(e) && DropsTo(e, f, id, why)
    ensures AllChannels(f)
  {
    assert EntryOk(e, id);
    var x := e.active[id];
    assert RequestOk(e.core.requests[x.request], e.core.now);
    forall c | c in f.owner
      ensures ChannelOk(f, c)
    {
      assert ChannelOk(e, c);
      StreamSurvivesCancel(e.channels[c].Stream(), e.core.requests[e.owner[c]], f.core.requests[f.owner[c]]);
    }
  }

  lemma DropKeepsRest(e: Engine, f: Engine, id: RequestId, why: Closing)
    requires EngineInv(e) && DropsTo(e, f, id, why) && Waiting(f) == Waiting(e)
    ensures AllLiveTracked(f.core, f.active) && WaitingOk(f) && f.closedBy.Keys <= f.owner.Keys
  {
    assert EntryOk(e, id);
  }

  lemma DropKeepsInv(e: Engine, f: Engine, id: RequestId, why: Closing)
    requires EngineInv(e) && DropsTo(e, f, id, why) && Waiting(f) == Waiting(e) && PhaseOk(f)
    ensures EngineInv(f)
  {
    DropKeepsEntries(e, f, id, why);
    DropKeepsChannels(e, f, id, why);
    DropKeepsRest(e, f, id, why);
  }

  lemma ReapDropsEntry(e: Engine, id: RequestId)
    requires EngineInv(e) && Enabled(e, ReapNext(id))
    ensures DropsTo(e, Do(e, ReapNext(id)), id, ByReap)
  {
    assert EntryOk(e, id);
    assert Reapable(e, id);
  }

  lemma ReapKeepsInv(e: Engine, id: RequestId)
    requires EngineInv(e) && Enabled(e, ReapNext(id))
    ensures EngineInv(Do(e, ReapNext(id)))
  {
    ReapDropsEntry(e, id);
    DropKeepsInv(e, Do(e, ReapNext(id)), id, ByReap);
  }

  lemma EvictDropsEntry(e: Engine, id: RequestId, at: TimePoint)
    requires EngineInv(e) && Enabled(e, EvictNext(id, at))
    ensures DropsTo(e, Do(e, EvictNext(id, at)), id, ByEviction)
  {
    CancelDrops(e.core, id, at);
    assert Overdue(e, id);
  }

  lemma EvictKeepsInv(e: Engine, id: RequestId, at: TimePoint)
    requires EngineInv(e) && Enabled(e, EvictNext(id, at))
    ensures EngineInv(Do(e, EvictNext(id, at)))
  {
    EvictDropsEntry(e, id, at);
    var f := Do(e, EvictNext(id, at));
    assert forall a | a in f.phase.late :: Overdue(e, a);
    DropKeepsInv(e, f, id, ByEviction);
  }

  /** An id with no entry has no live request, so cancelling it changes no request. */
  lemma CancelUntracked(e: Engine, id: RequestId, at: TimePoint)
    requires EngineInv(e) && id !in e.active && e.core.now <= at
    ensures Cancel(e.core, id, at).requests == e.core.requests && Cancel(e.core, id, at).handles == e.core.handles
    ensures Inv(Cancel(e.core, id, at))
  {
    CancelKeepsInv(e.core, id, at);
    var after := Cancel(e.core, id, at);
    forall i | 0 <= i < |e.core.requests|
      ensures after.requests[i] == e.core.requests[i]
    {
      assert e.core.requests[i].Live() ==> e.core.requests[i].id in e.active;
    }
    assert id !in DecodingIds(e.core.requests);
    assert e.core.handles - {id} == e.core.handles;
  }

  lemma CoreClockKeepsEntries(e: Engine, f: Engine)
    requires AllEntries(e) && AllChannels(e) && f == e.(core := f.core, phase := f.phase)
    requires f.core.requests == e.core.requests && forall id | id in e.active :: InPush(f, id) == InPush(e, id)
    ensures AllEntries(f) && AllChannels(f)
  {
    forall id | id in f.active
      ensures EntryOk(f, id)
    {
      assert EntryOk(e, id);
    }
    forall c | c in f.owner
      ensures ChannelOk(f, c)
    {
      assert ChannelOk(e, c);
    }
  }

  lemma CancelDropsEntry(e: Engine, at: TimePoint)
    requires EngineInv(e) && Enabled(e, CancelNext(at)) && e.phase.ids[0] in e.active
    ensures DropsTo(e, CancelFirst(e, at), e.phase.ids[0], ByCancel)
  {
    assert EntryOk(e, e.phase.ids[0]);
    CancelDrops(e.core, e.phase.ids[0], at);
  }

  lemma CancelNextKeepsInv(e: Engine, at: TimePoint)
    requires EngineInv(e) && Enabled(e, CancelNext(at))
    ensures EngineInv(Do(e, CancelNext(at)))
  {
    var id, f := e.phase.ids[0], CancelFirst(e, at);
    if id in e.active {
      CancelDropsEntry(e, at);
      CancelLeavesNothingReapable(e, f, id, at);
      DropKeepsInv(e, f, id, ByCancel);
    } else {
      CancelUntracked(e, id, at);
      CoreClockKeepsEntries(e, f);
      assert forall a | a in f.active :: Reapable(f, a) == Reapable(e, a);
    }
  }

  lemma CancelLeavesNothingReapable(e: Engine, f: Engine, id: RequestId, at: TimePoint)
    requires EngineInv(e) && Enabled(e, CancelNext(at)) && id == e.phase.ids[0] && id in e.active
             && f == CancelFirst(e, at)
    requires CoreDrops(e.core, f.core, id)
    ensures PhaseOk(f)
  {
    assert EntryOk(e, id);
    forall a | a in f.active
      ensures !Reapable(f, a)
    {
      assert EntryOk(e, a);
      assert !Reapable(e, a);
    }
  }

  // ----- pushing -----

  /** The token pushed next extends the stream correctly. */
  lemma PushExtends(evs: seq<TokenEvent>, r: RequestData)
    requires StreamOk(evs, r) && |evs| < |r.output| && r.emitted == |r.output|
    ensures StreamOk(evs + [EventFor(r, |evs|)], r)
  {
  }

  /** A roomy channel always has room for a token that has not been delivered yet. */
  lemma RoomyNeverRefuses(e: Engine, id: RequestId)
    requires EngineInv(e) && id in e.active
    ensures EntryOk(e, id)
    ensures var x := e.active[id]; var r := e.core.requests[x.request];
            Roomy(e.channels[x.channel], r) && x.lastSeen < |r.output| ==> e.channels[x.channel].CanPush()
  {
    assert EntryOk(e, id);
    assert RequestOk(e.core.requests[e.active[id].request], e.core.now);
  }

  /** Replacing one entry and its channel, the rest staying as it was. */
  lemma EntryChangeKeepsEntries(e: Engine, f: Engine, id: RequestId)
    requires EngineInv(e) && id in e.active && f.core == e.core && f.owner == e.owner && f.wall == e.wall
    requires f.active.Keys == e.active.Keys && (forall a | a in e.active && a != id :: f.active[a] == e.active[a])
    requires f.channels.Keys == e.channels.Keys
    requires forall c | c in e.channels && c != e.active[id].channel :: f.channels[c] == e.channels[c]
    requires forall a | a in e.active && a != id :: InPush(f, a) == InPush(e, a)
    requires EntryOk(f, id)
    ensures AllEntries(f)
  {
    assert EntryOk(e, id);
    forall a | a in f.active
      ensures EntryOk(f, a)
    {
      assert EntryOk(e, a);
    }
  }

  lemma EntryChangeKeepsChannels(e: Engine, f: Engine, id: RequestId)
    requires EngineInv(e) && id in e.active && f.core == e.core && f.owner == e.owner && f.closedBy == e.closedBy
    requires f.active.Keys == e.active.Keys && (forall a | a in e.active :: f.active[a].channel == e.active[a].channel)
    requires f.channels.Keys == e.channels.Keys
    requires forall c | c in e.channels && c != e.active[id].channel :: f.channels[c] == e.channels[c]
    requires e.active[id].channel in f.owner && ChannelOk(f, e.active[id].channel)
    ensures AllChannels(f)
  {
    forall c | c in f.owner
      ensures ChannelOk(f, c)
    {
      assert ChannelOk(e, c);
    }
  }

  lemma OutputCounted(core: Core, i: nat)
    requires Inv(core) && i < |core.requests|
    ensures core.requests[i].emitted == |core.requests[i].output| <= core.requests[i].maxTokens
  {
    assert RequestOk(core.requests[i], core.now);
  }

  /** The pushed entry and its channel are in order after each of the three outcomes. */
  lemma PushedEntry(e: Engine, id: RequestId)
    requires EngineInv(e) && Enabled(e, PushNext(id))
    ensures id in PushOne(e, id).active && EntryOk(PushOne(e, id), id)
  {
    RoomyNeverRefuses(e, id);
    var x := e.active[id];
    OutputCounted(e.core, x.request);
    var r, ch := e.core.requests[x.request], e.channels[x.channel];
    if x.lastSeen < r.emitted && ch.CanPush() {
      PushExtendsStream(ch, EventFor(r, x.lastSeen));
    }
  }

  lemma PushedChannel(e: Engine, id: RequestId)
    requires EngineInv(e) && Enabled(e, PushNext(id))
    ensures e.active[id].channel in e.owner && ChannelOk(PushOne(e, id), e.active[id].channel)
  {
    assert EntryOk(e, id);
    var x := e.active[id];
    assert ChannelOk(e, x.channel);
    OutputCounted(e.core, x.request);
    var r, ch := e.core.requests[x.request], e.channels[x.channel];
    if x.lastSeen < r.emitted && ch.CanPush() {
      PushExtendsStream(ch, EventFor(r, x.lastSeen));
      PushExtends(ch.Stream(), r);
    }
  }

  lemma PushKeepsWaiting(e: Engine, id: RequestId)
    requires EngineInv(e) && Enabled(e, PushNext(id))
    ensures WaitingOk(PushOne(e, id))
  {
    assert EntryOk(e, id);
    assert Waiting(PushOne(e, id)) == Waiting(e);
  }

  lemma PushKeepsEntries(e: Engine, id: RequestId)
    requires EngineInv(e) && Enabled(e, PushNext(id))
    ensures AllEntries(PushOne(e, id))
  {
    PushedEntry(e, id);
    EntryChangeKeepsEntries(e, PushOne(e, id), id);
  }

  lemma PushKeepsChannels(e: Engine, id: RequestId)
    requires EngineInv(e) && Enabled(e, PushNext(id))
    ensures AllChannels(PushOne(e, id))
  {
    PushedChannel(e, id);
    EntryChangeKeepsChannels(e, PushOne(e, id), id);
  }

  lemma PushKeepsInv(e: Engine, id: RequestId)
    requires EngineInv(e) && Enabled(e, PushNext(id))
    ensures EngineInv(Do(e, PushNext(id)))
  {
    PushKeepsEntries(e, id);
    PushKeepsChannels(e, id);
    PushKeepsWaiting(e, id);
  }

  // ----- all steps, all runs -----

  lemma StepKeepsInv(e: Engine, s: Step)
    requires EngineInv(e) && Enabled(e, s)
    ensures EngineInv(Do(e, s))
  {
    match s
    case Admit(at) => AdmitKeepsInv(e, at);
    case CancelNext(at) => CancelNextKeepsInv(e, at);
    case TickAll(env) => TickAllKeepsInv(e, env);
    case PushNext(id) => PushKeepsInv(e, id);
    case EvictNext(id, at) => EvictKeepsInv(e, id, at);
    case ReapNext(id) => ReapKeepsInv(e, id);
    case _ => PassiveKeepsInv(e, s);
  }

  ghost predicate IsTrace(e: Engine, steps: seq<Step>)
    decreases |steps|
  {
    steps == [] || (Enabled(e, steps[0]) && IsTrace(Do(e, steps[0]), steps[1..]))
  }

  ghost function Trace(e: Engine, steps: seq<Step>): Engine
    requires IsTrace(e, steps)
    decreases |steps|
  {
    if steps == [] then e else Trace(Do(e, steps[0]), steps[1..])
  }

  function Start(now: TimePoint, wall: TimePoint, timeout: nat): Engine {
    Engine(Core([], map[], now), [], [], map[], map[], map[], map[], Top, wall, timeout)
  }

  lemma StartIsOk(now: TimePoint, wall: TimePoint, timeout: nat)
    ensures EngineInv(Start(now, wall, timeout))
  {
  }

  lemma {:induction false} TraceKeepsInv(e: Engine, steps: seq<Step>)
    requires EngineInv(e) && IsTrace(e, steps)
    ensures EngineInv(Trace(e, steps))
    decreases |steps|
  {
    if steps != [] {
      StepKeepsInv(e, steps[0]);
      TraceKeepsInv(Do(e, steps[0]), steps[1..]);
    }
  }
}
